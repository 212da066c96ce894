/** Names, tables and state of the oFono bridge (src/ofono/provider_ofono.{hpp,cpp}). */
module OfonoTypes {
  import opened Values
  import opened Properties

  /** Registration of the modem as the bridge tracks it (`Bridge::Status`). */
  datatype CellStatus = NoSim | Offline | Registered | Searching | Denied | Unknown | Roaming

  /** Which of the two name setters `set_name_` points to. */
  datatype Naming = Home | Roam

  /** Published properties of the "Cellular" namespace. */
  datatype Prop =
    | SignalStrength | DataTechnology | RegistrationStatus | Status | Technology | SignalBars
    | CellName | NetworkName | ExtendedNetworkName | CurrentMCC | CurrentMNC | HomeMCC | HomeMNC
    | StkIdleModeText | MMSContext | DataRoamingAllowed

  /** Names of D-Bus properties: those the bridge looks at, and all others. */
  datatype Key =
    | Name | Strength | Status | CellId | MobileCountryCode | MobileNetworkCode | Technology
    | Present | IdleModeText | RoamingAllowed | Type | MessageCenter | Interfaces | Powered
    | Other(id: string)

  type Props = seq<(Key, Variant)>

  ghost predicate DistinctKeys(props: Props) {
    forall i, j | 0 <= i < j < |props| :: props[i].0 != props[j].0
  }

  /** A QVariantMap, listed in its iteration order. No result depends on the order. */
  type PropMap = props: Props | DistinctKeys(props) witness []

  type Objects = seq<(string, PropMap)>

  /** The value under a key; an absent key reads as the invalid variant. */
  function Lookup(props: Props, k: Key): Variant {
    if props == [] then NULL_VARIANT
    else if props[0].0 == k then props[0].1
    else Lookup(props[1..], k)
  }

  /** What the outside world answers. The n-th D-Bus query of a run is answered by
      `props(n)` or `objects(n)`, where None is an error reply, so replies may differ on
      every call. `registered` is the set that `status_registered_` selects. */
  datatype Env = Env(
    props: nat -> Option<PropMap>,
    objects: nat -> Option<Objects>,
    registered: set<CellStatus>)

  /** The value of an enumerator. */
  function Ordinal(st: CellStatus): nat {
    match st
    case NoSim => 0
    case Offline => 1
    case Registered => 2
    case Searching => 3
    case Denied => 4
    case Unknown => 5
    case Roaming => 6
  }

  const REGISTERED_BITS := "0010001"

  /** The set `status_registered_` as constructed from its text: the rightmost character of
      the text is bit 0. */
  const AS_CONSTRUCTED: set<CellStatus> :=
    set st: CellStatus | REGISTERED_BITS[6 - Ordinal(st)] == '1'

  /** It selects NoSim and Denied. */
  lemma ConstructedSelects()
    ensures AS_CONSTRUCTED == {CellStatus.NoSim, Denied}
  {
    forall st: CellStatus ensures st in AS_CONSTRUCTED <==> st == CellStatus.NoSim || st == Denied {
      match st
      case NoSim =>
      case Offline =>
      case Registered =>
      case Searching =>
      case Denied =>
      case Unknown =>
      case Roaming =>
    }
  }

  /** The set the surrounding code evidently wants. */
  const AS_INTENDED: set<CellStatus> := {Registered, Roaming}

  /** Offline counts as registered under neither reading. */
  predicate Sensible(e: Env) {
    Offline !in e.registered
  }

  /** A proxy object: absent, present without its change signal, or with it. */
  datatype Handle = Absent | Silent | Wired

  type Context = map<Key, Variant>

  datatype State = State(
    manager: Handle, modem: bool, modemPath: string,
    sim: Handle, network: bool, oper: bool, stk: Handle, cm: bool,
    contexts: map<string, Context>, mms: string,
    ifaces: set<Interface>,
    hasSim: bool, status: CellStatus, naming: Naming,
    netName: string, operName: string,
    pub: map<Prop, string>,
    calls: nat)

  function MapStatus(name: string): CellStatus {
    if name == "unregistered" then Offline
    else if name == "registered" then Registered
    else if name == "searching" then Searching
    else if name == "denied" then Denied
    else if name == "unknown" then Unknown
    else if name == "roaming" then Roaming
    else Offline
  }

  /** The contextkit text of a status (`ckit_status_`). */
  function Ckit(s: CellStatus): string {
    match s
    case NoSim => "no-sim"
    case Offline => "offline"
    case Registered => "home"
    case Searching => "offline"
    case Denied => "forbidden"
    case Unknown => "offline"
    case Roaming => "roam"
  }

  function TechRow(tech: string): Option<(string, string)> {
    if tech == "gsm" then Some(("gsm", "gprs"))
    else if tech == "edge" then Some(("gsm", "egprs"))
    else if tech == "hspa" then Some(("umts", "hspa"))
    else if tech == "umts" then Some(("umts", "umts"))
    else if tech == "lte" then Some(("lte", "lte"))
    else None
  }

  /** Bars for a signal strength; the addition is on 32-bit unsigned integers. */
  function Bars(strength: UInt32): nat {
    (strength + 19) % 0x1_0000_0000 / 20
  }

  function DefaultOf(p: Prop): string {
    match p
    case SignalStrength => "0"
    case DataTechnology => "unknown"
    case RegistrationStatus => "offline"
    case Status => "unregistered"
    case Technology => "unknown"
    case SignalBars => "0"
    case CellName => ""
    case NetworkName => ""
    case ExtendedNetworkName => ""
    case CurrentMCC => "0"
    case CurrentMNC => "0"
    case HomeMCC => "0"
    case HomeMNC => "0"
    case StkIdleModeText => ""
    case MMSContext => ""
    case DataRoamingAllowed => "0"
  }

  /** `defaults_`, in the order the namespace lists it. */
  const DEFAULT_ORDER: seq<Prop> := [
    Prop.SignalStrength, DataTechnology, RegistrationStatus, Prop.Status, Prop.Technology,
    SignalBars, CellName, NetworkName, ExtendedNetworkName, CurrentMCC, CurrentMNC,
    HomeMCC, HomeMNC, StkIdleModeText, MMSContext, DataRoamingAllowed]

  function DefaultList(order: seq<Prop>): (r: Defaults<Prop, string>)
    ensures |r| == |order|
    ensures forall i | 0 <= i < |r| :: r[i] == (order[i], Some(DefaultOf(order[i])))
  {
    if order == [] then [] else [(order[0], Some(DefaultOf(order[0])))] + DefaultList(order[1..])
  }

  /** Every property gets its default value. */
  function DefaultTable(pub: map<Prop, string>): map<Prop, string> {
    map p | p in pub :: DefaultOf(p)
  }

  /** Writing the default list is what `DefaultTable` says. */
  lemma DefaultsReachEverything(pub: map<Prop, string>)
    ensures PutDefaults(pub, DefaultList(DEFAULT_ORDER)) == DefaultTable(pub)
  {
    forall p: Prop ensures p in DEFAULT_ORDER {
      Listed(p);
    }
    DefaultsCover(pub, DEFAULT_ORDER);
  }

  lemma DefaultsCover(pub: map<Prop, string>, order: seq<Prop>)
    requires forall p: Prop :: p in order
    ensures PutDefaults(pub, DefaultList(order)) == DefaultTable(pub)
  {
    LastDefaultWins(pub, DefaultList(order));
    forall p: Prop ensures LastFor(DefaultList(order), p) == Some(DefaultOf(p)) {
      LastOfDefaults(order, p);
    }
  }

  lemma Listed(p: Prop)
    ensures p in DEFAULT_ORDER
  {
    match p
    case SignalStrength => assert DEFAULT_ORDER[0] == p;
    case DataTechnology => assert DEFAULT_ORDER[1] == p;
    case RegistrationStatus => assert DEFAULT_ORDER[2] == p;
    case Status => assert DEFAULT_ORDER[3] == p;
    case Technology => assert DEFAULT_ORDER[4] == p;
    case SignalBars => assert DEFAULT_ORDER[5] == p;
    case CellName => assert DEFAULT_ORDER[6] == p;
    case NetworkName => assert DEFAULT_ORDER[7] == p;
    case ExtendedNetworkName => assert DEFAULT_ORDER[8] == p;
    case CurrentMCC => assert DEFAULT_ORDER[9] == p;
    case CurrentMNC => assert DEFAULT_ORDER[10] == p;
    case HomeMCC => assert DEFAULT_ORDER[11] == p;
    case HomeMNC => assert DEFAULT_ORDER[12] == p;
    case StkIdleModeText => assert DEFAULT_ORDER[13] == p;
    case MMSContext => assert DEFAULT_ORDER[14] == p;
    case DataRoamingAllowed => assert DEFAULT_ORDER[15] == p;
  }

  lemma {:induction false} LastOfDefaults(order: seq<Prop>, p: Prop)
    ensures LastFor(DefaultList(order), p) == if p in order then Some(DefaultOf(p)) else None
  {
    if order != [] {
      var d := DefaultList(order);
      assert d[1..] == DefaultList(order[1..]);
      LastOfDefaults(order[1..], p);
      assert d[0] == (order[0], Some(DefaultOf(order[0])));
      assert p in order <==> p == order[0] || p in order[1..];
    }
  }

  // ---- Modem interfaces ----

  datatype Interface =
    | AssistedSatelliteNavigation | AudioSettings | CallBarring | CallForwarding | CallMeter
    | CallSettings | CallVolume | CellBroadcast | ConnectionManager | Handsfree
    | LocationReporting | MessageManager | MessageWaiting | NetworkRegistration | Phonebook
    | PushNotification | RadioSettings | SimManager | SmartMessaging | SimToolkit
    | SupplementaryServices | TextTelephony | VoiceCallManager

  const STD_PREFIX := "org.ofono."

  function InterfaceName(i: Interface): string {
    match i
    case AssistedSatelliteNavigation => "AssistedSatelliteNavigation"
    case AudioSettings => "AudioSettings"
    case CallBarring => "CallBarring"
    case CallForwarding => "CallForwarding"
    case CallMeter => "CallMeter"
    case CallSettings => "CallSettings"
    case CallVolume => "CallVolume"
    case CellBroadcast => "CellBroadcast"
    case ConnectionManager => "ConnectionManager"
    case Handsfree => "Handsfree"
    case LocationReporting => "LocationReporting"
    case MessageManager => "MessageManager"
    case MessageWaiting => "MessageWaiting"
    case NetworkRegistration => "NetworkRegistration"
    case Phonebook => "Phonebook"
    case PushNotification => "PushNotification"
    case RadioSettings => "RadioSettings"
    case SimManager => "SimManager"
    case SmartMessaging => "SmartMessaging"
    case SimToolkit => "SimToolkit"
    case SupplementaryServices => "SupplementaryServices"
    case TextTelephony => "TextTelephony"
    case VoiceCallManager => "VoiceCallManager"
  }

  /** `interface_ids.find`: the interface with a given short name. The table is split by
      initial letter to keep each part small for the solver. */
  function InterfaceId(name: string): Option<Interface> {
    if name == "" then None
    else if name[0] == 'A' then IdA(name)
    else if name[0] == 'C' then IdC(name)
    else if name[0] == 'H' then (if name == "Handsfree" then Some(Handsfree) else None)
    else if name[0] == 'L' then (if name == "LocationReporting" then Some(LocationReporting) else None)
    else if name[0] == 'M' then IdM(name)
    else if name[0] == 'N' then (if name == "NetworkRegistration" then Some(NetworkRegistration) else None)
    else if name[0] == 'P' then IdP(name)
    else if name[0] == 'R' then (if name == "RadioSettings" then Some(RadioSettings) else None)
    else if name[0] == 'S' then IdS(name)
    else if name[0] == 'T' then (if name == "TextTelephony" then Some(TextTelephony) else None)
    else if name[0] == 'V' then (if name == "VoiceCallManager" then Some(VoiceCallManager) else None)
    else None
  }

  function IdA(name: string): (r: Option<Interface>)
    ensures r.Some? ==> name == InterfaceName(r.value)
  {
    if name == "AssistedSatelliteNavigation" then Some(AssistedSatelliteNavigation)
    else if name == "AudioSettings" then Some(AudioSettings)
    else None
  }

  function IdC(name: string): (r: Option<Interface>)
    ensures r.Some? ==> name == InterfaceName(r.value)
  {
    if name == "CallBarring" then Some(CallBarring)
    else if name == "CallForwarding" then Some(CallForwarding)
    else if name == "CallMeter" then Some(CallMeter)
    else if name == "CallSettings" then Some(CallSettings)
    else if name == "CallVolume" then Some(CallVolume)
    else if name == "CellBroadcast" then Some(CellBroadcast)
    else if name == "ConnectionManager" then Some(ConnectionManager)
    else None
  }

  function IdM(name: string): (r: Option<Interface>)
    ensures r.Some? ==> name == InterfaceName(r.value)
  {
    if name == "MessageManager" then Some(MessageManager)
    else if name == "MessageWaiting" then Some(MessageWaiting)
    else None
  }

  function IdP(name: string): (r: Option<Interface>)
    ensures r.Some? ==> name == InterfaceName(r.value)
  {
    if name == "Phonebook" then Some(Phonebook)
    else if name == "PushNotification" then Some(PushNotification)
    else None
  }

  function IdS(name: string): (r: Option<Interface>)
    ensures r.Some? ==> name == InterfaceName(r.value)
  {
    if name == "SimManager" then Some(SimManager)
    else if name == "SmartMessaging" then Some(SmartMessaging)
    else if name == "SimToolkit" then Some(SimToolkit)
    else if name == "SupplementaryServices" then Some(SupplementaryServices)
    else None
  }

  /** Looking a name up inverts naming an interface. */
  lemma InterfaceIdInverts(name: string, i: Interface)
    ensures InterfaceId(name) == Some(i) <==> name == InterfaceName(i)
  {
    if name == InterfaceName(i) {
      NameIsFound(i);
    }
  }

  lemma NameIsFound(i: Interface)
    ensures InterfaceId(InterfaceName(i)) == Some(i)
  {
    match i
    case AssistedSatelliteNavigation =>
    case AudioSettings =>
    case CallBarring =>
    case CallForwarding =>
    case CallMeter =>
    case CallSettings =>
    case CallVolume =>
    case CellBroadcast =>
    case ConnectionManager =>
    case Handsfree =>
    case LocationReporting =>
    case MessageManager =>
    case MessageWaiting =>
    case NetworkRegistration =>
    case Phonebook =>
    case PushNotification =>
    case RadioSettings =>
    case SimManager =>
    case SmartMessaging =>
    case SimToolkit =>
    case SupplementaryServices =>
    case TextTelephony =>
    case VoiceCallManager =>
  }

  /** The interfaces whose full D-Bus name occurs in a list. */
  ghost function GetInterfaces(list: seq<string>): set<Interface> {
    set i: Interface | STD_PREFIX + InterfaceName(i) in list
  }

  datatype Edge = UnchangedSet | UnchangedReset | Set | Reset

  /** How one interface changes between two sets (`get_state_change`). */
  function EdgeOf(before: set<Interface>, now: set<Interface>, i: Interface): Edge {
    if (i in before) == (i in now) then (if i in now then UnchangedSet else UnchangedReset)
    else if i in now then Set else Reset
  }

  // ---- Message contexts ----

  predicate IsMms(c: Context) {
    && Type in c && c[Type].toString == "mms"
    && MessageCenter in c && c[MessageCenter].toString != ""
  }

  ghost function MmsPaths(contexts: map<string, Context>): set<string> {
    set p | p in contexts && IsMms(contexts[p])
  }

  /** The first path, in map order, whose context is usable for messages, or "". */
  ghost function FirstMms(contexts: map<string, Context>): string {
    var paths := MmsPaths(contexts);
    if paths == {} then ""
    else
      LeastExists(paths);
      var p :| IsLeast(p, paths);
      p
  }

  /** `FirstMms` is that path: nothing usable comes before it. */
  lemma FirstMmsMeaning(contexts: map<string, Context>, p: string)
    ensures MmsPaths(contexts) == {} ==> FirstMms(contexts) == ""
    ensures IsLeast(p, MmsPaths(contexts)) <==>
      MmsPaths(contexts) != {} && FirstMms(contexts) == p
  {
    if MmsPaths(contexts) != {} {
      LeastExists(MmsPaths(contexts));
      var q := FirstMms(contexts);
      assert IsLeast(q, MmsPaths(contexts));
      LexTotal(p, q);
    }
  }
}
