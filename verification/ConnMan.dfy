/** The ConnMan bridge: which service is selected and what is published of it
    (src/connman/provider_connman.cpp). */
module ConnMan {
  import opened Values
  import opened Properties

  datatype Prop =
    | NetworkType | NetworkState | NetworkName | TrafficIn | TrafficOut | SignalStrength | Tethering

  /** A service's properties; one that is missing reads as the invalid variant. */
  datatype Service = Service(path: string, name: Variant, strength: Variant, kind: Variant, state: Variant)

  /** D-Bus object paths are never empty. */
  predicate ValidService(v: Service) {
    v.path != ""
  }

  type Services = vs: seq<Service> | forall i | 0 <= i < |vs| :: ValidService(vs[i]) witness []

  datatype State = State(current: string, service: Option<string>, pub: map<Prop, string>)

  /** `state_map_`; a state it does not list counts as offline. */
  predicate IsOnline(state: string) {
    state == "online" || state == "ready"
  }

  function StateText(state: string): string {
    if IsOnline(state) then "connected" else "disconnected"
  }

  function TypeText(kind: string): string {
    if kind == "wifi" then "WLAN"
    else if kind == "gprs" || kind == "cellular" || kind == "edge" || kind == "umts" then "GPRS"
    else if kind == "ethernet" then "ethernet"
    else ""
  }

  const DEFAULTS: Defaults<Prop, string> := [
    (NetworkType, Some("")), (NetworkState, Some("disconnected")), (NetworkName, Some("")),
    (SignalStrength, Some("0")), (Tethering, Some(""))]

  function Reset(s: State): State {
    s.(pub := PutDefaults(s.pub, DEFAULTS))
  }

  function Publish(s: State, p: Prop, text: string): State {
    s.(pub := Put(s.pub, p, text))
  }

  /** Publishing the details of a service and monitoring it. */
  function Select(s: State, v: Service): State {
    var s1 := Publish(s.(current := v.path), NetworkName, v.name.encoded);
    var s2 := Publish(s1, SignalStrength, Dec(v.strength.toUInt));
    var s3 := Publish(s2, NetworkType, TypeText(v.kind.toString));
    var s4 := Publish(s3, NetworkState, StateText(v.state.toString));
    s4.(service := Some(v.path))
  }

  function SelectFirst(s: State, vs: seq<Service>): State
    decreases |vs|
  {
    if vs == [] then s
    else if IsOnline(vs[0].state.toString) then Select(s, vs[0])
    else SelectFirst(s, vs[1..])
  }

  /** `process_services`, given the manager's answer. */
  function ProcessServices(s: State, answer: Option<Services>): State {
    var s1 := s.(current := "", service := None);
    match answer
    case None => s1
    case Some(vs) => if vs == [] then Reset(s1) else SelectFirst(s1, vs)
  }

  // ---- Events ----

  datatype Change = Name(v: Variant) | Strength(v: Variant) | Kind(v: Variant) | StateOf(v: Variant) | OtherChange

  datatype Event =
    | ManagerState(state: string, answer: Option<Services>)
    | ManagerLost
    | ServicesAdded(answer: Option<Services>)
    | ServicesRemoved(paths: set<string>, answer: Option<Services>)
    | ServiceChanged(change: Change, answer: Option<Services>)

  /** The monitored service's own signal. */
  function OnChange(s: State, c: Change, answer: Option<Services>): State {
    match c
    case Name(v) => Publish(s, NetworkName, v.encoded)
    case Strength(v) => Publish(s, SignalStrength, Dec(v.toUInt))
    case Kind(v) => Publish(s, NetworkType, TypeText(v.toString))
    case StateOf(v) => ProcessServices(Publish(s, NetworkState, StateText(v.toString)), answer)
    case OtherChange => s
  }

  function Step(s: State, ev: Event): State {
    match ev
    case ManagerState(state, answer) => if IsOnline(state) then ProcessServices(s, answer) else Reset(s)
    case ManagerLost => Reset(s)
    case ServicesAdded(answer) => ProcessServices(s, answer)
    case ServicesRemoved(paths, answer) => if s.current in paths then ProcessServices(s, answer) else s
    case ServiceChanged(c, answer) => if s.service.Some? then OnChange(s, c, answer) else s
  }

  function Run(s: State, evs: seq<Event>): State
    decreases |evs|
  {
    if evs == [] then s else Run(Step(s, evs[0]), evs[1..])
  }

  ghost predicate Full(pub: map<Prop, string>) {
    forall p: Prop :: p in pub
  }

  ghost predicate IsInitial(s: State) {
    && s.current == "" && s.service == None
    && s.pub == map[NetworkType := "", NetworkState := "disconnected", NetworkName := "",
                    TrafficIn := "0", TrafficOut := "0", SignalStrength := "0", Tethering := ""]
  }

  // ---- Selection ----

  /** The published details are those of `v`. */
  ghost predicate Shows(pub: map<Prop, string>, v: Service) {
    && Full(pub)
    && pub[NetworkName] == v.name.encoded
    && pub[SignalStrength] == Dec(v.strength.toUInt)
    && pub[NetworkType] == TypeText(v.kind.toString)
    && pub[NetworkState] == "connected"
  }

  /** The i-th service is the first online one. */
  predicate IsFirstOnline(vs: seq<Service>, i: nat) {
    && i < |vs| && IsOnline(vs[i].state.toString)
    && forall j | 0 <= j < i :: !IsOnline(vs[j].state.toString)
  }

  lemma {:induction false} SelectsFirstOnline(s: State, vs: seq<Service>, i: nat)
    requires IsFirstOnline(vs, i)
    ensures SelectFirst(s, vs) == Select(s, vs[i])
    decreases |vs|
  {
    if i > 0 {
      assert forall j | 0 <= j < i - 1 :: vs[1..][j] == vs[j + 1];
      SelectsFirstOnline(s, vs[1..], i - 1);
    }
  }

  lemma {:induction false} SelectsNone(s: State, vs: seq<Service>)
    requires forall j | 0 <= j < |vs| :: !IsOnline(vs[j].state.toString)
    ensures SelectFirst(s, vs) == s
    decreases |vs|
  {
    if vs != [] {
      SelectsNone(s, vs[1..]);
    }
  }

  /** After a successful answer the first online service is selected, monitored and
      published, whatever offline services come before it. */
  lemma FirstOnlineIsSelected(s: State, vs: Services, i: nat)
    requires Full(s.pub) && IsFirstOnline(vs, i)
    ensures var r := ProcessServices(s, Some(vs));
      r.current == vs[i].path && r.service == Some(vs[i].path) && Shows(r.pub, vs[i])
  {
    SelectsFirstOnline(s.(current := "", service := None), vs, i);
  }

  ghost predicate NoneOnline(answer: Option<Services>) {
    answer.Some? ==> forall j | 0 <= j < |answer.value| :: !IsOnline(answer.value[j].state.toString)
  }

  /** Without an online service, or without an answer, none is selected. What was published
      before is blanked only if the list is empty: after an error or a list of offline
      services it stays. */
  lemma NoneOnlineIsSelected(s: State, answer: Option<Services>)
    requires Full(s.pub) && NoneOnline(answer)
    ensures var r := ProcessServices(s, answer);
      && r.current == "" && r.service == None && Full(r.pub)
      && (answer != Some([]) ==> r.pub == s.pub)
      && (answer == Some([]) ==>
            && r.pub[NetworkState] == "disconnected" && r.pub[NetworkName] == ""
            && r.pub[NetworkType] == "" && r.pub[SignalStrength] == "0"
            && r.pub[TrafficIn] == s.pub[TrafficIn])
  {
    if answer.Some? {
      SelectsNone(s.(current := "", service := None), answer.value);
    }
    ResetWrites(s);
  }

  /** For every answer: a service is current afterwards iff the answer has an online one. */
  lemma SelectedIff(s: State, answer: Option<Services>)
    requires Full(s.pub)
    ensures ProcessServices(s, answer).current == "" <==> NoneOnline(answer)
  {
    if NoneOnline(answer) {
      NoneOnlineIsSelected(s, answer);
    } else if forall i: nat :: !IsFirstOnline(answer.value, i) {
      NoFirstMeansNone(answer.value, |answer.value|);
      assert false;
    } else {
      var i: nat :| IsFirstOnline(answer.value, i);
      FirstOnlineIsSelected(s, answer.value, i);
    }
  }

  lemma ResetWrites(s: State)
    requires Full(s.pub)
    ensures var r := Reset(s);
      && Full(r.pub) && r == s.(pub := r.pub)
      && r.pub[NetworkState] == "disconnected" && r.pub[NetworkName] == ""
      && r.pub[NetworkType] == "" && r.pub[SignalStrength] == "0" && r.pub[Tethering] == ""
      && r.pub[TrafficIn] == s.pub[TrafficIn] && r.pub[TrafficOut] == s.pub[TrafficOut]
  {
    LastDefaultWins(s.pub, DEFAULTS);
    forall p: Prop ensures LastFor(DEFAULTS, p) == DefaultFor(p) {
      LastOfDefaults(p);
    }
  }

  function DefaultFor(p: Prop): Option<string> {
    match p
    case NetworkType => Some("")
    case NetworkState => Some("disconnected")
    case NetworkName => Some("")
    case SignalStrength => Some("0")
    case Tethering => Some("")
    case _ => None
  }

  lemma LastOfDefaults(p: Prop)
    ensures LastFor(DEFAULTS, p) == DefaultFor(p)
  {
    var d := DEFAULTS;
    var d1 := d[1..];
    var d2 := d1[1..];
    var d3 := d2[1..];
    var d4 := d3[1..];
    assert d1[0] == d[1] && d2[0] == d[2] && d3[0] == d[3] && d4[0] == d[4] && d4[1..] == [];
    assert LastFor(d4, p) == if p == Tethering then Some("") else None;
    assert LastFor(d3, p) == if p == SignalStrength then Some("0") else LastFor(d4, p);
    assert LastFor(d2, p) == if p == NetworkName then Some("") else LastFor(d3, p);
    assert LastFor(d1, p) == if p == NetworkState then Some("disconnected") else LastFor(d2, p);
  }

  // ---- Runs ----

  /** A service is monitored iff one is current, and it is that one. */
  ghost predicate Paired(s: State) {
    Full(s.pub) && s.service == if s.current == "" then None else Some(s.current)
  }

  /** While a service is monitored the network is published as connected. */
  ghost predicate ConnectedWhileServed(s: State) {
    Paired(s) && (s.service.Some? ==> s.pub[NetworkState] == "connected")
  }

  /** The event does not blank the table under a monitored service. */
  predicate Spares(s: State, ev: Event) {
    match ev
    case ManagerState(state, _) => IsOnline(state) || s.service.None?
    case ManagerLost => s.service.None?
    case _ => true
  }

  lemma ProcessKeeps(s: State, answer: Option<Services>)
    requires Full(s.pub)
    ensures ConnectedWhileServed(ProcessServices(s, answer))
  {
    match answer
    case None =>
    case Some(vs) =>
      if i: nat :| IsFirstOnline(vs, i) {
        FirstOnlineIsSelected(s, vs, i);
      } else {
        NoFirstMeansNone(vs, |vs|);
        NoneOnlineIsSelected(s, answer);
      }
  }

  lemma {:induction false} NoFirstMeansNone(vs: seq<Service>, n: nat)
    requires n <= |vs| && forall i: nat :: !IsFirstOnline(vs, i)
    ensures forall j | 0 <= j < n :: !IsOnline(vs[j].state.toString)
    decreases n
  {
    if n > 0 {
      NoFirstMeansNone(vs, n - 1);
      assert !IsFirstOnline(vs, n - 1);
    }
  }

  /** Every event keeps the pairing; it keeps the connected state exactly if it does not
      blank the table under a monitored service. */
  lemma StepKeepsIff(s: State, ev: Event)
    requires ConnectedWhileServed(s)
    ensures Paired(Step(s, ev))
    ensures ConnectedWhileServed(Step(s, ev)) <==> Spares(s, ev)
  {
    ResetWrites(s);
    match ev
    case ManagerState(_, answer) => ProcessKeeps(s, answer);
    case ManagerLost =>
    case ServicesAdded(answer) => ProcessKeeps(s, answer);
    case ServicesRemoved(_, answer) => ProcessKeeps(s, answer);
    case ServiceChanged(c, answer) =>
      if c.StateOf? {
        ProcessKeeps(Publish(s, NetworkState, StateText(c.v.toString)), answer);
      }
  }

  lemma StepKeepsPairing(s: State, ev: Event)
    requires Paired(s)
    ensures Paired(Step(s, ev))
  {
    ResetWrites(s);
    match ev
    case ManagerState(_, answer) => ProcessKeeps(s, answer);
    case ManagerLost =>
    case ServicesAdded(answer) => ProcessKeeps(s, answer);
    case ServicesRemoved(_, answer) => ProcessKeeps(s, answer);
    case ServiceChanged(c, answer) =>
      if c.StateOf? {
        ProcessKeeps(Publish(s, NetworkState, StateText(c.v.toString)), answer);
      }
  }

  lemma {:induction false} RunKeepsPairing(s: State, evs: seq<Event>)
    requires Paired(s)
    ensures Paired(Run(s, evs))
    decreases |evs|
  {
    if evs != [] {
      StepKeepsPairing(s, evs[0]);
      RunKeepsPairing(Step(s, evs[0]), evs[1..]);
    }
  }

  lemma InitialIsServed(s: State)
    requires IsInitial(s)
    ensures ConnectedWhileServed(s)
  {
    forall p: Prop ensures p in s.pub {
      match p
      case NetworkType =>
      case NetworkState =>
      case NetworkName =>
      case TrafficIn =>
      case TrafficOut =>
      case SignalStrength =>
      case Tethering =>
    }
  }

  /** At every event boundary of every run a service is monitored iff one is current. */
  lemma RunsArePaired(s: State, evs: seq<Event>)
    requires IsInitial(s)
    ensures var r := Run(s, evs);
      r.service == if r.current == "" then None else Some(r.current)
  {
    InitialIsServed(s);
    RunKeepsPairing(s, evs);
  }

  predicate SparesAll(s: State, evs: seq<Event>)
    decreases |evs|
  {
    evs == [] || (Spares(s, evs[0]) && SparesAll(Step(s, evs[0]), evs[1..]))
  }

  lemma {:induction false} RunsStayConnected(s: State, evs: seq<Event>)
    requires ConnectedWhileServed(s) && SparesAll(s, evs)
    ensures ConnectedWhileServed(Run(s, evs))
    decreases |evs|
  {
    if evs != [] {
      StepKeepsIff(s, evs[0]);
      RunsStayConnected(Step(s, evs[0]), evs[1..]);
    }
  }

  // ---- Events, one by one ----

  /** The published texts for the types and states of services. */
  lemma ServiceTexts(kind: string, state: string)
    ensures TypeText(kind) == "WLAN" <==> kind == "wifi"
    ensures TypeText(kind) == "GPRS" <==> kind in {"gprs", "cellular", "edge", "umts"}
    ensures TypeText(kind) == "ethernet" <==> kind == "ethernet"
    ensures TypeText(kind) in {"WLAN", "GPRS", "ethernet", ""}
    ensures StateText(state) == "connected" <==> state == "online" || state == "ready"
    ensures StateText(state) in {"connected", "disconnected"}
  {
  }

  /** The events after which the services are asked for. */
  predicate Asks(s: State, ev: Event) {
    match ev
    case ManagerState(state, _) => state == "online" || state == "ready"
    case ManagerLost => false
    case ServicesAdded(_) => true
    case ServicesRemoved(paths, _) => s.current in paths
    case ServiceChanged(c, _) => s.service.Some? && c.StateOf?
  }

  /** Asking selects the first online service of the answer; if there is none, no service is
      left, and only an empty answer blanks what is published. */
  lemma AskingSelects(s: State, ev: Event)
    requires Full(s.pub) && Asks(s, ev)
    ensures var r := Step(s, ev);
      && (forall i: nat | ev.answer.Some? && IsFirstOnline(ev.answer.value, i) ::
            var v := ev.answer.value[i];
            r.current == v.path && r.service == Some(v.path) && Shows(r.pub, v))
      && (NoneOnline(ev.answer) ==>
            && r.current == "" && r.service == None && Full(r.pub)
            && (ev.answer != Some([]) ==> forall p | p != NetworkState :: r.pub[p] == s.pub[p])
            && (ev.answer != Some([]) && !ev.ServiceChanged? ==> r.pub == s.pub)
            && (ev.answer == Some([]) ==> r.pub[NetworkState] == "disconnected" && r.pub[NetworkName] == ""))
  {
    var s1 := if ev.ServiceChanged? then Publish(s, NetworkState, StateText(ev.change.v.toString)) else s;
    assert Step(s, ev) == ProcessServices(s1, ev.answer);
    if NoneOnline(ev.answer) {
      NoneOnlineIsSelected(s1, ev.answer);
    }
    forall i: nat | ev.answer.Some? && IsFirstOnline(ev.answer.value, i)
      ensures var r, v := Step(s, ev), ev.answer.value[i];
        r.current == v.path && r.service == Some(v.path) && Shows(r.pub, v)
    {
      FirstOnlineIsSelected(s1, ev.answer.value, i);
    }
  }

  /** Every other event keeps the selection. An offline or lost manager blanks the table, the
      monitored service's own change is published, and nothing else is. */
  lemma OtherEventsPublish(s: State, ev: Event)
    requires Full(s.pub) && !Asks(s, ev)
    ensures var r := Step(s, ev);
      && r.current == s.current && r.service == s.service && Full(r.pub)
      && (ev.ManagerState? || ev.ManagerLost? ==>
            && r.pub[NetworkState] == "disconnected"
            && r.pub[NetworkName] == r.pub[NetworkType] == r.pub[Tethering] == ""
            && r.pub[SignalStrength] == "0")
      && (ev.ServicesRemoved? || (ev.ServiceChanged? && s.service.None?) ==> r == s)
      && (ev.ServiceChanged? && s.service.Some? ==>
            r.pub == match ev.change {
              case Name(v) => s.pub[NetworkName := v.encoded]
              case Strength(v) => s.pub[SignalStrength := Dec(v.toUInt)]
              case Kind(v) => s.pub[NetworkType := TypeText(v.toString)]
              case _ => s.pub
            })
  {
    ResetWrites(s);
  }

  /** The path of the first online service of an answer. */
  function OnlinePath(vs: seq<Service>): string {
    if vs == [] then "" else if vs[0].state.toString in {"online", "ready"} then vs[0].path else OnlinePath(vs[1..])
  }

  lemma {:induction false} OnlinePathIsFirst(vs: seq<Service>)
    ensures (forall i: nat | IsFirstOnline(vs, i) :: OnlinePath(vs) == vs[i].path)
    ensures (forall j | 0 <= j < |vs| :: !IsOnline(vs[j].state.toString)) ==> OnlinePath(vs) == ""
    decreases |vs|
  {
    if vs != [] {
      OnlinePathIsFirst(vs[1..]);
      forall i: nat | IsFirstOnline(vs, i) ensures OnlinePath(vs) == vs[i].path {
        if i > 0 {
          assert !IsOnline(vs[0].state.toString);
          assert forall j | 0 <= j < i - 1 :: vs[1..][j] == vs[j + 1];
          assert IsFirstOnline(vs[1..], i - 1);
        }
      }
    }
  }

  /** The service that the last answer made current. */
  function CurrentOf(was: string, s: State, evs: seq<Event>): string
    decreases |evs|
  {
    if evs == [] then was
    else
      var now := if !Asks(s, evs[0]) then was else if evs[0].answer.None? then "" else OnlinePath(evs[0].answer.value);
      CurrentOf(now, Step(s, evs[0]), evs[1..])
  }

  lemma AskedCurrent(s: State, ev: Event)
    requires Full(s.pub) && Asks(s, ev)
    ensures Step(s, ev).current == if ev.answer.None? then "" else OnlinePath(ev.answer.value)
  {
    AskingSelects(s, ev);
    if ev.answer.Some? {
      OnlinePathIsFirst(ev.answer.value);
      if forall i: nat :: !IsFirstOnline(ev.answer.value, i) {
        NoFirstMeansNone(ev.answer.value, |ev.answer.value|);
      }
    }
  }

  /** After any run the current service is the first online one of the last answer. */
  lemma {:induction false} CurrentIsOfLastAnswer(s: State, evs: seq<Event>)
    requires Paired(s)
    ensures Run(s, evs).current == CurrentOf(s.current, s, evs)
    decreases |evs|
  {
    if evs != [] {
      StepKeepsPairing(s, evs[0]);
      if Asks(s, evs[0]) {
        AskedCurrent(s, evs[0]);
      } else {
        OtherEventsPublish(s, evs[0]);
      }
      CurrentIsOfLastAnswer(Step(s, evs[0]), evs[1..]);
    }
  }

  // ---- Runs that fall short ----

  function Plain(text: string): Variant {
    Variant(false, 0, text, [], text)
  }

  /** A wireless network in some state. */
  function Home(state: string): Service {
    Service("/home", Plain("home"), Plain(""), Plain("wifi"), Plain(state))
  }

  /** A new bridge that hears of one online service. */
  lemma HomeIsShown(s: State)
    requires IsInitial(s)
    ensures var r := Step(s, ServicesAdded(Some([Home("online")])));
      r.current == "/home" && r.service == Some("/home") && Shows(r.pub, Home("online"))
  {
    InitialIsServed(s);
    FirstOnlineIsSelected(s, [Home("online")], 0);
  }

  lemma RunOfTwo(s: State, a: Event, b: Event)
    ensures Run(s, [a, b]) == Step(Step(s, a), b)
  {
    assert [a, b][1..] == [b] && [b][1..] == [];
    assert Run(Step(s, a), [b]) == Step(Step(s, a), b);
  }

  /** The network stays published as connected after its service has gone offline in the
      next list, or the next list could not be had. */
  lemma OfflineListKeepsNetwork(s: State, next: Option<Services>)
    requires IsInitial(s) && (next == None || next == Some([Home("idle")]))
    ensures var r := Run(s, [ServicesAdded(Some([Home("online")])), ServicesAdded(next)]);
      r.current == "" && r.service == None && Shows(r.pub, Home("online"))
  {
    var s1 := Step(s, ServicesAdded(Some([Home("online")])));
    HomeIsShown(s);
    NoneOnlineIsSelected(s1, next);
    RunOfTwo(s, ServicesAdded(Some([Home("online")])), ServicesAdded(next));
  }

  /** An offline manager blanks the table, and the service is still monitored. */
  lemma OfflineManagerBlanksServed(s: State)
    requires IsInitial(s)
    ensures var r := Run(s, [ServicesAdded(Some([Home("online")])), ManagerState("idle", None)]);
      && r.service == Some("/home") && Full(r.pub)
      && r.pub[NetworkState] == "disconnected" && r.pub[NetworkName] == ""
  {
    var s1 := Step(s, ServicesAdded(Some([Home("online")])));
    HomeIsShown(s);
    ResetWrites(s1);
    RunOfTwo(s, ServicesAdded(Some([Home("online")])), ManagerState("idle", None));
  }

  // ---- The bridge object ----

  class Bridge {
    const target: Namespace<Prop, string>
    var current: string
    var service: Option<string>

    ghost predicate Valid()
      reads this, target
    {
      target.Valid()
    }

    ghost function Abs(): State
      reads this, target
      requires Valid()
    {
      State(current, service, target.View())
    }

    constructor ()
      ensures Valid() && fresh(target) && IsInitial(Abs())
    {
      var ns := new Namespace<Prop, string>();
      target := ns;
      current, service := "", None;
      new;
      ns.AddProperty(NetworkType, "", NetworkType);
      ns.AddProperty(NetworkState, "disconnected", NetworkState);
      ns.AddProperty(NetworkName, "", NetworkName);
      ns.AddProperty(TrafficIn, "0", TrafficIn);
      ns.AddProperty(TrafficOut, "0", TrafficOut);
      ns.AddProperty(SignalStrength, "0", SignalStrength);
      ns.AddProperty(Tethering, "", Tethering);
    }

    method ResetProperties()
      requires Valid()
      modifies target
      ensures Valid() && Abs() == Reset(old(Abs()))
    {
      target.SetDefaults(DEFAULTS);
    }

    /** The result is true for an online service. */
    method ProcessService(v: Service) returns (online: bool)
      requires Valid()
      modifies this, target
      ensures Valid() && online == IsOnline(v.state.toString)
      ensures Abs() == if online then Select(old(Abs()), v) else old(Abs())
    {
      if !IsOnline(v.state.toString) {
        return false;
      }
      current := v.path;
      target.UpdateProperty(NetworkName, v.name.encoded);
      target.UpdateProperty(SignalStrength, Dec(v.strength.toUInt));
      target.UpdateProperty(NetworkType, TypeText(v.kind.toString));
      target.UpdateProperty(NetworkState, StateText(v.state.toString));
      service := Some(v.path);
      return true;
    }

    method ProcessAll(answer: Option<Services>)
      requires Valid()
      modifies this, target
      ensures Valid() && Abs() == ProcessServices(old(Abs()), answer)
    {
      current := "";
      service := None;
      if answer.None? {
        return;
      }
      var vs := answer.value;
      if vs == [] {
        ResetProperties();
        return;
      }
      var i, online := 0, false;
      ghost var s1 := Abs();
      while i < |vs| && !online
        invariant Valid() && 0 <= i <= |vs|
        invariant online ==> Abs() == SelectFirst(s1, vs)
        invariant !online ==> Abs() == s1
        invariant !online ==> SelectFirst(s1, vs[i..]) == SelectFirst(s1, vs)
      {
        assert vs[i..][1..] == vs[i + 1..];
        online := ProcessService(vs[i]);
        i := i + 1;
      }
    }

    method ServiceUpdate(c: Change, answer: Option<Services>)
      requires Valid()
      modifies this, target
      ensures Valid() && Abs() == OnChange(old(Abs()), c, answer)
    {
      match c
      case Name(v) => target.UpdateProperty(NetworkName, v.encoded);
      case Strength(v) => target.UpdateProperty(SignalStrength, Dec(v.toUInt));
      case Kind(v) => target.UpdateProperty(NetworkType, TypeText(v.toString));
      case StateOf(v) =>
        target.UpdateProperty(NetworkState, StateText(v.toString));
        ProcessAll(answer);
      case OtherChange =>
    }

    method Handle(ev: Event)
      requires Valid()
      modifies this, target
      ensures Valid() && Abs() == Step(old(Abs()), ev)
    {
      match ev
      case ManagerState(state, answer) =>
        if IsOnline(state) {
          ProcessAll(answer);
        } else {
          ResetProperties();
        }
      case ManagerLost => ResetProperties();
      case ServicesAdded(answer) => ProcessAll(answer);
      case ServicesRemoved(paths, answer) =>
        if current in paths {
          ProcessAll(answer);
        }
      case ServiceChanged(c, answer) =>
        if service.Some? {
          ServiceUpdate(c, answer);
        }
    }
  }
}
