/** What replies and signals do to what the oFono bridge publishes, stated on the replies
    themselves (src/ofono/provider_ofono.cpp). */
module OfonoReplies {
  import opened Values
  import opened Properties
  import opened OfonoTypes
  import opened OfonoModel
  import opened OfonoFacts
  import opened OfonoRuns

  // ---- Tables ----

  /** From the text that oFono reports to the text that is published for it. */
  lemma RegistrationTexts(name: string)
    ensures Ckit(MapStatus(name)) ==
      if name == "registered" then "home"
      else if name == "roaming" then "roam"
      else if name == "denied" then "forbidden"
      else "offline"
    ensures MapStatus(name) != CellStatus.NoSim
    ensures MapStatus(name) in AS_INTENDED <==> name == "registered" || name == "roaming"
  {
  }

  lemma TechTable(tech: string, row: (string, string))
    ensures TechRow(tech) == Some(row) <==>
      || (tech == "gsm" && row == ("gsm", "gprs"))
      || (tech == "edge" && row == ("gsm", "egprs"))
      || (tech == "hspa" && row == ("umts", "hspa"))
      || (tech == "umts" && row == ("umts", "umts"))
      || (tech == "lte" && row == ("lte", "lte"))
  {
  }

  /** Every property reads its default text, except that the registration reads `reg`. */
  ghost predicate Blank(pub: map<Prop, string>, reg: string) {
    && Full(pub)
    && pub[RegistrationStatus] == reg
    && BlankNetwork(pub)
    && pub[HomeMCC] == pub[HomeMNC] == "0"
    && pub[StkIdleModeText] == "" && pub[MMSContext] == "" && pub[DataRoamingAllowed] == "0"
  }

  ghost predicate BlankNetwork(pub: map<Prop, string>)
    requires Full(pub)
  {
    && pub[SignalStrength] == pub[SignalBars] == "0"
    && pub[Prop.Technology] == pub[DataTechnology] == "unknown"
    && pub[Prop.Status] == "unregistered"
    && pub[CellName] == pub[NetworkName] == pub[ExtendedNetworkName] == ""
    && pub[CurrentMCC] == pub[CurrentMNC] == "0"
  }

  lemma ResetIsBlank(pub: map<Prop, string>, noSim: bool)
    requires Full(pub)
    ensures Blank(ResetTable(pub, noSim), if noSim then "no-sim" else "offline")
  {
  }

  // ---- Entries of a reply ----

  /** Looking a key up finds its entry, and the invalid variant if there is none. */
  lemma {:induction false} LookupFinds(props: Props, k: Key, v: Variant)
    requires DistinctKeys(props)
    ensures (k, v) in props ==> Lookup(props, k) == v
    ensures (forall i | 0 <= i < |props| :: props[i].0 != k) ==> Lookup(props, k) == NULL_VARIANT
    decreases |props|
  {
    if props != [] {
      assert DistinctKeys(props[1..]);
      LookupFinds(props[1..], k, v);
      if (k, v) in props && props[0] != (k, v) {
        var i :| 0 <= i < |props| && props[i] == (k, v);
        assert props[1..][i - 1] == (k, v);
      }
    }
  }

  predicate HasKey(props: Props, k: Key) {
    exists i :: 0 <= i < |props| && props[i].0 == k
  }

  lemma HasEntry(props: Props, k: Key) returns (v: Variant)
    requires HasKey(props, k)
    ensures (k, v) in props
  {
    var i :| 0 <= i < |props| && props[i].0 == k;
    v := props[i].1;
    assert props[i] == (k, v);
  }

  // ---- Operators ----

  /** The text under Status is "current". */
  predicate ReadsCurrent(props: Props) {
    exists i :: 0 <= i < |props| && props[i].0 == Key.Status && props[i].1.toString == "current"
  }

  lemma CurrentIsRead(props: Props)
    requires DistinctKeys(props)
    ensures IsCurrent(props) <==> ReadsCurrent(props)
  {
    if HasKey(props, Key.Status) {
      var v := HasEntry(props, Key.Status);
      LookupFinds(props, Key.Status, v);
      var i :| 0 <= i < |props| && props[i] == (Key.Status, v);
      if ReadsCurrent(props) {
        var j :| 0 <= j < |props| && props[j].0 == Key.Status && props[j].1.toString == "current";
        assert i == j;
      }
    } else {
      LookupFinds(props, Key.Status, NULL_VARIANT);
    }
  }

  /** Both names read `name`. */
  function Renamed(pub: map<Prop, string>, name: string): map<Prop, string>
    requires NetworkName in pub && ExtendedNetworkName in pub
  {
    pub[NetworkName := name][ExtendedNetworkName := name]
  }

  /** The state after an operator with this name. */
  ghost predicate OperatorNamed(s: State, r: State, v: Variant)
    requires Full(s.pub)
  {
    r == s.(operName := v.toString,
            pub := Renamed(s.pub, if s.netName == "" then v.toString else s.netName))
  }

  lemma OperatorEntry(e: Env, s: State, k: Key, v: Variant)
    requires !s.sim.Absent? && Full(s.pub)
    ensures var r := OperUpdate(e, s, k, v);
      if k == Name then OperatorNamed(s, r, v) else r == s
  {
  }

  /** An operator's properties beside a SIM proxy: its name is taken, and shown unless the
      network has one of its own. */
  lemma {:induction false} OperatorIsShown(e: Env, s: State, props: Props)
    requires !s.sim.Absent? && Full(s.pub) && DistinctKeys(props)
    ensures var r := OperLoop(e, s, props);
      && (!HasKey(props, Name) ==> r == s)
      && forall v | (Name, v) in props :: OperatorNamed(s, r, v)
    decreases |props|
  {
    if props != [] {
      var s1 := OperUpdate(e, s, props[0].0, props[0].1);
      assert DistinctKeys(props[1..]);
      OperatorEntry(e, s, props[0].0, props[0].1);
      OperatorTail(props);
      OperatorIsShown(e, s1, props[1..]);
    }
  }

  lemma OperatorTail(props: Props)
    requires props != [] && DistinctKeys(props)
    ensures HasKey(props, Name) <==> props[0].0 == Name || HasKey(props[1..], Name)
    ensures props[0].0 == Name ==> !HasKey(props[1..], Name)
    ensures forall v :: (Name, v) in props <==> props[0] == (Name, v) || (Name, v) in props[1..]
  {
    if HasKey(props[1..], Name) {
      var i :| 0 <= i < |props| - 1 && props[1..][i].0 == Name;
      assert props[i + 1].0 == Name;
    }
    if HasKey(props, Name) && props[0].0 != Name {
      var i :| 0 <= i < |props| && props[i].0 == Name;
      assert props[1..][i - 1].0 == Name;
    }
  }

  /** The k-th operator is the first that reads "current". */
  predicate IsFirstCurrent(ops: Objects, k: nat) {
    && k < |ops| && ReadsCurrent(ops[k].1)
    && forall j | 0 <= j < k :: !ReadsCurrent(ops[j].1)
  }

  lemma {:induction false} FirstCurrentIsTaken(e: Env, s: State, ops: Objects, k: nat)
    requires IsFirstCurrent(ops, k)
    ensures OpsLoop(e, s, ops) == OperLoop(e, s.(oper := true), ops[k].1)
    decreases |ops|
  {
    CurrentIsRead(ops[0].1);
    if k > 0 {
      assert forall j | 0 <= j < k - 1 :: ops[1..][j] == ops[j + 1];
      FirstCurrentIsTaken(e, s, ops[1..], k - 1);
    }
  }

  lemma {:induction false} NoneCurrentIsTaken(e: Env, s: State, ops: Objects)
    requires forall j | 0 <= j < |ops| :: !ReadsCurrent(ops[j].1)
    ensures OpsLoop(e, s, ops) == s
    decreases |ops|
  {
    if ops != [] {
      CurrentIsRead(ops[0].1);
      NoneCurrentIsTaken(e, s, ops[1..]);
    }
  }

  // ---- Becoming registered ----

  /** This status makes the bridge newly registered, with a modem. */
  predicate NewlyRegistered(e: Env, s: State, st: CellStatus) {
    st in e.registered && s.status !in e.registered && s.modem && (s.hasSim || st == CellStatus.NoSim)
  }

  /** The status is taken and shown, and the rest of the state is as given. */
  ghost predicate Entered(s: State, st: CellStatus, r: State) {
    && r.status == st && RegistrationStatus in r.pub
    && r.pub[RegistrationStatus] == Ckit(st)
    && (r.hasSim <==> s.hasSim && st != CellStatus.NoSim)
    && (r.naming == Roam <==> st == Roaming)
    && r.sim == s.sim && r.netName == s.netName && SameOutside(s, r)
  }

  /** A status that is not newly registered changes the status, the name setter and the
      published text, and makes no query. */
  lemma PlainStatus(e: Env, s: State, st: CellStatus)
    requires Full(s.pub) && st != s.status && (s.hasSim || st == CellStatus.NoSim)
    requires !NewlyRegistered(e, s, st)
    ensures var r := SetStatus(e, s, st);
      && Entered(s, st, r)
      && r == s.(hasSim := r.hasSim, naming := r.naming, status := st,
                 pub := s.pub[RegistrationStatus := Ckit(st)])
  {
  }

  /** Becoming registered beside a network proxy asks for the operators, and takes the first
      current one of the answer. */
  lemma RegisteringFindsOperator(e: Env, s: State, st: CellStatus, ops: Objects, k: nat)
    requires NewlyRegistered(e, s, st) && !s.sim.Absent? && s.network && Full(s.pub)
    requires e.objects(s.calls) == Some(ops) && IsFirstCurrent(ops, k)
    ensures var r := SetStatus(e, s, st);
      && Entered(s, st, r) && r.calls == s.calls + 1 && r.network && r.oper
      && (!HasKey(ops[k].1, Name) ==>
            r.operName == s.operName && r.pub == s.pub[RegistrationStatus := Ckit(st)])
      && forall v | (Name, v) in ops[k].1 ::
           r.operName == v.toString
           && r.pub == Renamed(s.pub[RegistrationStatus := Ckit(st)],
                               if s.netName == "" then v.toString else s.netName)
  {
    var s1 := Enter(s, st).(calls := s.calls + 1);
    assert SetStatus(e, s, st) == OpsLoop(e, s1, ops);
    FirstCurrentIsTaken(e, s1, ops, k);
    OperatorIsShown(e, s1.(oper := true), ops[k].1);
    if HasKey(ops[k].1, Name) {
      var v := HasEntry(ops[k].1, Name);
    }
  }

  /** Without a current operator, or an answer, none is set up. */
  lemma RegisteringFindsNone(e: Env, s: State, st: CellStatus)
    requires NewlyRegistered(e, s, st) && !s.sim.Absent? && s.network && Full(s.pub)
    requires e.objects(s.calls).Some? ==>
      forall j | 0 <= j < |e.objects(s.calls).value| :: !ReadsCurrent(e.objects(s.calls).value[j].1)
    ensures var r := SetStatus(e, s, st);
      && Entered(s, st, r) && r.calls == s.calls + 1 && r.network && r.oper == s.oper
      && r.operName == s.operName && r.pub == s.pub[RegistrationStatus := Ckit(st)]
  {
    var s1 := Enter(s, st).(calls := s.calls + 1);
    if e.objects(s.calls).Some? {
      NoneCurrentIsTaken(e, s1, e.objects(s.calls).value);
    }
  }

  // ---- Network properties ----

  /** A bridge with a SIM, its proxy and a network proxy. */
  predicate Online(s: State) {
    s.hasSim && !s.sim.Absent? && s.network
  }

  /** Both published names are the network's own, or the operator's if it has none. */
  ghost predicate NamesShown(s: State)
    requires Full(s.pub)
  {
    s.pub[NetworkName] == s.pub[ExtendedNetworkName] == if s.netName != "" then s.netName else s.operName
  }

  /** A status beside all proxies: only status, operator and names can change. */
  lemma OnlineStatus(e: Env, s: State, st: CellStatus)
    requires Online(s) && Full(s.pub) && st != CellStatus.NoSim
    ensures var r := SetStatus(e, s, st);
      && Online(r) && Full(r.pub) && r.status == st && r.netName == s.netName
      && r.pub[RegistrationStatus] == (if st == s.status then s.pub[RegistrationStatus] else Ckit(st))
      && (forall p | p !in {RegistrationStatus, NetworkName, ExtendedNetworkName} :: r.pub[p] == s.pub[p])
      && (NamesShown(s) ==> NamesShown(r))
  {
    if st != s.status {
      if NewlyRegistered(e, s, st) {
        if e.objects(s.calls).Some? && exists k: nat :: IsFirstCurrent(e.objects(s.calls).value, k) {
          var k: nat :| IsFirstCurrent(e.objects(s.calls).value, k);
          OnlineOperator(e, s, st, e.objects(s.calls).value, k);
        } else {
          if e.objects(s.calls).Some? {
            NoFirstMeansNone(e.objects(s.calls).value, |e.objects(s.calls).value|);
          }
          RegisteringFindsNone(e, s, st);
        }
      } else {
        PlainStatus(e, s, st);
      }
    }
  }

  lemma OnlineOperator(e: Env, s: State, st: CellStatus, ops: Objects, k: nat)
    requires NewlyRegistered(e, s, st) && Online(s) && Full(s.pub) && st != CellStatus.NoSim
    requires e.objects(s.calls) == Some(ops) && IsFirstCurrent(ops, k)
    ensures var r := SetStatus(e, s, st);
      && Online(r) && Full(r.pub) && r.status == st && r.netName == s.netName
      && r.pub[RegistrationStatus] == Ckit(st)
      && (forall p | p !in {RegistrationStatus, NetworkName, ExtendedNetworkName} :: r.pub[p] == s.pub[p])
      && (NamesShown(s) ==> NamesShown(r))
  {
    RegisteringFindsOperator(e, s, st, ops, k);
    if HasKey(ops[k].1, Name) {
      var v := HasEntry(ops[k].1, Name);
    }
  }

  lemma {:induction false} NoFirstMeansNone(ops: Objects, n: nat)
    requires n <= |ops| && forall k: nat :: !IsFirstCurrent(ops, k)
    ensures forall j | 0 <= j < n :: !ReadsCurrent(ops[j].1)
    decreases n
  {
    if n > 0 {
      NoFirstMeansNone(ops, n - 1);
      assert !IsFirstCurrent(ops, n - 1);
    }
  }

  /** The state shows this entry of a network reply. */
  ghost predicate ShowsEntry(s: State, k: Key, v: Variant) {
    Full(s.pub) &&
    match k
    case Name => s.netName == v.toString && NamesShown(s)
    case Strength => s.pub[SignalStrength] == Dec(v.toUInt) && s.pub[SignalBars] == Dec(Bars(v.toUInt))
    case Technology =>
      TechRow(v.toString).Some? ==>
        (s.pub[Prop.Technology], s.pub[DataTechnology]) == TechRow(v.toString).value
    case CellId => s.pub[CellName] == v.encoded
    case MobileCountryCode => s.pub[CurrentMCC] == v.encoded
    case MobileNetworkCode => s.pub[CurrentMNC] == v.encoded
    case Status => s.pub[Prop.Status] == v.encoded && s.status == MapStatus(v.toString)
    case _ => true
  }

  /** The published properties that depend on one key of a network reply. */
  function TargetsOf(k: Key): set<Prop> {
    match k
    case Name => {NetworkName, ExtendedNetworkName}
    case Strength => {SignalStrength, SignalBars}
    case Technology => {Prop.Technology, DataTechnology}
    case CellId => {CellName}
    case MobileCountryCode => {CurrentMCC}
    case MobileNetworkCode => {CurrentMNC}
    case Status => {Prop.Status, RegistrationStatus, NetworkName, ExtendedNetworkName}
    case _ => {}
  }

  lemma NameEntry(s: State, v: Variant)
    requires Full(s.pub)
    ensures var r := NetPublish(s, Name, v);
      ShowsEntry(r, Name, v) && forall p | p !in TargetsOf(Name) :: r.pub[p] == s.pub[p]
  {
  }

  lemma StrengthEntry(s: State, v: Variant)
    requires Full(s.pub)
    ensures var r := NetPublish(s, Strength, v);
      ShowsEntry(r, Strength, v) && forall p | p !in TargetsOf(Strength) :: r.pub[p] == s.pub[p]
  {
  }

  lemma TechEntry(s: State, v: Variant)
    requires Full(s.pub)
    ensures var r := NetPublish(s, Key.Technology, v);
      ShowsEntry(r, Key.Technology, v) && forall p | p !in TargetsOf(Key.Technology) :: r.pub[p] == s.pub[p]
  {
    assert NetPublish(s, Key.Technology, v) == PublishTech(s, TechRow(v.toString));
    RowIsShown(s, TechRow(v.toString));
  }

  lemma RowIsShown(s: State, row: Option<(string, string)>)
    requires Full(s.pub)
    ensures var r := PublishTech(s, row);
      && Full(r.pub)
      && (row.Some? ==> (r.pub[Prop.Technology], r.pub[DataTechnology]) == row.value)
      && forall p | p !in TargetsOf(Key.Technology) :: r.pub[p] == s.pub[p]
  {
  }

  lemma DirectEntry(s: State, k: Key, v: Variant)
    requires Full(s.pub) && k !in {Name, Strength, Key.Technology, Key.Status}
    ensures var r := NetPublish(s, k, v);
      ShowsEntry(r, k, v) && forall p | p !in TargetsOf(k) :: r.pub[p] == s.pub[p]
  {
  }

  lemma PublishedEntry(s: State, k: Key, v: Variant)
    requires Full(s.pub) && k != Key.Status
    ensures var r := NetPublish(s, k, v);
      && ShowsEntry(r, k, v)
      && (k != Name ==> r.netName == s.netName)
      && forall p | p !in TargetsOf(k) :: r.pub[p] == s.pub[p]
  {
    if k == Name {
      NameEntry(s, v);
    } else if k == Strength {
      StrengthEntry(s, v);
    } else if k == Key.Technology {
      TechEntry(s, v);
    } else {
      DirectEntry(s, k, v);
    }
  }

  /** A network property reported beside all proxies is shown, and changes nothing that does
      not depend on it. */
  lemma NetworkEntry(e: Env, s: State, k: Key, v: Variant)
    requires Online(s) && Full(s.pub)
    ensures var r := NetUpdate(e, s, k, v);
      && Online(r) && ShowsEntry(r, k, v)
      && (k != Key.Status ==> r.status == s.status)
      && (k != Name ==> r.netName == s.netName && (NamesShown(s) ==> NamesShown(r)))
      && forall p | p !in TargetsOf(k) :: r.pub[p] == s.pub[p]
  {
    if k == Key.Status {
      StatusEntry(e, s, v);
    } else {
      PublishedEntry(s, k, v);
    }
  }

  lemma StatusEntry(e: Env, s: State, v: Variant)
    requires Online(s) && Full(s.pub)
    ensures var r := NetUpdate(e, s, Key.Status, v);
      && Online(r) && ShowsEntry(r, Key.Status, v)
      && r.netName == s.netName && (NamesShown(s) ==> NamesShown(r))
      && forall p | p !in TargetsOf(Key.Status) :: r.pub[p] == s.pub[p]
  {
    var s1 := Publish(s, Prop.Status, v.encoded);
    RegistrationTexts(v.toString);
    OnlineStatus(e, s1, MapStatus(v.toString));
    assert NetUpdate(e, s, Key.Status, v) == SetStatus(e, s1, MapStatus(v.toString));
  }

  /** The state as an entry for another key may leave it. */
  ghost predicate UnlessConcerned(s: State, r: State, k: Key)
    requires Full(s.pub) && Full(r.pub)
  {
    && (k != Key.Status ==> r.status == s.status)
    && (k != Name ==> r.netName == s.netName && (NamesShown(s) ==> NamesShown(r)))
    && forall p | p !in TargetsOf(k) :: r.pub[p] == s.pub[p]
  }

  lemma StillShown(s: State, r: State, k: Key, k2: Key, v2: Variant)
    requires ShowsEntry(s, k2, v2) && k != k2 && Full(r.pub) && UnlessConcerned(s, r, k)
    ensures ShowsEntry(r, k2, v2)
  {
    match k2
    case Name =>
    case Strength => assert SignalStrength !in TargetsOf(k) && SignalBars !in TargetsOf(k);
    case Technology => assert Prop.Technology !in TargetsOf(k) && DataTechnology !in TargetsOf(k);
    case CellId => assert CellName !in TargetsOf(k);
    case MobileCountryCode => assert CurrentMCC !in TargetsOf(k);
    case MobileNetworkCode => assert CurrentMNC !in TargetsOf(k);
    case Status => assert Prop.Status !in TargetsOf(k);
    case _ =>
  }

  lemma OtherEntry(e: Env, s: State, k: Key, v: Variant, k2: Key, v2: Variant)
    requires Online(s) && k != k2 && ShowsEntry(s, k2, v2)
    ensures ShowsEntry(NetUpdate(e, s, k, v), k2, v2)
  {
    NetworkEntry(e, s, k, v);
    StillShown(s, NetUpdate(e, s, k, v), k, k2, v2);
  }

  lemma {:induction false} LaterEntries(e: Env, s: State, props: Props, k: Key, v: Variant)
    requires Online(s) && ShowsEntry(s, k, v) && !HasKey(props, k)
    ensures ShowsEntry(NetLoop(e, s, props), k, v)
    decreases |props|
  {
    if props != [] {
      assert props[0].0 != k;
      NetworkEntry(e, s, props[0].0, props[0].1);
      OtherEntry(e, s, props[0].0, props[0].1, k, v);
      assert forall i | 0 <= i < |props| - 1 :: props[1..][i] == props[i + 1];
      LaterEntries(e, NetUpdate(e, s, props[0].0, props[0].1), props[1..], k, v);
    }
  }

  /** Every entry of a reply is shown, over a table and a status that none may concern. */
  ghost predicate ReplyShown(pub: map<Prop, string>, st: CellStatus, r: State, props: Props)
    requires Full(pub)
  {
    && Full(r.pub)
    && (forall i | 0 <= i < |props| :: ShowsEntry(r, props[i].0, props[i].1))
    && (!HasKey(props, Key.Status) ==> r.status == st)
    && forall p | Unconcerned(props, p) :: r.pub[p] == pub[p]
  }

  /** No entry concerns this property. */
  ghost predicate Unconcerned(props: Props, p: Prop) {
    forall i | 0 <= i < |props| :: p !in TargetsOf(props[i].0)
  }

  /** A network reply beside all proxies: every entry is shown, and what no entry concerns
      stays. */
  lemma {:induction false} NetworkReplyIsShown(e: Env, s: State, props: Props)
    requires Online(s) && Full(s.pub) && DistinctKeys(props)
    ensures Online(NetLoop(e, s, props)) && ReplyShown(s.pub, s.status, NetLoop(e, s, props), props)
    decreases |props|
  {
    if props != [] {
      var k, v, rest := props[0].0, props[0].1, props[1..];
      var s1 := NetUpdate(e, s, k, v);
      NetworkEntry(e, s, k, v);
      assert forall i | 0 <= i < |rest| :: rest[i] == props[i + 1];
      assert DistinctKeys(rest);
      NetworkReplyIsShown(e, s1, rest);
      LaterEntries(e, s1, rest, k, v);
      var r := NetLoop(e, s, props);
      forall i | 0 <= i < |props| ensures ShowsEntry(r, props[i].0, props[i].1) {
        if i > 0 {
          assert props[i] == rest[i - 1];
        }
      }
      forall p | Unconcerned(props, p) ensures r.pub[p] == s.pub[p] {
        assert p !in TargetsOf(k);
        assert Unconcerned(rest, p);
      }
    }
  }

  lemma NetworkAnswer(e: Env, s: State, props: PropMap)
    requires e.props(s.calls) == Some(props)
    ensures SetupNetwork(e, s) == NetLoop(e, s.(network := true, calls := s.calls + 1), props)
  {
  }

  /** Setting the network up beside a SIM asks for its properties and shows them all. */
  lemma NetworkSetupIsShown(e: Env, s: State)
    requires s.hasSim && !s.sim.Absent? && Full(s.pub)
    ensures var r := SetupNetwork(e, s);
      && Online(r) && Full(r.pub)
      && (e.props(s.calls).None? ==> r == s.(network := true, calls := s.calls + 1))
      && (e.props(s.calls).Some? ==> ReplyShown(s.pub, s.status, r, e.props(s.calls).value))
  {
    match e.props(s.calls) {
      case None =>
      case Some(props) =>
        NetworkAnswer(e, s, props);
        NetworkReplyIsShown(e, s.(network := true, calls := s.calls + 1), props);
    }
  }

  /** Becoming registered without a network proxy sets the network up. */
  lemma RegisteringSetsNetworkUp(e: Env, s: State, st: CellStatus)
    requires NewlyRegistered(e, s, st) && st != CellStatus.NoSim
    requires !s.sim.Absent? && !s.network && Full(s.pub)
    ensures var r := SetStatus(e, s, st);
      var shown := s.pub[RegistrationStatus := Ckit(st)];
      && Online(r) && Full(r.pub)
      && (e.props(s.calls).None? ==> r.calls == s.calls + 1 && r.status == st && r.pub == shown)
      && (e.props(s.calls).Some? ==> ReplyShown(shown, st, r, e.props(s.calls).value))
  {
    var s1 := Enter(s, st);
    assert SetStatus(e, s, st) == SetupNetwork(e, s1);
    NetworkSetupIsShown(e, s1);
  }

  /** Becoming registered without a SIM proxy sets the SIM up. */
  lemma RegisteringSetsSimUp(e: Env, s: State, st: CellStatus)
    requires NewlyRegistered(e, s, st) && st != s.status && s.sim.Absent?
    ensures var r := SetStatus(e, s, st);
      !r.sim.Absent? && (e.props(s.calls).None? ==> r.calls == s.calls + 1 && r.sim.Silent?)
  {
  }

  /** Without a SIM the network is gone, and the table blank, before its property is shown; no
      status that it reports has any effect. */
  lemma NetworkWithoutSim(e: Env, s: State, k: Key, v: Variant)
    requires Full(s.pub) && Settled(s)
    ensures var r, t := NetUpdate(e, s, k, v), ResetTable(s.pub, true);
      && Settled(r) && !r.network && !r.oper && r.sim == s.sim && r.calls == s.calls
      && Full(r.pub) && Blank(t, "no-sim")
      && (k != Key.Status ==> ShowsEntry(r, k, v) && forall p | p !in TargetsOf(k) :: r.pub[p] == t[p])
      && (k == Key.Status ==> r.pub == t[Prop.Status := v.encoded])
  {
    var s0 := s.(oper := false, network := false);
    assert SetStatus(e, s0, Offline) == SetStatus(e, s0, CellStatus.NoSim) == s0;
    var s1 := ResetNetwork(e, s);
    assert s1 == s0.(pub := ResetTable(s.pub, true));
    ResetIsBlank(s.pub, true);
    if k == Key.Status {
      SettledStatus(e, s1, v);
    } else {
      PublishedEntry(s1, k, v);
    }
  }

  lemma SettledStatus(e: Env, s: State, v: Variant)
    requires Settled(s)
    ensures NetAction(e, s, Key.Status, v) == Publish(s, Prop.Status, v.encoded)
  {
    var s1 := Publish(s, Prop.Status, v.encoded);
    RegistrationTexts(v.toString);
    assert SetStatus(e, s1, MapStatus(v.toString)) == SetStatus(e, s1, CellStatus.NoSim) == s1;
  }
}
