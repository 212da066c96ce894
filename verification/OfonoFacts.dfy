/** What every operation of the oFono bridge keeps (src/ofono/provider_ofono.cpp). */
module OfonoFacts {
  import opened Values
  import opened Properties
  import opened OfonoTypes
  import opened OfonoModel

  // ---- Invariants ----

  /** The published registration is the text of the tracked status. */
  predicate Coherent(s: State) {
    RegistrationStatus in s.pub && s.pub[RegistrationStatus] == Ckit(s.status)
  }

  /** Without a SIM the status is NoSim. */
  predicate SimSafe(s: State) {
    s.hasSim || s.status == CellStatus.NoSim
  }

  predicate SimSafeOrNew(s: State) {
    SimSafe(s) || s.status == Unknown
  }

  /** The roaming setter is in use exactly when roaming. */
  predicate Named(s: State) {
    s.naming == Roam <==> s.status == Roaming
  }

  /** An operator proxy lives only beside a network, a SIM and a modem proxy. */
  predicate Anchored(s: State) {
    s.oper ==> s.network && !s.sim.Absent? && s.modem
  }

  ghost predicate Full(pub: map<Prop, string>) {
    forall p: Prop :: p in pub
  }

  predicate NamesAgree(pub: map<Prop, string>)
    requires NetworkName in pub && ExtendedNetworkName in pub
  {
    pub[NetworkName] == pub[ExtendedNetworkName]
  }

  predicate IsTechRow(tech: string, data: string) {
    || (tech == "unknown" && data == "unknown")
    || (tech == "gsm" && (data == "gprs" || data == "egprs"))
    || (tech == "umts" && (data == "hspa" || data == "umts"))
    || (tech == "lte" && data == "lte")
  }

  /** Strength and bars come from the same reading `n`. */
  ghost predicate ShowsStrength(pub: map<Prop, string>, n: UInt32)
    requires Full(pub)
  {
    pub[SignalStrength] == Dec(n) && pub[SignalBars] == Dec(Bars(n))
  }

  ghost predicate TableOk(pub: map<Prop, string>) {
    && Full(pub)
    && NamesAgree(pub)
    && IsTechRow(pub[Prop.Technology], pub[DataTechnology])
    && exists n: UInt32 :: ShowsStrength(pub, n)
  }

  /** The published name is the one to show, or blank since a bulk reset. */
  ghost predicate NameShown(s: State) {
    Full(s.pub) ==> s.pub[NetworkName] == "" || s.pub[NetworkName] == ShownName(s)
  }

  /** The published message context is the cached one, or blank since a bulk reset. */
  ghost predicate MmsShown(s: State) {
    Full(s.pub) ==> s.pub[MMSContext] == "" || s.pub[MMSContext] == s.mms
  }

  ghost predicate Inv(s: State) {
    && Named(s) && Anchored(s) && TableOk(s.pub) && NameShown(s) && MmsShown(s)
    && s.mms == FirstMms(s.contexts)
  }

  /** The fields that the recursive cluster leaves alone. */
  predicate SameOutside(s: State, r: State) {
    && r.manager == s.manager && r.modem == s.modem && r.modemPath == s.modemPath
    && r.cm == s.cm && r.contexts == s.contexts && r.mms == s.mms && r.ifaces == s.ifaces
  }

  /** What an operation that takes `s` to `r` preserves. */
  ghost predicate Kept(e: Env, s: State, r: State) {
    && (Inv(s) ==> Inv(r))
    && (SimSafe(s) ==> SimSafe(r))
    && (SimSafeOrNew(s) ==> SimSafeOrNew(r))
    && (Sensible(e) && Inv(s) && SimSafeOrNew(s) && Coherent(s) ==> Coherent(r))
  }

  // ---- Published table ----

  lemma PublishKeepsTable(pub: map<Prop, string>, p: Prop, text: string)
    requires TableOk(pub)
    requires p !in {NetworkName, ExtendedNetworkName, Prop.Technology, DataTechnology, SignalStrength, SignalBars}
    ensures TableOk(Put(pub, p, text))
  {
    var n: UInt32 :| ShowsStrength(pub, n);
    assert ShowsStrength(Put(pub, p, text), n);
  }

  lemma NameKeepsTable(s: State)
    requires TableOk(s.pub)
    ensures TableOk(PublishName(s).pub)
  {
    var n: UInt32 :| ShowsStrength(s.pub, n);
    assert ShowsStrength(PublishName(s).pub, n);
  }

  lemma DefaultsAreOk(pub: map<Prop, string>, noSim: bool)
    requires Full(pub)
    ensures TableOk(ResetTable(pub, noSim))
  {
    ZeroText();
    assert ShowsStrength(ResetTable(pub, noSim), 0);
  }

  lemma ZeroText()
    ensures Dec(0) == "0" && Bars(0) == 0
  {
  }

  /** A bulk reset keeps the invariant and decides the published registration. */
  lemma ResetTableKeeps(s: State, noSim: bool)
    requires Inv(s)
    ensures Inv(s.(pub := ResetTable(s.pub, noSim)))
    ensures Coherent(s.(pub := ResetTable(s.pub, noSim))) <==>
      Ckit(s.status) == if noSim then "no-sim" else "offline"
  {
    DefaultsAreOk(s.pub, noSim);
  }

  lemma RenameKeeps(e: Env, s: State, net: string, op: string)
    ensures var r := PublishName(s.(netName := net, operName := op));
      Kept(e, s, r) && SameOutside(s, r)
  {
    if TableOk(s.pub) {
      NameKeepsTable(s.(netName := net, operName := op));
    }
  }

  lemma TechRowIsRow(tech: string)
    ensures TechRow(tech).Some? ==> IsTechRow(TechRow(tech).value.0, TechRow(tech).value.1)
  {
  }

  /** Properties that are published as they are reported. */
  predicate IsPlain(p: Prop) {
    p in {Prop.Status, CellName, CurrentMCC, CurrentMNC, HomeMCC, HomeMNC, StkIdleModeText,
          DataRoamingAllowed}
  }

  lemma PublishKeeps(e: Env, s: State, p: Prop, text: string)
    requires IsPlain(p)
    ensures Kept(e, s, Publish(s, p, text)) && SameOutside(s, Publish(s, p, text))
  {
    if TableOk(s.pub) {
      PublishKeepsTable(s.pub, p, text);
    }
  }

  lemma NetPublishKeeps(e: Env, s: State, k: Key, v: Variant)
    ensures Kept(e, s, NetPublish(s, k, v)) && SameOutside(s, NetPublish(s, k, v))
  {
    if k == Name {
      RenameKeeps(e, s, v.toString, s.operName);
    } else if k == Strength {
      StrengthKeeps(e, s, v.toUInt);
    } else if k == Key.Technology {
      TechKeeps(e, s, TechRow(v.toString), v.toString);
    } else if DirectTarget(k).Some? {
      PublishKeeps(e, s, DirectTarget(k).value, v.encoded);
    }
  }

  lemma StrengthKeeps(e: Env, s: State, n: UInt32)
    ensures var r := Publish(Publish(s, SignalStrength, Dec(n)), SignalBars, Dec(Bars(n)));
      Kept(e, s, r) && SameOutside(s, r)
  {
    if TableOk(s.pub) {
      StrengthKeepsTable(s, n);
    }
  }

  lemma TechKeeps(e: Env, s: State, row: Option<(string, string)>, tech: string)
    requires row == TechRow(tech)
    ensures Kept(e, s, PublishTech(s, row)) && SameOutside(s, PublishTech(s, row))
  {
    TechRowIsRow(tech);
    if TableOk(s.pub) && row.Some? {
      TechKeepsTable(s, row.value.0, row.value.1);
    }
  }

  lemma StrengthKeepsTable(s: State, n: UInt32)
    requires TableOk(s.pub)
    ensures TableOk(Publish(Publish(s, SignalStrength, Dec(n)), SignalBars, Dec(Bars(n))).pub)
  {
    var r := Publish(Publish(s, SignalStrength, Dec(n)), SignalBars, Dec(Bars(n)));
    assert ShowsStrength(r.pub, n);
  }

  lemma TechKeepsTable(s: State, tech: string, data: string)
    requires TableOk(s.pub) && IsTechRow(tech, data)
    ensures TableOk(PublishTech(s, Some((tech, data))).pub)
  {
    var n: UInt32 :| ShowsStrength(s.pub, n);
    assert ShowsStrength(PublishTech(s, Some((tech, data))).pub, n);
  }

  /** The published bars are the published strength in steps of 20, rounded up, exactly as
      long as the 32-bit addition does not wrap; after that they read zero. */
  lemma BarsAreCeiling(pub: map<Prop, string>, n: UInt32)
    requires Full(pub) && ShowsStrength(pub, n)
    ensures Parse(pub[SignalStrength]) == n
    ensures n <= 0x1_0000_0000 - 20 <==>
      20 * (Parse(pub[SignalBars]) - 1) < n <= 20 * Parse(pub[SignalBars])
    ensures n > 0x1_0000_0000 - 20 ==> Parse(pub[SignalBars]) == 0
  {
    DecParses(n);
    DecParses(Bars(n));
  }

  // ---- SIM toolkit ----

  lemma KeptTransitive(e: Env, s: State, t: State, r: State)
    requires Kept(e, s, t) && Kept(e, t, r)
    ensures Kept(e, s, r)
  {
  }

  lemma StkUpdateKeeps(e: Env, s: State, k: Key, v: Variant)
    ensures Kept(e, s, StkUpdate(s, k, v))
  {
    ResetStkKeeps(e, s);
    PublishKeeps(e, s, StkIdleModeText, v.encoded);
  }

  lemma {:induction false} StkLoopKeeps(e: Env, s: State, props: Props)
    ensures Kept(e, s, StkLoop(s, props))
    decreases |props|
  {
    if props != [] {
      StkUpdateKeeps(e, s, props[0].0, props[0].1);
      StkLoopKeeps(e, StkUpdate(s, props[0].0, props[0].1), props[1..]);
    }
  }

  lemma StkProxyKeeps(e: Env, s: State, stk: Handle, calls: nat)
    ensures Kept(e, s, s.(stk := stk, calls := calls))
  {
  }

  lemma SetupStkKeeps(e: Env, s: State)
    ensures Kept(e, s, SetupStk(e, s))
  {
    StkProxyKeeps(e, s, Silent, s.calls + 1);
    match e.props(s.calls) {
      case None =>
      case Some(props) =>
        var s1 := s.(stk := Silent, calls := s.calls + 1);
        StkReplyKeeps(e, s1, props);
        KeptTransitive(e, s, s1, SetupStk(e, s));
    }
  }

  lemma StkReplyKeeps(e: Env, s: State, props: Props)
    ensures var s2 := StkLoop(s, props);
      Kept(e, s, if s2.stk.Absent? then s2 else s2.(stk := Wired))
  {
    var s2 := StkLoop(s, props);
    StkLoopKeeps(e, s, props);
    StkProxyKeeps(e, s2, Wired, s2.calls);
    KeptTransitive(e, s, s2, s2.(stk := Wired));
  }

  lemma ResetStkKeeps(e: Env, s: State)
    ensures Kept(e, s, ResetStk(s))
  {
    PublishKeeps(e, s, StkIdleModeText, "");
  }

  lemma SimProxyKeeps(e: Env, s: State, sim: Handle, calls: nat)
    requires !sim.Absent?
    ensures Kept(e, s, s.(sim := sim, calls := calls))
  {
  }

  // ---- The recursive cluster ----

  lemma EnterKeeps(e: Env, s: State, st: CellStatus)
    requires s.hasSim || st == CellStatus.NoSim
    ensures Kept(e, s, Enter(s, st)) && SameOutside(s, Enter(s, st))
    ensures SimSafe(Enter(s, st))
    ensures Full(s.pub) ==> Coherent(Enter(s, st))
  {
    if TableOk(s.pub) {
      PublishKeepsTable(s.pub, RegistrationStatus, Ckit(st));
    }
  }

  lemma {:induction false} SetStatusKeeps(e: Env, s: State, st: CellStatus)
    ensures Kept(e, s, SetStatus(e, s, st)) && SameOutside(s, SetStatus(e, s, st))
    ensures st == CellStatus.NoSim ==> SimSafe(SetStatus(e, s, st))
    ensures Sensible(e) && Inv(s) && Coherent(s) ==> Coherent(SetStatus(e, s, st))
    decreases Rank(s), if st == CellStatus.NoSim then 0 else 1, 0
  {
    if st == s.status {
    } else if !s.hasSim && st != CellStatus.NoSim {
      SetStatusKeeps(e, s, CellStatus.NoSim);
    } else {
      var s1 := Enter(s, st);
      EnterKeeps(e, s, st);
      if st in e.registered && s.status !in e.registered && s.modem {
        if s1.sim.Absent? {
          SetupSimKeeps(e, s1);
        } else if !s1.network {
          SetupNetworkKeeps(e, s1);
        } else {
          EnumerateOperatorsKeeps(e, s1);
        }
      }
    }
  }

  lemma {:induction false} SimUpdateKeeps(e: Env, s: State, k: Key, v: Variant)
    requires !s.sim.Absent?
    ensures Kept(e, s, SimUpdate(e, s, k, v)) && SameOutside(s, SimUpdate(e, s, k, v))
    decreases 4, 0, 0
  {
    if k == Present {
      var s1 := s.(hasSim := v.toBool);
      assert Inv(s) ==> Inv(s1);
      if !v.toBool {
        SetStatusKeeps(e, s1, CellStatus.NoSim);
      } else if !s.network {
        SetStatusKeeps(e, s1, Offline);
      }
    } else {
      PublishKeeps(e, s, HomeMCC, v.encoded);
      PublishKeeps(e, s, HomeMNC, v.encoded);
    }
  }

  lemma {:induction false} SimLoopKeeps(e: Env, s: State, props: Props)
    requires !s.sim.Absent?
    ensures Kept(e, s, SimLoop(e, s, props)) && SameOutside(s, SimLoop(e, s, props))
    decreases 4, 1, |props|
  {
    if props != [] {
      SimUpdateKeeps(e, s, props[0].0, props[0].1);
      SimLoopKeeps(e, SimUpdate(e, s, props[0].0, props[0].1), props[1..]);
    }
  }

  lemma {:induction false} SimReplyKeeps(e: Env, s: State, props: Props)
    requires !s.sim.Absent?
    ensures Kept(e, s, SimReply(e, s, props)) && SameOutside(s, SimReply(e, s, props))
    decreases 4, 2, 0
  {
    var t := SimLoop(e, s, props);
    SimLoopKeeps(e, s, props);
    var s1 := t.(sim := Wired);
    SimProxyKeeps(e, t, Wired, t.calls);
    KeptTransitive(e, s, t, s1);
    SetupStkKeeps(e, s1);
    KeptTransitive(e, s, s1, SetupStk(e, s1));
  }

  lemma {:induction false} SetupSimKeeps(e: Env, s: State)
    ensures Kept(e, s, SetupSim(e, s)) && SameOutside(s, SetupSim(e, s))
    decreases 4, 3, 0
  {
    var s1 := s.(sim := Silent, calls := s.calls + 1);
    SimProxyKeeps(e, s, Silent, s.calls + 1);
    match e.props(s.calls) {
      case None =>
      case Some(props) =>
        SimReplyKeeps(e, s1, props);
        KeptTransitive(e, s, s1, SimReply(e, s1, props));
    }
  }

  /** Registration after a reset: Offline with a SIM, NoSim without. */
  predicate Verdict(s: State) {
    s.status == if s.hasSim then Offline else CellStatus.NoSim
  }

  /** The n-th query is answered with a SIM that is present. */
  predicate SimReported(e: Env, n: nat) {
    e.props(n).Some? && Lookup(e.props(n).value, Present).toBool
  }

  lemma {:induction false} SimLoopVerdict(e: Env, s: State, props: Props)
    requires Sensible(e) && DistinctKeys(props)
    requires !s.sim.Absent? && !s.network && Verdict(s)
    requires s.hasSim ==> forall i | 0 <= i < |props| :: props[i].0 != Present
    ensures Verdict(SimLoop(e, s, props))
    ensures SimLoop(e, s, props).hasSim <==> s.hasSim || Lookup(props, Present).toBool
    decreases |props|
  {
    if props != [] {
      var s1 := SimUpdate(e, s, props[0].0, props[0].1);
      if props[0].0 == Present {
        assert !s.hasSim;
        PresentVerdict(e, s, props[0].1);
        NoEntry(props[1..], Present);
      }
      SimLoopVerdict(e, s1, props[1..]);
    }
  }

  lemma PresentVerdict(e: Env, s: State, v: Variant)
    requires Sensible(e) && !s.sim.Absent? && !s.network && !s.hasSim && Verdict(s)
    ensures var r := SimUpdate(e, s, Present, v);
      Verdict(r) && !r.network && (r.hasSim <==> v.toBool)
  {
    var t := s.(hasSim := true);
    assert SetStatus(e, t, Offline) == Enter(t, Offline);
    assert SetStatus(e, s, CellStatus.NoSim) == s == s.(hasSim := false);
  }

  lemma {:induction false} NoEntry(props: Props, k: Key)
    requires forall i | 0 <= i < |props| :: props[i].0 != k
    ensures Lookup(props, k) == NULL_VARIANT
  {
    if props != [] {
      NoEntry(props[1..], k);
    }
  }

  /** A SIM set up in a settled bridge decides the status by itself. */
  lemma SetupSimVerdict(e: Env, s: State)
    requires Sensible(e) && Settled(s) && !s.network
    ensures Verdict(SetupSim(e, s))
    ensures SetupSim(e, s).hasSim <==> SimReported(e, s.calls)
  {
    match e.props(s.calls) {
      case None =>
      case Some(props) => SimLoopVerdict(e, s.(sim := Silent, calls := s.calls + 1), props);
    }
  }

  lemma OfflineVerdict(e: Env, s: State)
    requires Sensible(e) && !s.network && SimSafeOrNew(s)
    ensures Verdict(SetStatus(e, s, Offline))
  {
    if !s.hasSim && s.status != CellStatus.NoSim {
      var s1 := Enter(s, CellStatus.NoSim);
      assert SetStatus(e, s, Offline) == SetStatus(e, s, CellStatus.NoSim);
      if CellStatus.NoSim in e.registered && s.status !in e.registered && s.modem {
        if s1.sim.Absent? {
          SetupSimVerdict(e, s1);
        } else {
          assert Rank(SetupNetwork(e, s1)) == 0;
        }
      }
    }
  }

  /** The bulk reset that ends `reset_network`. */
  lemma ResetAfterOffline(s: State)
    ensures Inv(s) ==> Inv(s.(pub := ResetTable(s.pub, !s.hasSim)))
    ensures Inv(s) && Verdict(s) ==> Coherent(s.(pub := ResetTable(s.pub, !s.hasSim)))
  {
    if Inv(s) {
      ResetTableKeeps(s, !s.hasSim);
    }
  }

  /** The bulk reset keeps what `set_status` before it has kept. */
  lemma TableAfterOffline(e: Env, s: State, s1: State)
    requires Kept(e, s.(oper := false, network := false), s1)
    requires Sensible(e) && SimSafeOrNew(s) ==> Verdict(s1)
    ensures var r := s1.(pub := ResetTable(s1.pub, !s1.hasSim));
      && Kept(e, s, r)
      && (Sensible(e) && Inv(s) && SimSafeOrNew(s) ==> Coherent(r))
  {
    assert Inv(s) ==> Inv(s.(oper := false, network := false));
    ResetAfterOffline(s1);
  }

  /** Resetting the network makes the published registration coherent again. */
  lemma {:induction false} ResetNetworkKeeps(e: Env, s: State)
    ensures Kept(e, s, ResetNetwork(e, s)) && SameOutside(s, ResetNetwork(e, s))
    ensures Sensible(e) && Inv(s) && SimSafeOrNew(s) ==> Coherent(ResetNetwork(e, s))
    decreases Rank(s.(network := false)), 2, 0
  {
    var s0 := s.(oper := false, network := false);
    SetStatusKeeps(e, s0, Offline);
    if Sensible(e) && SimSafeOrNew(s) {
      OfflineVerdict(e, s0);
    }
    TableAfterOffline(e, s, SetStatus(e, s0, Offline));
  }

  lemma {:induction false} NetActionKeeps(e: Env, s: State, k: Key, v: Variant)
    ensures Kept(e, s, NetAction(e, s, k, v)) && SameOutside(s, NetAction(e, s, k, v))
    decreases Rank(s), 2, 0
  {
    if k == Key.Status {
      var s1 := Publish(s, Prop.Status, v.encoded);
      PublishKeeps(e, s, Prop.Status, v.encoded);
      SetStatusKeeps(e, s1, MapStatus(v.toString));
    } else {
      NetPublishKeeps(e, s, k, v);
    }
  }

  lemma {:induction false} NetUpdateKeeps(e: Env, s: State, k: Key, v: Variant)
    ensures Kept(e, s, NetUpdate(e, s, k, v)) && SameOutside(s, NetUpdate(e, s, k, v))
    decreases Rank(s), 3, 0
  {
    if !s.hasSim {
      ResetNetworkKeeps(e, s);
      NetActionKeeps(e, ResetNetwork(e, s), k, v);
    } else {
      NetActionKeeps(e, s, k, v);
    }
  }

  lemma {:induction false} NetLoopKeeps(e: Env, s: State, props: Props)
    ensures Kept(e, s, NetLoop(e, s, props)) && SameOutside(s, NetLoop(e, s, props))
    decreases Rank(s), 4, |props|
  {
    if props != [] {
      NetUpdateKeeps(e, s, props[0].0, props[0].1);
      NetLoopKeeps(e, NetUpdate(e, s, props[0].0, props[0].1), props[1..]);
    }
  }

  lemma {:induction false} SetupNetworkKeeps(e: Env, s: State)
    ensures Kept(e, s, SetupNetwork(e, s)) && SameOutside(s, SetupNetwork(e, s))
    decreases Rank(s.(network := true)), 5, 0
  {
    var s1 := s.(network := true, calls := s.calls + 1);
    assert Kept(e, s, s1);
    match e.props(s.calls) {
      case None =>
      case Some(props) => NetLoopKeeps(e, s1, props);
    }
  }

  lemma {:induction false} OperUpdateKeeps(e: Env, s: State, k: Key, v: Variant)
    ensures Kept(e, s, OperUpdate(e, s, k, v)) && SameOutside(s, OperUpdate(e, s, k, v))
    ensures !s.sim.Absent? ==> OperUpdate(e, s, k, v).sim == s.sim
    decreases OperRank(s), 3, 0
  {
    var s1 := if s.sim.Absent? then ResetNetwork(e, s) else s;
    if s.sim.Absent? {
      ResetNetworkKeeps(e, s);
    }
    if k == Name {
      RenameKeeps(e, s1, s1.netName, v.toString);
      KeptTransitive(e, s, s1, OperUpdate(e, s, k, v));
    }
  }

  lemma {:induction false} OperLoopKeeps(e: Env, s: State, props: Props)
    ensures Kept(e, s, OperLoop(e, s, props)) && SameOutside(s, OperLoop(e, s, props))
    decreases OperRank(s), 4, |props|
  {
    if props != [] {
      OperUpdateKeeps(e, s, props[0].0, props[0].1);
      OperLoopKeeps(e, OperUpdate(e, s, props[0].0, props[0].1), props[1..]);
    }
  }

  lemma {:induction false} OpsLoopKeeps(e: Env, s: State, ops: Objects)
    requires s.network && !s.sim.Absent? && s.modem
    ensures Kept(e, s, OpsLoop(e, s, ops)) && SameOutside(s, OpsLoop(e, s, ops))
    decreases OperRank(s), 5, |ops|
  {
    if ops != [] {
      if IsCurrent(ops[0].1) {
        OperLoopKeeps(e, s.(oper := true), ops[0].1);
      } else {
        OpsLoopKeeps(e, s, ops[1..]);
      }
    }
  }

  lemma {:induction false} EnumerateOperatorsKeeps(e: Env, s: State)
    requires !s.sim.Absent? && s.modem
    ensures Kept(e, s, EnumerateOperators(e, s)) && SameOutside(s, EnumerateOperators(e, s))
    decreases OperRank(s), 6, 0
  {
    if s.network {
      var s1 := s.(calls := s.calls + 1);
      match e.objects(s.calls) {
        case None =>
        case Some(ops) => OpsLoopKeeps(e, s1, ops);
      }
    }
  }

  /** Without a SIM the network has no say: from a settled state, whatever statuses it
      reports and however they nest, the bridge stays settled. */
  lemma {:induction false} NetworkCannotUnsettle(e: Env, s: State, props: Props)
    requires Settled(s)
    ensures Settled(NetLoop(e, s, props)) && NetLoop(e, s, props).sim == s.sim
    ensures NetLoop(e, s, props).calls == s.calls
    decreases |props|
  {
    if props != [] {
      var s0 := s.(oper := false, network := false);
      assert SetStatus(e, s0, Offline) == SetStatus(e, s0, CellStatus.NoSim) == s0;
      var s1 := NetUpdate(e, s, props[0].0, props[0].1);
      SettledUpdate(e, ResetNetwork(e, s), props[0].0, props[0].1);
      NetworkCannotUnsettle(e, s1, props[1..]);
    }
  }

  lemma SettledUpdate(e: Env, s: State, k: Key, v: Variant)
    requires Settled(s)
    ensures Settled(NetAction(e, s, k, v))
    ensures NetAction(e, s, k, v).sim == s.sim && NetAction(e, s, k, v).calls == s.calls
  {
    if k == Key.Status {
      var s1 := Publish(s, Prop.Status, v.encoded);
      assert SetStatus(e, s1, CellStatus.NoSim) == s1;
    }
  }
}
