/** What setting a proxy up or losing it does to the oFono bridge, and so what each new list
    of modem interfaces does (src/ofono/provider_ofono.cpp). */
module OfonoLists {
  import opened Values
  import opened OfonoTypes
  import opened OfonoModel
  import opened OfonoFacts
  import opened OfonoRuns
  import opened OfonoReplies

  // ---- SIM properties ----

  /** Neither Offline nor NoSim counts as registered, as with {Registered, Roaming}. */
  predicate Quiescent(e: Env) {
    Offline !in e.registered && CellStatus.NoSim !in e.registered
  }

  ghost predicate ShowsSimEntry(s: State, k: Key, v: Variant) {
    && Full(s.pub)
    && (k == Present ==> s.hasSim == v.toBool)
    && (k == MobileCountryCode ==> s.pub[HomeMCC] == v.encoded)
    && (k == MobileNetworkCode ==> s.pub[HomeMNC] == v.encoded)
  }

  function SimTargetsOf(k: Key): set<Prop> {
    match k
    case Present => {RegistrationStatus}
    case MobileCountryCode => {HomeMCC}
    case MobileNetworkCode => {HomeMNC}
    case _ => {}
  }

  /** A SIM property is shown, and nothing else changes but the status after Present. */
  lemma SimEntry(e: Env, s: State, k: Key, v: Variant)
    requires Quiescent(e) && !s.sim.Absent? && Full(s.pub)
    ensures var r := SimUpdate(e, s, k, v);
      && ShowsSimEntry(r, k, v)
      && r == s.(hasSim := r.hasSim, status := r.status, naming := r.naming, pub := r.pub)
      && (k != Present ==> r.hasSim == s.hasSim && r.status == s.status)
      && (k == Present ==>
            r.status == if !v.toBool then CellStatus.NoSim else if s.network then s.status else Offline)
      && forall p | p !in SimTargetsOf(k) :: r.pub[p] == s.pub[p]
  {
    if k == Present {
      var s1 := s.(hasSim := v.toBool);
      if !v.toBool {
        QuietStatus(e, s1, CellStatus.NoSim);
      } else if !s.network {
        QuietStatus(e, s1, Offline);
      }
    } else {
      OtherSimEntry(e, s, k, v);
    }
  }

  lemma QuietStatus(e: Env, s: State, st: CellStatus)
    requires Quiescent(e) && st in {Offline, CellStatus.NoSim} && (s.hasSim || st == CellStatus.NoSim)
    ensures SetStatus(e, s, st) == if st == s.status then s else Enter(s, st)
  {
  }

  lemma OtherSimEntry(e: Env, s: State, k: Key, v: Variant)
    requires k != Present && !s.sim.Absent? && Full(s.pub)
    ensures var r := SimUpdate(e, s, k, v);
      && ShowsSimEntry(r, k, v) && r == s.(pub := r.pub)
      && forall p | p !in SimTargetsOf(k) :: r.pub[p] == s.pub[p]
  {
  }

  lemma StillShowsSim(s: State, r: State, k: Key, k2: Key, v2: Variant)
    requires ShowsSimEntry(s, k2, v2) && k != k2 && Full(r.pub)
    requires k != Present ==> r.hasSim == s.hasSim
    requires forall p | p !in SimTargetsOf(k) :: r.pub[p] == s.pub[p]
    ensures ShowsSimEntry(r, k2, v2)
  {
  }

  lemma {:induction false} LaterSimEntries(e: Env, s: State, props: Props, k: Key, v: Variant)
    requires Quiescent(e) && !s.sim.Absent? && ShowsSimEntry(s, k, v) && !HasKey(props, k)
    ensures ShowsSimEntry(SimLoop(e, s, props), k, v)
    decreases |props|
  {
    if props != [] {
      assert props[0].0 != k;
      SimEntry(e, s, props[0].0, props[0].1);
      StillShowsSim(s, SimUpdate(e, s, props[0].0, props[0].1), props[0].0, k, v);
      assert forall i | 0 <= i < |props| - 1 :: props[1..][i] == props[i + 1];
      LaterSimEntries(e, SimUpdate(e, s, props[0].0, props[0].1), props[1..], k, v);
    }
  }

  /** Every entry of a SIM reply is shown. */
  lemma {:induction false} SimReplyIsShown(e: Env, s: State, props: Props)
    requires Quiescent(e) && !s.sim.Absent? && Full(s.pub) && DistinctKeys(props)
    ensures var r := SimLoop(e, s, props);
      && Full(r.pub)
      && r == s.(hasSim := r.hasSim, status := r.status, naming := r.naming, pub := r.pub)
      && (!HasKey(props, Present) ==> r.hasSim == s.hasSim && r.status == s.status)
      && (forall i | 0 <= i < |props| :: ShowsSimEntry(r, props[i].0, props[i].1))
    decreases |props|
  {
    if props != [] {
      var k, v, rest := props[0].0, props[0].1, props[1..];
      var s1 := SimUpdate(e, s, k, v);
      SimEntry(e, s, k, v);
      assert forall i | 0 <= i < |rest| :: rest[i] == props[i + 1];
      assert DistinctKeys(rest);
      SimReplyIsShown(e, s1, rest);
      LaterSimEntries(e, s1, rest, k, v);
      var r := SimLoop(e, s, props);
      forall i | 0 <= i < |props| ensures ShowsSimEntry(r, props[i].0, props[i].1) {
        if i > 0 {
          assert props[i] == rest[i - 1];
        }
      }
    }
  }

  lemma SimAnswerIsShown(e: Env, s: State, props: Props)
    requires Quiescent(e) && !s.sim.Absent? && Full(s.pub) && DistinctKeys(props)
    ensures var r := SimReply(e, s, props);
      && Full(r.pub) && r.sim.Wired? && r.network == s.network && r.oper == s.oper
      && r.calls == s.calls + (if SimToolkit in s.ifaces then 1 else 0)
      && (SimToolkit in s.ifaces && e.props(s.calls).None? ==> r.stk.Silent?)
      && forall i | 0 <= i < |props| :: ShowsSimEntry(r, props[i].0, props[i].1)
  {
    SimReplyIsShown(e, s, props);
    var s1 := SimLoop(e, s, props).(sim := Wired);
    var r := SimReply(e, s, props);
    ToolkitSetupFrame(e, s1);
    forall i | 0 <= i < |props| ensures ShowsSimEntry(r, props[i].0, props[i].1) {
      assert ShowsSimEntry(SimLoop(e, s, props), props[i].0, props[i].1);
    }
  }

  lemma ToolkitSetupFrame(e: Env, s: State)
    requires Full(s.pub)
    ensures var r := SetupStk(e, s);
      && r == s.(stk := r.stk, pub := r.pub, calls := s.calls + 1) && Full(r.pub)
      && (forall p | p != StkIdleModeText :: r.pub[p] == s.pub[p])
      && (e.props(s.calls).None? ==> r.stk.Silent? && r.pub == s.pub)
  {
    if e.props(s.calls).Some? {
      StkLoopFrame(s.(stk := Silent, calls := s.calls + 1), e.props(s.calls).value);
    }
  }

  lemma {:induction false} StkLoopFrame(s: State, props: Props)
    requires Full(s.pub)
    ensures var r := StkLoop(s, props);
      r.calls == s.calls && Full(r.pub) && forall p | p != StkIdleModeText :: r.pub[p] == s.pub[p]
    decreases |props|
  {
    if props != [] {
      StkLoopFrame(StkUpdate(s, props[0].0, props[0].1), props[1..]);
    }
  }

  /** Setting the SIM up asks for its properties, shows them all, and then asks the toolkit if
      the modem has listed it. Without an answer the proxy hears no signal. */
  lemma SimSetupIsShown(e: Env, s: State)
    requires Quiescent(e) && Full(s.pub)
    ensures var r := SetupSim(e, s);
      && Full(r.pub) && r.network == s.network && r.oper == s.oper
      && (e.props(s.calls).None? ==> r == s.(sim := Silent, calls := s.calls + 1))
      && (e.props(s.calls).Some? ==>
            var props := e.props(s.calls).value;
            && r.sim.Wired?
            && r.calls == s.calls + (if SimToolkit in s.ifaces then 2 else 1)
            && (SimToolkit in s.ifaces && e.props(s.calls + 1).None? ==> r.stk.Silent?)
            && forall i | 0 <= i < |props| :: ShowsSimEntry(r, props[i].0, props[i].1))
  {
    if e.props(s.calls).Some? {
      SimAnswerIsShown(e, s.(sim := Silent, calls := s.calls + 1), e.props(s.calls).value);
    }
  }

  /** Becoming registered without a SIM proxy sets the SIM up, and its reply is shown. */
  lemma RegisteringShowsSim(e: Env, s: State, st: CellStatus)
    requires Quiescent(e) && NewlyRegistered(e, s, st) && s.sim.Absent? && Full(s.pub)
    ensures var r := SetStatus(e, s, st);
      && !r.sim.Absent? && Full(r.pub)
      && (e.props(s.calls).None? ==> r.sim.Silent? && r.calls == s.calls + 1 && r.status == st)
      && (e.props(s.calls).Some? ==>
            var props := e.props(s.calls).value;
            r.sim.Wired? && forall i | 0 <= i < |props| :: ShowsSimEntry(r, props[i].0, props[i].1))
  {
    assert SetStatus(e, s, st) == SetupSim(e, Enter(s, st));
    SimSetupIsShown(e, Enter(s, st));
  }

  // ---- Toolkit ----

  lemma {:induction false} StkLoopKeepsText(s: State, props: Props)
    requires s.hasSim && Full(s.pub) && !HasKey(props, IdleModeText)
    ensures StkLoop(s, props) == s
    decreases |props|
  {
    if props != [] {
      assert props[0].0 != IdleModeText;
      assert forall i | 0 <= i < |props| - 1 :: props[1..][i] == props[i + 1];
      StkLoopKeepsText(s, props[1..]);
    }
  }

  lemma {:induction false} StkLoopShowsText(s: State, props: Props, v: Variant)
    requires s.hasSim && Full(s.pub) && DistinctKeys(props) && (IdleModeText, v) in props
    ensures StkLoop(s, props) == s.(pub := s.pub[StkIdleModeText := v.encoded])
    decreases |props|
  {
    var s1 := StkUpdate(s, props[0].0, props[0].1);
    assert forall i | 0 <= i < |props| - 1 :: props[1..][i] == props[i + 1];
    if props[0].0 == IdleModeText {
      assert props[0] == (IdleModeText, v);
      StkLoopKeepsText(s1, props[1..]);
    } else {
      assert DistinctKeys(props[1..]);
      StkLoopShowsText(s1, props[1..], v);
    }
  }

  lemma {:induction false} StkLoopWithoutSim(s: State, props: Props)
    requires !s.hasSim && Full(s.pub) && props != []
    ensures StkLoop(s, props) == s.(stk := Absent, pub := s.pub[StkIdleModeText := ""])
    decreases |props|
  {
    var s1 := StkUpdate(s, props[0].0, props[0].1);
    if |props| > 1 {
      StkLoopWithoutSim(s1, props[1..]);
    }
  }

  /** What a toolkit reply shows. With a SIM the idle text is published; without one any
      property takes text and proxy away. */
  lemma StkReplyIsShown(s: State, props: Props)
    requires Full(s.pub) && DistinctKeys(props)
    ensures var r := StkLoop(s, props);
      && Full(r.pub)
      && (s.hasSim ==>
            && r.stk == s.stk
            && (forall v | (IdleModeText, v) in props :: r.pub[StkIdleModeText] == v.encoded)
            && (!HasKey(props, IdleModeText) ==> r.pub == s.pub))
      && (!s.hasSim && props != [] ==> r.stk.Absent? && r.pub[StkIdleModeText] == "")
  {
    if s.hasSim && HasKey(props, IdleModeText) {
      var v := HasEntry(props, IdleModeText);
      StkLoopShowsText(s, props, v);
      OnlyEntry(props, IdleModeText, v);
    } else if s.hasSim {
      StkLoopKeepsText(s, props);
    } else if props != [] {
      StkLoopWithoutSim(s, props);
    }
  }

  lemma OnlyEntry(props: Props, k: Key, v: Variant)
    requires DistinctKeys(props) && (k, v) in props
    ensures forall w | (k, w) in props :: w == v
  {
    forall w | (k, w) in props ensures w == v {
      LookupFinds(props, k, v);
      LookupFinds(props, k, w);
    }
  }

  /** Setting the toolkit up asks for its properties; a proxy that is left hears signals only
      if there was an answer. */
  lemma ToolkitSetupIsShown(e: Env, s: State)
    requires Full(s.pub)
    ensures var r := SetupStk(e, s);
      && Full(r.pub) && r.calls == s.calls + 1
      && (e.props(s.calls).None? ==> r.stk.Silent? && r.pub == s.pub)
      && (e.props(s.calls).Some? ==>
            var props := e.props(s.calls).value;
            && (s.hasSim ==>
                  && r.stk.Wired?
                  && (forall v | (IdleModeText, v) in props :: r.pub[StkIdleModeText] == v.encoded)
                  && (!HasKey(props, IdleModeText) ==> r.pub == s.pub))
            && (!s.hasSim && props != [] ==> r.stk.Absent? && r.pub[StkIdleModeText] == ""))
  {
    ToolkitSetupFrame(e, s);
    if e.props(s.calls).Some? {
      StkReplyIsShown(s.(stk := Silent, calls := s.calls + 1), e.props(s.calls).value);
    }
  }

  // ---- Connection manager ----

  lemma {:induction false} CmLoopKeepsRoaming(s: State, props: Props)
    requires !HasKey(props, RoamingAllowed)
    ensures CmLoop(s, props) == s
    decreases |props|
  {
    if props != [] {
      assert props[0].0 != RoamingAllowed;
      assert forall i | 0 <= i < |props| - 1 :: props[1..][i] == props[i + 1];
      CmLoopKeepsRoaming(s, props[1..]);
    }
  }

  lemma {:induction false} CmLoopShowsRoaming(s: State, props: Props, v: Variant)
    requires Full(s.pub) && DistinctKeys(props) && (RoamingAllowed, v) in props
    ensures CmLoop(s, props) == s.(pub := s.pub[DataRoamingAllowed := v.encoded])
    decreases |props|
  {
    var s1 := CmUpdate(s, props[0].0, props[0].1);
    assert forall i | 0 <= i < |props| - 1 :: props[1..][i] == props[i + 1];
    if props[0].0 == RoamingAllowed {
      assert props[0] == (RoamingAllowed, v);
      CmLoopKeepsRoaming(s1, props[1..]);
    } else {
      assert DistinctKeys(props[1..]);
      CmLoopShowsRoaming(s1, props[1..], v);
    }
  }

  lemma {:induction false} ContextLoopFrame(s: State, ctxs: Objects)
    requires Full(s.pub)
    ensures var r := ContextLoop(s, ctxs);
      && r == s.(contexts := r.contexts, mms := r.mms, pub := r.pub)
      && Full(r.pub) && forall p | p != MMSContext :: r.pub[p] == s.pub[p]
    decreases |ctxs|
  {
    if ctxs != [] {
      ContextLoopFrame(AddContext(s, ctxs[0].0, ctxs[0].1), ctxs[1..]);
    }
  }

  lemma CmReplyIsShown(s: State, props: Props)
    requires Full(s.pub) && DistinctKeys(props)
    ensures var r := CmLoop(s, props);
      && Full(r.pub) && (forall p | p != DataRoamingAllowed :: r.pub[p] == s.pub[p])
      && (forall v | (RoamingAllowed, v) in props :: r.pub[DataRoamingAllowed] == v.encoded)
      && (!HasKey(props, RoamingAllowed) ==> r.pub == s.pub)
  {
    if HasKey(props, RoamingAllowed) {
      var v := HasEntry(props, RoamingAllowed);
      CmLoopShowsRoaming(s, props, v);
      OnlyEntry(props, RoamingAllowed, v);
    } else {
      CmLoopKeepsRoaming(s, props);
    }
  }

  lemma QueryFrame(e: Env, s: State)
    requires Full(s.pub)
    ensures var r := QueryContexts(e, s);
      && r == s.(contexts := r.contexts, mms := r.mms, pub := r.pub, calls := s.calls + 1)
      && Full(r.pub) && forall p | p != MMSContext :: r.pub[p] == s.pub[p]
  {
    if e.objects(s.calls).Some? {
      ContextLoopFrame(s.(calls := s.calls + 1), e.objects(s.calls).value);
    }
  }

  lemma ManagerSetupFrame(e: Env, s: State)
    requires Full(s.pub)
    ensures var r := SetupCm(e, s);
      && r == s.(cm := true, contexts := r.contexts, mms := r.mms, pub := r.pub, calls := r.calls)
      && Full(r.pub)
      && forall p | p != MMSContext && p != DataRoamingAllowed :: r.pub[p] == s.pub[p]
  {
    if e.props(s.calls).Some? {
      var s1 := s.(cm := true, calls := s.calls + 1);
      CmReplyIsShown(s1, e.props(s.calls).value);
      QueryFrame(e, CmLoop(s1, e.props(s.calls).value));
    }
  }

  /** Setting the connection manager up asks for its properties and shows whether roaming is
      allowed; only then it asks for the contexts. */
  lemma ManagerSetupIsShown(e: Env, s: State)
    requires Full(s.pub)
    ensures var r := SetupCm(e, s);
      && r.cm && Full(r.pub)
      && (e.props(s.calls).None? ==> r == s.(cm := true, calls := s.calls + 1))
      && (e.props(s.calls).Some? ==>
            var props := e.props(s.calls).value;
            && r.calls == s.calls + 2
            && (forall v | (RoamingAllowed, v) in props :: r.pub[DataRoamingAllowed] == v.encoded)
            && (!HasKey(props, RoamingAllowed) ==> r.pub[DataRoamingAllowed] == s.pub[DataRoamingAllowed]))
  {
    if e.props(s.calls).Some? {
      var s1 := s.(cm := true, calls := s.calls + 1);
      CmReplyIsShown(s1, e.props(s.calls).value);
      QueryFrame(e, CmLoop(s1, e.props(s.calls).value));
    }
  }

  // ---- Resets ----

  /** Resetting the SIM blanks the table and drops three proxies for good, unless the SIM is
      set up again on the way, which it is exactly with NoSim in the registered set. */
  lemma SimResetIsShown(e: Env, s: State)
    requires Inv(s)
    ensures var r := ResetSim(e, s);
      && Blank(r.pub, "no-sim") && SameOutside(s, r)
      && (CellStatus.NoSim !in e.registered || s.status in e.registered || !s.modem || s.status == CellStatus.NoSim ==>
            && r.sim.Absent? && !r.network && !r.oper && r.status == CellStatus.NoSim
            && r.stk == s.stk && r.calls == s.calls)
  {
    ResetSimKeeps(e, s);
    var s0 := s.(oper := false, network := false, sim := Absent);
    assert Inv(s0);
    SetStatusKeeps(e, s0, CellStatus.NoSim);
    ResetIsBlank(SetStatus(e, s0, CellStatus.NoSim).pub, true);
  }

  /** The status after losing the network, before the table is reset. */
  lemma OfflineDropsNetwork(e: Env, s: State)
    requires !s.network && !s.oper && Sensible(e)
    ensures var r := SetStatus(e, s, Offline);
      && (s.hasSim ==> r.hasSim)
      && (s.hasSim || s.status == CellStatus.NoSim || CellStatus.NoSim !in e.registered ==>
            !r.network && !r.oper && r.hasSim == s.hasSim && r.sim == s.sim && r.stk == s.stk && r.calls == s.calls)
  {
    if !s.hasSim && s.status != CellStatus.NoSim && s.status != Offline {
      assert SetStatus(e, s, Offline) == SetStatus(e, s, CellStatus.NoSim);
    }
  }

  lemma NetworkResetBlanks(e: Env, s: State)
    requires Inv(s)
    ensures var r := ResetNetwork(e, s);
      Blank(r.pub, if r.hasSim then "offline" else "no-sim") && SameOutside(s, r)
  {
    var s0 := s.(oper := false, network := false);
    var s1 := SetStatus(e, s0, Offline);
    assert Inv(s0);
    SetStatusKeeps(e, s0, Offline);
    ResetIsBlank(s1.pub, !s1.hasSim);
  }

  /** Resetting the network blanks the table and drops two proxies. With a SIM the bridge is
      Offline then; without one it is at NoSim, and no query is made unless NoSim counts as
      registered. */
  lemma NetworkResetIsShown(e: Env, s: State)
    requires Inv(s) && Sensible(e) && SimSafeOrNew(s)
    ensures var r := ResetNetwork(e, s);
      && Blank(r.pub, if r.hasSim then "offline" else "no-sim") && SameOutside(s, r)
      && Verdict(r)
      && (s.hasSim ==> r.hasSim)
      && (s.hasSim || s.status == CellStatus.NoSim || CellStatus.NoSim !in e.registered ==>
            !r.network && !r.oper && r.hasSim == s.hasSim && r.sim == s.sim && r.stk == s.stk && r.calls == s.calls)
  {
    var s0 := s.(oper := false, network := false);
    NetworkResetBlanks(e, s);
    OfflineVerdict(e, s0);
    OfflineDropsNetwork(e, s0);
  }

  /** An operator property without a SIM proxy resets the network first. */
  lemma OperatorWithoutSim(e: Env, s: State, k: Key, v: Variant)
    requires Inv(s) && Sensible(e) && SimSafeOrNew(s) && s.sim.Absent?
    requires s.hasSim || s.status == CellStatus.NoSim || CellStatus.NoSim !in e.registered
    ensures var r := OperUpdate(e, s, k, v);
      && !r.network && !r.oper && Verdict(r) && Full(r.pub)
      && r.pub[SignalStrength] == "0" && r.pub[CellName] == ""
      && (k == Name ==> r.operName == v.toString)
  {
    NetworkResetIsShown(e, s);
  }

  // ---- Lists of interfaces ----

  lemma StkEdgeFrame(e: Env, s: State, edge: Edge)
    requires Full(s.pub)
    ensures var r := StkEdge(e, s, edge);
      && r == s.(stk := r.stk, pub := r.pub, calls := r.calls) && Full(r.pub)
      && forall p | p != StkIdleModeText :: r.pub[p] == s.pub[p]
  {
    ToolkitSetupFrame(e, s);
  }

  lemma CmEdgeFrame(e: Env, s: State, edge: Edge)
    requires Full(s.pub)
    ensures var r := CmEdge(e, s, edge);
      && r == s.(cm := r.cm, contexts := r.contexts, mms := r.mms, pub := r.pub, calls := r.calls)
      && Full(r.pub) && forall p | p != MMSContext && p != DataRoamingAllowed :: r.pub[p] == s.pub[p]
  {
    if edge == Set {
      ManagerSetupFrame(e, s);
    }
  }

  /** The toolkit and the connection manager touch three properties only. */
  lemma FollowersFrame(e: Env, s: State, stk: Edge, cm: Edge)
    requires Full(s.pub)
    ensures var r := CmEdge(e, StkEdge(e, s, stk), cm);
      && r == s.(stk := r.stk, cm := r.cm, contexts := r.contexts, mms := r.mms, pub := r.pub, calls := r.calls)
      && Full(r.pub)
      && forall p | p !in {StkIdleModeText, DataRoamingAllowed, MMSContext} :: r.pub[p] == s.pub[p]
  {
    StkEdgeFrame(e, s, stk);
    CmEdgeFrame(e, StkEdge(e, s, stk), cm);
  }

  /** A list that neither gains a SIM interface nor loses a live SIM. */
  ghost predicate SimStays(s: State, now: set<Interface>) {
    EdgeOf(s.ifaces, now, SimManager) != Set && !(EdgeOf(s.ifaces, now, SimManager) == Reset && !s.sim.Absent?)
  }

  lemma SimStaysStep(e: Env, s: State, list: seq<string>)
    requires SimStays(s, GetInterfaces(list))
    ensures var now := GetInterfaces(list);
      var s1 := NetEdge(e, s, EdgeOf(s.ifaces, now, NetworkRegistration));
      ProcessInterfaces(e, s, list) ==
        CmEdge(e, StkEdge(e, s1, EdgeOf(s.ifaces, now, SimToolkit)), EdgeOf(s.ifaces, now, ConnectionManager)).(ifaces := now)
  {
    var now := GetInterfaces(list);
    EdgesUseOldSet(e, s, now);
  }

  lemma NetEdgeIfaces(e: Env, s: State, edge: Edge)
    ensures NetEdge(e, s, edge).ifaces == s.ifaces
  {
    SetupNetworkKeeps(e, s);
    ResetNetworkKeeps(e, s);
  }

  lemma EdgesUseOldSet(e: Env, s: State, now: set<Interface>)
    ensures var s1 := NetEdge(e, s, EdgeOf(s.ifaces, now, NetworkRegistration));
      s1.ifaces == s.ifaces == StkEdge(e, s1, EdgeOf(s1.ifaces, now, SimToolkit)).ifaces
  {
    NetEdgeIfaces(e, s, EdgeOf(s.ifaces, now, NetworkRegistration));
  }

  /** The literal names of the interfaces that matter. */
  lemma InterfaceNames(list: seq<string>)
    ensures SimManager in GetInterfaces(list) <==> "org.ofono.SimManager" in list
    ensures NetworkRegistration in GetInterfaces(list) <==> "org.ofono.NetworkRegistration" in list
    ensures SimToolkit in GetInterfaces(list) <==> "org.ofono.SimToolkit" in list
    ensures ConnectionManager in GetInterfaces(list) <==> "org.ofono.ConnectionManager" in list
  {
    assert STD_PREFIX + "SimManager" == "org.ofono.SimManager";
    assert STD_PREFIX + "NetworkRegistration" == "org.ofono.NetworkRegistration";
    assert STD_PREFIX + "SimToolkit" == "org.ofono.SimToolkit";
    assert STD_PREFIX + "ConnectionManager" == "org.ofono.ConnectionManager";
  }

  /** Losing the network interface takes network and operator away and blanks everything the
      network reported. With a SIM the bridge is Offline afterwards, without one at NoSim. */
  lemma ListLosesNetwork(e: Env, s: State, list: seq<string>)
    requires Inv(s) && Sensible(e) && SimSafeOrNew(s)
    requires NetworkRegistration in s.ifaces && "org.ofono.NetworkRegistration" !in list
    requires SimStays(s, GetInterfaces(list))
    ensures var r := ProcessInterfaces(e, s, list);
      && Full(r.pub) && BlankNetwork(r.pub)
      && (s.hasSim ==> r.hasSim) && Verdict(r)
      && r.pub[RegistrationStatus] == (if r.hasSim then "offline" else "no-sim")
      && (s.hasSim || s.status == CellStatus.NoSim || CellStatus.NoSim !in e.registered ==>
            !r.network && !r.oper && r.hasSim == s.hasSim && r.sim == s.sim)
  {
    var now := GetInterfaces(list);
    InterfaceNames(list);
    SimStaysStep(e, s, list);
    NetworkResetIsShown(e, s);
    FollowersFrame(e, ResetNetwork(e, s), EdgeOf(s.ifaces, now, SimToolkit), EdgeOf(s.ifaces, now, ConnectionManager));
  }

  /** Gaining the network interface sets the network up: beside a SIM its reply is shown. */
  lemma ListGainsNetwork(e: Env, s: State, list: seq<string>)
    requires s.hasSim && !s.sim.Absent? && Full(s.pub)
    requires NetworkRegistration !in s.ifaces && "org.ofono.NetworkRegistration" in list
    requires SimStays(s, GetInterfaces(list))
    ensures var r := ProcessInterfaces(e, s, list);
      && Online(r) && Full(r.pub)
      && (e.props(s.calls).Some? ==>
            var props := e.props(s.calls).value;
            && (forall i | 0 <= i < |props| :: ShowsEntry(r, props[i].0, props[i].1))
            && (!HasKey(props, Key.Status) ==> r.status == s.status))
  {
    var now := GetInterfaces(list);
    var s1 := SetupNetwork(e, s);
    InterfaceNames(list);
    SimStaysStep(e, s, list);
    NetworkSetupIsShown(e, s);
    FollowersFrame(e, s1, EdgeOf(s.ifaces, now, SimToolkit), EdgeOf(s.ifaces, now, ConnectionManager));
    if e.props(s.calls).Some? {
      FollowersKeepEntries(s1, ProcessInterfaces(e, s, list), e.props(s.calls).value);
    }
  }

  lemma FollowersKeepEntry(s: State, r: State, k: Key, v: Variant)
    requires Full(s.pub) && Full(r.pub) && ShowsEntry(s, k, v)
    requires r.status == s.status && r.netName == s.netName && r.operName == s.operName
    requires forall p | p !in {StkIdleModeText, DataRoamingAllowed, MMSContext} :: r.pub[p] == s.pub[p]
    ensures ShowsEntry(r, k, v)
  {
  }

  lemma FollowersKeepEntries(s: State, r: State, props: Props)
    requires Full(s.pub) && Full(r.pub)
    requires r.status == s.status && r.netName == s.netName && r.operName == s.operName
    requires forall p | p !in {StkIdleModeText, DataRoamingAllowed, MMSContext} :: r.pub[p] == s.pub[p]
    requires forall i | 0 <= i < |props| :: ShowsEntry(s, props[i].0, props[i].1)
    ensures forall i | 0 <= i < |props| :: ShowsEntry(r, props[i].0, props[i].1)
  {
    forall i | 0 <= i < |props| ensures ShowsEntry(r, props[i].0, props[i].1) {
      FollowersKeepEntry(s, r, props[i].0, props[i].1);
    }
  }

  /** Without a change of the network interface the network is left alone. */
  lemma ListKeepsNetwork(e: Env, s: State, list: seq<string>)
    requires Full(s.pub) && SimStays(s, GetInterfaces(list))
    requires NetworkRegistration in s.ifaces <==> "org.ofono.NetworkRegistration" in list
    ensures var r := ProcessInterfaces(e, s, list);
      && r.network == s.network && r.oper == s.oper && r.status == s.status && r.hasSim == s.hasSim
      && Full(r.pub)
      && forall p | p !in {StkIdleModeText, DataRoamingAllowed, MMSContext} :: r.pub[p] == s.pub[p]
  {
    var now := GetInterfaces(list);
    InterfaceNames(list);
    SimStaysStep(e, s, list);
    FollowersFrame(e, s, EdgeOf(s.ifaces, now, SimToolkit), EdgeOf(s.ifaces, now, ConnectionManager));
  }

  /** Losing the interface of a live SIM ends the processing: everything is blank, and what
      the list says of other interfaces is only remembered. */
  lemma ListLosesSim(e: Env, s: State, list: seq<string>)
    requires Inv(s) && SimManager in s.ifaces && "org.ofono.SimManager" !in list && !s.sim.Absent?
    ensures var r := ProcessInterfaces(e, s, list);
      && Blank(r.pub, "no-sim") && r.contexts == s.contexts && r.cm == s.cm
      && (CellStatus.NoSim !in e.registered ==>
            && r.sim.Absent? && !r.network && !r.oper && r.status == CellStatus.NoSim
            && r.stk == s.stk && r.calls == s.calls)
  {
    InterfaceNames(list);
    SimResetIsShown(e, s);
  }

  /** Gaining the SIM interface alone sets the SIM up. */
  lemma ListGainsSim(e: Env, s: State, list: seq<string>)
    requires Quiescent(e) && Full(s.pub)
    requires SimManager !in s.ifaces && GetInterfaces(list) == s.ifaces + {SimManager}
    ensures var r := ProcessInterfaces(e, s, list);
      && !r.sim.Absent? && r.network == s.network && Full(r.pub)
      && (e.props(s.calls).None? ==> r.calls == s.calls + 1 && r.pub == s.pub)
      && (e.props(s.calls).Some? ==>
            var props := e.props(s.calls).value;
            r.sim.Wired? && forall i | 0 <= i < |props| :: ShowsSimEntry(r, props[i].0, props[i].1))
  {
    var now, s1 := GetInterfaces(list), SetupSim(e, s);
    SimSetupIsShown(e, s);
    SetupSimKeeps(e, s);
    OnlySimChanges(e, s1, now);
    assert ProcessInterfaces(e, s, list) == s1.(ifaces := now);
    if e.props(s.calls).Some? {
      var props := e.props(s.calls).value;
      forall i | 0 <= i < |props| ensures ShowsSimEntry(s1.(ifaces := now), props[i].0, props[i].1) {
        assert ShowsSimEntry(s1, props[i].0, props[i].1);
      }
    }
  }

  lemma OnlySimChanges(e: Env, s: State, now: set<Interface>)
    requires now == s.ifaces + {SimManager}
    ensures FollowAfterSim(e, s, now) == s
  {
    var i := s.ifaces;
    assert EdgeOf(i, now, NetworkRegistration) in {UnchangedSet, UnchangedReset};
    assert EdgeOf(i, now, SimToolkit) in {UnchangedSet, UnchangedReset};
    assert EdgeOf(i, now, ConnectionManager) in {UnchangedSet, UnchangedReset};
  }

  /** A list that brings SIM and network asks for the SIM first. If that is present, the next
      answer is the network's, and the entries of both are shown. */
  lemma ListGainsBoth(e: Env, s: State, list: seq<string>, sim: PropMap, present: Variant)
    requires Quiescent(e) && Full(s.pub) && SimToolkit !in s.ifaces
    requires SimManager !in s.ifaces && "org.ofono.SimManager" in list
    requires NetworkRegistration !in s.ifaces && "org.ofono.NetworkRegistration" in list
    requires e.props(s.calls) == Some(sim) && (Present, present) in sim && present.toBool
    ensures var r := ProcessInterfaces(e, s, list);
      && Online(r) && Full(r.pub)
      && (forall i | 0 <= i < |sim| :: ShowsSimEntry(r, sim[i].0, sim[i].1))
      && (e.props(s.calls + 1).Some? ==>
            var net := e.props(s.calls + 1).value;
            forall i | 0 <= i < |net| :: ShowsEntry(r, net[i].0, net[i].1))
  {
    var now, s1 := GetInterfaces(list), SetupSim(e, s);
    var s2, r := SetupNetwork(e, s1), ProcessInterfaces(e, s, list);
    InterfaceNames(list);
    SimSetupIsShown(e, s);
    PresentIsShown(s1, sim, present);
    NetworkSetupIsShown(e, s1);
    BothSetUp(e, s, list);
    FollowersFrame(e, s2, EdgeOf(s.ifaces, now, SimToolkit), EdgeOf(s.ifaces, now, ConnectionManager));
    NetworkLeavesHome(e, s1);
    forall i | 0 <= i < |sim| ensures ShowsSimEntry(r, sim[i].0, sim[i].1) {
      assert ShowsSimEntry(s1, sim[i].0, sim[i].1);
    }
    if e.props(s.calls + 1).Some? {
      FollowersKeepEntries(s2, r, e.props(s.calls + 1).value);
    }
  }

  lemma PresentIsShown(s: State, sim: Props, present: Variant)
    requires (Present, present) in sim && present.toBool
    requires forall i | 0 <= i < |sim| :: ShowsSimEntry(s, sim[i].0, sim[i].1)
    ensures s.hasSim
  {
    var i :| 0 <= i < |sim| && sim[i] == (Present, present);
    assert ShowsSimEntry(s, sim[i].0, sim[i].1);
  }

  /** The network's properties are not those of the SIM's home. */
  lemma NetworkLeavesHome(e: Env, s: State)
    requires s.hasSim && !s.sim.Absent? && Full(s.pub)
    ensures var r := SetupNetwork(e, s);
      Full(r.pub) && r.pub[HomeMCC] == s.pub[HomeMCC] && r.pub[HomeMNC] == s.pub[HomeMNC]
  {
    NetworkSetupIsShown(e, s);
    if e.props(s.calls).Some? {
      assert Unconcerned(e.props(s.calls).value, HomeMCC) && Unconcerned(e.props(s.calls).value, HomeMNC);
    }
  }

  lemma BothSetUp(e: Env, s: State, list: seq<string>)
    requires SimManager !in s.ifaces && SimManager in GetInterfaces(list)
    requires NetworkRegistration !in s.ifaces && NetworkRegistration in GetInterfaces(list)
    ensures var now := GetInterfaces(list);
      var s2 := SetupNetwork(e, SetupSim(e, s));
      ProcessInterfaces(e, s, list) ==
        CmEdge(e, StkEdge(e, s2, EdgeOf(s.ifaces, now, SimToolkit)), EdgeOf(s.ifaces, now, ConnectionManager)).(ifaces := now)
  {
    SetupSimKeeps(e, s);
    EdgesUseOldSet(e, SetupSim(e, s), GetInterfaces(list));
  }

  /** What each edge of the toolkit's interface does. */
  lemma ToolkitEdge(e: Env, s: State, edge: Edge)
    requires Full(s.pub)
    ensures var r := StkEdge(e, s, edge);
      && Full(r.pub)
      && (edge == Reset ==> r.stk.Absent? && r.pub[StkIdleModeText] == "")
      && (edge != Set && edge != Reset ==> r.stk == s.stk && r.pub[StkIdleModeText] == s.pub[StkIdleModeText])
      && (edge == Set && e.props(s.calls).None? ==> r.stk.Silent?)
      && (edge == Set && e.props(s.calls).Some? && s.hasSim ==>
            r.stk.Wired?
            && forall v | (IdleModeText, v) in e.props(s.calls).value :: r.pub[StkIdleModeText] == v.encoded)
  {
    if edge == Set {
      ToolkitSetupIsShown(e, s);
    }
  }

  /** What a list does to the toolkit if it leaves SIM and network alone. */
  lemma ListAndToolkit(e: Env, s: State, list: seq<string>)
    requires Full(s.pub) && SimStays(s, GetInterfaces(list))
    requires NetworkRegistration in s.ifaces <==> "org.ofono.NetworkRegistration" in list
    ensures var r := ProcessInterfaces(e, s, list);
      && Full(r.pub)
      && (SimToolkit in s.ifaces && "org.ofono.SimToolkit" !in list ==>
            r.stk.Absent? && r.pub[StkIdleModeText] == "")
      && ((SimToolkit in s.ifaces <==> "org.ofono.SimToolkit" in list) ==>
            r.stk == s.stk && r.pub[StkIdleModeText] == s.pub[StkIdleModeText])
      && (SimToolkit !in s.ifaces && "org.ofono.SimToolkit" in list ==>
            && (e.props(s.calls).None? ==> r.stk.Silent?)
            && (e.props(s.calls).Some? && s.hasSim ==>
                  r.stk.Wired?
                  && forall v | (IdleModeText, v) in e.props(s.calls).value :: r.pub[StkIdleModeText] == v.encoded))
  {
    var now := GetInterfaces(list);
    InterfaceNames(list);
    SimStaysStep(e, s, list);
    var edge := EdgeOf(s.ifaces, now, SimToolkit);
    ToolkitEdge(e, s, edge);
    CmEdgeFrame(e, StkEdge(e, s, edge), EdgeOf(s.ifaces, now, ConnectionManager));
  }

  /** What a list does to the connection manager if it leaves SIM and network alone. */
  lemma ListAndManager(e: Env, s: State, list: seq<string>)
    requires Full(s.pub) && SimStays(s, GetInterfaces(list))
    requires NetworkRegistration in s.ifaces <==> "org.ofono.NetworkRegistration" in list
    requires SimToolkit in s.ifaces <==> "org.ofono.SimToolkit" in list
    ensures var r := ProcessInterfaces(e, s, list);
      && Full(r.pub)
      && (ConnectionManager in s.ifaces && "org.ofono.ConnectionManager" !in list ==>
            !r.cm && r.contexts == map[] && r.pub[MMSContext] == "")
      && ((ConnectionManager in s.ifaces <==> "org.ofono.ConnectionManager" in list) ==>
            r.cm == s.cm && r.contexts == s.contexts && r.pub == s.pub && r.calls == s.calls)
      && (ConnectionManager !in s.ifaces && "org.ofono.ConnectionManager" in list ==>
            && r.cm
            && (e.props(s.calls).Some? ==>
                  r.calls == s.calls + 2
                  && forall v | (RoamingAllowed, v) in e.props(s.calls).value :: r.pub[DataRoamingAllowed] == v.encoded))
  {
    InterfaceNames(list);
    SimStaysStep(e, s, list);
    ManagerSetupIsShown(e, s);
    ResetCmClears(s);
  }

  // ---- Signals ----

  /** A status that the network reports is published with its text, whatever it was before. */
  lemma ReportedStatusIsPublished(e: Env, s: State, v: Variant)
    requires Online(s) && Full(s.pub) && Coherent(s)
    ensures var r := Step(e, s, NetworkChanged(Key.Status, v));
      && Full(r.pub) && r.pub[Prop.Status] == v.encoded
      && r.pub[RegistrationStatus] ==
           if v.toString == "registered" then "home"
           else if v.toString == "roaming" then "roam"
           else if v.toString == "denied" then "forbidden"
           else "offline"
  {
    var s1 := Publish(s, Prop.Status, v.encoded);
    RegistrationTexts(v.toString);
    OnlineStatus(e, s1, MapStatus(v.toString));
    assert NetUpdate(e, s, Key.Status, v) == NetAction(e, s, Key.Status, v) == SetStatus(e, s1, MapStatus(v.toString));
  }

  lemma NetworkSignalIsShown(e: Env, s: State, k: Key, v: Variant)
    requires Online(s) && Full(s.pub)
    ensures var r := Step(e, s, NetworkChanged(k, v));
      && Online(r) && ShowsEntry(r, k, v)
      && forall p | p !in TargetsOf(k) :: r.pub[p] == s.pub[p]
  {
    NetworkEntry(e, s, k, v);
  }

  lemma SimSignalIsShown(e: Env, s: State, k: Key, v: Variant)
    requires Quiescent(e) && s.sim.Wired? && Full(s.pub)
    ensures var r := Step(e, s, SimChanged(k, v));
      && ShowsSimEntry(r, k, v)
      && (k == Present ==>
            r.status == if !v.toBool then CellStatus.NoSim else if s.network then s.status else Offline)
      && forall p | p !in SimTargetsOf(k) :: r.pub[p] == s.pub[p]
  {
    SimEntry(e, s, k, v);
  }

  /** The operator's name is shown unless the network has one of its own; nothing else that an
      operator reports matters. */
  lemma OperatorSignalIsShown(e: Env, s: State, k: Key, v: Variant)
    requires s.oper && !s.sim.Absent? && Full(s.pub)
    ensures Step(e, s, OperatorChanged(k, v)) ==
      if k != Name then s
      else s.(operName := v.toString,
              pub := Renamed(s.pub, if s.netName == "" then v.toString else s.netName))
  {
  }

  /** With a SIM the idle text is shown; without one the toolkit goes. */
  lemma ToolkitSignalIsShown(e: Env, s: State, k: Key, v: Variant)
    requires s.stk.Wired? && Full(s.pub)
    ensures var r := Step(e, s, StkChanged(k, v));
      && Full(r.pub)
      && (!s.hasSim ==> r.stk.Absent? && r.pub[StkIdleModeText] == "")
      && (s.hasSim ==>
            r.stk.Wired? && r.pub[StkIdleModeText] == if k == IdleModeText then v.encoded else s.pub[StkIdleModeText])
      && forall p | p != StkIdleModeText :: r.pub[p] == s.pub[p]
  {
  }

  lemma ManagerSignalIsShown(e: Env, s: State, k: Key, v: Variant)
    requires s.cm && Full(s.pub)
    ensures Step(e, s, CmChanged(k, v)) ==
      s.(pub := if k == RoamingAllowed then s.pub[DataRoamingAllowed := v.encoded] else s.pub)
  {
  }

  /** Powering the modem off resets the SIM, but only if there is no SIM proxy; powering it on
      does nothing. */
  lemma PowerSignal(e: Env, s: State, v: Variant)
    requires Inv(s) && s.modem
    ensures var r := Step(e, s, ModemChanged(Powered, v));
      && (v.toBool || !s.sim.Absent? ==> r == s)
      && (!v.toBool && s.sim.Absent? ==> Blank(r.pub, "no-sim"))
      && (!v.toBool && s.sim.Absent? && CellStatus.NoSim !in e.registered ==>
            !r.network && !r.oper && r.status == CellStatus.NoSim)
  {
    SimResetIsShown(e, s);
  }

  /** Losing the service drops the manager and blanks the table. */
  lemma LossIsShown(e: Env, s: State)
    requires Full(s.pub)
    ensures var r := Step(e, s, ServiceLost);
      r == s.(manager := Absent, pub := r.pub) && Blank(r.pub, "offline")
  {
    ResetIsBlank(s.pub, false);
  }
}
