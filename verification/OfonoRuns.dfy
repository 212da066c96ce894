/** Whole runs of the oFono bridge: every sequence of signals and service changes, with
    every sequence of replies (src/ofono/provider_ofono.cpp). */
module OfonoRuns {
  import opened Values
  import opened OfonoTypes
  import opened OfonoModel
  import opened OfonoFacts

  // ---- Resetting the SIM ----

  /** Resetting the SIM from here makes `set_status` set the SIM up again, and the query
      finds it present. A caller can decide this before the reset. */
  predicate Revived(e: Env, s: State) {
    && s.modem && s.status != CellStatus.NoSim
    && CellStatus.NoSim in e.registered && s.status !in e.registered
    && SimReported(e, s.calls)
  }

  lemma ResetSimKeeps(e: Env, s: State)
    requires Inv(s)
    ensures Inv(ResetSim(e, s)) && SimSafe(ResetSim(e, s)) && SameOutside(s, ResetSim(e, s))
  {
    var s0 := s.(oper := false, network := false, sim := Absent);
    assert Inv(s0);
    SetStatusKeeps(e, s0, CellStatus.NoSim);
    ResetTableKeeps(SetStatus(e, s0, CellStatus.NoSim), true);
  }

  /** After `reset_sim` the published registration is coherent exactly when no SIM came
      back during the reset; if one did, "no-sim" is published for an offline modem. */
  lemma ResetSimCoherentIff(e: Env, s: State)
    requires Sensible(e) && Inv(s)
    ensures ResetSim(e, s).status == if Revived(e, s) then Offline else CellStatus.NoSim
    ensures Coherent(ResetSim(e, s)) <==> !Revived(e, s)
  {
    var s0 := s.(oper := false, network := false, sim := Absent);
    var s1 := SetStatus(e, s0, CellStatus.NoSim);
    assert Inv(s0);
    SetStatusKeeps(e, s0, CellStatus.NoSim);
    ResetTableKeeps(s1, true);
    if s.status != CellStatus.NoSim {
      SetupSimVerdict(e, Enter(s0, CellStatus.NoSim));
    }
  }

  /** With the intended registered set no reset can revive a SIM. */
  lemma IntendedNeverRevives(e: Env, s: State)
    requires e.registered == AS_INTENDED
    ensures Sensible(e) && !Revived(e, s)
  {
  }

  /** Removing the modem takes away all proxies but the toolkit's and all contexts, without a
      query, and every property returns to its default, except for "no-sim". The interface
      set stays, and `has_sim_` stays if the status already was NoSim. */
  lemma ModemRemovalResets(e: Env, s: State)
    requires Full(s.pub)
    ensures var r := ResetModem(e, s);
      && !r.modem && r.modemPath == "" && r.sim.Absent? && !r.network && !r.oper && !r.cm
      && r.contexts == map[] && r.mms == "" && r.status == CellStatus.NoSim
      && r.calls == s.calls && r.stk == s.stk && r.ifaces == s.ifaces
      && (r.hasSim <==> s.hasSim && s.status == CellStatus.NoSim)
      && Full(r.pub)
      && (forall p: Prop ::
            r.pub[p] == if p == RegistrationStatus then "no-sim" else DefaultOf(p))
  {
    FirstMmsMeaning(map[], "");
  }

  // ---- Connection manager ----

  lemma UpdateMmsKeeps(e: Env, s: State, t: State)
    requires t == s.(contexts := t.contexts, cm := t.cm)
    ensures Kept(e, s, UpdateMms(t))
    ensures Full(s.pub) ==> UpdateMms(t).pub[MMSContext] == UpdateMms(t).mms == FirstMms(t.contexts)
  {
    if TableOk(s.pub) {
      PublishKeepsTable(s.pub, MMSContext, FirstMms(t.contexts));
    }
  }

  /** Resetting the connection manager empties the cache, the choice and the property. */
  lemma ResetCmClears(s: State)
    requires Full(s.pub)
    ensures var r := ResetCm(s);
      !r.cm && r.contexts == map[] && Full(r.pub) && r.pub[MMSContext] == r.mms == ""
  {
    FirstMmsMeaning(map[], "");
  }

  lemma CmUpdateKeeps(e: Env, s: State, k: Key, v: Variant)
    ensures Kept(e, s, CmUpdate(s, k, v))
  {
    PublishKeeps(e, s, DataRoamingAllowed, v.encoded);
  }

  lemma {:induction false} CmLoopKeeps(e: Env, s: State, props: Props)
    ensures Kept(e, s, CmLoop(s, props))
    decreases |props|
  {
    if props != [] {
      var s1 := CmUpdate(s, props[0].0, props[0].1);
      CmUpdateKeeps(e, s, props[0].0, props[0].1);
      CmLoopKeeps(e, s1, props[1..]);
      KeptTransitive(e, s, s1, CmLoop(s, props));
    }
  }

  lemma {:induction false} ContextLoopKeeps(e: Env, s: State, ctxs: Objects)
    ensures Kept(e, s, ContextLoop(s, ctxs)) && ContextLoop(s, ctxs).ifaces == s.ifaces
    decreases |ctxs|
  {
    if ctxs != [] {
      UpdateMmsKeeps(e, s, s.(contexts := s.contexts[ctxs[0].0 := ContextOf(ctxs[0].1)]));
      ContextLoopKeeps(e, AddContext(s, ctxs[0].0, ctxs[0].1), ctxs[1..]);
    }
  }

  lemma QueryContextsKeeps(e: Env, s: State)
    ensures Kept(e, s, QueryContexts(e, s)) && QueryContexts(e, s).ifaces == s.ifaces
  {
    var s1 := s.(calls := s.calls + 1);
    assert Kept(e, s, s1);
    match e.objects(s.calls) {
      case None =>
      case Some(ctxs) =>
        ContextLoopKeeps(e, s1, ctxs);
        KeptTransitive(e, s, s1, ContextLoop(s1, ctxs));
    }
  }

  lemma CmReplyKeeps(e: Env, s: State, props: Props)
    ensures var r := QueryContexts(e, CmLoop(s, props));
      Kept(e, s, r) && r.ifaces == s.ifaces
  {
    var s1 := CmLoop(s, props);
    CmLoopKeeps(e, s, props);
    QueryContextsKeeps(e, s1);
    KeptTransitive(e, s, s1, QueryContexts(e, s1));
  }

  lemma SetupCmKeeps(e: Env, s: State)
    ensures Kept(e, s, SetupCm(e, s)) && SetupCm(e, s).ifaces == s.ifaces
  {
    var s1 := s.(cm := true, calls := s.calls + 1);
    assert Kept(e, s, s1);
    match e.props(s.calls) {
      case None =>
      case Some(props) =>
        CmReplyKeeps(e, s1, props);
        KeptTransitive(e, s, s1, SetupCm(e, s));
    }
  }

  lemma CmEdgeKeeps(e: Env, s: State, edge: Edge)
    ensures Kept(e, s, CmEdge(e, s, edge)) && CmEdge(e, s, edge).ifaces == s.ifaces
  {
    if edge == Set {
      SetupCmKeeps(e, s);
    } else if edge == Reset {
      UpdateMmsKeeps(e, s, s.(cm := false, contexts := map[]));
    }
  }

  // ---- Modem ----

  /** `Kept`, with coherence only under a condition. */
  ghost predicate KeptWhen(e: Env, s: State, r: State, quiet: bool) {
    Inv(s) ==>
      && Inv(r)
      && (SimSafe(s) ==> SimSafe(r))
      && (SimSafeOrNew(s) ==> SimSafeOrNew(r))
      && (quiet && Sensible(e) && SimSafeOrNew(s) && Coherent(s) ==> Coherent(r))
  }

  ghost predicate LosesSim(s: State, list: seq<string>) {
    EdgeOf(s.ifaces, GetInterfaces(list), SimManager) == Reset && !s.sim.Absent?
  }

  /** Processing this modem property does not revive a SIM in a reset. */
  ghost predicate ModemQuiet(e: Env, s: State, k: Key, v: Variant) {
    && (k == Interfaces && LosesSim(s, v.toStringList) ==> !Revived(e, s))
    && (k == Powered && !v.toBool && s.sim.Absent? ==> !Revived(e, s))
  }

  ghost predicate ModemLoopQuiet(e: Env, s: State, props: Props)
    decreases |props|
  {
    props == [] ||
    (ModemQuiet(e, s, props[0].0, props[0].1)
     && ModemLoopQuiet(e, ModemUpdate(e, s, props[0].0, props[0].1), props[1..]))
  }

  lemma SimEdgeKeeps(e: Env, s: State, edge: Edge)
    ensures Kept(e, s, SimEdge(e, s, edge))
  {
    SetupSimKeeps(e, s);
  }

  lemma StkEdgeKeeps(e: Env, s: State, edge: Edge)
    ensures Kept(e, s, StkEdge(e, s, edge))
  {
    SetupStkKeeps(e, s);
    ResetStkKeeps(e, s);
  }

  lemma FollowAfterSimKeeps(e: Env, s: State, now: set<Interface>)
    ensures Kept(e, s, FollowAfterSim(e, s, now))
  {
    var net := EdgeOf(s.ifaces, now, NetworkRegistration);
    var s1 := NetEdge(e, s, net);
    NetEdgeKeeps(e, s, net);
    var stk := EdgeOf(s1.ifaces, now, SimToolkit);
    var s2 := StkEdge(e, s1, stk);
    StkEdgeKeeps(e, s1, stk);
    KeptTransitive(e, s, s1, s2);
    var cm := EdgeOf(s2.ifaces, now, ConnectionManager);
    CmEdgeKeeps(e, s2, cm);
    KeptTransitive(e, s, s2, CmEdge(e, s2, cm));
  }

  /** `KeptWhen` for a SIM reset. */
  lemma ResetSimKeptWhen(e: Env, s: State)
    ensures KeptWhen(e, s, ResetSim(e, s), !Revived(e, s))
  {
    if Inv(s) {
      ResetSimKeeps(e, s);
      if Sensible(e) {
        ResetSimCoherentIff(e, s);
      }
    }
  }

  lemma StoringKeeps(e: Env, s: State, r: State, now: set<Interface>, quiet: bool)
    requires KeptWhen(e, s, r, quiet)
    ensures KeptWhen(e, s, r.(ifaces := now), quiet)
  {
  }

  lemma ProcessInterfacesKeeps(e: Env, s: State, list: seq<string>)
    ensures KeptWhen(e, s, ProcessInterfaces(e, s, list), LosesSim(s, list) ==> !Revived(e, s))
  {
    var now := GetInterfaces(list);
    if LosesSim(s, list) {
      ResetSimKeptWhen(e, s);
      StoringKeeps(e, s, ResetSim(e, s), now, !Revived(e, s));
    } else {
      var s1 := SimEdge(e, s, EdgeOf(s.ifaces, now, SimManager));
      var r := FollowAfterSim(e, s1, now);
      EdgesKeep(e, s, now);
      StoringKeeps(e, s, r, now, true);
    }
  }

  lemma EdgesKeep(e: Env, s: State, now: set<Interface>)
    ensures var s1 := SimEdge(e, s, EdgeOf(s.ifaces, now, SimManager));
      KeptWhen(e, s, FollowAfterSim(e, s1, now), true)
  {
    var edge := EdgeOf(s.ifaces, now, SimManager);
    var s1 := SimEdge(e, s, edge);
    SimEdgeKeeps(e, s, edge);
    FollowAfterSimKeeps(e, s1, now);
    KeptTransitive(e, s, s1, FollowAfterSim(e, s1, now));
  }

  lemma NetEdgeKeeps(e: Env, s: State, edge: Edge)
    ensures Kept(e, s, NetEdge(e, s, edge))
  {
    SetupNetworkKeeps(e, s);
    ResetNetworkKeeps(e, s);
  }

  lemma ModemUpdateKeeps(e: Env, s: State, k: Key, v: Variant)
    ensures KeptWhen(e, s, ModemUpdate(e, s, k, v), ModemQuiet(e, s, k, v))
  {
    if k == Interfaces {
      ProcessInterfacesKeeps(e, s, v.toStringList);
    } else if k == Powered && !v.toBool && s.sim.Absent? {
      ResetSimKeptWhen(e, s);
    }
  }

  lemma {:induction false} ModemLoopKeeps(e: Env, s: State, props: Props)
    ensures KeptWhen(e, s, ModemLoop(e, s, props), ModemLoopQuiet(e, s, props))
    decreases |props|
  {
    if props != [] {
      ModemUpdateKeeps(e, s, props[0].0, props[0].1);
      ModemLoopKeeps(e, ModemUpdate(e, s, props[0].0, props[0].1), props[1..]);
    }
  }

  ghost predicate SetupModemQuiet(e: Env, s: State, path: string, props: Props) {
    IsHardware(props) ==> ModemLoopQuiet(e, s.(modem := true, modemPath := path), props)
  }

  lemma SetupModemKeeps(e: Env, s: State, path: string, props: Props)
    ensures KeptWhen(e, s, SetupModem(e, s, path, props), SetupModemQuiet(e, s, path, props))
  {
    ModemLoopKeeps(e, s.(modem := true, modemPath := path), props);
  }

  /** The first hardware modem of a list, if there is one. */
  function FirstHardware(modems: Objects): Option<(string, PropMap)> {
    if modems == [] then None
    else if IsHardware(modems[0].1) then Some(modems[0])
    else FirstHardware(modems[1..])
  }

  lemma {:induction false} ModemsLoopPicksFirst(e: Env, s: State, modems: Objects)
    ensures ModemsLoop(e, s, modems) ==
      match FirstHardware(modems) {
        case None => s
        case Some(m) => SetupModem(e, s, m.0, m.1)
      }
    decreases |modems|
  {
    if modems != [] && !IsHardware(modems[0].1) {
      ModemsLoopPicksFirst(e, s, modems[1..]);
    }
  }

  lemma {:induction false} FirstHardwareIsHardware(modems: Objects)
    ensures FirstHardware(modems).Some? ==> IsHardware(FirstHardware(modems).value.1)
    decreases |modems|
  {
    if modems != [] {
      FirstHardwareIsHardware(modems[1..]);
    }
  }

  // ---- Events ----

  datatype Event =
    | Connected
    | ServiceLost
    | ModemAdded(path: string, props: PropMap)
    | ModemRemoved(path: string)
    | ModemChanged(k: Key, v: Variant)
    | SimChanged(k: Key, v: Variant)
    | NetworkChanged(k: Key, v: Variant)
    | OperatorChanged(k: Key, v: Variant)
    | StkChanged(k: Key, v: Variant)
    | CmChanged(k: Key, v: Variant)
    | ContextAdded(path: string, props: PropMap)
    | ContextRemoved(path: string)
    | ContextChanged(path: string, k: Key, v: Variant)

  /** A signal is delivered only while its proxy lives and its signal is connected. */
  predicate Delivered(s: State, ev: Event) {
    match ev
    case Connected => true
    case ServiceLost => true
    case ModemAdded(_, _) => s.manager.Wired?
    case ModemRemoved(path) => s.manager.Wired? && path == s.modemPath
    case ModemChanged(_, _) => s.modem
    case SimChanged(_, _) => s.sim.Wired?
    case NetworkChanged(_, _) => s.network
    case OperatorChanged(_, _) => s.oper
    case StkChanged(_, _) => s.stk.Wired?
    case CmChanged(_, _) => s.cm
    case ContextAdded(_, _) => s.cm
    case ContextRemoved(_) => s.cm
    case ContextChanged(path, _, _) => path in s.contexts
  }

  ghost function Step(e: Env, s: State, ev: Event): State {
    if !Delivered(s, ev) then s
    else
      match ev
      case Connected => Connect(e, s)
      case ServiceLost => LoseService(s)
      case ModemAdded(path, props) => SetupModem(e, s, path, props)
      case ModemRemoved(path) => ResetModem(e, s)
      case ModemChanged(k, v) => ModemUpdate(e, s, k, v)
      case SimChanged(k, v) => SimUpdate(e, s, k, v)
      case NetworkChanged(k, v) => NetUpdate(e, s, k, v)
      case OperatorChanged(k, v) => OperUpdate(e, s, k, v)
      case StkChanged(k, v) => StkUpdate(s, k, v)
      case CmChanged(k, v) => CmUpdate(s, k, v)
      case ContextAdded(path, props) => AddContext(s, path, props)
      case ContextRemoved(path) => RemoveContext(s, path)
      case ContextChanged(path, k, v) => ChangeContext(s, path, k, v)
  }

  ghost function Run(e: Env, s: State, evs: seq<Event>): State
    decreases |evs|
  {
    if evs == [] then s else Run(e, Step(e, s, evs[0]), evs[1..])
  }

  /** What an event may set up: a modem given with it, or found by the first query. */
  function ModemFor(e: Env, s: State, ev: Event): Option<(string, PropMap)> {
    match ev
    case Connected => if e.objects(s.calls).None? then None else FirstHardware(e.objects(s.calls).value)
    case ModemAdded(path, props) => if IsHardware(props) then Some((path, props)) else None
    case _ => None
  }

  function Asked(s: State, ev: Event): State {
    if ev.Connected? then s.(manager := Silent, calls := s.calls + 1) else s
  }

  /** The event neither loses the service at a bad moment nor revives a SIM in a reset. */
  ghost predicate Quiet(e: Env, s: State, ev: Event) {
    Delivered(s, ev) ==>
      && (ev.ServiceLost? ==> Ckit(s.status) == "offline")
      && (ev.ModemChanged? ==> ModemQuiet(e, s, ev.k, ev.v))
      && (ModemFor(e, s, ev).Some? ==>
            var m := ModemFor(e, s, ev).value;
            SetupModemQuiet(e, Asked(s, ev), m.0, m.1))
  }

  ghost predicate QuietRun(e: Env, s: State, evs: seq<Event>)
    decreases |evs|
  {
    evs == [] || (Quiet(e, s, evs[0]) && QuietRun(e, Step(e, s, evs[0]), evs[1..]))
  }

  lemma ConnectShape(e: Env, s: State)
    ensures var s1 := Asked(s, Connected);
      Connect(e, s) ==
      match ModemFor(e, s, Connected) {
        case Some(m) => SetupModem(e, s1, m.0, m.1).(manager := Wired)
        case None => s1.(manager := if e.objects(s.calls) in {None, Some([])} then Silent else Wired)
      }
  {
    if e.objects(s.calls).Some? {
      ModemsLoopPicksFirst(e, Asked(s, Connected), e.objects(s.calls).value);
    }
  }

  lemma ManagerKeeps(e: Env, s: State, r: State, manager: Handle, quiet: bool)
    requires KeptWhen(e, s, r, quiet)
    ensures KeptWhen(e, s, r.(manager := manager), quiet)
  {
  }

  lemma AskedKeeps(e: Env, s: State, r: State, quiet: bool)
    requires KeptWhen(e, Asked(s, Connected), r, quiet)
    ensures KeptWhen(e, s, r, quiet)
  {
    assert KeptWhen(e, s, Asked(s, Connected), true);
  }

  lemma ConnectKeeps(e: Env, s: State)
    ensures KeptWhen(e, s, Connect(e, s), Quiet(e, s, Connected))
  {
    ConnectShape(e, s);
    var s1, quiet := Asked(s, Connected), Quiet(e, s, Connected);
    if ModemFor(e, s, Connected).Some? {
      var m := ModemFor(e, s, Connected).value;
      var r := SetupModem(e, s1, m.0, m.1);
      SetupModemKeeps(e, s1, m.0, m.1);
      AskedKeeps(e, s, r, quiet);
      ManagerKeeps(e, s, r, Wired, quiet);
    } else {
      AskedKeeps(e, s, s1, quiet);
      ManagerKeeps(e, s, s1, Connect(e, s).manager, quiet);
    }
  }

  lemma ContextEventKeeps(e: Env, s: State, ev: Event)
    requires ev.ContextAdded? || ev.ContextRemoved? || ev.ContextChanged?
    requires Delivered(s, ev)
    ensures KeptWhen(e, s, Step(e, s, ev), true)
    ensures Full(s.pub) ==> var r := Step(e, s, ev);
      MMSContext in r.pub && r.pub[MMSContext] == r.mms == FirstMms(r.contexts)
  {
    match ev
    case ContextAdded(path, props) =>
      UpdateMmsKeeps(e, s, s.(contexts := s.contexts[path := ContextOf(props)]));
    case ContextRemoved(path) =>
      UpdateMmsKeeps(e, s, s.(contexts := s.contexts - {path}));
    case ContextChanged(path, k, v) =>
      UpdateMmsKeeps(e, s, s.(contexts := s.contexts[path := s.contexts[path][k := v]]));
  }

  lemma LeafEventKeeps(e: Env, s: State, ev: Event)
    requires ev.SimChanged? || ev.NetworkChanged? || ev.OperatorChanged? || ev.StkChanged? || ev.CmChanged?
    requires Delivered(s, ev)
    ensures KeptWhen(e, s, Step(e, s, ev), true)
  {
    match ev
    case SimChanged(k, v) => SimUpdateKeeps(e, s, k, v);
    case NetworkChanged(k, v) => NetUpdateKeeps(e, s, k, v);
    case OperatorChanged(k, v) => OperUpdateKeeps(e, s, k, v);
    case StkChanged(k, v) => StkUpdateKeeps(e, s, k, v);
    case CmChanged(k, v) => CmUpdateKeeps(e, s, k, v);
  }

  /** The operator proxy goes during the removal, so it may as well go before it. */
  lemma RemovalForgetsOperator(e: Env, s: State)
    ensures ResetModem(e, s) == ResetModem(e, s.(oper := false))
  {
  }

  lemma ResetCmKeepsInv(e: Env, s: State)
    requires Inv(s)
    ensures Inv(ResetCm(s))
  {
    UpdateMmsKeeps(e, s, s.(cm := false, contexts := map[]));
  }

  lemma RemovalKeeps(e: Env, s: State)
    ensures KeptWhen(e, s, ResetModem(e, s), true)
  {
    if Inv(s) {
      var s0 := s.(modemPath := "", modem := false, oper := false);
      assert Inv(s0);
      ResetCmKeepsInv(e, s0);
      RemovalForgetsOperator(e, s);
      ResetSimKeeps(e, ResetCm(s0));
      ModemRemovalResets(e, s);
    }
  }

  lemma LossKeeps(e: Env, s: State)
    ensures KeptWhen(e, s, LoseService(s), Quiet(e, s, ServiceLost))
    ensures Inv(s) ==> (Coherent(LoseService(s)) <==> Ckit(s.status) == "offline")
  {
    if Inv(s) {
      ResetTableKeeps(s, false);
    }
  }

  /** One event keeps the invariants; it keeps coherence when it is quiet. */
  lemma StepKeeps(e: Env, s: State, ev: Event)
    ensures KeptWhen(e, s, Step(e, s, ev), Quiet(e, s, ev))
  {
    if Delivered(s, ev) {
      match ev
      case Connected => ConnectKeeps(e, s);
      case ServiceLost => LossKeeps(e, s);
      case ModemAdded(path, props) => SetupModemKeeps(e, s, path, props);
      case ModemRemoved(path) => RemovalKeeps(e, s);
      case ModemChanged(k, v) => ModemUpdateKeeps(e, s, k, v);
      case ContextAdded(_, _) => ContextEventKeeps(e, s, ev);
      case ContextRemoved(_) => ContextEventKeeps(e, s, ev);
      case ContextChanged(_, _, _) => ContextEventKeeps(e, s, ev);
      case _ => LeafEventKeeps(e, s, ev);
    }
  }

  // ---- Runs ----

  /** The state of a new bridge, over a namespace with its defaults. */
  ghost predicate IsInitial(s: State) {
    && s.manager.Absent? && !s.modem && s.sim.Absent? && !s.network && !s.oper
    && s.stk.Absent? && !s.cm && s.contexts == map[] && s.mms == "" && s.ifaces == {}
    && !s.hasSim && s.status == Unknown && s.naming == Home
    && Full(s.pub) && forall p: Prop :: s.pub[p] == DefaultOf(p)
  }

  lemma InitialIsGood(s: State)
    requires IsInitial(s)
    ensures Inv(s) && Coherent(s) && SimSafeOrNew(s)
  {
    FirstMmsMeaning(map[], "");
    ZeroText();
    assert ShowsStrength(s.pub, 0);
  }

  lemma {:induction false} RunKeeps(e: Env, s: State, evs: seq<Event>)
    requires Inv(s)
    ensures KeptWhen(e, s, Run(e, s, evs), QuietRun(e, s, evs))
    decreases |evs|
  {
    if evs != [] {
      StepKeeps(e, s, evs[0]);
      RunKeeps(e, Step(e, s, evs[0]), evs[1..]);
    }
  }

  /** SIM safety: in every reachable state the bridge without a SIM is at NoSim, or still
      at its first Unknown; the name setter and the proxies are consistent; the published
      cellular table is consistent; the message context cache is right, and published
      unless a bulk reset has blanked it. */
  lemma ReachableStatesAreSafe(e: Env, s: State, evs: seq<Event>)
    requires IsInitial(s)
    ensures var r := Run(e, s, evs);
      && SimSafeOrNew(r) && Named(r) && Anchored(r) && TableOk(r.pub) && NameShown(r) && MmsShown(r)
      && r.mms == FirstMms(r.contexts)
  {
    InitialIsGood(s);
    RunKeeps(e, s, evs);
  }

  /** Registration coherence in every reachable state of a quiet run. */
  lemma QuietRunsAreCoherent(e: Env, s: State, evs: seq<Event>)
    requires Sensible(e) && IsInitial(s) && QuietRun(e, s, evs)
    ensures Coherent(Run(e, s, evs))
  {
    InitialIsGood(s);
    RunKeeps(e, s, evs);
  }

  ghost predicate KeepsService(evs: seq<Event>) {
    ServiceLost !in evs
  }

  lemma {:induction false} IntendedLoopIsQuiet(e: Env, s: State, props: Props)
    requires e.registered == AS_INTENDED
    ensures ModemLoopQuiet(e, s, props)
    decreases |props|
  {
    if props != [] {
      IntendedLoopIsQuiet(e, ModemUpdate(e, s, props[0].0, props[0].1), props[1..]);
    }
  }

  lemma {:induction false} IntendedRunIsQuiet(e: Env, s: State, evs: seq<Event>)
    requires e.registered == AS_INTENDED && KeepsService(evs)
    ensures QuietRun(e, s, evs)
    decreases |evs|
  {
    if evs != [] {
      if ModemFor(e, s, evs[0]).Some? {
        var m := ModemFor(e, s, evs[0]).value;
        IntendedLoopIsQuiet(e, Asked(s, evs[0]).(modem := true, modemPath := m.0), m.1);
      }
      IntendedRunIsQuiet(e, Step(e, s, evs[0]), evs[1..]);
    }
  }

  /** With {Registered, Roaming} as the registered set, the published registration is
      coherent after every event of every run that keeps the service. */
  lemma IntendedRunsAreCoherent(e: Env, s: State, evs: seq<Event>)
    requires e.registered == AS_INTENDED && IsInitial(s) && KeepsService(evs)
    ensures Coherent(Run(e, s, evs))
  {
    IntendedRunIsQuiet(e, s, evs);
    QuietRunsAreCoherent(e, s, evs);
  }
}
