/** When the oFono bridge is at NoSim although it knows of a SIM: the converse of SIM safety
    (src/ofono/provider_ofono.cpp). */
module OfonoPresence {
  import opened Values
  import opened OfonoTypes
  import opened OfonoModel
  import opened OfonoFacts
  import opened OfonoRuns

  /** There is a SIM, and the status says that there is none. */
  predicate Disowned(s: State) {
    s.hasSim && s.status == CellStatus.NoSim
  }

  /** A SIM property after which the SIM is disowned: it turns up at NoSim, and the network
      proxy keeps the handler from setting another status. */
  predicate Disowns(s: State, k: Key, v: Variant) {
    k == Present && v.toBool && AtNoSimBesideNetwork(s)
  }

  predicate AtNoSimBesideNetwork(s: State) {
    s.network && s.status == CellStatus.NoSim
  }

  /** No `set_status` from here sets the SIM up at NoSim. */
  predicate Calm(e: Env, s: State) {
    CellStatus.NoSim !in e.registered || !s.sim.Absent?
  }

  // ---- The recursive cluster ----

  lemma {:induction false} SetStatusOwns(e: Env, s: State, st: CellStatus)
    requires Calm(e, s)
    ensures !Disowned(s) || st != s.status ==> !Disowned(SetStatus(e, s, st))
    decreases Rank(s), if st == CellStatus.NoSim then 0 else 1, 0
  {
    if st == s.status {
    } else if !s.hasSim && st != CellStatus.NoSim {
      SetStatusOwns(e, s, CellStatus.NoSim);
    } else {
      var s1 := Enter(s, st);
      if st in e.registered && s.status !in e.registered && s.modem {
        if s1.sim.Absent? {
          SetupSimDisownsIff(e, s1);
        } else if !s1.network {
          SetupNetworkOwns(e, s1);
        } else {
          EnumerateOperatorsOwns(e, s1);
        }
      }
    }
  }

  /** A SIM property disowns the SIM exactly if it turns up at NoSim beside a network proxy,
      for every registered set and every reply. */
  lemma {:induction false} SimUpdateDisownsIff(e: Env, s: State, k: Key, v: Variant)
    requires !s.sim.Absent? && !Disowned(s)
    ensures Disowned(SimUpdate(e, s, k, v)) <==> Disowns(s, k, v)
    decreases 4, 0, 0
  {
    if k == Present {
      var s1 := s.(hasSim := v.toBool);
      if !v.toBool {
        SetStatusOwns(e, s1, CellStatus.NoSim);
      } else if !s.network {
        SetStatusOwns(e, s1, Offline);
      }
    }
  }

  lemma OtherKeyNoChange(e: Env, s: State, k: Key, v: Variant)
    requires !s.sim.Absent? && k != Present
    ensures SimUpdate(e, s, k, v) == s.(pub := SimUpdate(e, s, k, v).pub)
  {
  }

  lemma {:induction false} NoPresentNoChange(e: Env, s: State, props: Props)
    requires !s.sim.Absent? && forall i | 0 <= i < |props| :: props[i].0 != Present
    ensures var r := SimLoop(e, s, props);
      r.hasSim == s.hasSim && r.status == s.status
    decreases |props|
  {
    if props != [] {
      OtherKeyNoChange(e, s, props[0].0, props[0].1);
      NoPresentNoChange(e, SimUpdate(e, s, props[0].0, props[0].1), props[1..]);
    }
  }

  lemma {:induction false} SimLoopDisownsIff(e: Env, s: State, props: Props)
    requires !s.sim.Absent? && !Disowned(s) && DistinctKeys(props)
    ensures Disowned(SimLoop(e, s, props)) <==>
      AtNoSimBesideNetwork(s) && Lookup(props, Present).toBool
    decreases 4, 1, |props|
  {
    if props != [] {
      var s1 := SimUpdate(e, s, props[0].0, props[0].1);
      SimUpdateDisownsIff(e, s, props[0].0, props[0].1);
      if props[0].0 == Present {
        NoPresentNoChange(e, s1, props[1..]);
      } else {
        OtherKeyNoChange(e, s, props[0].0, props[0].1);
        SimLoopDisownsIff(e, s1, props[1..]);
      }
    }
  }

  /** Setting the SIM up disowns it exactly if that happens at NoSim beside a network proxy and
      the query reports it present. */
  lemma {:induction false} SetupSimDisownsIff(e: Env, s: State)
    requires !Disowned(s)
    ensures Disowned(SetupSim(e, s)) <==> AtNoSimBesideNetwork(s) && SimReported(e, s.calls)
    decreases 4, 3, 0
  {
    match e.props(s.calls) {
      case None =>
      case Some(props) => SimLoopDisownsIff(e, s.(sim := Silent, calls := s.calls + 1), props);
    }
  }

  lemma {:induction false} ResetNetworkOwns(e: Env, s: State)
    requires Calm(e, s) && !Disowned(s)
    ensures !Disowned(ResetNetwork(e, s))
    decreases Rank(s.(network := false)), 2, 0
  {
    SetStatusOwns(e, s.(oper := false, network := false), Offline);
  }

  lemma {:induction false} NetActionOwns(e: Env, s: State, k: Key, v: Variant)
    requires Calm(e, s) && !Disowned(s)
    ensures !Disowned(NetAction(e, s, k, v))
    decreases Rank(s), 2, 0
  {
    if k == Key.Status {
      SetStatusOwns(e, Publish(s, Prop.Status, v.encoded), MapStatus(v.toString));
    }
  }

  lemma {:induction false} NetUpdateOwns(e: Env, s: State, k: Key, v: Variant)
    requires Calm(e, s) && !Disowned(s)
    ensures !Disowned(NetUpdate(e, s, k, v))
    decreases Rank(s), 3, 0
  {
    if !s.hasSim {
      ResetNetworkOwns(e, s);
      NetActionOwns(e, ResetNetwork(e, s), k, v);
    } else {
      NetActionOwns(e, s, k, v);
    }
  }

  lemma {:induction false} NetLoopOwns(e: Env, s: State, props: Props)
    requires Calm(e, s) && !Disowned(s)
    ensures !Disowned(NetLoop(e, s, props))
    decreases Rank(s), 4, |props|
  {
    if props != [] {
      NetUpdateOwns(e, s, props[0].0, props[0].1);
      NetLoopOwns(e, NetUpdate(e, s, props[0].0, props[0].1), props[1..]);
    }
  }

  lemma {:induction false} SetupNetworkOwns(e: Env, s: State)
    requires Calm(e, s) && !Disowned(s)
    ensures !Disowned(SetupNetwork(e, s))
    decreases Rank(s.(network := true)), 5, 0
  {
    match e.props(s.calls) {
      case None =>
      case Some(props) => NetLoopOwns(e, s.(network := true, calls := s.calls + 1), props);
    }
  }

  lemma {:induction false} OperUpdateOwns(e: Env, s: State, k: Key, v: Variant)
    requires Calm(e, s) && !Disowned(s)
    ensures !Disowned(OperUpdate(e, s, k, v))
    decreases OperRank(s), 3, 0
  {
    if s.sim.Absent? {
      ResetNetworkOwns(e, s);
    }
  }

  lemma {:induction false} OperLoopOwns(e: Env, s: State, props: Props)
    requires Calm(e, s) && !Disowned(s)
    ensures !Disowned(OperLoop(e, s, props))
    decreases OperRank(s), 4, |props|
  {
    if props != [] {
      OperUpdateOwns(e, s, props[0].0, props[0].1);
      OperLoopOwns(e, OperUpdate(e, s, props[0].0, props[0].1), props[1..]);
    }
  }

  lemma {:induction false} OpsLoopOwns(e: Env, s: State, ops: Objects)
    requires Calm(e, s) && !Disowned(s)
    ensures !Disowned(OpsLoop(e, s, ops))
    decreases OperRank(s), 5, |ops|
  {
    if ops != [] {
      if IsCurrent(ops[0].1) {
        OperLoopOwns(e, s.(oper := true), ops[0].1);
      } else {
        OpsLoopOwns(e, s, ops[1..]);
      }
    }
  }

  lemma {:induction false} EnumerateOperatorsOwns(e: Env, s: State)
    requires Calm(e, s) && !Disowned(s)
    ensures !Disowned(EnumerateOperators(e, s))
    decreases OperRank(s), 6, 0
  {
    if s.network {
      match e.objects(s.calls) {
        case None =>
        case Some(ops) => OpsLoopOwns(e, s.(calls := s.calls + 1), ops);
      }
    }
  }

  // ---- Modem ----

  /** With such a registered set every state is calm. */
  predicate AlwaysCalm(e: Env) {
    CellStatus.NoSim !in e.registered
  }

  lemma NetEdgeOwns(e: Env, s: State, edge: Edge)
    requires AlwaysCalm(e) && !Disowned(s)
    ensures !Disowned(NetEdge(e, s, edge))
  {
    SetupNetworkOwns(e, s);
    ResetNetworkOwns(e, s);
  }

  lemma StkEdgeOwns(e: Env, s: State, edge: Edge)
    ensures StkEdge(e, s, edge).hasSim == s.hasSim && StkEdge(e, s, edge).status == s.status
  {
  }

  lemma FollowAfterSimOwns(e: Env, s: State, now: set<Interface>)
    requires AlwaysCalm(e) && !Disowned(s)
    ensures !Disowned(FollowAfterSim(e, s, now))
  {
    var net := EdgeOf(s.ifaces, now, NetworkRegistration);
    var s1 := NetEdge(e, s, net);
    NetEdgeOwns(e, s, net);
    var stk := EdgeOf(s1.ifaces, now, SimToolkit);
    var s2 := StkEdge(e, s1, stk);
    StkEdgeOwns(e, s1, stk);
    CmEdgeOwns(e, s2, EdgeOf(s2.ifaces, now, ConnectionManager));
  }

  lemma CmEdgeOwns(e: Env, s: State, edge: Edge)
    ensures CmEdge(e, s, edge).hasSim == s.hasSim && CmEdge(e, s, edge).status == s.status
  {
  }

  lemma ResetSimOwns(e: Env, s: State)
    requires AlwaysCalm(e) && !Disowned(s)
    ensures !Disowned(ResetSim(e, s))
  {
    SetStatusOwns(e, s.(oper := false, network := false, sim := Absent), CellStatus.NoSim);
  }

  /** This modem property makes the bridge set a SIM up that it then disowns. */
  ghost predicate ModemDisowns(e: Env, s: State, k: Key, v: Variant) {
    && k == Interfaces && EdgeOf(s.ifaces, GetInterfaces(v.toStringList), SimManager) == Set
    && AtNoSimBesideNetwork(s) && SimReported(e, s.calls)
  }

  lemma ModemUpdateOwns(e: Env, s: State, k: Key, v: Variant)
    requires AlwaysCalm(e) && !Disowned(s) && !ModemDisowns(e, s, k, v)
    ensures !Disowned(ModemUpdate(e, s, k, v))
  {
    ResetSimOwns(e, s);
    if k == Interfaces {
      var now := GetInterfaces(v.toStringList);
      var s1 := SimEdge(e, s, EdgeOf(s.ifaces, now, SimManager));
      SetupSimDisownsIff(e, s);
      FollowAfterSimOwns(e, s1, now);
    }
  }

  ghost predicate ModemLoopDisowns(e: Env, s: State, props: Props)
    decreases |props|
  {
    props != [] &&
    (ModemDisowns(e, s, props[0].0, props[0].1)
     || ModemLoopDisowns(e, ModemUpdate(e, s, props[0].0, props[0].1), props[1..]))
  }

  lemma {:induction false} ModemLoopOwns(e: Env, s: State, props: Props)
    requires AlwaysCalm(e) && !Disowned(s) && !ModemLoopDisowns(e, s, props)
    ensures !Disowned(ModemLoop(e, s, props))
    decreases |props|
  {
    if props != [] {
      ModemUpdateOwns(e, s, props[0].0, props[0].1);
      ModemLoopOwns(e, ModemUpdate(e, s, props[0].0, props[0].1), props[1..]);
    }
  }

  // ---- Runs ----

  /** A SIM is reported present, by signal or on set-up, at NoSim beside a network proxy. */
  ghost predicate EventDisowns(e: Env, s: State, ev: Event) {
    && Delivered(s, ev)
    && (|| (ev.SimChanged? && Disowns(s, ev.k, ev.v))
        || (ev.ModemChanged? && ModemDisowns(e, s, ev.k, ev.v))
        || (ModemFor(e, s, ev).Some? &&
            var m := ModemFor(e, s, ev).value;
            ModemLoopDisowns(e, Asked(s, ev).(modem := true, modemPath := m.0), m.1)))
  }

  lemma ConnectOwns(e: Env, s: State)
    requires AlwaysCalm(e) && !Disowned(s) && !EventDisowns(e, s, Connected)
    ensures !Disowned(Connect(e, s))
  {
    ConnectShape(e, s);
    if ModemFor(e, s, Connected).Some? {
      var m := ModemFor(e, s, Connected).value;
      ModemLoopOwns(e, Asked(s, Connected).(modem := true, modemPath := m.0), m.1);
    }
  }

  lemma StepOwns(e: Env, s: State, ev: Event)
    requires AlwaysCalm(e) && !Disowned(s) && !EventDisowns(e, s, ev)
    ensures !Disowned(Step(e, s, ev))
  {
    if Delivered(s, ev) {
      match ev
      case Connected => ConnectOwns(e, s);
      case ModemAdded(path, props) =>
        if IsHardware(props) {
          ModemLoopOwns(e, s.(modem := true, modemPath := path), props);
        }
      case ModemRemoved(_) => ResetSimOwns(e, ResetCm(s.(modemPath := "", modem := false)));
      case ModemChanged(k, v) => ModemUpdateOwns(e, s, k, v);
      case SimChanged(k, v) => SimUpdateDisownsIff(e, s, k, v);
      case NetworkChanged(k, v) => NetUpdateOwns(e, s, k, v);
      case OperatorChanged(k, v) => OperUpdateOwns(e, s, k, v);
      case _ =>
    }
  }

  ghost predicate NeverDisowns(e: Env, s: State, evs: seq<Event>)
    decreases |evs|
  {
    evs == [] || (!EventDisowns(e, s, evs[0]) && NeverDisowns(e, Step(e, s, evs[0]), evs[1..]))
  }

  lemma {:induction false} RunOwns(e: Env, s: State, evs: seq<Event>)
    requires AlwaysCalm(e) && !Disowned(s) && NeverDisowns(e, s, evs)
    ensures !Disowned(Run(e, s, evs))
    decreases |evs|
  {
    if evs != [] {
      StepOwns(e, s, evs[0]);
      RunOwns(e, Step(e, s, evs[0]), evs[1..]);
    }
  }

  /** The converse of SIM safety: with NoSim outside the registered set, a bridge at NoSim has
      no SIM in every reachable state of a run in which no SIM is reported present at NoSim
      beside a network proxy. */
  lemma NoSimMeansNoSim(e: Env, s: State, evs: seq<Event>)
    requires AlwaysCalm(e) && IsInitial(s) && NeverDisowns(e, s, evs)
    ensures Run(e, s, evs).status == CellStatus.NoSim ==> !Run(e, s, evs).hasSim
  {
    RunOwns(e, s, evs);
  }
}
