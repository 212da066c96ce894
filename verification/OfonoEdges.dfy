/** Interfaces over whole runs of the oFono bridge: their edges, and the SIM proxy that
    follows one of them (src/ofono/provider_ofono.cpp). */
module OfonoEdges {
  import opened Values
  import opened OfonoTypes
  import opened OfonoModel
  import opened OfonoFacts
  import opened OfonoRuns

  // ---- Nothing but an interface list changes the interface set ----

  /** The set edges are computed from is still the old one when each interface is handled. */
  lemma EdgesUseTheOldSet(e: Env, s: State, now: set<Interface>)
    ensures
      var s0 := SimEdge(e, s, EdgeOf(s.ifaces, now, SimManager));
      var s1 := NetEdge(e, s0, EdgeOf(s0.ifaces, now, NetworkRegistration));
      var s2 := StkEdge(e, s1, EdgeOf(s1.ifaces, now, SimToolkit));
      s0.ifaces == s1.ifaces == s2.ifaces == s.ifaces
  {
    SetupSimKeeps(e, s);
    var s0 := SimEdge(e, s, EdgeOf(s.ifaces, now, SimManager));
    SetupNetworkKeeps(e, s0);
    ResetNetworkKeeps(e, s0);
  }

  lemma ResetSimIfaces(e: Env, s: State)
    ensures ResetSim(e, s).ifaces == s.ifaces
  {
    SetStatusKeeps(e, s.(oper := false, network := false, sim := Absent), CellStatus.NoSim);
  }

  lemma LeafIfaces(e: Env, s: State, ev: Event)
    requires Delivered(s, ev)
    requires !ev.Connected? && !ev.ModemAdded? && !ev.ModemChanged?
    ensures Step(e, s, ev).ifaces == s.ifaces
  {
    if ev.ModemRemoved? {
      ResetSimIfaces(e, ResetCm(s.(modemPath := "", modem := false)));
    } else if ev.SimChanged? {
      SimUpdateKeeps(e, s, ev.k, ev.v);
    } else if ev.NetworkChanged? {
      NetUpdateKeeps(e, s, ev.k, ev.v);
    } else if ev.OperatorChanged? {
      OperUpdateKeeps(e, s, ev.k, ev.v);
    }
  }

  // ---- Edge traces ----

  /** The edges of interface `i` that reading a list of modem properties computes. */
  ghost function LoopEdges(e: Env, s: State, props: Props, i: Interface): seq<Edge>
    decreases |props|
  {
    if props == [] then []
    else
      var here :=
        if props[0].0 == Interfaces
        then [EdgeOf(s.ifaces, GetInterfaces(props[0].1.toStringList), i)] else [];
      here + LoopEdges(e, ModemUpdate(e, s, props[0].0, props[0].1), props[1..], i)
  }

  ghost function EventEdges(e: Env, s: State, ev: Event, i: Interface): seq<Edge> {
    if !Delivered(s, ev) then []
    else if ev.ModemChanged? then
      if ev.k == Interfaces
      then [EdgeOf(s.ifaces, GetInterfaces(ev.v.toStringList), i)] else []
    else
      match ModemFor(e, s, ev)
      case None => []
      case Some(m) => LoopEdges(e, Asked(s, ev).(modem := true, modemPath := m.0), m.1, i)
  }

  ghost function RunEdges(e: Env, s: State, evs: seq<Event>, i: Interface): seq<Edge>
    decreases |evs|
  {
    if evs == [] then []
    else EventEdges(e, s, evs[0], i) + RunEdges(e, Step(e, s, evs[0]), evs[1..], i)
  }

  /** Read from left to right, the edges lead from one bit to another. */
  predicate Leads(from: bool, edges: seq<Edge>, to: bool)
    decreases |edges|
  {
    if edges == [] then from == to
    else
      match edges[0]
      case UnchangedSet => from && Leads(true, edges[1..], to)
      case UnchangedReset => !from && Leads(false, edges[1..], to)
      case Set => !from && Leads(true, edges[1..], to)
      case Reset => from && Leads(false, edges[1..], to)
  }

  /** Number of Set edges minus number of Reset edges. */
  function Balance(edges: seq<Edge>): int {
    if edges == [] then 0
    else (match edges[0] case Set => 1 case Reset => -1 case _ => 0) + Balance(edges[1..])
  }

  function Bit(b: bool): int {
    if b then 1 else 0
  }

  lemma {:induction false} LeadsAppend(a: bool, x: seq<Edge>, b: bool, y: seq<Edge>, c: bool)
    requires Leads(a, x, b) && Leads(b, y, c)
    ensures Leads(a, x + y, c)
    decreases |x|
  {
    if x == [] {
      assert x + y == y;
    } else {
      assert (x + y)[1..] == x[1..] + y;
      LeadsAppend(x[0] in {UnchangedSet, Set}, x[1..], b, y, c);
    }
  }

  /** Set and Reset edges alternate: the balance of every prefix stays a bit. */
  lemma {:induction false} LeadsBalance(a: bool, edges: seq<Edge>, b: bool, k: nat)
    requires Leads(a, edges, b) && k <= |edges|
    ensures Balance(edges) == Bit(b) - Bit(a)
    ensures 0 <= Bit(a) + Balance(edges[..k]) <= 1
    decreases |edges|
  {
    if edges != [] {
      var mid := edges[0] in {UnchangedSet, Set};
      LeadsBalance(mid, edges[1..], b, if k == 0 then 0 else k - 1);
      if k > 0 {
        assert edges[..k][1..] == edges[1..][..k - 1];
      }
    }
  }

  lemma ModemUpdateIfaces(e: Env, s: State, k: Key, v: Variant)
    ensures ModemUpdate(e, s, k, v).ifaces ==
      if k == Interfaces then GetInterfaces(v.toStringList) else s.ifaces
  {
    ResetSimIfaces(e, s);
  }

  lemma OneEdgeLeads(before: set<Interface>, now: set<Interface>, i: Interface)
    ensures Leads(i in before, [EdgeOf(before, now, i)], i in now)
  {
    assert [EdgeOf(before, now, i)][1..] == [];
  }

  lemma {:induction false} LoopLeads(e: Env, s: State, props: Props, i: Interface)
    ensures Leads(i in s.ifaces, LoopEdges(e, s, props, i), i in ModemLoop(e, s, props).ifaces)
    decreases |props|
  {
    if props != [] {
      var s1 := ModemUpdate(e, s, props[0].0, props[0].1);
      ModemUpdateIfaces(e, s, props[0].0, props[0].1);
      LoopLeads(e, s1, props[1..], i);
      var edge := EdgeOf(s.ifaces, GetInterfaces(props[0].1.toStringList), i);
      if props[0].0 == Interfaces {
        OneEdgeLeads(s.ifaces, s1.ifaces, i);
        LeadsAppend(i in s.ifaces, [edge], i in s1.ifaces,
                    LoopEdges(e, s1, props[1..], i), i in ModemLoop(e, s, props).ifaces);
      } else {
        assert [] + LoopEdges(e, s1, props[1..], i) == LoopEdges(e, s1, props[1..], i);
      }
    }
  }

  lemma EventLeads(e: Env, s: State, ev: Event, i: Interface)
    ensures Leads(i in s.ifaces, EventEdges(e, s, ev, i), i in Step(e, s, ev).ifaces)
  {
    if Delivered(s, ev) {
      if ev.ModemChanged? {
        ModemUpdateIfaces(e, s, ev.k, ev.v);
        if ev.k == Interfaces {
          OneEdgeLeads(s.ifaces, GetInterfaces(ev.v.toStringList), i);
        }
      } else if ev.Connected? {
        ConnectLeads(e, s, i);
      } else if ev.ModemAdded? {
        LoopLeads(e, s.(modem := true, modemPath := ev.path), ev.props, i);
      } else {
        LeafIfaces(e, s, ev);
      }
    }
  }

  lemma ConnectLeads(e: Env, s: State, i: Interface)
    ensures Leads(i in s.ifaces, EventEdges(e, s, Connected, i), i in Connect(e, s).ifaces)
  {
    ConnectShape(e, s);
    if ModemFor(e, s, Connected).Some? {
      var m := ModemFor(e, s, Connected).value;
      FirstHardwareIsHardware(e.objects(s.calls).value);
      LoopLeads(e, Asked(s, Connected).(modem := true, modemPath := m.0), m.1, i);
    }
  }

  lemma {:induction false} RunLeads(e: Env, s: State, evs: seq<Event>, i: Interface)
    ensures Leads(i in s.ifaces, RunEdges(e, s, evs, i), i in Run(e, s, evs).ifaces)
    decreases |evs|
  {
    if evs != [] {
      var s1 := Step(e, s, evs[0]);
      EventLeads(e, s, evs[0], i);
      RunLeads(e, s1, evs[1..], i);
      LeadsAppend(i in s.ifaces, EventEdges(e, s, evs[0], i), i in s1.ifaces,
                  RunEdges(e, s1, evs[1..], i), i in Run(e, s, evs).ifaces);
    }
  }

  /** Edges telescope: over every run of a new bridge the Set and Reset edges of each
      interface alternate, starting with Set, and their balance is the interface's bit,
      also across calls that leave early after a SIM reset. */
  lemma EdgesTelescope(e: Env, s: State, evs: seq<Event>, i: Interface, k: nat)
    requires IsInitial(s) && k <= |RunEdges(e, s, evs, i)|
    ensures Balance(RunEdges(e, s, evs, i)) == Bit(i in Run(e, s, evs).ifaces)
    ensures 0 <= Balance(RunEdges(e, s, evs, i)[..k]) <= 1
  {
    RunLeads(e, s, evs, i);
    LeadsBalance(false, RunEdges(e, s, evs, i), i in Run(e, s, evs).ifaces, k);
  }

  // ---- The initial Unknown ----

  lemma {:induction false} RunSplits(e: Env, s: State, evs: seq<Event>, k: nat)
    requires k <= |evs|
    ensures Run(e, s, evs) == Run(e, Run(e, s, evs[..k]), evs[k..])
    decreases k
  {
    if k > 0 {
      RunSplits(e, Step(e, s, evs[0]), evs[1..], k - 1);
      assert evs[..k][1..] == evs[1..][..k - 1] && evs[1..][k - 1..] == evs[k..];
    } else {
      assert evs[..0] == [] && evs[0..] == evs;
    }
  }

  /** A bridge without a SIM that is not at NoSim has never left its first Unknown. */
  lemma UnsafeMeansNeverMoved(e: Env, s: State, evs: seq<Event>, k: nat)
    requires IsInitial(s) && k <= |evs|
    requires !SimSafe(Run(e, s, evs))
    ensures Run(e, s, evs[..k]).status == Unknown && !Run(e, s, evs[..k]).hasSim
  {
    ReachableStatesAreSafe(e, s, evs[..k]);
    InitialIsGood(s);
    RunKeeps(e, s, evs[..k]);
    RunSplits(e, s, evs, k);
    RunKeeps(e, Run(e, s, evs[..k]), evs[k..]);
  }

  // ---- The SIM proxy and its interface ----

  /** There is a SIM proxy while the modem lists the SIM interface. */
  predicate SimFollows(s: State) {
    SimManager in s.ifaces ==> !s.sim.Absent?
  }

  lemma CmEdgeKeepsSim(e: Env, s: State, edge: Edge)
    ensures CmEdge(e, s, edge).sim == s.sim
  {
  }

  lemma FollowingKeepsSim(e: Env, s: State, now: set<Interface>)
    requires !s.sim.Absent?
    ensures !FollowAfterSim(e, s, now).sim.Absent?
  {
    var s1 := NetEdge(e, s, EdgeOf(s.ifaces, now, NetworkRegistration));
    assert !s1.sim.Absent?;
    var s2 := StkEdge(e, s1, EdgeOf(s1.ifaces, now, SimToolkit));
    assert s2.sim == s1.sim;
    CmEdgeKeepsSim(e, s2, EdgeOf(s2.ifaces, now, ConnectionManager));
  }

  lemma ProcessInterfacesFollows(e: Env, s: State, list: seq<string>)
    requires SimFollows(s)
    ensures SimFollows(ProcessInterfaces(e, s, list))
  {
    var now := GetInterfaces(list);
    if SimManager in now {
      var s1 := SimEdge(e, s, EdgeOf(s.ifaces, now, SimManager));
      assert !s1.sim.Absent?;
      FollowingKeepsSim(e, s1, now);
    }
  }

  lemma ModemUpdateFollows(e: Env, s: State, k: Key, v: Variant)
    requires SimFollows(s)
    ensures SimFollows(ModemUpdate(e, s, k, v))
  {
    if k == Interfaces {
      ProcessInterfacesFollows(e, s, v.toStringList);
    } else {
      ResetSimIfaces(e, s);
    }
  }

  lemma {:induction false} ModemLoopFollows(e: Env, s: State, props: Props)
    requires SimFollows(s)
    ensures SimFollows(ModemLoop(e, s, props))
    decreases |props|
  {
    if props != [] {
      ModemUpdateFollows(e, s, props[0].0, props[0].1);
      ModemLoopFollows(e, ModemUpdate(e, s, props[0].0, props[0].1), props[1..]);
    }
  }

  /** The modem goes while it lists the SIM interface. */
  predicate DropsSim(s: State, ev: Event) {
    Delivered(s, ev) && ev.ModemRemoved? && SimManager in s.ifaces
  }

  lemma ConnectFollows(e: Env, s: State)
    requires SimFollows(s)
    ensures SimFollows(Connect(e, s))
  {
    ConnectShape(e, s);
    if ModemFor(e, s, Connected).Some? {
      var m := ModemFor(e, s, Connected).value;
      ModemLoopFollows(e, Asked(s, Connected).(modem := true, modemPath := m.0), m.1);
    }
  }

  /** Every event keeps the SIM proxy with its interface, except exactly the removal of a
      modem that lists it: the proxy goes and the interface set stays. */
  lemma StepFollowsIff(e: Env, s: State, ev: Event)
    requires SimFollows(s)
    ensures SimFollows(Step(e, s, ev)) <==> !DropsSim(s, ev)
  {
    if Delivered(s, ev) {
      match ev
      case Connected => ConnectFollows(e, s);
      case ModemAdded(path, props) => ModemLoopFollows(e, s.(modem := true, modemPath := path), props);
      case ModemChanged(k, v) => ModemUpdateFollows(e, s, k, v);
      case ModemRemoved(_) => RemovalDropsSim(e, s);
      case _ => LeafFollows(e, s, ev);
    }
  }

  lemma RemovalDropsSim(e: Env, s: State)
    ensures ResetModem(e, s).sim.Absent? && ResetModem(e, s).ifaces == s.ifaces
  {
    ResetSimIfaces(e, ResetCm(s.(modemPath := "", modem := false)));
  }

  lemma LeafFollows(e: Env, s: State, ev: Event)
    requires Delivered(s, ev) && SimFollows(s)
    requires !ev.Connected? && !ev.ModemAdded? && !ev.ModemChanged? && !ev.ModemRemoved?
    ensures SimFollows(Step(e, s, ev))
  {
    LeafIfaces(e, s, ev);
  }

  /** No modem is removed while it lists the SIM interface. */
  ghost predicate NeverDropsSim(e: Env, s: State, evs: seq<Event>)
    decreases |evs|
  {
    evs == [] || (!DropsSim(s, evs[0]) && NeverDropsSim(e, Step(e, s, evs[0]), evs[1..]))
  }

  lemma {:induction false} RunFollows(e: Env, s: State, evs: seq<Event>)
    requires SimFollows(s) && NeverDropsSim(e, s, evs)
    ensures SimFollows(Run(e, s, evs))
    decreases |evs|
  {
    if evs != [] {
      StepFollowsIff(e, s, evs[0]);
      RunFollows(e, Step(e, s, evs[0]), evs[1..]);
    }
  }

  lemma {:induction false} NoRemovalNoDrop(e: Env, s: State, evs: seq<Event>)
    requires forall i | 0 <= i < |evs| :: !evs[i].ModemRemoved?
    ensures NeverDropsSim(e, s, evs)
    decreases |evs|
  {
    if evs != [] {
      NoRemovalNoDrop(e, Step(e, s, evs[0]), evs[1..]);
    }
  }

  /** So in every run in which no modem is removed, a bridge whose modem lists the SIM
      interface has a SIM proxy. */
  lemma SimFollowsItsInterface(e: Env, s: State, evs: seq<Event>)
    requires IsInitial(s) && forall i | 0 <= i < |evs| :: !evs[i].ModemRemoved?
    ensures SimFollows(Run(e, s, evs))
  {
    NoRemovalNoDrop(e, s, evs);
    RunFollows(e, s, evs);
  }

  /** The list agrees with the interfaces that the bridge remembers. */
  ghost predicate SameInterfaces(s: State, props: Props) {
    forall i | 0 <= i < |props| && props[i].0 == Interfaces ::
      GetInterfaces(props[i].1.toStringList) == s.ifaces
  }

  lemma NoEdges(e: Env, s: State)
    ensures FollowAfterSim(e, s, s.ifaces) == s
  {
    var i := s.ifaces;
    assert EdgeOf(i, i, NetworkRegistration) in {UnchangedSet, UnchangedReset};
    assert EdgeOf(i, i, SimToolkit) in {UnchangedSet, UnchangedReset};
    assert EdgeOf(i, i, ConnectionManager) in {UnchangedSet, UnchangedReset};
  }

  predicate WithoutSim(s: State) {
    s.sim.Absent? && s.status == CellStatus.NoSim
  }

  lemma SameInterfacesDoNothing(e: Env, s: State, k: Key, v: Variant)
    requires WithoutSim(s) && (k == Interfaces ==> GetInterfaces(v.toStringList) == s.ifaces)
    ensures var r := ModemUpdate(e, s, k, v);
      WithoutSim(r) && r.ifaces == s.ifaces && r.calls == s.calls
  {
    if k == Interfaces {
      NoEdges(e, s);
      assert ProcessInterfaces(e, s, v.toStringList) == s;
    } else {
      var s0 := s.(oper := false, network := false, sim := Absent);
      assert SetStatus(e, s0, CellStatus.NoSim) == s0;
    }
  }

  lemma {:induction false} SameLoopDoesNothing(e: Env, s: State, props: Props)
    requires WithoutSim(s) && SameInterfaces(s, props)
    ensures var r := ModemLoop(e, s, props);
      WithoutSim(r) && r.ifaces == s.ifaces && r.calls == s.calls
    decreases |props|
  {
    if props != [] {
      SameInterfacesDoNothing(e, s, props[0].0, props[0].1);
      SameLoopDoesNothing(e, ModemUpdate(e, s, props[0].0, props[0].1), props[1..]);
    }
  }

  /** A modem that comes back with the interfaces it had is not set up again: there is no
      edge, so nothing is queried and there is no SIM proxy. */
  lemma ReturningModemIsIgnored(e: Env, s: State, path: string, props: Props)
    requires Full(s.pub) && IsHardware(props) && SameInterfaces(s, props)
    ensures var r := SetupModem(e, ResetModem(e, s), path, props);
      && r.sim.Absent? && r.ifaces == s.ifaces && r.calls == s.calls
      && (SimManager in s.ifaces ==> !SimFollows(r))
  {
    ModemRemovalResets(e, s);
    SameLoopDoesNothing(e, ResetModem(e, s).(modem := true, modemPath := path), props);
  }

  // ---- Bulk resets ----

  lemma HiddenByReset(s: State, r: State, noSim: bool)
    requires Inv(s) && Inv(r) && r == r.(pub := ResetTable(r.pub, noSim))
    requires r.mms == s.mms
    ensures r.pub[MMSContext] == r.mms <==> FirstMms(s.contexts) == ""
  {
    var t := DefaultTable(r.pub);
    assert t[MMSContext] == DefaultOf(MMSContext) == "";
    assert ResetTable(r.pub, noSim)[MMSContext] == "";
  }

  /** A bulk reset blanks MMSContext without touching the cache, whether the network, the
      SIM or the service is lost: the two agree after it exactly when no context was
      usable, or it is the empty path. */
  lemma BulkResetsHideMms(e: Env, s: State)
    requires Inv(s)
    ensures Hides(s, ResetNetwork(e, s)) && Hides(s, ResetSim(e, s)) && Hides(s, LoseService(s))
  {
    NetworkResetHides(e, s);
    SimResetHides(e, s);
    LossKeeps(e, s);
    TableIsReset(s.pub, false);
    HiddenByReset(s, LoseService(s), false);
  }

  /** The cache is as before; it is shown afterwards iff nothing in it was usable. */
  ghost predicate Hides(s: State, r: State) {
    && r.mms == s.mms && MMSContext in r.pub
    && (r.pub[MMSContext] == r.mms <==> FirstMms(s.contexts) == "")
  }

  lemma TableIsReset(pub: map<Prop, string>, noSim: bool)
    ensures ResetTable(ResetTable(pub, noSim), noSim) == ResetTable(pub, noSim)
  {
  }

  lemma NetworkResetHides(e: Env, s: State)
    requires Inv(s)
    ensures Hides(s, ResetNetwork(e, s))
  {
    ResetNetworkKeeps(e, s);
    var s1 := SetStatus(e, s.(oper := false, network := false), Offline);
    TableIsReset(s1.pub, !s1.hasSim);
    HiddenByReset(s, ResetNetwork(e, s), !s1.hasSim);
  }

  lemma SimResetHides(e: Env, s: State)
    requires Inv(s)
    ensures Hides(s, ResetSim(e, s))
  {
    ResetSimKeeps(e, s);
    var s1 := SetStatus(e, s.(oper := false, network := false, sim := Absent), CellStatus.NoSim);
    TableIsReset(s1.pub, true);
    HiddenByReset(s, ResetSim(e, s), true);
  }
}
