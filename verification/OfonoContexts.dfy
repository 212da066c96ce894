/** The cache of message contexts against the history of what oFono reported of them
    (src/ofono/provider_ofono.cpp). */
module OfonoContexts {
  import opened Values
  import opened OfonoTypes
  import opened OfonoModel
  import opened OfonoFacts
  import opened OfonoRuns
  import opened OfonoReplies

  // ---- History ----

  /** What oFono reports: a context with its properties, by signal or in a reply, one that is
      gone, one property of a context; or the manager is gone. */
  datatype Fact =
    | Added(path: string, props: PropMap)
    | Removed(path: string)
    | Changed(path: string, k: Key, v: Variant)
    | AllGone

  /** What is known of a path after one more fact. */
  function After(was: Option<Context>, f: Fact, p: string): Option<Context> {
    match f
    case Added(q, props) => if q == p then Some(ContextOf(props)) else was
    case Removed(q) => if q == p then None else was
    case Changed(q, k, v) => if q == p && was.Some? then Some(was.value[k := v]) else was
    case AllGone => None
  }

  function Known(was: Option<Context>, facts: seq<Fact>, p: string): Option<Context>
    decreases |facts|
  {
    if facts == [] then was else Known(After(was, facts[0], p), facts[1..], p)
  }

  lemma {:induction false} KnownAppend(was: Option<Context>, x: seq<Fact>, y: seq<Fact>, p: string)
    ensures Known(was, x + y, p) == Known(Known(was, x, p), y, p)
    decreases |x|
  {
    if x == [] {
      assert x + y == y;
    } else {
      assert (x + y)[1..] == x[1..] + y;
      KnownAppend(After(was, x[0], p), x[1..], y, p);
    }
  }

  predicate Ends(f: Fact, p: string) {
    f == Removed(p) || f == AllGone
  }

  /** The i-th fact reports the path, and nothing after it takes the path away. */
  predicate Stands(facts: seq<Fact>, i: nat, p: string) {
    && i < |facts| && facts[i].Added? && facts[i].path == p
    && forall j | i < j < |facts| :: !Ends(facts[j], p)
  }

  /** A path is known iff it was reported and not taken away since. */
  lemma {:induction false} KnownIffStands(facts: seq<Fact>, p: string)
    ensures Known(None, facts, p).Some? <==> exists i: nat :: Stands(facts, i, p)
    decreases |facts|
  {
    if facts != [] {
      var n := |facts| - 1;
      var f, init := facts[n], facts[..n];
      assert facts == init + [f];
      KnownAppend(None, init, [f], p);
      assert [f][1..] == [];
      assert Known(Known(None, init, p), [f], p) == After(Known(None, init, p), f, p);
      KnownIffStands(init, p);
      if i: nat :| Stands(init, i, p) && !Ends(f, p) {
        assert Stands(facts, i, p);
      }
      if f.Added? && f.path == p {
        assert Stands(facts, n, p);
      }
      if i: nat :| Stands(facts, i, p) && i < n {
        assert facts[n] == f && Stands(init, i, p);
      }
    }
  }

  // ---- What is read of a context ----

  /** A cached context holds exactly the reported entries. */
  lemma {:induction false} ContextReads(props: Props, k: Key)
    requires DistinctKeys(props)
    ensures k in ContextOf(props) <==> HasKey(props, k)
    ensures forall v | (k, v) in props :: k in ContextOf(props) && ContextOf(props)[k] == v
    decreases |props|
  {
    if props != [] {
      var rest := props[1..];
      assert forall i | 0 <= i < |rest| :: rest[i] == props[i + 1];
      assert DistinctKeys(rest);
      ContextReads(rest, k);
      if HasKey(props, k) && props[0].0 != k {
        var i :| 0 <= i < |props| && props[i].0 == k;
        assert rest[i - 1].0 == k;
      }
      if HasKey(rest, k) {
        var i :| 0 <= i < |rest| && rest[i].0 == k;
        assert props[i + 1].0 == k;
      }
      forall v | (k, v) in props ensures k in ContextOf(props) && ContextOf(props)[k] == v {
        var i :| 0 <= i < |props| && props[i] == (k, v);
        if i > 0 {
          assert rest[i - 1] == (k, v);
        }
      }
    }
  }

  /** A reported context is usable iff its type reads "mms" and its message center is not
      blank; entries that are missing read as blank. */
  lemma UsableIff(props: Props)
    requires DistinctKeys(props)
    ensures IsMms(ContextOf(props)) <==>
      Lookup(props, Type).toString == "mms" && Lookup(props, MessageCenter).toString != ""
  {
    ContextLooksUp(props, Type);
    ContextLooksUp(props, MessageCenter);
  }

  lemma ContextLooksUp(props: Props, k: Key)
    requires DistinctKeys(props)
    ensures Lookup(props, k) == if k in ContextOf(props) then ContextOf(props)[k] else NULL_VARIANT
  {
    ContextReads(props, k);
    if HasKey(props, k) {
      var v := HasEntry(props, k);
      LookupFinds(props, k, v);
    } else {
      LookupFinds(props, k, NULL_VARIANT);
    }
  }

  // ---- Facts of a run ----

  function AddedAll(ctxs: Objects): seq<Fact> {
    if ctxs == [] then [] else [Added(ctxs[0].0, ctxs[0].1)] + AddedAll(ctxs[1..])
  }

  function CmFacts(e: Env, s: State, edge: Edge): seq<Fact> {
    if edge == Reset then [AllGone]
    else if edge == Set && e.props(s.calls).Some? && e.objects(s.calls + 1).Some? then
      AddedAll(e.objects(s.calls + 1).value)
    else []
  }

  /** The state in which a list is at the connection manager. */
  ghost function BeforeManager(e: Env, s: State, now: set<Interface>): State {
    var s1 := SimEdge(e, s, EdgeOf(s.ifaces, now, SimManager));
    var s2 := NetEdge(e, s1, EdgeOf(s.ifaces, now, NetworkRegistration));
    StkEdge(e, s2, EdgeOf(s.ifaces, now, SimToolkit))
  }

  ghost function ModemFacts(e: Env, s: State, k: Key, v: Variant): seq<Fact> {
    if k != Interfaces || LosesSim(s, v.toStringList) then []
    else
      var now := GetInterfaces(v.toStringList);
      CmFacts(e, BeforeManager(e, s, now), EdgeOf(s.ifaces, now, ConnectionManager))
  }

  ghost function LoopFacts(e: Env, s: State, props: Props): seq<Fact>
    decreases |props|
  {
    if props == [] then []
    else
      ModemFacts(e, s, props[0].0, props[0].1)
      + LoopFacts(e, ModemUpdate(e, s, props[0].0, props[0].1), props[1..])
  }

  ghost function EventFacts(e: Env, s: State, ev: Event): seq<Fact> {
    if !Delivered(s, ev) then []
    else
      match ev
      case ContextAdded(path, props) => [Added(path, props)]
      case ContextRemoved(path) => [Removed(path)]
      case ContextChanged(path, k, v) => [Changed(path, k, v)]
      case ModemRemoved(_) => [AllGone]
      case ModemChanged(k, v) => ModemFacts(e, s, k, v)
      case _ =>
        match ModemFor(e, s, ev)
        case None => []
        case Some(m) => LoopFacts(e, Asked(s, ev).(modem := true, modemPath := m.0), m.1)
  }

  ghost function RunFacts(e: Env, s: State, evs: seq<Event>): seq<Fact>
    decreases |evs|
  {
    if evs == [] then [] else EventFacts(e, s, evs[0]) + RunFacts(e, Step(e, s, evs[0]), evs[1..])
  }

  // ---- The cache follows the facts ----

  function Cached(contexts: map<string, Context>, p: string): Option<Context> {
    if p in contexts then Some(contexts[p]) else None
  }

  /** Going from `s` to `r`, the cache changes as the facts say. */
  ghost predicate Follows(s: State, r: State, facts: seq<Fact>) {
    forall p :: Cached(r.contexts, p) == Known(Cached(s.contexts, p), facts, p)
  }

  lemma FollowsNothing(s: State, r: State)
    requires r.contexts == s.contexts
    ensures Follows(s, r, [])
  {
  }

  lemma FollowsOne(s: State, r: State, f: Fact)
    requires forall p :: Cached(r.contexts, p) == After(Cached(s.contexts, p), f, p)
    ensures Follows(s, r, [f])
  {
    forall p ensures Cached(r.contexts, p) == Known(Cached(s.contexts, p), [f], p) {
      assert [f][1..] == [];
      assert Known(After(Cached(s.contexts, p), f, p), [], p) == After(Cached(s.contexts, p), f, p);
    }
  }

  lemma FollowsBoth(s: State, t: State, r: State, x: seq<Fact>, y: seq<Fact>)
    requires Follows(s, t, x) && Follows(t, r, y)
    ensures Follows(s, r, x + y)
  {
    forall p ensures Cached(r.contexts, p) == Known(Cached(s.contexts, p), x + y, p) {
      KnownAppend(Cached(s.contexts, p), x, y, p);
    }
  }

  lemma {:induction false} ContextLoopFollows(s: State, ctxs: Objects)
    ensures Follows(s, ContextLoop(s, ctxs), AddedAll(ctxs))
    decreases |ctxs|
  {
    if ctxs == [] {
      FollowsNothing(s, s);
    } else {
      var s1 := AddContext(s, ctxs[0].0, ctxs[0].1);
      FollowsOne(s, s1, Added(ctxs[0].0, ctxs[0].1));
      ContextLoopFollows(s1, ctxs[1..]);
      FollowsBoth(s, s1, ContextLoop(s, ctxs), [Added(ctxs[0].0, ctxs[0].1)], AddedAll(ctxs[1..]));
    }
  }

  lemma QueryFollows(e: Env, s: State)
    ensures Follows(s, QueryContexts(e, s), if e.objects(s.calls).Some? then AddedAll(e.objects(s.calls).value) else [])
  {
    var s1 := s.(calls := s.calls + 1);
    if e.objects(s.calls).Some? {
      ContextLoopFollows(s1, e.objects(s.calls).value);
    } else {
      FollowsNothing(s, s1);
    }
  }

  lemma CmEdgeFollows(e: Env, s: State, edge: Edge)
    ensures Follows(s, CmEdge(e, s, edge), CmFacts(e, s, edge))
  {
    if edge == Reset {
      FollowsOne(s, ResetCm(s), AllGone);
    } else if edge == Set && e.props(s.calls).Some? {
      QueryFollows(e, CmLoop(s.(cm := true, calls := s.calls + 1), e.props(s.calls).value));
    } else {
      FollowsNothing(s, CmEdge(e, s, edge));
    }
  }

  lemma EarlierEdgesKeepContexts(e: Env, s: State, now: set<Interface>)
    ensures BeforeManager(e, s, now).contexts == s.contexts
    ensures var s1 := SimEdge(e, s, EdgeOf(s.ifaces, now, SimManager));
      FollowAfterSim(e, s1, now) == CmEdge(e, BeforeManager(e, s, now), EdgeOf(s.ifaces, now, ConnectionManager))
  {
    var s1 := SimEdge(e, s, EdgeOf(s.ifaces, now, SimManager));
    SimKeepsContexts(e, s, EdgeOf(s.ifaces, now, SimManager));
    NetworkKeepsContexts(e, s1, EdgeOf(s.ifaces, now, NetworkRegistration));
    var s2 := NetEdge(e, s1, EdgeOf(s.ifaces, now, NetworkRegistration));
    ToolkitKeepsContexts(e, s2, EdgeOf(s.ifaces, now, SimToolkit));
  }

  lemma SimKeepsContexts(e: Env, s: State, edge: Edge)
    ensures SimEdge(e, s, edge).contexts == s.contexts && SimEdge(e, s, edge).ifaces == s.ifaces
  {
    SetupSimKeeps(e, s);
  }

  lemma ToolkitKeepsContexts(e: Env, s: State, edge: Edge)
    ensures StkEdge(e, s, edge).contexts == s.contexts && StkEdge(e, s, edge).ifaces == s.ifaces
  {
  }

  lemma NetworkKeepsContexts(e: Env, s: State, edge: Edge)
    ensures NetEdge(e, s, edge).contexts == s.contexts && NetEdge(e, s, edge).ifaces == s.ifaces
  {
    SetupNetworkKeeps(e, s);
    ResetNetworkKeeps(e, s);
  }

  lemma ResetSimKeepsContexts(e: Env, s: State)
    ensures ResetSim(e, s).contexts == s.contexts
  {
    SetStatusKeeps(e, s.(oper := false, network := false, sim := Absent), CellStatus.NoSim);
  }

  lemma ModemUpdateFollows(e: Env, s: State, k: Key, v: Variant)
    ensures Follows(s, ModemUpdate(e, s, k, v), ModemFacts(e, s, k, v))
  {
    ResetSimKeepsContexts(e, s);
    if k == Interfaces && !LosesSim(s, v.toStringList) {
      var now := GetInterfaces(v.toStringList);
      var t, edge := BeforeManager(e, s, now), EdgeOf(s.ifaces, now, ConnectionManager);
      EarlierEdgesKeepContexts(e, s, now);
      CmEdgeFollows(e, t, edge);
      ListStored(e, s, v.toStringList, t, CmEdge(e, t, edge));
    } else {
      FollowsNothing(s, ModemUpdate(e, s, k, v));
    }
  }

  lemma ListStored(e: Env, s: State, list: seq<string>, t: State, r: State)
    requires !LosesSim(s, list) && t.contexts == s.contexts
    requires r == FollowAfterSim(e, SimEdge(e, s, EdgeOf(s.ifaces, GetInterfaces(list), SimManager)), GetInterfaces(list))
    ensures ProcessInterfaces(e, s, list).contexts == r.contexts
  {
  }

  lemma {:induction false} ModemLoopFollows(e: Env, s: State, props: Props)
    ensures Follows(s, ModemLoop(e, s, props), LoopFacts(e, s, props))
    decreases |props|
  {
    if props == [] {
      FollowsNothing(s, s);
    } else {
      var s1 := ModemUpdate(e, s, props[0].0, props[0].1);
      ModemUpdateFollows(e, s, props[0].0, props[0].1);
      ModemLoopFollows(e, s1, props[1..]);
      FollowsBoth(s, s1, ModemLoop(e, s, props),
                  ModemFacts(e, s, props[0].0, props[0].1), LoopFacts(e, s1, props[1..]));
    }
  }

  lemma ConnectFollows(e: Env, s: State)
    ensures Follows(s, Connect(e, s), EventFacts(e, s, Connected))
  {
    ConnectShape(e, s);
    if ModemFor(e, s, Connected).Some? {
      var m := ModemFor(e, s, Connected).value;
      FirstHardwareIsHardware(e.objects(s.calls).value);
      ModemLoopFollows(e, Asked(s, Connected).(modem := true, modemPath := m.0), m.1);
    } else {
      FollowsNothing(s, Connect(e, s));
    }
  }

  lemma RemovalFollows(e: Env, s: State)
    ensures Follows(s, ResetModem(e, s), [AllGone])
  {
    var s1 := ResetCm(s.(modemPath := "", modem := false));
    ResetSimKeepsContexts(e, s1);
    FollowsOne(s, ResetModem(e, s), AllGone);
  }

  lemma PlainEventKeepsContexts(e: Env, s: State, ev: Event)
    requires Delivered(s, ev)
    requires ev.ServiceLost? || ev.SimChanged? || ev.NetworkChanged? || ev.OperatorChanged? || ev.StkChanged? || ev.CmChanged?
    ensures Step(e, s, ev).contexts == s.contexts
  {
    match ev
    case SimChanged(k, v) => SimUpdateKeeps(e, s, k, v);
    case NetworkChanged(k, v) => NetUpdateKeeps(e, s, k, v);
    case OperatorChanged(k, v) => OperUpdateKeeps(e, s, k, v);
    case _ =>
  }

  /** A delivered context signal changes its own context, as it says, and no other. */
  lemma ContextSignal(e: Env, s: State, ev: Event)
    requires Delivered(s, ev) && (ev.ContextAdded? || ev.ContextRemoved? || ev.ContextChanged?)
    ensures var c := Step(e, s, ev).contexts;
      && (forall q | q != ev.path :: Cached(c, q) == Cached(s.contexts, q))
      && (ev.ContextRemoved? ==> ev.path !in c)
      && (ev.ContextAdded? ==>
            ev.path in c
            && forall k :: (k in c[ev.path] <==> HasKey(ev.props, k))
                           && forall v | (k, v) in ev.props :: k in c[ev.path] && c[ev.path][k] == v)
      && (ev.ContextChanged? ==> ev.path in c && c[ev.path] == s.contexts[ev.path][ev.k := ev.v])
  {
    if ev.ContextAdded? {
      forall k ensures
        (k in ContextOf(ev.props) <==> HasKey(ev.props, k))
        && forall v | (k, v) in ev.props :: k in ContextOf(ev.props) && ContextOf(ev.props)[k] == v
      {
        ContextReads(ev.props, k);
      }
    }
  }

  lemma ContextEventFollows(e: Env, s: State, ev: Event)
    requires Delivered(s, ev) && (ev.ContextAdded? || ev.ContextRemoved? || ev.ContextChanged?)
    ensures Follows(s, Step(e, s, ev), EventFacts(e, s, ev))
  {
    var r := Step(e, s, ev);
    match ev
    case ContextAdded(path, props) => FollowsOne(s, r, Added(path, props));
    case ContextRemoved(path) => FollowsOne(s, r, Removed(path));
    case ContextChanged(path, k, v) => FollowsOne(s, r, Changed(path, k, v));
  }

  lemma ModemEventFollows(e: Env, s: State, ev: Event)
    requires Delivered(s, ev)
    requires ev.Connected? || ev.ModemAdded? || ev.ModemRemoved? || ev.ModemChanged?
    ensures Follows(s, Step(e, s, ev), EventFacts(e, s, ev))
  {
    match ev
    case ModemRemoved(_) => RemovalFollows(e, s);
    case ModemChanged(k, v) => ModemUpdateFollows(e, s, k, v);
    case Connected => ConnectFollows(e, s);
    case ModemAdded(path, props) =>
      if IsHardware(props) {
        ModemLoopFollows(e, s.(modem := true, modemPath := path), props);
      } else {
        FollowsNothing(s, s);
      }
  }

  lemma StepFollows(e: Env, s: State, ev: Event)
    ensures Follows(s, Step(e, s, ev), EventFacts(e, s, ev))
  {
    if !Delivered(s, ev) {
      FollowsNothing(s, s);
    } else if ev.ContextAdded? || ev.ContextRemoved? || ev.ContextChanged? {
      ContextEventFollows(e, s, ev);
    } else if ev.Connected? || ev.ModemAdded? || ev.ModemRemoved? || ev.ModemChanged? {
      ModemEventFollows(e, s, ev);
    } else {
      PlainEventKeepsContexts(e, s, ev);
      FollowsNothing(s, Step(e, s, ev));
    }
  }

  lemma {:induction false} RunFollows(e: Env, s: State, evs: seq<Event>)
    ensures Follows(s, Run(e, s, evs), RunFacts(e, s, evs))
    decreases |evs|
  {
    if evs == [] {
      FollowsNothing(s, s);
    } else {
      var s1 := Step(e, s, evs[0]);
      StepFollows(e, s, evs[0]);
      RunFollows(e, s1, evs[1..]);
      FollowsBoth(s, s1, Run(e, s, evs), EventFacts(e, s, evs[0]), RunFacts(e, s1, evs[1..]));
    }
  }

  /** In every reachable state the cache is the history: it holds exactly the paths that were
      reported and neither removed nor lost with the manager since, each with the reported
      properties and the later changes over them. */
  lemma ContextsAreHistory(e: Env, s: State, evs: seq<Event>, p: string)
    requires IsInitial(s)
    ensures var facts := RunFacts(e, s, evs);
      var r := Run(e, s, evs);
      && Cached(r.contexts, p) == Known(None, facts, p)
      && (p in r.contexts <==> exists i: nat :: Stands(facts, i, p))
  {
    RunFollows(e, s, evs);
    KnownIffStands(RunFacts(e, s, evs), p);
  }
}
