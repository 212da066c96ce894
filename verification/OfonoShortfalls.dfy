/** Short runs of a new oFono bridge, each to a state in which it falls short
    (src/ofono/provider_ofono.cpp). */
module OfonoShortfalls {
  import opened Values
  import opened OfonoTypes
  import opened OfonoModel
  import opened OfonoFacts
  import opened OfonoRuns
  import opened OfonoEdges

  const YES := Variant(true, 0, "", [], "1")
  const NO := Variant(false, 0, "", [], "0")
  const HARDWARE := Variant(true, 0, "hardware", [], "hardware")

  function Text(text: string): Variant {
    Variant(false, 0, text, [], text)
  }

  // ---- Lists of interfaces ----

  function Names(list: seq<Interface>): seq<string> {
    seq(|list|, i requires 0 <= i < |list| => STD_PREFIX + InterfaceName(list[i]))
  }

  /** The value that lists some interfaces by name. */
  function Listing(list: seq<Interface>): Variant {
    Variant(true, 0, "", Names(list), "")
  }

  lemma ListingReads(list: seq<Interface>)
    ensures GetInterfaces(Listing(list).toStringList) == set i | i in list
  {
    var names := Names(list);
    forall i: Interface ensures i in GetInterfaces(names) <==> i in list {
      var full := STD_PREFIX + InterfaceName(i);
      if i in list {
        var k :| 0 <= k < |list| && list[k] == i;
        assert names[k] == full;
      }
      if full in names {
        var k :| 0 <= k < |names| && names[k] == full;
        assert full[|STD_PREFIX|..] == InterfaceName(i) == InterfaceName(list[k]);
        InterfaceIdInverts(InterfaceName(i), i);
        InterfaceIdInverts(InterfaceName(i), list[k]);
      }
    }
  }

  // ---- Runs, event by event ----

  lemma RunOfTwo(e: Env, s: State, a: Event, b: Event)
    ensures Run(e, s, [a, b]) == Step(e, Step(e, s, a), b)
  {
    assert [a, b][1..] == [b] && [b][1..] == [];
    assert Run(e, Step(e, s, a), [b]) == Step(e, Step(e, s, a), b);
  }

  lemma RunOfThree(e: Env, s: State, a: Event, b: Event, c: Event)
    ensures Run(e, s, [a, b, c]) == Step(e, Step(e, Step(e, s, a), b), c)
  {
    assert [a, b, c][1..] == [b, c];
    RunOfTwo(e, Step(e, s, a), b, c);
  }

  lemma RunOfFour(e: Env, s: State, a: Event, b: Event, c: Event, d: Event)
    ensures Run(e, s, [a, b, c, d]) == Step(e, Step(e, Step(e, Step(e, s, a), b), c), d)
  {
    assert [a, b, c, d][1..] == [b, c, d];
    RunOfThree(e, Step(e, s, a), b, c, d);
  }

  lemma StepsKeepInv(e: Env, s: State, a: Event, b: Event)
    requires IsInitial(s)
    ensures Inv(Step(e, Step(e, s, a), b))
  {
    InitialIsGood(s);
    StepKeeps(e, s, a);
    StepKeeps(e, Step(e, s, a), b);
  }

  /** A new list of interfaces that does not end in a SIM reset. */
  lemma ListIsProcessed(e: Env, s: State, list: seq<Interface>, s1: State, r: State)
    requires s.modem && SimManager !in s.ifaces
    requires var now := set i | i in list;
      SimEdge(e, s, EdgeOf(s.ifaces, now, SimManager)) == s1 && FollowAfterSim(e, s1, now) == r
    ensures Step(e, s, ModemChanged(Interfaces, Listing(list))) == r.(ifaces := set i | i in list)
  {
    ListingReads(list);
  }

  // ---- A world with one modem ----

  /** There is one modem, and every query for properties has the same answer. */
  function OneModem(reply: Option<PropMap>, registered: set<CellStatus>): Env {
    Env(n => reply, n => Some([("/modem", [(Type, HARDWARE)])]), registered)
  }

  /** Connecting finds the modem and nothing else about it. */
  lemma ConnectsToModem(reply: Option<PropMap>, registered: set<CellStatus>, s: State)
    requires IsInitial(s)
    ensures Step(OneModem(reply, registered), s, Connected) ==
      s.(manager := Wired, modem := true, modemPath := "/modem", calls := s.calls + 1)
  {
    var e := OneModem(reply, registered);
    var s2 := Asked(s, Connected).(modem := true, modemPath := "/modem");
    var props: Props := [(Type, HARDWARE)];
    var modems: Objects := [("/modem", [(Type, HARDWARE)])];
    ConnectShape(e, s);
    assert FirstHardware(modems) == Some(modems[0]);
    assert ModemLoop(e, s2, props) == ModemLoop(e, s2, props[1..]) == s2;
  }

  /** Powering off without a SIM proxy resets the SIM, and that is all. */
  lemma PowerOffResets(e: Env, s: State)
    requires s.modem && s.sim.Absent? && s.status == Unknown && CellStatus.NoSim !in e.registered
    ensures var r := Step(e, s, ModemChanged(Powered, NO));
      r == ResetSim(e, s) && r.status == CellStatus.NoSim && r.manager == s.manager
  {
  }

  /** The service goes at a bad moment: the bridge is at NoSim and publishes "offline". */
  lemma LossAtNoSim(s: State)
    requires IsInitial(s)
    ensures var r := Run(OneModem(None, AS_INTENDED), s, [Connected, ModemChanged(Powered, NO), ServiceLost]);
      r.status == CellStatus.NoSim && !Coherent(r)
  {
    var e := OneModem(None, AS_INTENDED);
    var b := ModemChanged(Powered, NO);
    var s1 := Step(e, s, Connected);
    ConnectsToModem(None, AS_INTENDED, s);
    PowerOffResets(e, s1);
    StepsKeepInv(e, s, Connected, b);
    LossKeeps(e, Step(e, s1, b));
    RunOfThree(e, s, Connected, b, ServiceLost);
  }

  // ---- A context that a reset hides ----

  const MMS: seq<(Key, Variant)> := [(Type, Text("mms")), (MessageCenter, Text("http://mms"))]

  lemma MmsIsUsable()
    ensures DistinctKeys(MMS) && ContextOf(MMS) == map[Type := Text("mms"), MessageCenter := Text("http://mms")]
  {
    assert MMS[1..] == [(MessageCenter, Text("http://mms"))] && MMS[1..][1..] == [];
    assert ContextOf(MMS[1..]) == map[MessageCenter := Text("http://mms")];
  }

  /** Learning of the connection manager, of which nothing can be read. */
  lemma ManagerAppears(s: State)
    requires s.ifaces == {}
    ensures Step(OneModem(None, AS_INTENDED), s, ModemChanged(Interfaces, Listing([ConnectionManager]))) ==
      if s.modem then s.(cm := true, calls := s.calls + 1, ifaces := {ConnectionManager}) else s
  {
    ListingReads([ConnectionManager]);
    assert (set i | i in [ConnectionManager]) == {ConnectionManager};
  }

  lemma OnlyContext(ctxs: map<string, Context>)
    requires ctxs.Keys == {"/ctx"} && IsMms(ctxs["/ctx"])
    ensures FirstMms(ctxs) == "/ctx"
  {
    assert MmsPaths(ctxs) == {"/ctx"};
    LexTotal("/ctx", "/ctx");
    assert IsLeast("/ctx", MmsPaths(ctxs));
    FirstMmsMeaning(ctxs, "/ctx");
  }

  lemma ContextAppears(e: Env, s: State, props: PropMap)
    requires s.cm && s.contexts == map[] && props == MMS
    ensures var r := Step(e, s, ContextAdded("/ctx", props));
      r.mms == "/ctx" && r == s.(contexts := r.contexts, mms := r.mms, pub := r.pub)
  {
    MmsIsUsable();
    var ctxs := map["/ctx" := ContextOf(MMS)];
    OnlyContext(ctxs);
    assert s.contexts["/ctx" := ContextOf(MMS)] == ctxs;
  }

  /** A bridge with a modem, no SIM and a usable context. */
  lemma UsableContext(s: State, props: PropMap)
    requires IsInitial(s) && props == MMS
    ensures var e := OneModem(None, AS_INTENDED);
      var s2 := Step(e, Step(e, s, Connected), ModemChanged(Interfaces, Listing([ConnectionManager])));
      var r := Step(e, s2, ContextAdded("/ctx", props));
      Inv(r) && r.modem && r.sim.Absent? && r.status == Unknown && r.mms == "/ctx"
  {
    var e := OneModem(None, AS_INTENDED);
    var b := ModemChanged(Interfaces, Listing([ConnectionManager]));
    var s1 := Step(e, s, Connected);
    ConnectsToModem(None, AS_INTENDED, s);
    ManagerAppears(s1);
    StepsKeepInv(e, s, Connected, b);
    var s2 := Step(e, s1, b);
    ContextAppears(e, s2, props);
    StepKeeps(e, s2, ContextAdded("/ctx", props));
  }

  /** A usable context is there, and powering the modem off blanks it. */
  lemma PowerOffHidesMms(s: State, props: PropMap)
    requires IsInitial(s) && props == MMS
    ensures var r := Run(OneModem(None, AS_INTENDED), s,
        [Connected, ModemChanged(Interfaces, Listing([ConnectionManager])),
         ContextAdded("/ctx", props), ModemChanged(Powered, NO)]);
      r.mms == "/ctx" && MMSContext in r.pub && r.pub[MMSContext] != r.mms
  {
    var e := OneModem(None, AS_INTENDED);
    var b, c := ModemChanged(Interfaces, Listing([ConnectionManager])), ContextAdded("/ctx", props);
    var s3 := Step(e, Step(e, Step(e, s, Connected), b), c);
    UsableContext(s, props);
    PowerOffResets(e, s3);
    BulkResetsHideMms(e, s3);
    RunOfFour(e, s, Connected, b, c, ModemChanged(Powered, NO));
  }

  // ---- A SIM that outlives its modem ----

  /** Both interfaces turn up, and their queries report nothing. */
  lemma SimAndNetworkAppear(s: State)
    requires s.modem && s.ifaces == {}
    ensures Step(OneModem(Some([]), AS_INTENDED), s, ModemChanged(Interfaces, Listing([SimManager, NetworkRegistration]))) ==
      s.(sim := Wired, network := true, calls := s.calls + 2, ifaces := {SimManager, NetworkRegistration})
  {
    var e := OneModem(Some([]), AS_INTENDED);
    var list := [SimManager, NetworkRegistration];
    assert (set i | i in list) == {SimManager, NetworkRegistration};
    BothEdges(e, s);
    var s1 := s.(sim := Wired, calls := s.calls + 1);
    ListIsProcessed(e, s, list, s1, s1.(network := true, calls := s.calls + 2));
  }

  lemma BothEdges(e: Env, s: State)
    requires e == OneModem(Some([]), AS_INTENDED) && s.ifaces == {}
    ensures var now := {SimManager, NetworkRegistration};
      var s1 := s.(sim := Wired, calls := s.calls + 1);
      && EdgeOf(s.ifaces, now, SimManager) == Set && SetupSim(e, s) == s1
      && FollowAfterSim(e, s1, now) == s1.(network := true, calls := s.calls + 2)
  {
    var now := {SimManager, NetworkRegistration};
    var s1 := s.(sim := Wired, calls := s.calls + 1);
    EmptyReplies(e, s);
    EmptyReplies(e, s1);
    assert NetEdge(e, s1, Set) == s1.(network := true, calls := s.calls + 2);
  }

  lemma EmptyReplies(e: Env, s: State)
    requires e.props(s.calls) == Some([]) && SimToolkit !in s.ifaces
    ensures SetupSim(e, s) == s.(sim := Wired, calls := s.calls + 1)
    ensures SetupNetwork(e, s) == s.(network := true, calls := s.calls + 1)
  {
    var s1 := s.(sim := Silent, calls := s.calls + 1);
    assert SimLoop(e, s1, []) == s1;
    assert SimReply(e, s1, []) == s1.(sim := Wired);
  }

  /** Beside a network proxy a SIM that turns up is believed without a status change. */
  lemma SimTurnsUpAtNoSim(e: Env, s: State)
    requires s.sim.Wired? && s.network && !s.hasSim && s.status == Unknown
    requires CellStatus.NoSim !in e.registered
    ensures var r := Step(e, Step(e, s, SimChanged(Present, NO)), SimChanged(Present, YES));
      && r == Enter(s, CellStatus.NoSim).(hasSim := true)
      && Step(e, s, SimChanged(Present, NO)) == Enter(s, CellStatus.NoSim)
  {
    assert SetStatus(e, s, CellStatus.NoSim) == Enter(s, CellStatus.NoSim);
    assert s.(hasSim := false) == s;
  }

  lemma SimBelieved(s: State)
    requires IsInitial(s)
    ensures var e := OneModem(Some([]), AS_INTENDED);
      var s2 := Step(e, Step(e, s, Connected),
                     ModemChanged(Interfaces, Listing([SimManager, NetworkRegistration])));
      var r := Step(e, Step(e, s2, SimChanged(Present, NO)), SimChanged(Present, YES));
      && r.manager.Wired? && r.modemPath == "/modem" && Full(r.pub)
      && r.hasSim && r.status == CellStatus.NoSim && r.pub[RegistrationStatus] == "no-sim"
  {
    var e := OneModem(Some([]), AS_INTENDED);
    var s1 := Step(e, s, Connected);
    ConnectsToModem(Some([]), AS_INTENDED, s);
    SimAndNetworkAppear(s1);
    SimTurnsUpAtNoSim(e, Step(e, s1, ModemChanged(Interfaces, Listing([SimManager, NetworkRegistration]))));
  }

  /** The modem goes while the SIM is believed at NoSim: the belief stays. */
  lemma RemovalKeepsSim(s: State)
    requires IsInitial(s)
    ensures var r := Run(OneModem(Some([]), AS_INTENDED), s,
        [Connected, ModemChanged(Interfaces, Listing([SimManager, NetworkRegistration])),
         SimChanged(Present, NO), SimChanged(Present, YES), ModemRemoved("/modem")]);
      !r.modem && r.sim.Absent? && r.status == CellStatus.NoSim && r.hasSim
  {
    var e := OneModem(Some([]), AS_INTENDED);
    var b := ModemChanged(Interfaces, Listing([SimManager, NetworkRegistration]));
    var c, d, f := SimChanged(Present, NO), SimChanged(Present, YES), ModemRemoved("/modem");
    var s1 := Step(e, s, Connected);
    SimBelieved(s);
    ModemRemovalResets(e, Step(e, Step(e, Step(e, s1, b), c), d));
    assert [Connected, b, c, d, f][1..] == [b, c, d, f];
    RunOfFour(e, s1, b, c, d, f);
  }

  /** Before that, the SIM that is present is published as "no-sim". */
  lemma PresentSimPublishedAsNoSim(s: State)
    requires IsInitial(s)
    ensures var r := Run(OneModem(Some([]), AS_INTENDED), s,
        [Connected, ModemChanged(Interfaces, Listing([SimManager, NetworkRegistration])),
         SimChanged(Present, NO), SimChanged(Present, YES)]);
      r.hasSim && Full(r.pub) && r.pub[RegistrationStatus] == "no-sim"
  {
    var e := OneModem(Some([]), AS_INTENDED);
    SimBelieved(s);
    RunOfFour(e, s, Connected, ModemChanged(Interfaces, Listing([SimManager, NetworkRegistration])),
              SimChanged(Present, NO), SimChanged(Present, YES));
  }

  // ---- Bars that wrap ----

  const STRONGEST := Variant(true, 0xFFFF_FFFF, "", [], "")

  /** The network turns up, without any property. */
  lemma NetworkAppears(s: State)
    requires s.modem && s.ifaces == {}
    ensures Step(OneModem(Some([]), AS_INTENDED), s, ModemChanged(Interfaces, Listing([NetworkRegistration]))) ==
      s.(network := true, calls := s.calls + 1, ifaces := {NetworkRegistration})
  {
    var e := OneModem(Some([]), AS_INTENDED);
    var now := {NetworkRegistration};
    EmptyReplies(e, s);
    assert (set i | i in [NetworkRegistration]) == now;
    var r := s.(network := true, calls := s.calls + 1);
    assert NetEdge(e, s, Set) == r;
    assert FollowAfterSim(e, s, now) == r;
    ListIsProcessed(e, s, [NetworkRegistration], s, r);
  }

  lemma StrengthIsShown(s: State, v: Variant)
    requires Full(s.pub)
    ensures var r := NetPublish(s, Strength, v);
      && Full(r.pub)
      && r.pub[SignalStrength] == Dec(v.toUInt) && r.pub[SignalBars] == Dec(Bars(v.toUInt))
  {
  }

  /** Without a SIM the network is reset first, and the strength goes out all the same. */
  lemma StrengthIsPublished(e: Env, s: State, v: Variant)
    requires s.network && !s.hasSim && Inv(s)
    ensures var r := Step(e, s, NetworkChanged(Strength, v));
      && Full(r.pub)
      && r.pub[SignalStrength] == Dec(v.toUInt) && r.pub[SignalBars] == Dec(Bars(v.toUInt))
  {
    var s1 := ResetNetwork(e, s);
    ResetNetworkKeeps(e, s);
    StrengthIsShown(s1, v);
    StepIsPublish(e, s, s1, v);
  }

  lemma StepIsPublish(e: Env, s: State, s1: State, v: Variant)
    requires s.network && !s.hasSim && s1 == ResetNetwork(e, s)
    ensures Step(e, s, NetworkChanged(Strength, v)) == NetPublish(s1, Strength, v)
  {
    assert NetUpdate(e, s, Strength, v) == NetAction(e, s1, Strength, v);
  }

  lemma StrongestWraps()
    ensures Dec(Bars(STRONGEST.toUInt)) == "0"
  {
    ZeroText();
  }

  /** The strongest signal is published with no bars. */
  lemma StrongestHasNoBars(s: State)
    requires IsInitial(s)
    ensures var r := Run(OneModem(Some([]), AS_INTENDED), s,
        [Connected, ModemChanged(Interfaces, Listing([NetworkRegistration])), NetworkChanged(Strength, STRONGEST)]);
      && Full(r.pub) && r.pub[SignalStrength] == Dec(0xFFFF_FFFF) && r.pub[SignalBars] == "0"
  {
    var e := OneModem(Some([]), AS_INTENDED);
    var b := ModemChanged(Interfaces, Listing([NetworkRegistration]));
    var s1 := Step(e, s, Connected);
    ConnectsToModem(Some([]), AS_INTENDED, s);
    NetworkAppears(s1);
    StepsKeepInv(e, s, Connected, b);
    StrengthIsPublished(e, Step(e, s1, b), STRONGEST);
    StrongestWraps();
    RunOfThree(e, s, Connected, b, NetworkChanged(Strength, STRONGEST));
  }

  // ---- A SIM that is always present ----

  /** Every SIM query answers that the SIM is present. */
  function SteadySim(registered: set<CellStatus>): Env {
    OneModem(Some([(Present, YES)]), registered)
  }

  /** Setting the SIM up then finds it present and offline. */
  lemma SteadySetup(e: Env, s: State)
    requires e == SteadySim(e.registered) && Sensible(e)
    requires !s.network && s.status == Unknown && SimToolkit !in s.ifaces
    ensures SetupSim(e, s) ==
      Enter(s.(sim := Wired, calls := s.calls + 1, hasSim := true), Offline)
  {
    var answer: Props := [(Present, YES)];
    var s1 := s.(sim := Silent, calls := s.calls + 1);
    var s2 := Enter(s1.(hasSim := true), Offline);
    assert e.props(s.calls) == Some(answer);
    assert SetStatus(e, s1.(hasSim := true), Offline) == s2;
    assert SimUpdate(e, s1, Present, YES) == s2;
    assert answer[1..] == [];
    assert SimLoop(e, s1, answer) == SimLoop(e, s2, []) == s2;
  }

  lemma NoOtherEdges(e: Env, s: State, now: set<Interface>)
    requires now <= {SimManager} && s.ifaces <= {SimManager}
    ensures FollowAfterSim(e, s, now) == s
  {
    var i := s.ifaces;
    assert EdgeOf(i, now, NetworkRegistration) == UnchangedReset;
    assert EdgeOf(i, now, SimToolkit) == UnchangedReset;
    assert EdgeOf(i, now, ConnectionManager) == UnchangedReset;
  }

  /** Connecting to the modem and learning its SIM interface leaves a live, offline SIM. */
  lemma SteadyStart(e: Env, s: State)
    requires e == SteadySim(e.registered) && Sensible(e) && IsInitial(s)
    ensures var r := Step(e, Step(e, s, Connected), ModemChanged(Interfaces, Listing([SimManager])));
      && r.modem && r.manager.Wired? && r.modemPath == "/modem" && !r.sim.Absent?
      && r.status == Offline && r.ifaces == {SimManager} && Inv(r)
  {
    ConnectsToModem(Some([(Present, YES)]), e.registered, s);
    SteadyList(e, Step(e, s, Connected));
    StepsKeepInv(e, s, Connected, ModemChanged(Interfaces, Listing([SimManager])));
  }

  lemma SteadyList(e: Env, s: State)
    requires e == SteadySim(e.registered) && Sensible(e)
    requires s.modem && !s.network && s.status == Unknown && s.ifaces == {}
    ensures Step(e, s, ModemChanged(Interfaces, Listing([SimManager]))) ==
      SetupSim(e, s).(ifaces := {SimManager})
    ensures SetupSim(e, s) ==
      Enter(s.(sim := Wired, calls := s.calls + 1, hasSim := true), Offline)
  {
    var r := SetupSim(e, s);
    SteadySetup(e, s);
    assert (set i | i in [SimManager]) == {SimManager};
    NoOtherEdges(e, r, {SimManager});
    ListIsProcessed(e, s, [SimManager], r, r);
  }

  /** Losing the SIM interface, with the registered set as constructed, finds the SIM
      present again during the reset. */
  lemma SteadyLoss(e: Env, s: State)
    requires e == SteadySim(AS_CONSTRUCTED) && Inv(s) && s.modem
    requires !s.sim.Absent? && s.status == Offline && s.ifaces == {SimManager}
    ensures var r := Step(e, s, ModemChanged(Interfaces, Listing([])));
      r.status == Offline && !Coherent(r)
  {
    ListingReads([]);
    SteadyRevives(e, s);
    ResetSimCoherentIff(e, s);
    assert Step(e, s, ModemChanged(Interfaces, Listing([]))) == ResetSim(e, s).(ifaces := {});
  }

  lemma SteadyRevives(e: Env, s: State)
    requires e == SteadySim(AS_CONSTRUCTED) && s.modem && s.status == Offline
    ensures Sensible(e) && Revived(e, s)
  {
    ConstructedSelects();
    var answer: Props := [(Present, YES)];
    assert e.props(s.calls) == Some(answer);
    assert Lookup(answer, Present) == YES;
  }

  /** With the registered set as constructed, coherence fails on a run of three events:
      when the SIM interface goes, the reset finds the SIM present again and publishes
      "no-sim" for a bridge that is offline with a SIM. */
  lemma ConstructedSetLosesCoherence(s: State)
    requires IsInitial(s)
    ensures var r := Run(SteadySim(AS_CONSTRUCTED), s,
        [Connected, ModemChanged(Interfaces, Listing([SimManager])), ModemChanged(Interfaces, Listing([]))]);
      r.status == Offline && !Coherent(r)
  {
    var e := SteadySim(AS_CONSTRUCTED);
    var b, c := ModemChanged(Interfaces, Listing([SimManager])), ModemChanged(Interfaces, Listing([]));
    ConstructedSelects();
    SteadyStart(e, s);
    SteadyLoss(e, Step(e, Step(e, s, Connected), b));
    RunOfThree(e, s, Connected, b, c);
  }

  // ---- A modem that comes back ----

  lemma RemovalKeepsManager(e: Env, s: State)
    ensures ResetModem(e, s).manager == s.manager
  {
    var s1 := ResetCm(s.(modemPath := "", modem := false));
    SetStatusKeeps(e, s1.(oper := false, network := false, sim := Absent), CellStatus.NoSim);
  }

  lemma SteadyReturn(e: Env, s: State, props: PropMap)
    requires s.manager.Wired? && s.modemPath == "/modem" && s.ifaces == {SimManager} && Full(s.pub)
    requires props == [(Type, HARDWARE), (Interfaces, Listing([SimManager]))]
    ensures var r := Step(e, Step(e, s, ModemRemoved("/modem")), ModemAdded("/modem", props));
      SimManager in r.ifaces && r.sim.Absent?
  {
    SameListing(s, props);
    ReturningModemIsIgnored(e, s, "/modem", props);
    RemovalKeepsManager(e, s);
  }

  lemma SameListing(s: State, props: Props)
    requires s.ifaces == {SimManager}
    requires props == [(Type, HARDWARE), (Interfaces, Listing([SimManager]))]
    ensures SameInterfaces(s, props) && IsHardware(props)
  {
    ListingReads([SimManager]);
    assert (set i | i in [SimManager]) == {SimManager};
  }

  /** With the intended set: a modem with a SIM goes and comes back as it was, and this time
      the bridge has no SIM proxy, although the modem lists the interface. */
  lemma ReturningModemHasNoSim(s: State, props: PropMap)
    requires IsInitial(s) && props == [(Type, HARDWARE), (Interfaces, Listing([SimManager]))]
    ensures var r := Run(SteadySim(AS_INTENDED), s,
        [Connected, ModemChanged(Interfaces, Listing([SimManager])),
         ModemRemoved("/modem"), ModemAdded("/modem", props)]);
      SimManager in r.ifaces && r.sim.Absent?
  {
    var e := SteadySim(AS_INTENDED);
    var b := ModemChanged(Interfaces, Listing([SimManager]));
    SteadyStart(e, s);
    SteadyReturn(e, Step(e, Step(e, s, Connected), b), props);
    RunOfFour(e, s, Connected, b, ModemRemoved("/modem"), ModemAdded("/modem", props));
  }
}
