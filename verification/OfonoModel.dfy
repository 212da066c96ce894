/** What each operation of the oFono bridge does to its state, as functions of the state
    and of the outside world (src/ofono/provider_ofono.cpp). The class in OfonoBridge.dfy
    is proved to compute exactly these.

    `set_status`, `setup_sim`, `setup_network` and `reset_network` call one another. Their
    termination measure is `Rank`. */
module OfonoModel {
  import opened Values
  import opened Properties
  import opened OfonoTypes

  // ---- Termination ----

  /** At NoSim without a SIM: every further `set_status` is a no-op. */
  predicate Settled(s: State) {
    !s.hasSim && s.status == CellStatus.NoSim
  }

  function Level(s: State): nat {
    if Settled(s) then 0
    else if !s.hasSim then 3
    else if s.network then 1 else 2
  }

  /** Measure of the recursive cluster: first whether the SIM proxy is absent, then how far
      the state is from settled or from having a network proxy. */
  function Rank(s: State): nat {
    (if s.sim.Absent? then 4 else 0) + Level(s)
  }

  /** Processing an operator recurses only if the SIM proxy is absent. */
  function OperRank(s: State): nat {
    if s.sim.Absent? then Rank(s.(network := false)) else 0
  }

  // ---- Small steps ----

  function Publish(s: State, p: Prop, text: string): State {
    s.(pub := Put(s.pub, p, text))
  }

  /** `MainNs::resetProperties`. */
  function ResetTable(pub: map<Prop, string>, noSim: bool): map<Prop, string> {
    var t := DefaultTable(pub);
    if noSim then Put(t, RegistrationStatus, "no-sim") else t
  }

  function ShownName(s: State): string {
    if s.netName == "" then s.operName else s.netName
  }

  /** Both name setters write the same two properties. */
  function PublishName(s: State): State {
    var name := ShownName(s);
    Publish(Publish(s, NetworkName, name), ExtendedNetworkName, name)
  }

  /** The part of `set_status` before it reacts to the registration change. */
  function Enter(s: State, st: CellStatus): State {
    s.(hasSim := s.hasSim && st != CellStatus.NoSim,
       naming := if st == Roaming then Roam else Home,
       pub := Put(s.pub, RegistrationStatus, Ckit(st)),
       status := st)
  }

  // ---- SIM toolkit ----

  function ResetStk(s: State): State {
    Publish(s.(stk := Absent), StkIdleModeText, "")
  }

  function StkUpdate(s: State, k: Key, v: Variant): State {
    if !s.hasSim then ResetStk(s)
    else if k == IdleModeText then Publish(s, StkIdleModeText, v.encoded)
    else s
  }

  function StkLoop(s: State, props: Props): (r: State)
    ensures r == s.(stk := r.stk, pub := r.pub)
    decreases |props|
  {
    if props == [] then s else StkLoop(StkUpdate(s, props[0].0, props[0].1), props[1..])
  }

  function SetupStk(e: Env, s: State): (r: State)
    ensures r == s.(stk := r.stk, pub := r.pub, calls := r.calls)
  {
    var s1 := s.(stk := Silent, calls := s.calls + 1);
    match e.props(s.calls)
    case None => s1
    case Some(props) =>
      var s2 := StkLoop(s1, props);
      if s2.stk.Absent? then s2 else s2.(stk := Wired)
  }

  // ---- Network properties that only publish ----

  /** The network properties that are published as they are (`direct_update`). */
  function DirectTarget(k: Key): Option<Prop> {
    match k
    case CellId => Some(CellName)
    case MobileCountryCode => Some(CurrentMCC)
    case MobileNetworkCode => Some(CurrentMNC)
    case _ => None
  }

  function NetPublish(s: State, k: Key, v: Variant): (r: State)
    ensures r == s.(netName := r.netName, pub := r.pub)
  {
    if k == Name then PublishName(s.(netName := v.toString))
    else if k == Strength then
      Publish(Publish(s, SignalStrength, Dec(v.toUInt)), SignalBars, Dec(Bars(v.toUInt)))
    else if k == Key.Technology then PublishTech(s, TechRow(v.toString))
    else
      match DirectTarget(k)
      case Some(p) => Publish(s, p, v.encoded)
      case None => s
  }

  function PublishTech(s: State, row: Option<(string, string)>): State {
    match row
    case None => s
    case Some((tech, data)) => Publish(Publish(s, Prop.Technology, tech), DataTechnology, data)
  }

  // ---- The recursive cluster ----

  function SetStatus(e: Env, s: State, st: CellStatus): (r: State)
    ensures Rank(r) <= Rank(s)
    ensures !s.sim.Absent? ==> !r.sim.Absent?
    decreases Rank(s), if st == CellStatus.NoSim then 0 else 1, 0
  {
    if st == s.status then s
    else if !s.hasSim && st != CellStatus.NoSim then SetStatus(e, s, CellStatus.NoSim)
    else
      var s1 := Enter(s, st);
      if st in e.registered && s.status !in e.registered then
        if !s.modem then s1
        else if s1.sim.Absent? then SetupSim(e, s1)
        else if !s1.network then SetupNetwork(e, s1)
        else EnumerateOperators(e, s1)
      else s1
  }

  function SimUpdate(e: Env, s: State, k: Key, v: Variant): (r: State)
    requires !s.sim.Absent?
    ensures !r.sim.Absent?
    decreases 4, 0, 0
  {
    if k == Present then
      var s1 := s.(hasSim := v.toBool);
      if !v.toBool then SetStatus(e, s1, CellStatus.NoSim)
      else if !s.network then SetStatus(e, s1, Offline)
      else s1
    else if k == MobileCountryCode then Publish(s, HomeMCC, v.encoded)
    else if k == MobileNetworkCode then Publish(s, HomeMNC, v.encoded)
    else s
  }

  function SimLoop(e: Env, s: State, props: Props): (r: State)
    requires !s.sim.Absent?
    ensures !r.sim.Absent?
    decreases 4, 1, |props|
  {
    if props == [] then s
    else SimLoop(e, SimUpdate(e, s, props[0].0, props[0].1), props[1..])
  }

  /** The change signal is connected, and the toolkit queried, only if the query works. */
  function SetupSim(e: Env, s: State): (r: State)
    ensures !r.sim.Absent?
    decreases 4, 3, 0
  {
    var s1 := s.(sim := Silent, calls := s.calls + 1);
    match e.props(s.calls)
    case None => s1
    case Some(props) => SimReply(e, s1, props)
  }

  function SimReply(e: Env, s: State, props: Props): (r: State)
    requires !s.sim.Absent?
    ensures !r.sim.Absent?
    decreases 4, 2, 0
  {
    var s1 := SimLoop(e, s, props).(sim := Wired);
    if SimToolkit in s1.ifaces then SetupStk(e, s1) else s1
  }

  function ResetNetwork(e: Env, s: State): (r: State)
    ensures Rank(r) <= Rank(s.(network := false))
    ensures !s.sim.Absent? ==> !r.sim.Absent?
    decreases Rank(s.(network := false)), 2, 0
  {
    var s1 := SetStatus(e, s.(oper := false, network := false), Offline);
    s1.(pub := ResetTable(s1.pub, !s1.hasSim))
  }

  /** One entry of `net_property_actions_`. */
  function NetAction(e: Env, s: State, k: Key, v: Variant): (r: State)
    ensures Rank(r) <= Rank(s)
    ensures !s.sim.Absent? ==> !r.sim.Absent?
    decreases Rank(s), 2, 0
  {
    if k == Key.Status then SetStatus(e, Publish(s, Prop.Status, v.encoded), MapStatus(v.toString))
    else NetPublish(s, k, v)
  }

  function NetUpdate(e: Env, s: State, k: Key, v: Variant): (r: State)
    ensures Rank(r) <= Rank(s)
    ensures !s.sim.Absent? ==> !r.sim.Absent?
    decreases Rank(s), 3, 0
  {
    NetAction(e, if !s.hasSim then ResetNetwork(e, s) else s, k, v)
  }

  function NetLoop(e: Env, s: State, props: Props): (r: State)
    ensures Rank(r) <= Rank(s)
    ensures !s.sim.Absent? ==> !r.sim.Absent?
    decreases Rank(s), 4, |props|
  {
    if props == [] then s
    else NetLoop(e, NetUpdate(e, s, props[0].0, props[0].1), props[1..])
  }

  function SetupNetwork(e: Env, s: State): (r: State)
    ensures Rank(r) <= Rank(s.(network := true))
    ensures !s.sim.Absent? ==> !r.sim.Absent?
    decreases Rank(s.(network := true)), 5, 0
  {
    var s1 := s.(network := true, calls := s.calls + 1);
    match e.props(s.calls)
    case None => s1
    case Some(props) => NetLoop(e, s1, props)
  }

  function OperUpdate(e: Env, s: State, k: Key, v: Variant): (r: State)
    ensures OperRank(r) <= OperRank(s)
    ensures !s.sim.Absent? ==> Rank(r) == Rank(s) && !r.sim.Absent?
    decreases OperRank(s), 3, 0
  {
    var s1 := if s.sim.Absent? then ResetNetwork(e, s) else s;
    if k == Name then PublishName(s1.(operName := v.toString)) else s1
  }

  function OperLoop(e: Env, s: State, props: Props): (r: State)
    ensures !s.sim.Absent? ==> Rank(r) == Rank(s) && !r.sim.Absent?
    decreases OperRank(s), 4, |props|
  {
    if props == [] then s
    else OperLoop(e, OperUpdate(e, s, props[0].0, props[0].1), props[1..])
  }

  predicate IsCurrent(props: Props) {
    Lookup(props, Key.Status).toString == "current"
  }

  /** Tries the operators in turn and sets up the first current one. */
  function OpsLoop(e: Env, s: State, ops: Objects): (r: State)
    ensures !s.sim.Absent? ==> Rank(r) == Rank(s) && !r.sim.Absent?
    decreases OperRank(s), 5, |ops|
  {
    if ops == [] then s
    else if IsCurrent(ops[0].1) then OperLoop(e, s.(oper := true), ops[0].1)
    else OpsLoop(e, s, ops[1..])
  }

  function EnumerateOperators(e: Env, s: State): (r: State)
    ensures !s.sim.Absent? ==> Rank(r) == Rank(s) && !r.sim.Absent?
    decreases OperRank(s), 6, 0
  {
    if !s.network then s
    else
      var s1 := s.(calls := s.calls + 1);
      match e.objects(s.calls)
      case None => s1
      case Some(ops) => OpsLoop(e, s1, ops)
  }

  // ---- Connection manager ----

  ghost function UpdateMms(s: State): State {
    Publish(s.(mms := FirstMms(s.contexts)), MMSContext, FirstMms(s.contexts))
  }

  ghost function ResetCm(s: State): State {
    UpdateMms(s.(cm := false, contexts := map[]))
  }

  /** The QVariantMap of a message context. */
  function ContextOf(props: Props): Context {
    if props == [] then map[] else ContextOf(props[1..])[props[0].0 := props[0].1]
  }

  ghost function AddContext(s: State, path: string, props: Props): State {
    UpdateMms(s.(contexts := s.contexts[path := ContextOf(props)]))
  }

  ghost function RemoveContext(s: State, path: string): State {
    UpdateMms(s.(contexts := s.contexts - {path}))
  }

  ghost function ChangeContext(s: State, path: string, k: Key, v: Variant): State
    requires path in s.contexts
  {
    UpdateMms(s.(contexts := s.contexts[path := s.contexts[path][k := v]]))
  }

  function CmUpdate(s: State, k: Key, v: Variant): State {
    if k == RoamingAllowed then Publish(s, DataRoamingAllowed, v.encoded) else s
  }

  function CmLoop(s: State, props: Props): (r: State)
    ensures r == s.(pub := r.pub)
    decreases |props|
  {
    if props == [] then s else CmLoop(CmUpdate(s, props[0].0, props[0].1), props[1..])
  }

  ghost function ContextLoop(s: State, ctxs: Objects): (r: State)
    ensures r.sim == s.sim && r.hasSim == s.hasSim && r.status == s.status
    decreases |ctxs|
  {
    if ctxs == [] then s else ContextLoop(AddContext(s, ctxs[0].0, ctxs[0].1), ctxs[1..])
  }

  ghost function QueryContexts(e: Env, s: State): (r: State)
    ensures r.sim == s.sim && r.hasSim == s.hasSim && r.status == s.status
  {
    var s1 := s.(calls := s.calls + 1);
    match e.objects(s.calls)
    case None => s1
    case Some(ctxs) => ContextLoop(s1, ctxs)
  }

  /** The contexts are asked for only if the manager's own properties could be read. */
  ghost function SetupCm(e: Env, s: State): State {
    var s1 := s.(cm := true, calls := s.calls + 1);
    match e.props(s.calls)
    case None => s1
    case Some(props) => QueryContexts(e, CmLoop(s1, props))
  }

  // ---- Modem ----

  function ResetSim(e: Env, s: State): State {
    var s1 := SetStatus(e, s.(oper := false, network := false, sim := Absent), CellStatus.NoSim);
    s1.(pub := ResetTable(s1.pub, true))
  }

  ghost function ResetModem(e: Env, s: State): State {
    ResetSim(e, ResetCm(s.(modemPath := "", modem := false)))
  }

  function SimEdge(e: Env, s: State, edge: Edge): State {
    if edge == Set then SetupSim(e, s) else s
  }

  function NetEdge(e: Env, s: State, edge: Edge): State {
    if edge == Reset then ResetNetwork(e, s)
    else if edge == Set then SetupNetwork(e, s) else s
  }

  function StkEdge(e: Env, s: State, edge: Edge): State {
    if edge == Set then SetupStk(e, s) else if edge == Reset then ResetStk(s) else s
  }

  ghost function CmEdge(e: Env, s: State, edge: Edge): State {
    if edge == Set then SetupCm(e, s) else if edge == Reset then ResetCm(s) else s
  }

  /** The interfaces handled in turn after the SIM interface. */
  ghost function FollowAfterSim(e: Env, s: State, now: set<Interface>): State {
    var s1 := NetEdge(e, s, EdgeOf(s.ifaces, now, NetworkRegistration));
    var s2 := StkEdge(e, s1, EdgeOf(s1.ifaces, now, SimToolkit));
    CmEdge(e, s2, EdgeOf(s2.ifaces, now, ConnectionManager))
  }

  /** Losing a live SIM interface ends the processing early. The new set of interfaces is
      stored on every way out. */
  ghost function ProcessInterfaces(e: Env, s: State, list: seq<string>): State {
    var now := GetInterfaces(list);
    var r :=
      if EdgeOf(s.ifaces, now, SimManager) == Reset && !s.sim.Absent? then ResetSim(e, s)
      else FollowAfterSim(e, SimEdge(e, s, EdgeOf(s.ifaces, now, SimManager)), now);
    r.(ifaces := now)
  }

  ghost function ModemUpdate(e: Env, s: State, k: Key, v: Variant): State {
    if k == Interfaces then ProcessInterfaces(e, s, v.toStringList)
    else if k == Powered && !v.toBool && s.sim.Absent? then ResetSim(e, s)
    else s
  }

  ghost function ModemLoop(e: Env, s: State, props: Props): State
    decreases |props|
  {
    if props == [] then s
    else ModemLoop(e, ModemUpdate(e, s, props[0].0, props[0].1), props[1..])
  }

  predicate IsHardware(props: Props) {
    Lookup(props, Type).toString == "hardware"
  }

  ghost function SetupModem(e: Env, s: State, path: string, props: Props): State {
    if !IsHardware(props) then s
    else ModemLoop(e, s.(modem := true, modemPath := path), props)
  }

  ghost function ModemsLoop(e: Env, s: State, modems: Objects): State {
    if modems == [] then s
    else if IsHardware(modems[0].1) then SetupModem(e, s, modems[0].0, modems[0].1)
    else ModemsLoop(e, s, modems[1..])
  }

  /** The manager's signals are connected only if there was a modem to begin with. */
  ghost function Connect(e: Env, s: State): State {
    var s1 := s.(manager := Silent, calls := s.calls + 1);
    match e.objects(s.calls)
    case None => s1
    case Some(modems) =>
      if modems == [] then s1 else ModemsLoop(e, s1, modems).(manager := Wired)
  }

  function LoseService(s: State): State {
    s.(manager := Absent, pub := ResetTable(s.pub, false))
  }
}
