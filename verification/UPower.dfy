/** The UPower bridge: publishing only what changed against publishing everything
    (src/upower/provider_upower.cpp). */
module UPower {
  import opened Properties

  datatype Prop =
    | ChargePercentage | Capacity | OnBattery | LowBattery | TimeUntilLow | TimeUntilFull | IsCharging

  /** A published value before it is turned into text. */
  datatype Value = Number(r: real) | Count(n: int) | Truth(b: bool)

  const CHARGING := 1
  const FULLY_CHARGED := 4
  const UNKNOWN_STATE := 0

  /** The tuple of tracked values; `state` is a DeviceState code. */
  datatype Info = Info(
    percentage: real, onBattery: bool, lowBattery: bool, timeToEmpty: int, timeToFull: int, state: int)

  const DEFAULTS := Info(87.0, true, false, 878787, 0, UNKNOWN_STATE)

  datatype State = State(manager: bool, device: bool, path: string, last: Info, pub: map<Prop, Value>)

  /** C `round`: halves go away from zero. */
  function Round(x: real): real {
    if x >= 0.0 then (x + 0.5).Floor as real else -((-x + 0.5).Floor as real)
  }

  predicate Charges(state: int) {
    state == CHARGING || state == FULLY_CHARGED
  }

  /** States in which there is nothing left to wait for, or nothing to wait with. */
  predicate NoTimeToFull(state: int) {
    !Charges(state) || state == FULLY_CHARGED
  }

  /** What the bridge reads when it updates; `r` is what the proxies would answer. */
  function Now(s: State, r: Info): Info {
    if s.device && s.manager then r
    else if s.manager then Info(99.0, r.onBattery, r.lowBattery, 12345, 0, UNKNOWN_STATE)
    else DEFAULTS
  }

  // ---- Publishing the differences ----

  function OnPercentage(pub: map<Prop, Value>, v: real): map<Prop, Value> {
    Put(Put(pub, ChargePercentage, Number(Round(v))), Capacity, Number(v))
  }

  function OnOnBattery(pub: map<Prop, Value>, v: bool): map<Prop, Value> {
    var p := Put(pub, OnBattery, Truth(v));
    if v then Put(p, TimeUntilFull, Count(0)) else p
  }

  function OnState(pub: map<Prop, Value>, v: int): map<Prop, Value> {
    var p := Put(pub, IsCharging, Truth(Charges(v)));
    if NoTimeToFull(v) then Put(p, TimeUntilFull, Count(0)) else p
  }

  function ApplyPower(pub: map<Prop, Value>, was: Info, now: Info): map<Prop, Value> {
    var p1 := if was.percentage == now.percentage then pub else OnPercentage(pub, now.percentage);
    var p2 := if was.onBattery == now.onBattery then p1 else OnOnBattery(p1, now.onBattery);
    if was.lowBattery == now.lowBattery then p2 else Put(p2, LowBattery, Truth(now.lowBattery))
  }

  function ApplyTimes(pub: map<Prop, Value>, was: Info, now: Info): map<Prop, Value> {
    var p1 := if was.timeToEmpty == now.timeToEmpty then pub
              else Put(pub, TimeUntilLow, Count(now.timeToEmpty));
    var p2 := if was.timeToFull == now.timeToFull then p1
              else Put(p1, TimeUntilFull, Count(now.timeToFull));
    if was.state == now.state then p2 else OnState(p2, now.state)
  }

  /** `copy_apply_if_changed` with the bridge's actions, field by field. */
  function Apply(pub: map<Prop, Value>, was: Info, now: Info): map<Prop, Value> {
    ApplyTimes(ApplyPower(pub, was, now), was, now)
  }

  function Update(s: State, r: Info): State {
    s.(last := Now(s, r), pub := Apply(s.pub, s.last, Now(s, r)))
  }

  // ---- Events ----

  datatype Probe = Probe(path: string, isBattery: bool, reading: Info)

  function TryGetBattery(s: State, p: Probe): State {
    if p.isBattery then Update(s.(device := true, path := p.path), p.reading) else s
  }

  /** Tries the devices in turn up to the first battery. */
  function FindBattery(s: State, ps: seq<Probe>): State
    decreases |ps|
  {
    if ps == [] then s
    else if ps[0].isBattery then TryGetBattery(s, ps[0])
    else FindBattery(s, ps[1..])
  }

  function ResetDevice(s: State, r: Info): State {
    Update(s.(device := false, path := ""), r)
  }

  datatype Event =
    | ManagerUp
    | ManagerLost(first: Info, second: Info)
    | Enumerated(probes: seq<Probe>)
    | DeviceAdded(probe: Probe)
    | DeviceRemoved(gone: string, reading: Info)
    | Changed(reading: Info)

  function Step(s: State, ev: Event): State {
    match ev
    case ManagerUp => s.(manager := true)
    case ManagerLost(first, second) => Update(ResetDevice(s, first).(manager := false), second)
    case Enumerated(ps) => FindBattery(s, ps)
    case DeviceAdded(p) => if s.manager then TryGetBattery(s, p) else s
    case DeviceRemoved(gone, r) => if s.manager && gone == s.path then ResetDevice(s, r) else s
    case Changed(r) => if s.manager || s.device then Update(s, r) else s
  }

  function Run(s: State, evs: seq<Event>): State
    decreases |evs|
  {
    if evs == [] then s else Run(Step(s, evs[0]), evs[1..])
  }

  ghost predicate IsInitial(s: State) {
    && !s.manager && !s.device && s.path == "" && s.last == DEFAULTS
    && s.pub == map[ChargePercentage := Number(87.0), Capacity := Number(87.0),
                    OnBattery := Truth(true), LowBattery := Truth(false),
                    TimeUntilLow := Count(878787), TimeUntilFull := Count(0),
                    IsCharging := Truth(false)]
  }

  // ---- Refinement ----

  /** A full render of the tracked values. */
  function Rendered(i: Info, p: Prop): Value {
    match p
    case ChargePercentage => Number(Round(i.percentage))
    case Capacity => Number(i.percentage)
    case OnBattery => Truth(i.onBattery)
    case LowBattery => Truth(i.lowBattery)
    case TimeUntilLow => Count(i.timeToEmpty)
    case TimeUntilFull => Count(i.timeToFull)
    case IsCharging => Truth(Charges(i.state))
  }

  ghost predicate Full(pub: map<Prop, Value>) {
    forall p: Prop :: p in pub
  }

  /** The published table is the full render, TimeUntilFull aside. */
  ghost predicate Refines(s: State) {
    Full(s.pub) && forall p: Prop | p != TimeUntilFull :: s.pub[p] == Rendered(s.last, p)
  }

  /** What one update leaves in TimeUntilFull: the last of its three writers wins. */
  function TimeUntilFullAfter(before: Value, was: Info, now: Info): Value {
    if was.state != now.state && NoTimeToFull(now.state) then Count(0)
    else if was.timeToFull != now.timeToFull then Count(now.timeToFull)
    else if was.onBattery != now.onBattery && now.onBattery then Count(0)
    else before
  }

  /** The fields of the first half of a pass, with the others as they were. */
  function AfterPower(was: Info, now: Info): Info {
    was.(percentage := now.percentage, onBattery := now.onBattery, lowBattery := now.lowBattery)
  }

  lemma PowerRenders(pub: map<Prop, Value>, was: Info, now: Info, p: Prop)
    requires Full(pub) && p != TimeUntilFull && pub[p] == Rendered(was, p)
    ensures Full(ApplyPower(pub, was, now))
    ensures ApplyPower(pub, was, now)[p] == Rendered(AfterPower(was, now), p)
  {
  }

  lemma TimesRender(pub: map<Prop, Value>, was: Info, now: Info, p: Prop)
    requires Full(pub) && p != TimeUntilFull && pub[p] == Rendered(AfterPower(was, now), p)
    ensures Full(ApplyTimes(pub, was, now))
    ensures ApplyTimes(pub, was, now)[p] == Rendered(now, p)
  {
  }

  lemma PassOverTimeUntilFull(pub: map<Prop, Value>, was: Info, now: Info)
    requires Full(pub)
    ensures Full(Apply(pub, was, now))
    ensures Apply(pub, was, now)[TimeUntilFull] == TimeUntilFullAfter(pub[TimeUntilFull], was, now)
  {
    var p := ApplyPower(pub, was, now);
    assert Full(p);
    assert p[TimeUntilFull] ==
      if was.onBattery != now.onBattery && now.onBattery then Count(0) else pub[TimeUntilFull];
  }

  /** Publishing the differences keeps the table equal to a full render, if it was. */
  lemma UpdateRefines(s: State, r: Info)
    requires Refines(s)
    ensures Refines(Update(s, r)) && Update(s, r).last == Now(s, r)
    ensures Update(s, r).pub[TimeUntilFull] ==
      TimeUntilFullAfter(s.pub[TimeUntilFull], s.last, Now(s, r))
  {
    var now := Now(s, r);
    PassOverTimeUntilFull(s.pub, s.last, now);
    forall p: Prop | p != TimeUntilFull ensures Apply(s.pub, s.last, now)[p] == Rendered(now, p) {
      PowerRenders(s.pub, s.last, now, p);
      TimesRender(ApplyPower(s.pub, s.last, now), s.last, now, p);
    }
  }

  lemma {:induction false} FindRefines(s: State, ps: seq<Probe>)
    requires Refines(s)
    ensures Refines(FindBattery(s, ps))
    decreases |ps|
  {
    if ps != [] {
      if ps[0].isBattery {
        UpdateRefines(s.(device := true, path := ps[0].path), ps[0].reading);
      } else {
        FindRefines(s, ps[1..]);
      }
    }
  }

  lemma StepRefines(s: State, ev: Event)
    requires Refines(s)
    ensures Refines(Step(s, ev))
  {
    match ev
    case ManagerUp =>
    case ManagerLost(first, second) =>
      UpdateRefines(s.(device := false, path := ""), first);
      UpdateRefines(ResetDevice(s, first).(manager := false), second);
    case Enumerated(ps) => FindRefines(s, ps);
    case DeviceAdded(p) => UpdateRefines(s.(device := true, path := p.path), p.reading);
    case DeviceRemoved(_, r) => UpdateRefines(s.(device := false, path := ""), r);
    case Changed(r) => UpdateRefines(s, r);
  }

  lemma {:induction false} RunRefines(s: State, evs: seq<Event>)
    requires Refines(s)
    ensures Refines(Run(s, evs))
    decreases |evs|
  {
    if evs != [] {
      StepRefines(s, evs[0]);
      RunRefines(Step(s, evs[0]), evs[1..]);
    }
  }

  /** Incremental publication refines full recomputation over every sequence of manager and
      device appearances, losses and changes. */
  lemma IncrementalIsFull(s: State, evs: seq<Event>)
    requires IsInitial(s)
    ensures Refines(Run(s, evs))
  {
    forall p: Prop ensures p in s.pub && s.pub[p] == Rendered(s.last, p) {
      match p
      case ChargePercentage => assert Round(87.0) == 87.0;
      case Capacity =>
      case OnBattery =>
      case LowBattery =>
      case TimeUntilLow =>
      case TimeUntilFull =>
      case IsCharging =>
    }
    RunRefines(s, evs);
  }

  /** TimeUntilFull is zero or the tracked time to full. */
  ghost predicate ZeroOrTracked(s: State) {
    TimeUntilFull in s.pub
    && (s.pub[TimeUntilFull] == Count(0) || s.pub[TimeUntilFull] == Rendered(s.last, TimeUntilFull))
  }

  lemma UpdateKeepsZeroOrTracked(s: State, r: Info)
    requires Refines(s) && ZeroOrTracked(s)
    ensures Refines(Update(s, r)) && ZeroOrTracked(Update(s, r))
  {
    UpdateRefines(s, r);
  }

  lemma {:induction false} FindKeepsZeroOrTracked(s: State, ps: seq<Probe>)
    requires Refines(s) && ZeroOrTracked(s)
    ensures ZeroOrTracked(FindBattery(s, ps))
    decreases |ps|
  {
    if ps != [] {
      if ps[0].isBattery {
        UpdateKeepsZeroOrTracked(s.(device := true, path := ps[0].path), ps[0].reading);
      } else {
        FindKeepsZeroOrTracked(s, ps[1..]);
      }
    }
  }

  lemma StepKeepsZeroOrTracked(s: State, ev: Event)
    requires Refines(s) && ZeroOrTracked(s)
    ensures ZeroOrTracked(Step(s, ev))
  {
    match ev
    case ManagerUp =>
    case ManagerLost(first, second) =>
      UpdateKeepsZeroOrTracked(s.(device := false, path := ""), first);
      UpdateKeepsZeroOrTracked(ResetDevice(s, first).(manager := false), second);
    case Enumerated(ps) => FindKeepsZeroOrTracked(s, ps);
    case DeviceAdded(p) => UpdateKeepsZeroOrTracked(s.(device := true, path := p.path), p.reading);
    case DeviceRemoved(_, r) => UpdateKeepsZeroOrTracked(s.(device := false, path := ""), r);
    case Changed(r) => UpdateKeepsZeroOrTracked(s, r);
  }

  lemma {:induction false} RunKeepsZeroOrTracked(s: State, evs: seq<Event>)
    requires Refines(s) && ZeroOrTracked(s)
    ensures ZeroOrTracked(Run(s, evs))
    decreases |evs|
  {
    if evs != [] {
      StepRefines(s, evs[0]);
      StepKeepsZeroOrTracked(s, evs[0]);
      RunKeepsZeroOrTracked(Step(s, evs[0]), evs[1..]);
    }
  }

  /** After any sequence of events TimeUntilFull is what a full render would publish, or
      zero; which of the two is decided by the last writer. */
  lemma TimeUntilFullIsZeroOrTracked(s: State, evs: seq<Event>)
    requires IsInitial(s)
    ensures ZeroOrTracked(Run(s, evs))
  {
    IncrementalIsFull(s, []);
    RunKeepsZeroOrTracked(s, evs);
  }

  /** Losing the manager brings every refined property back to its default. */
  lemma LossRestoresDefaults(s: State, first: Info, second: Info)
    requires Refines(s)
    ensures var r := Step(s, ManagerLost(first, second));
      && r.last == DEFAULTS && !r.device && !r.manager && Full(r.pub)
      && forall p: Prop | p != TimeUntilFull :: r.pub[p] == Rendered(DEFAULTS, p)
  {
    StepRefines(s, ManagerLost(first, second));
  }

  /** An update in which the device stops charging, or is full, publishes no time until
      full, whatever the device itself says. */
  lemma NothingLeftToCharge(s: State, r: Info)
    requires Refines(s) && Now(s, r).state != s.last.state && NoTimeToFull(Now(s, r).state)
    ensures Update(s, r).pub[TimeUntilFull] == Count(0)
  {
    UpdateRefines(s, r);
  }

  // ---- The bridge object ----

  class Bridge {
    const target: Namespace<Prop, Value>
    var manager: bool
    var device: bool
    var devicePath: string
    var lastValues: Info

    ghost predicate Valid()
      reads this, target
    {
      target.Valid()
    }

    ghost function Abs(): State
      reads this, target
      requires Valid()
    {
      State(manager, device, devicePath, lastValues, target.View())
    }

    constructor ()
      ensures Valid() && fresh(target) && IsInitial(Abs())
    {
      var ns := new Namespace<Prop, Value>();
      target := ns;
      manager, device, devicePath, lastValues := false, false, "", DEFAULTS;
      new;
      ns.AddProperty(ChargePercentage, Number(87.0), ChargePercentage);
      ns.AddProperty(Capacity, Number(87.0), Capacity);
      ns.AddProperty(OnBattery, Truth(true), OnBattery);
      ns.AddProperty(LowBattery, Truth(false), LowBattery);
      ns.AddProperty(TimeUntilLow, Count(878787), TimeUntilLow);
      ns.AddProperty(TimeUntilFull, Count(0), TimeUntilFull);
      ns.AddProperty(IsCharging, Truth(false), IsCharging);
    }

    /** The first three fields of a pass. */
    method CopyPower(now: Info)
      requires Valid()
      modifies this`lastValues, target
      ensures Valid()
      ensures lastValues == AfterPower(old(lastValues), now)
      ensures target.View() == ApplyPower(old(target.View()), old(lastValues), now)
    {
      if lastValues.percentage != now.percentage {
        target.UpdateProperty(ChargePercentage, Number(Round(now.percentage)));
        target.UpdateProperty(Capacity, Number(now.percentage));
        lastValues := lastValues.(percentage := now.percentage);
      }
      if lastValues.onBattery != now.onBattery {
        target.UpdateProperty(OnBattery, Truth(now.onBattery));
        if now.onBattery {
          target.UpdateProperty(TimeUntilFull, Count(0));
        }
        lastValues := lastValues.(onBattery := now.onBattery);
      }
      if lastValues.lowBattery != now.lowBattery {
        target.UpdateProperty(LowBattery, Truth(now.lowBattery));
        lastValues := lastValues.(lowBattery := now.lowBattery);
      }
    }

    /** The last three fields of a pass. */
    method CopyTimes(now: Info)
      requires Valid()
      modifies this`lastValues, target
      ensures Valid()
      ensures lastValues == old(lastValues).(timeToEmpty := now.timeToEmpty,
                                             timeToFull := now.timeToFull, state := now.state)
      ensures target.View() == ApplyTimes(old(target.View()), old(lastValues), now)
    {
      if lastValues.timeToEmpty != now.timeToEmpty {
        target.UpdateProperty(TimeUntilLow, Count(now.timeToEmpty));
        lastValues := lastValues.(timeToEmpty := now.timeToEmpty);
      }
      if lastValues.timeToFull != now.timeToFull {
        target.UpdateProperty(TimeUntilFull, Count(now.timeToFull));
        lastValues := lastValues.(timeToFull := now.timeToFull);
      }
      if lastValues.state != now.state {
        var isCharging := now.state == CHARGING || now.state == FULLY_CHARGED;
        target.UpdateProperty(IsCharging, Truth(isCharging));
        if !isCharging || now.state == FULLY_CHARGED {
          target.UpdateProperty(TimeUntilFull, Count(0));
        }
        lastValues := lastValues.(state := now.state);
      }
    }

    method UpdateAllProps(r: Info)
      requires Valid()
      modifies this`lastValues, target
      ensures Valid() && Abs() == Update(old(Abs()), r)
    {
      var now;
      if device && manager {
        now := r;
      } else if manager {
        now := Info(99.0, r.onBattery, r.lowBattery, 12345, 0, UNKNOWN_STATE);
      } else {
        now := DEFAULTS;
      }
      CopyPower(now);
      CopyTimes(now);
    }

    method Try(p: Probe) returns (found: bool)
      requires Valid()
      modifies this, target
      ensures Valid() && found == p.isBattery && Abs() == TryGetBattery(old(Abs()), p)
    {
      if !p.isBattery {
        return false;
      }
      device := true;
      devicePath := p.path;
      UpdateAllProps(p.reading);
      return true;
    }

    method Enumerate(ps: seq<Probe>)
      requires Valid()
      modifies this, target
      ensures Valid() && Abs() == FindBattery(old(Abs()), ps)
    {
      var i, found := 0, false;
      while i < |ps| && !found
        invariant Valid() && 0 <= i <= |ps|
        invariant found ==> Abs() == FindBattery(old(Abs()), ps)
        invariant !found ==> Abs() == old(Abs())
        invariant !found ==> FindBattery(old(Abs()), ps[i..]) == FindBattery(old(Abs()), ps)
      {
        assert ps[i..][1..] == ps[i + 1..];
        found := Try(ps[i]);
        i := i + 1;
      }
    }

    method Forget(r: Info)
      requires Valid()
      modifies this, target
      ensures Valid() && Abs() == ResetDevice(old(Abs()), r)
    {
      device := false;
      devicePath := "";
      UpdateAllProps(r);
    }

    method Handle(ev: Event)
      requires Valid()
      modifies this, target
      ensures Valid() && Abs() == Step(old(Abs()), ev)
    {
      match ev
      case ManagerUp => manager := true;
      case ManagerLost(first, second) =>
        Forget(first);
        manager := false;
        UpdateAllProps(second);
      case Enumerated(ps) => Enumerate(ps);
      case DeviceAdded(p) =>
        if manager {
          var _ := Try(p);
        }
      case DeviceRemoved(gone, r) =>
        if manager && gone == devicePath {
          Forget(r);
        }
      case Changed(r) =>
        if manager || device {
          UpdateAllProps(r);
        }
    }
  }
}
