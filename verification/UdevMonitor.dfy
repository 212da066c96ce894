/** The battery monitor: what one pass over the power devices publishes and how long the
    next poll waits (`Monitor`, src/udev/provider_udev.cpp). C++ integers are modelled as
    unbounded. */
module UdevMonitor {
  import opened Values
  import opened UdevWindow

  /** `state_type`. */
  datatype Info = Info(
    batTime: int, online: bool, energy: int, power: int, capacity: int, toLow: int, toFull: int)

  /** Published text of the properties that the monitor sets. */
  datatype Table = Table(
    chargePercentage: string, onBattery: string, timeUntilLow: string, timeUntilFull: string,
    isCharging: string, power: string)

  datatype Kind = Charger | Battery | OtherKind

  /** One power device with the attributes the monitor reads, and the time it does so. */
  datatype Device = Device(
    kind: Kind, path: string, online: bool, energyNow: int, energyFull: int, capacity: int, now: int)

  /** How the last pass that reached the end of `notify` ended. */
  datatype Ending = Fresh | ChargingChanged | OnlinePass | IdlePass | DrainingPass

  datatype Mon = Mon(
    last: Info, current: Info, window: seq<int>, size: nat,
    energyFull: int, denergyMax: int, mwPerPercent: int, secPerPercent: int, dtimer: int,
    chargers: map<string, bool>, pub: Table, ending: Ending)

  /** `std::to_string` of an integer. */
  function Text(n: int): string {
    if n < 0 then "-" + Dec(-n) else Dec(n)
  }

  // ---- Devices ----

  ghost predicate AnyOnline(chargers: map<string, bool>) {
    exists p :: p in chargers && chargers[p]
  }

  /** `map::insert` keeps the first value of a charger. */
  function AddCharger(chargers: map<string, bool>, d: Device): map<string, bool> {
    if d.path in chargers then chargers else chargers[d.path := d.online]
  }

  function OnDevice(m: Mon, d: Device): Mon {
    match d.kind
    case Charger => m.(chargers := AddCharger(m.chargers, d))
    case Battery =>
      m.(current := m.current.(batTime := d.now, energy := d.energyNow, capacity := d.capacity))
    case OtherKind => m
  }

  function OnDevices(m: Mon, ds: seq<Device>): Mon
    decreases |ds|
  {
    if ds == [] then m else OnDevices(OnDevice(m, ds[0]), ds[1..])
  }

  ghost function AfterEnumeration(m: Mon): Mon {
    m.(current := m.current.(online := AnyOnline(m.chargers)))
  }

  function Limits(m: Mon): Mon {
    if m.denergyMax == 0 then m
    else m.(secPerPercent := Max(CDiv(m.mwPerPercent, m.denergyMax), 1))
  }

  /** The first enumeration also reads the battery's full energy. */
  function OnFirst(m: Mon, d: Device): Mon {
    var m1 := OnDevice(if d.kind == Battery then m.(energyFull := d.energyFull) else m, d);
    Limits(m1.(mwPerPercent := CDiv(m1.energyFull, 100)))
  }

  function OnFirsts(m: Mon, ds: seq<Device>): Mon
    decreases |ds|
  {
    if ds == [] then m else OnFirsts(OnFirst(m, ds[0]), ds[1..])
  }

  // ---- notify, in closed form ----

  /** Rate of change of the energy since the last pass; zero when it cannot be told. */
  function Drain(m: Mon): int {
    Rate(m.current.energy, m.last.energy, m.current.batTime - m.last.batTime)
  }

  function Rate(now: int, was: int, dt: int): int {
    if dt == 0 then 0 else CDiv(now - was, dt)
  }

  function NewWindow(m: Mon): seq<int> {
    if Drain(m) == 0 then m.window else Tail(m.window + [Drain(m)], m.size)
  }

  function Average(m: Mon): int {
    Mean(NewWindow(m))
  }

  /** Discharging with a mean that truncates to zero divides by zero. */
  predicate Faults(m: Mon) {
    Drain(m) < 0 && Average(m) == 0
  }

  /** The state shown after a pass. */
  function Shown(m: Mon): Info
    requires !Faults(m)
  {
    if Drain(m) == 0 then m.current
    else if Drain(m) < 0 then Discharging(m.current, Average(m))
    else Charging(m.current, m.energyFull, Average(m))
  }

  function Discharging(i: Info, avg: int): Info
    requires avg != 0
  {
    i.(toLow := CDiv(-i.energy, avg), toFull := 0, power := avg)
  }

  function Charging(i: Info, full: int, avg: int): Info {
    i.(toLow := 0, toFull := if avg != 0 then CDiv(full - i.energy, avg) else 0, power := avg)
  }

  function NewMax(m: Mon): int {
    if Drain(m) < 0 then Max(m.denergyMax, -Drain(m)) else m.denergyMax
  }

  function One(changed: bool): nat {
    if changed then 1 else 0
  }

  /** Number of fields in which two states differ. */
  function Differences(a: Info, b: Info): nat {
    One(a.batTime != b.batTime) + One(a.online != b.online) + One(a.energy != b.energy)
    + One(a.power != b.power) + One(a.capacity != b.capacity) + One(a.toLow != b.toLow)
    + One(a.toFull != b.toFull)
  }

  /** Publishes exactly the fields that changed. */
  function Render(t: Table, was: Info, now: Info): Table {
    Table(
      if was.capacity == now.capacity then t.chargePercentage else Text(now.capacity),
      if was.power == now.power then t.onBattery else Flag(now.power < 0),
      if was.toLow == now.toLow then t.timeUntilLow else Text(now.toLow),
      if was.toFull == now.toFull then t.timeUntilFull else Text(now.toFull),
      if was.online == now.online then t.isCharging else Flag(now.online),
      if was.power == now.power then t.power else Text(now.power))
  }

  /** The pass before the polling period is chosen. */
  function Apply(m: Mon): Mon
    requires !Faults(m)
  {
    var now := Shown(m);
    var m1 := m.(last := now, current := now, window := NewWindow(m), denergyMax := NewMax(m),
                 pub := Render(m.pub, m.last, now));
    if NewMax(m) == m.denergyMax then m1 else Limits(m1)
  }

  function Notify(m: Mon): Option<Mon> {
    if Faults(m) then None
    else
      var m1 := Apply(m);
      if Differences(m.last, m1.last) == 1 then Some(m1)
      else if m.last.online != m1.last.online then
        Some(m1.(window := [], dtimer := 5, ending := ChargingChanged))
      else if m1.last.online then Some(m1.(dtimer := 4, ending := OnlinePass))
      else if m1.last.power == 0 then Some(m1.(dtimer := 5, ending := IdlePass))
      else Some(m1.(dtimer := Period(m1.secPerPercent), ending := DrainingPass))
  }

  // ---- Runs ----

  /** One wake-up: a udev event brings one device, a poll or the screen brings all. */
  ghost function Wake(m: Mon, ds: seq<Device>): Option<Mon> {
    Notify(AfterEnumeration(OnDevices(m, ds)))
  }

  ghost function Start(m: Mon, ds: seq<Device>): Option<Mon> {
    Notify(AfterEnumeration(OnFirsts(m, ds)))
  }

  ghost function Run(m: Mon, wakes: seq<seq<Device>>): Option<Mon>
    decreases |wakes|
  {
    if wakes == [] then Some(m)
    else
      match Wake(m, wakes[0])
      case None => None
      case Some(m1) => Run(m1, wakes[1..])
  }

  /** A new monitor, over the namespace defaults. `mw_per_percent_` and
      `sec_per_percent_max_` are not initialised, so they are arbitrary. */
  predicate IsNew(m: Mon) {
    && m.last == m.current && !m.last.online && m.last.power == 0 && m.last.capacity == 100
    && m.last.toLow == 36000 && m.last.toFull == 0 && m.last.energy == m.energyFull == 800000
    && m.window == [] && m.denergyMax == 10000 && m.dtimer == 2 && m.chargers == map[]
    && m.ending == Fresh
    && m.pub == Table("97", "1", "3600", "0", "0", "0")
  }

  // ---- Invariants ----

  /** In terms of the stored percent: at the worst rate seen, at most half of it goes between
      two polls. */
  predicate PollsOften(m: Mon) {
    m.dtimer == 1 || 2 * m.dtimer * m.denergyMax <= m.mwPerPercent
  }

  /** At the worst rate seen, at most half a percent of the full energy goes between two
      polls, unless they are a second apart anyway. */
  predicate HalfPercentPerPoll(m: Mon) {
    m.dtimer == 1 || 200 * (m.dtimer * m.denergyMax) <= m.energyFull
  }

  /** The period that a draining pass chooses. */
  function Period(secPerPercent: int): int {
    Max(CDiv(secPerPercent, 2), 1)
  }

  /** Each published field shows the last state, or was never published at all. */
  predicate Shows(m: Mon) {
    var i, t := m.last, m.pub;
    && t.isCharging == Flag(i.online) && t.power == Text(i.power) && t.timeUntilFull == Text(i.toFull)
    && (t.onBattery == Flag(i.power < 0) || (i.power == 0 && t.onBattery == "1"))
    && (t.chargePercentage == Text(i.capacity) || (i.capacity == 100 && t.chargePercentage == "97"))
    && (t.timeUntilLow == Text(i.toLow) || (i.toLow == 36000 && t.timeUntilLow == "3600"))
  }

  /** What holds in every reachable state, whatever the first enumeration found. */
  ghost predicate Sound(m: Mon) {
    && 1 <= m.dtimer && 10000 <= m.denergyMax && |m.window| <= m.size
    && (m.current.toLow == 0 || m.current.toFull == 0)
    && (m.ending == DrainingPass ==> m.dtimer == Period(m.secPerPercent))
    && Shows(m)
  }

  predicate LimitsFit(m: Mon)
    requires m.denergyMax != 0
  {
    m.secPerPercent == Max(CDiv(m.mwPerPercent, m.denergyMax), 1)
  }

  /** The first enumeration has set the limits up. */
  predicate Limited(m: Mon)
    requires m.denergyMax != 0
  {
    LimitsFit(m) && m.mwPerPercent == CDiv(m.energyFull, 100)
  }

  /** It has not: `first` still has the limits it was constructed with. The percent is never
      initialised; a drain of more than 10000 computes the seconds from it. */
  predicate Unlimited(m: Mon, first: Mon)
    requires m.denergyMax != 0
  {
    && m.mwPerPercent == first.mwPerPercent && m.energyFull == first.energyFull
    && (if m.denergyMax == 10000 then m.secPerPercent == first.secPerPercent else LimitsFit(m))
  }

  /** Between wake-ups the shown and the current state agree. */
  ghost predicate Rested(m: Mon) {
    m.current == m.last && m.last.online == AnyOnline(m.chargers)
  }

  lemma PeriodPollsOften(mw: int, dmax: int)
    requires dmax >= 10000
    ensures var sec := Max(CDiv(mw, dmax), 1);
      var t := Period(sec);
      t >= 1 && (t == 1 || 2 * t * dmax <= mw)
  {
    var sec := Max(CDiv(mw, dmax), 1);
    CDivTruncates(mw, dmax);
    CDivTruncates(sec, 2);
    var t := CDiv(sec, 2);
    if t > 1 {
      assert mw >= 0 && sec * dmax <= mw;
      assert 2 * t * dmax <= sec * dmax by {
        ProductOrder(dmax, sec, 2 * t);
      }
    }
  }

  /** Rendering the fields in three groups renders them all. */
  lemma RenderInThree(m: Mon, before: Info, table: Table, now: Info)
    requires before == m.last.(batTime := now.batTime, online := now.online, energy := now.energy)
    requires table == Render(m.pub, m.last, m.last.(batTime := now.batTime, online := now.online))
    ensures Render(table, before, now) == Render(m.pub, m.last, now)
  {
  }

  lemma CountInThree(was: Info, now: Info)
    ensures var a := was.(batTime := now.batTime, online := now.online);
      var b := a.(energy := now.energy);
      Differences(was, now) == Differences(was, a) + One(was.energy != now.energy) + Differences(b, now)
  {
  }

  lemma RenderShows(m: Mon, now: Info)
    requires Shows(m)
    ensures Shows(m.(last := now, pub := Render(m.pub, m.last, now)))
  {
  }

  lemma DevicesKeep(m: Mon, ds: seq<Device>)
    ensures var r := OnDevices(m, ds);
      && r == m.(current := r.current, chargers := r.chargers)
      && r.current == m.current.(batTime := r.current.batTime, energy := r.current.energy,
                                 capacity := r.current.capacity)
    decreases |ds|
  {
    if ds != [] {
      DevicesKeep(OnDevice(m, ds[0]), ds[1..]);
    }
  }

  lemma NewMaxNeedsTwo(m: Mon)
    requires !Faults(m) && Differences(m.last, Shown(m)) == 1
    ensures NewMax(m) == m.denergyMax && Shown(m) == m.current && NewWindow(m) == m.window
  {
    if m.current.batTime != m.last.batTime {
      assert m.current.energy == m.last.energy;
    }
  }

  lemma LimitsKeep(m: Mon)
    requires m.denergyMax >= 10000 && !Faults(m)
    ensures var r := Apply(m);
      && r.denergyMax >= m.denergyMax && r.mwPerPercent == m.mwPerPercent
      && (if r.denergyMax == m.denergyMax then r.secPerPercent == m.secPerPercent else LimitsFit(r))
      && r == m.(last := Shown(m), current := Shown(m), window := NewWindow(m),
                 denergyMax := NewMax(m), secPerPercent := r.secPerPercent,
                 pub := Render(m.pub, m.last, Shown(m)))
  {
  }

  /** Applying the change of energy gives all of a pass but the copied and shown fields. */
  lemma EnergyIsApplied(m: Mon, r: Mon)
    requires !Faults(m) && m.denergyMax > 0
    requires r == m.(last := r.last, current := Shown(m), window := NewWindow(m),
                     denergyMax := NewMax(m), secPerPercent := r.secPerPercent, pub := r.pub)
    requires if NewMax(m) == m.denergyMax then r.secPerPercent == m.secPerPercent else LimitsFit(r)
    ensures Apply(m).(last := r.last, pub := r.pub) == r
  {
  }

  /** One pass, whatever the limits are: the period is positive, `denergy_max_` only grows,
      a time to low excludes a time to full, and the table shows the state. */
  lemma NotifyKeeps(m: Mon)
    requires Sound(m) && Notify(m).Some?
    ensures var r := Notify(m).value;
      && Sound(r) && r.current == r.last == Shown(m) && r.denergyMax == NewMax(m) >= m.denergyMax
      && r.chargers == m.chargers && r.energyFull == m.energyFull && r.size == m.size
  {
    LimitsKeep(m);
    RenderShows(m, Shown(m));
    if Differences(m.last, Shown(m)) == 1 {
      NewMaxNeedsTwo(m);
    }
  }

  /** The polling guarantee of the last draining pass survives every other pass, also one in
      which a single field changed and the period is not chosen again. */
  lemma NotifyKeepsLimits(m: Mon)
    requires Sound(m) && Limited(m) && Notify(m).Some?
    ensures var r := Notify(m).value;
      && r.denergyMax >= 10000 && Limited(r)
      && (r.ending == DrainingPass ==> PollsOften(r) && HalfPercentPerPoll(r))
  {
    LimitsKeep(m);
    NotifyKeeps(m);
    if Notify(m).value.ending == DrainingPass {
      LimitedPollsOften(Notify(m).value);
    }
  }

  lemma LimitedPollsOften(m: Mon)
    requires Sound(m) && Limited(m) && m.ending == DrainingPass
    ensures PollsOften(m) && HalfPercentPerPoll(m)
  {
    PeriodPollsOften(m.mwPerPercent, m.denergyMax);
    if m.dtimer > 1 {
      HalfPercent(m.energyFull, m.dtimer, m.denergyMax);
    }
  }

  lemma NotifyKeepsUnlimited(m: Mon, first: Mon)
    requires Sound(m) && Unlimited(m, first) && Notify(m).Some?
    ensures Notify(m).value.denergyMax >= 10000 && Unlimited(Notify(m).value, first)
  {
    LimitsKeep(m);
    NotifyKeeps(m);
  }

  lemma WakeKeeps(m: Mon, ds: seq<Device>)
    requires Sound(m) && Rested(m) && Wake(m, ds).Some?
    ensures var r := Wake(m, ds).value;
      && Sound(r) && Rested(r)
      && (Limited(m) ==> Limited(r))
      && forall first | Unlimited(m, first) :: Unlimited(r, first)
  {
    DevicesKeep(m, ds);
    var a := AfterEnumeration(OnDevices(m, ds));
    NotifyKeeps(a);
    if Limited(m) {
      NotifyKeepsLimits(a);
    }
    forall first | Unlimited(m, first) ensures Unlimited(Wake(m, ds).value, first) {
      assert Unlimited(a, first);
      NotifyKeepsUnlimited(a, first);
    }
  }

  // ---- Whole runs ----

  /** The first enumeration sets the limits up, provided it finds any power device. */
  lemma {:induction false} FirstsSetLimits(m: Mon, ds: seq<Device>)
    requires m.denergyMax == 10000
    ensures var r := OnFirsts(m, ds);
      && r == m.(current := r.current, chargers := r.chargers, energyFull := r.energyFull,
                 mwPerPercent := r.mwPerPercent, secPerPercent := r.secPerPercent)
      && r.current == m.current.(batTime := r.current.batTime, energy := r.current.energy,
                                 capacity := r.current.capacity)
      && (ds != [] ==> r.mwPerPercent == CDiv(r.energyFull, 100) && LimitsFit(r))
    decreases |ds|
  {
    if ds != [] {
      FirstsSetLimits(OnFirst(m, ds[0]), ds[1..]);
    }
  }

  /** What `run` leaves behind: limits that are set up iff the first enumeration found a
      power device. */
  lemma StartKeeps(m: Mon, ds: seq<Device>)
    requires IsNew(m) && Start(m, ds).Some?
    ensures var r := Start(m, ds).value;
      Sound(r) && Rested(r) && if ds == [] then Unlimited(r, m) else Limited(r)
  {
    FirstsSetLimits(m, ds);
    var a := AfterEnumeration(OnFirsts(m, ds));
    assert Dec(0) == "0" && Text(0) == "0";
    NotifyKeeps(a);
    if ds == [] {
      NotifyKeepsUnlimited(a, m);
    } else {
      NotifyKeepsLimits(a);
    }
  }

  lemma {:induction false} RunKeeps(m: Mon, wakes: seq<seq<Device>>)
    requires Sound(m) && Rested(m) && Run(m, wakes).Some?
    ensures var r := Run(m, wakes).value;
      && Sound(r) && Rested(r)
      && (Limited(m) ==> Limited(r))
      && forall first | Unlimited(m, first) :: Unlimited(r, first)
    decreases |wakes|
  {
    if wakes != [] {
      WakeKeeps(m, wakes[0]);
      RunKeeps(Wake(m, wakes[0]).value, wakes[1..]);
    }
  }

  /** In every reachable state the period is at least a second, one time estimate is zero,
      and every published field is current or was never published. */
  lemma ReachableMonitorsAreSound(m: Mon, ds: seq<Device>, wakes: seq<seq<Device>>)
    requires IsNew(m) && Start(m, ds).Some? && Run(Start(m, ds).value, wakes).Some?
    ensures var r := Run(Start(m, ds).value, wakes).value;
      && r.dtimer >= 1 && r.denergyMax >= 10000
      && (r.last.toLow == 0 || r.last.toFull == 0)
      && r.current == r.last && Shows(r)
  {
    StartKeeps(m, ds);
    RunKeeps(Start(m, ds).value, wakes);
  }

  /** The limits make a draining pass poll often enough at a worst rate of `rate`: they were
      set up, or the uninitialised one that is in use at that rate happens to be small. */
  predicate GoodLimits(m: Mon, ds: seq<Device>, rate: int)
    requires rate != 0
  {
    || ds != []
    || (if rate <= 10000 then m.secPerPercent < 4 else CDiv(m.mwPerPercent, rate) < 4)
  }

  /** The polling guarantee in every reachable state. If the last full pass found the battery
      draining, the period is one second or so short that at the worst rate seen it costs
      at most half a percent of `energy_full_`, exactly if the first enumeration found a
      power device, or the uninitialised limits happen to be small. */
  lemma PollingGuarantee(m: Mon, ds: seq<Device>, wakes: seq<seq<Device>>)
    requires IsNew(m) && Start(m, ds).Some? && Run(Start(m, ds).value, wakes).Some?
    ensures var r := Run(Start(m, ds).value, wakes).value;
      && r.denergyMax >= 10000
      && (r.ending == DrainingPass ==>
            && (HalfPercentPerPoll(r) <==> GoodLimits(m, ds, r.denergyMax))
            && (ds != [] ==> PollsOften(r)))
  {
    StartKeeps(m, ds);
    RunKeeps(Start(m, ds).value, wakes);
    var r := Run(Start(m, ds).value, wakes).value;
    if r.ending == DrainingPass {
      if ds == [] {
        UnlimitedPollsOftenIff(r, m);
      } else {
        LimitedPollsOften(r);
      }
    }
  }

  /** Without limits only a period of one second is short enough. */
  lemma UnlimitedPollsOftenIff(m: Mon, first: Mon)
    requires Sound(m) && Unlimited(m, first) && m.ending == DrainingPass && first.energyFull == 800000
    ensures HalfPercentPerPoll(m) <==> GoodLimits(first, [], m.denergyMax)
  {
    PeriodIsOneIff(m.secPerPercent);
    if m.dtimer >= 2 {
      ProductOrder(m.denergyMax, m.dtimer, 2);
    }
  }

  lemma PeriodIsOneIff(sec: int)
    ensures Period(sec) == 1 <==> sec < 4
  {
    CDivTruncates(sec, 2);
  }

  lemma HalfPercent(full: int, t: int, rate: int)
    requires t > 0 && rate > 0 && 2 * t * rate <= CDiv(full, 100)
    ensures 200 * (t * rate) <= full
  {
    assert 2 * t * rate == 2 * (t * rate);
    assert t * rate >= 0;
    CDivTruncates(full, 100);
  }

  /** Without a power device at the start nothing happens in the first pass. */
  lemma EmptyStart(m: Mon)
    requires IsNew(m)
    ensures Start(m, []) == Some(m.(dtimer := 5, ending := IdlePass))
  {
    assert AfterEnumeration(OnFirsts(m, [])) == m;
    assert Apply(m) == m;
  }

  /** A battery that turns up after such a start and loses `de` in a second. */
  lemma LateBattery(m: Mon, de: int)
    requires IsNew(m) && m.size >= 1 && -800000 <= de < 0
    ensures Start(m, []).Some?
    ensures var m1 := Start(m, []).value;
      var r := Run(m1, [[BatteryAt(m1, 1, de)]]);
      && r.Some? && r.value.ending == DrainingPass
      && r.value.denergyMax == Max(10000, -de)
      && r.value.energyFull == 800000 && r.value.mwPerPercent == m.mwPerPercent
      && r.value.dtimer ==
           Period(if -de <= 10000 then m.secPerPercent else Max(CDiv(m.mwPerPercent, -de), 1))
  {
    EmptyStart(m);
    StartKeeps(m, []);
    var m1 := Start(m, []).value;
    var ds := [BatteryAt(m1, 1, de)];
    SecondPass(m1, de);
    var a := AfterEnumeration(OnDevices(m1, ds));
    DrainingEstimate(a);
    assert Run(m1, [ds]) == Wake(m1, ds) by {
      assert [ds][1..] == [];
    }
    DevicesKeep(m1, ds);
    NotifyKeeps(a);
    NotifyKeepsUnlimited(a, m);
    NotifyChooses(a);
  }

  /** It misses the guarantee: with a thousand seconds in the uninitialised limit, a loss of
      1000 is followed by a poll after 500 seconds. */
  lemma UnsetLimitsPollLate(m: Mon)
    requires IsNew(m) && m.size >= 1 && m.secPerPercent == 1000
    ensures Start(m, []).Some?
    ensures var m1 := Start(m, []).value;
      var r := Run(m1, [[BatteryAt(m1, 1, -1000)]]);
      && r.Some? && r.value.ending == DrainingPass && r.value.dtimer == 500
      && !HalfPercentPerPoll(r.value)
  {
    LateBattery(m, -1000);
  }

  /** A drain above 10000 does not mend it: the percent is still uninitialised, and with 10^9
      in it a loss of 20000 is followed by a poll after 25000 seconds, in which that rate
      would use up the full energy more than 600 times. */
  lemma UnsetPercentPollsLate(m: Mon)
    requires IsNew(m) && m.size >= 1 && m.mwPerPercent == 1000000000
    ensures Start(m, []).Some?
    ensures var m1 := Start(m, []).value;
      var r := Run(m1, [[BatteryAt(m1, 1, -20000)]]);
      && r.Some? && r.value.ending == DrainingPass && r.value.dtimer == 25000
      && r.value.dtimer * r.value.denergyMax > 600 * r.value.energyFull
      && PollsOften(r.value) && !HalfPercentPerPoll(r.value)
  {
    LateBattery(m, -20000);
    assert CDiv(m.mwPerPercent, 20000) == 50000 && Period(50000) == 25000;
    var m1 := Start(m, []).value;
    LongPeriod(Run(m1, [[BatteryAt(m1, 1, -20000)]]).value);
  }

  lemma LongPeriod(m: Mon)
    requires m.dtimer == 25000 && m.denergyMax == 20000
    requires m.energyFull == 800000 && m.mwPerPercent == 1000000000
    ensures m.dtimer * m.denergyMax > 600 * m.energyFull
    ensures PollsOften(m) && !HalfPercentPerPoll(m)
  {
  }

  /** A pass in which more than one field changed and no charger is online, with the battery
      draining, chooses the period from the limits. */
  lemma NotifyChooses(m: Mon)
    requires Sound(m) && Drain(m) < 0 && Notify(m).Some? && Shown(m).power < 0
    requires !m.last.online && !m.current.online
    ensures Notify(m).value.ending == DrainingPass && Notify(m).value.denergyMax == NewMax(m)
  {
    LimitsKeep(m);
    assert m.current.batTime != m.last.batTime && m.current.energy != m.last.energy;
    assert Differences(m.last, Shown(m)) >= 2;
  }

  /** The rates that the passes of a run observe. */
  ghost function Observed(m: Mon, wakes: seq<seq<Device>>): seq<int>
    decreases |wakes|
  {
    if wakes == [] || Wake(m, wakes[0]).None? then []
    else
      [Drain(AfterEnumeration(OnDevices(m, wakes[0])))] + Observed(Wake(m, wakes[0]).value, wakes[1..])
  }

  /** `top` is the largest of `base` and the drains among `rates`. */
  ghost predicate IsTop(top: int, base: int, rates: seq<int>) {
    && base <= top && (forall i | 0 <= i < |rates| :: -rates[i] <= top)
    && (top == base || exists i :: 0 <= i < |rates| && top == -rates[i])
  }

  lemma TopOfMore(top: int, base: int, rate: int, rates: seq<int>)
    requires base >= 0 && IsTop(top, if rate < 0 then Max(base, -rate) else base, rates)
    ensures IsTop(top, base, [rate] + rates)
  {
    var all := [rate] + rates;
    assert all[0] == rate;
    if top != base && top != -rate {
      var i :| 0 <= i < |rates| && top == -rates[i];
      assert all[i + 1] == rates[i];
    }
    forall i | 0 <= i < |all| ensures -all[i] <= top {
      assert i > 0 ==> all[i] == rates[i - 1];
    }
  }

  /** `denergy_max_` is the largest of its first value and all drains observed since. */
  lemma {:induction false} MaxIsRunning(m: Mon, wakes: seq<seq<Device>>)
    requires Sound(m) && Rested(m) && Run(m, wakes).Some?
    ensures IsTop(Run(m, wakes).value.denergyMax, m.denergyMax, Observed(m, wakes))
    decreases |wakes|
  {
    if wakes != [] {
      var m0, m1 := AfterEnumeration(OnDevices(m, wakes[0])), Wake(m, wakes[0]).value;
      DevicesKeep(m, wakes[0]);
      WakeKeeps(m, wakes[0]);
      NotifyKeeps(m0);
      MaxIsRunning(m1, wakes[1..]);
      TopOfMore(Run(m, wakes).value.denergyMax, m.denergyMax, Drain(m0), Observed(m1, wakes[1..]));
    }
  }

  /** So in every reachable state it is the largest of 10000 and all drains ever observed,
      that of the first pass included. */
  lemma MaxIsOfAllDrains(m: Mon, ds: seq<Device>, wakes: seq<seq<Device>>)
    requires IsNew(m) && Start(m, ds).Some? && Run(Start(m, ds).value, wakes).Some?
    ensures var m1 := Start(m, ds).value;
      IsTop(Run(m1, wakes).value.denergyMax, 10000,
            [Drain(AfterEnumeration(OnFirsts(m, ds)))] + Observed(m1, wakes))
  {
    var m0, m1 := AfterEnumeration(OnFirsts(m, ds)), Start(m, ds).value;
    FirstsSetLimits(m, ds);
    StartKeeps(m, ds);
    StartRaises(m, ds);
    MaxIsRunning(m1, wakes);
    TopOfMore(Run(m1, wakes).value.denergyMax, 10000, Drain(m0), Observed(m1, wakes));
  }

  lemma StartRaises(m: Mon, ds: seq<Device>)
    requires IsNew(m) && Start(m, ds).Some?
    ensures Start(m, ds).value.denergyMax == NewMax(AfterEnumeration(OnFirsts(m, ds)))
  {
    FirstsSetLimits(m, ds);
    LimitsKeep(AfterEnumeration(OnFirsts(m, ds)));
  }

  // ---- Time estimates ----

  /** A pass divides by zero exactly when the battery drains while the window, including
      the new rate, sums to less than its length. */
  lemma FaultsIff(m: Mon)
    ensures Notify(m).None? <==>
      Drain(m) < 0 && (NewWindow(m) == [] || Abs(Sum(NewWindow(m))) < |NewWindow(m)|)
  {
    MeanIsZeroIff(NewWindow(m));
  }

  /** A window of drains only: the pass is defined and its estimate is the energy divided by
      the mean drain. */
  lemma DrainingEstimate(m: Mon)
    requires m.size >= 1 && Drain(m) < 0 && m.current.energy >= 0
    requires forall i | 0 <= i < |m.window| :: m.window[i] < 0
    ensures Average(m) <= -1 && Notify(m).Some?
    ensures var r := Notify(m).value.last;
      r.power == Average(m) && r.toFull == 0 && r.toLow == m.current.energy / -Average(m) >= 0
  {
    TailOfNegatives(m.window, m.size, Drain(m));
    NegativeMean(NewWindow(m));
    NegativeQuotient(m.current.energy, Average(m));
    NotifyShows(m);
  }

  /** Pushing a drain into a window of drains keeps it one, and makes it non-empty. */
  lemma TailOfNegatives(window: seq<int>, size: nat, de: int)
    requires size >= 1 && de < 0 && forall i | 0 <= i < |window| :: window[i] < 0
    ensures var w := Tail(window + [de], size);
      w != [] && Sum(w) <= -|w|
  {
    SumOfNegatives(Tail(window + [de], size));
  }

  lemma NotifyShows(m: Mon)
    requires !Faults(m)
    ensures Notify(m).Some? && Notify(m).value.last == Shown(m)
  {
  }

  lemma NegativeMean(s: seq<int>)
    requires s != [] && Sum(s) <= -|s|
    ensures Mean(s) <= -1
  {
    MeanIsZeroIff(s);
    CDivSign(Sum(s), |s|);
  }

  lemma NegativeQuotient(a: int, b: int)
    requires a >= 0 && b < 0
    ensures CDiv(-a, b) == a / -b >= 0
  {
    QuotientSign(a, -b);
  }

  lemma {:induction false} SumOfNegatives(s: seq<int>)
    requires forall i | 0 <= i < |s| :: s[i] < 0
    ensures Sum(s) <= -|s|
    decreases |s|
  {
    if s != [] {
      SumOfNegatives(s[1..]);
    }
  }

  function BatteryAt(m: Mon, dt: int, de: int): Device {
    Device(Battery, "", false, m.last.energy + de, 0, m.last.capacity, m.last.batTime + dt)
  }

  /** A pass over a battery alone, one second after the last one. */
  lemma SecondPass(m: Mon, de: int)
    requires Sound(m) && Rested(m) && de != 0
    ensures var a := AfterEnumeration(OnDevices(m, [BatteryAt(m, 1, de)]));
      Drain(a) == de && NewWindow(a) == Tail(m.window + [de], m.size) && a.last == m.last
      && a.current == m.last.(batTime := m.last.batTime + 1, energy := m.last.energy + de)
      && a.chargers == m.chargers && a.size == m.size
  {
    var ds := [BatteryAt(m, 1, de)];
    assert ds[1..] == [];
    assert OnDevices(m, ds) == OnDevice(m, ds[0]);
  }

  lemma UpPass(m: Mon)
    requires Sound(m) && Rested(m) && m.window == [] && m.size >= 2
    ensures var r := Wake(m, [BatteryAt(m, 1, 1)]);
      && r.Some? && r.value.window == [1] && r.value.size == m.size
      && BatteryAt(m, 2, 0) == BatteryAt(r.value, 1, -1)
  {
    SecondPass(m, 1);
    var a := AfterEnumeration(OnDevices(m, [BatteryAt(m, 1, 1)]));
    assert Differences(a.last, Apply(a).last) >= 2;
  }

  lemma DownPass(m: Mon)
    requires Sound(m) && Rested(m) && m.window == [1] && m.size >= 2
    ensures Wake(m, [BatteryAt(m, 1, -1)]).None?
  {
    SecondPass(m, -1);
    SumAppend([1], -1);
    assert [1][1..] == [];
    FaultsIff(AfterEnumeration(OnDevices(m, [BatteryAt(m, 1, -1)])));
  }

  /** The fault is within reach: the energy goes up by one unit in a second and down again
      in the next one. */
  lemma MixedWindowFaults(m: Mon)
    requires Sound(m) && Rested(m) && m.window == [] && m.size >= 2
    ensures Run(m, [[BatteryAt(m, 1, 1)], [BatteryAt(m, 2, 0)]]).None?
  {
    var up, down := [BatteryAt(m, 1, 1)], [BatteryAt(m, 2, 0)];
    UpPass(m);
    WakeKeeps(m, up);
    DownPass(Wake(m, up).value);
    assert [up, down][1..] == [down];
    assert Run(Wake(m, up).value, [down]) == None;
  }

  /** A new monitor gets there with a window of two values or more: it finds a full battery
      and no charger, and then sees the energy change by one unit up and down. */
  lemma FullBatteryFaults(m: Mon)
    requires IsNew(m) && m.size >= 2
    ensures var full := [BatteryAt(m, 0, 0).(energyFull := 800000)];
      && Start(m, full).Some?
      && Run(Start(m, full).value, [[BatteryAt(m, 1, 1)], [BatteryAt(m, 2, 0)]]).None?
  {
    var full := [BatteryAt(m, 0, 0).(energyFull := 800000)];
    var a := AfterEnumeration(OnFirsts(m, full));
    assert full[1..] == [];
    assert OnFirsts(m, full) == OnFirst(m, full[0]);
    assert Apply(a) == a;
    var m1 := Start(m, full).value;
    StartKeeps(m, full);
    MixedWindowFaults(m1);
    assert BatteryAt(m1, 1, 1) == BatteryAt(m, 1, 1) && BatteryAt(m1, 2, 0) == BatteryAt(m, 2, 0);
  }

  // ---- Chargers ----

  /** The first value a list of devices reports for a charger. */
  function FirstReport(ds: seq<Device>, p: string): Option<bool>
    decreases |ds|
  {
    if ds == [] then None
    else if ds[0].kind == Charger && ds[0].path == p then Some(ds[0].online)
    else FirstReport(ds[1..], p)
  }

  function Known(chargers: map<string, bool>, p: string): Option<bool> {
    if p in chargers then Some(chargers[p]) else None
  }

  function Flatten(wakes: seq<seq<Device>>): seq<Device>
    decreases |wakes|
  {
    if wakes == [] then [] else wakes[0] + Flatten(wakes[1..])
  }

  lemma {:induction false} FirstReportAppend(x: seq<Device>, y: seq<Device>, p: string)
    ensures FirstReport(x + y, p) ==
      if FirstReport(x, p).Some? then FirstReport(x, p) else FirstReport(y, p)
    decreases |x|
  {
    if x == [] {
      assert x + y == y;
    } else {
      assert (x + y)[1..] == x[1..] + y;
      FirstReportAppend(x[1..], y, p);
    }
  }

  lemma {:induction false} DevicesReport(m: Mon, ds: seq<Device>, p: string)
    ensures Known(OnDevices(m, ds).chargers, p) ==
      if p in m.chargers then Some(m.chargers[p]) else FirstReport(ds, p)
    decreases |ds|
  {
    if ds != [] {
      DevicesReport(OnDevice(m, ds[0]), ds[1..], p);
    }
  }

  /** What the monitor knows of a charger is the first thing ever reported of it: later
      reports change nothing. */
  lemma {:induction false} ChargersAreFirstReports(m: Mon, wakes: seq<seq<Device>>, p: string)
    requires Sound(m) && Rested(m) && Run(m, wakes).Some?
    ensures Known(Run(m, wakes).value.chargers, p) ==
      if p in m.chargers then Some(m.chargers[p]) else FirstReport(Flatten(wakes), p)
    decreases |wakes|
  {
    if wakes != [] {
      DevicesKeep(m, wakes[0]);
      WakeKeeps(m, wakes[0]);
      NotifyKeeps(AfterEnumeration(OnDevices(m, wakes[0])));
      DevicesReport(m, wakes[0], p);
      ChargersAreFirstReports(Wake(m, wakes[0]).value, wakes[1..], p);
      FirstReportAppend(wakes[0], Flatten(wakes[1..]), p);
    }
  }

  lemma {:induction false} FirstsReport(m: Mon, ds: seq<Device>, p: string)
    ensures Known(OnFirsts(m, ds).chargers, p) ==
      if p in m.chargers then Some(m.chargers[p]) else FirstReport(ds, p)
    decreases |ds|
  {
    if ds != [] {
      FirstsReport(OnFirst(m, ds[0]), ds[1..], p);
    }
  }

  /** So in every reachable state: the reports begin with those of the first enumeration. */
  lemma KnownChargersAreFirstReports(m: Mon, ds: seq<Device>, wakes: seq<seq<Device>>, p: string)
    requires IsNew(m) && Start(m, ds).Some? && Run(Start(m, ds).value, wakes).Some?
    ensures Known(Run(Start(m, ds).value, wakes).value.chargers, p) == FirstReport(ds + Flatten(wakes), p)
  {
    StartKeeps(m, ds);
    FirstsReport(m, ds, p);
    StartKeepsChargers(m, ds);
    ChargersAreFirstReports(Start(m, ds).value, wakes, p);
    FirstReportAppend(ds, Flatten(wakes), p);
  }

  lemma StartKeepsChargers(m: Mon, ds: seq<Device>)
    requires IsNew(m) && Start(m, ds).Some?
    ensures Start(m, ds).value.chargers == OnFirsts(m, ds).chargers
  {
    FirstsSetLimits(m, ds);
    LimitsKeep(AfterEnumeration(OnFirsts(m, ds)));
  }

  /** Number of passes in which the published charging state changes. */
  ghost function Flips(m: Mon, wakes: seq<seq<Device>>): nat
    decreases |wakes|
  {
    if wakes == [] || Wake(m, wakes[0]).None? then 0
    else
      var r := Wake(m, wakes[0]).value;
      One(r.last.online != m.last.online) + Flips(r, wakes[1..])
  }

  /** So charging is sticky: a run changes it at most once, from off to on, and never
      clears the window again after that. */
  lemma {:induction false} ChargingIsSticky(m: Mon, wakes: seq<seq<Device>>)
    requires Sound(m) && Rested(m)
    ensures Flips(m, wakes) <= One(!m.last.online)
    ensures Run(m, wakes).Some? && m.last.online ==> Run(m, wakes).value.last.online
    decreases |wakes|
  {
    if wakes != [] && Wake(m, wakes[0]).Some? {
      WakeKeeps(m, wakes[0]);
      DevicesKeep(m, wakes[0]);
      NotifyKeeps(AfterEnumeration(OnDevices(m, wakes[0])));
      if m.last.online {
        var p :| p in m.chargers && m.chargers[p];
        DevicesReport(m, wakes[0], p);
        assert AnyOnline(OnDevices(m, wakes[0]).chargers);
      }
      ChargingIsSticky(Wake(m, wakes[0]).value, wakes[1..]);
    }
  }

  /** A charger that is there at the start and unplugged later stays published. */
  lemma UnpluggingIsMissed(m: Mon, later: seq<seq<Device>>)
    requires IsNew(m)
    ensures var start := [UsbCharger(true)];
      && Start(m, start).Some?
      && var r := Run(Start(m, start).value, [[UsbCharger(false)]] + later);
         r.Some? ==> r.value.last.online && r.value.pub.isCharging == "1"
  {
    var start := [UsbCharger(true)];
    var a := AfterEnumeration(OnFirsts(m, start));
    assert start[1..] == [];
    assert OnFirsts(m, start) == OnFirst(m, start[0]);
    assert "usb" in a.chargers && a.chargers["usb"];
    StartKeeps(m, start);
    NotifyShows(a);
    ChargingIsSticky(Start(m, start).value, [[UsbCharger(false)]] + later);
    if Run(Start(m, start).value, [[UsbCharger(false)]] + later).Some? {
      RunKeeps(Start(m, start).value, [[UsbCharger(false)]] + later);
    }
  }

  function UsbCharger(online: bool): Device {
    Device(Charger, "usb", online, 0, 0, 0, 0)
  }

  // ---- The monitor object ----

  class Monitor {
    const window: LastN
    var last: Info
    var current: Info
    var energyFull: int
    var denergyMax: int
    var mwPerPercent: int
    var secPerPercent: int
    var dtimer: int
    var chargers: map<string, bool>
    /** The text of each property of the battery namespace. */
    var shown: Table
    ghost var ending: Ending

    ghost predicate Valid()
      reads this, window
    {
      window.Valid() && denergyMax > 0
    }

    ghost function Abs(): Mon
      reads this, window
      requires Valid()
    {
      Mon(last, current, window.values, window.maxSize, energyFull, denergyMax, mwPerPercent,
          secPerPercent, dtimer, chargers, shown, ending)
    }

    /** The limits are left uninitialised. */
    constructor (now: int, windowSize: nat, mwPerPercent: int, secPerPercent: int)
      ensures Valid() && IsNew(Abs()) && Abs().size == windowSize && fresh(window)
    {
      window := new LastN(windowSize, 10);
      dtimer, energyFull, denergyMax := 2, 800000, 10000;
      this.mwPerPercent, this.secPerPercent := mwPerPercent, secPerPercent;
      last := Info(now, false, 800000, 0, 100, 36000, 0);
      current := Info(now, false, 800000, 0, 100, 36000, 0);
      chargers := map[];
      shown := Table("97", "1", "3600", "0", "0", "0");
      ending := Fresh;
    }

    method CalcLimits()
      requires Valid()
      modifies this`secPerPercent
      ensures Valid() && Abs() == Limits(old(Abs()))
    {
      secPerPercent := Max(CDiv(mwPerPercent, denergyMax), 1);
    }

    method OnOne(d: Device)
      requires Valid()
      modifies this`current, this`chargers
      ensures Valid() && Abs() == OnDevice(old(Abs()), d)
    {
      if d.kind == Charger {
        if d.path !in chargers {
          chargers := chargers[d.path := d.online];
        }
      } else if d.kind == Battery {
        current := current.(batTime := d.now, energy := d.energyNow, capacity := d.capacity);
      }
    }

    /** `std::any_of` over the chargers. */
    method UpdateOnline()
      requires Valid()
      modifies this`current
      ensures Valid() && Abs() == AfterEnumeration(old(Abs()))
    {
      var rest, online := chargers.Keys, false;
      while rest != {} && !online
        invariant rest <= chargers.Keys && (online ==> AnyOnline(chargers))
        invariant !online ==> forall p | p in chargers && p !in rest :: !chargers[p]
        decreases |rest|
      {
        var p :| p in rest;
        online := chargers[p];
        rest := rest - {p};
      }
      current := current.(online := online);
    }

    /** A drain raises `denergy_max_` if it is the worst so far. */
    method RaiseMax(de: int)
      requires Valid() && de < 0
      modifies this`denergyMax, this`secPerPercent
      ensures Valid() && denergyMax == Max(old(denergyMax), -de)
      ensures Abs() == if denergyMax == old(denergyMax) then old(Abs())
                       else Limits(old(Abs()).(denergyMax := denergyMax))
    {
      if -de > denergyMax {
        denergyMax := -de;
        CalcLimits();
      }
    }

    method EstimateLow(mean: int)
      requires Valid() && mean != 0
      modifies this`current
      ensures Valid() && current == Discharging(old(current), mean)
    {
      var et := CDiv(-current.energy, mean);
      current := current.(toLow := et);
      current := current.(toFull := 0);
      current := current.(power := mean);
    }

    method EstimateFull(mean: int)
      requires Valid()
      modifies this`current
      ensures Valid() && current == Charging(old(current), energyFull, mean)
    {
      var et := if mean != 0 then CDiv(energyFull - current.energy, mean) else 0;
      current := current.(toLow := 0);
      current := current.(toFull := et);
      current := current.(power := mean);
    }

    method PushRate(de: int)
      requires Valid()
      modifies window
      ensures Valid() && window.values == Tail(old(window.values) + [de], window.maxSize)
    {
      PushKeepsTail(window.history, window.maxSize, de);
      window.Push(de);
    }

    /** What a change of the energy at rate `de` does to the estimates. The result is false
        if the pass divides by zero. */
    method ProcessRate(de: int) returns (ok: bool)
      requires Valid() && de != 0
      modifies this`current, this`denergyMax, this`secPerPercent, window
      ensures Valid() && window.values == Tail(old(window.values) + [de], window.maxSize)
      ensures ok <==> !(de < 0 && Mean(window.values) == 0)
      ensures ok ==> current == if de < 0 then Discharging(old(current), Mean(window.values))
                                else Charging(old(current), energyFull, Mean(window.values))
      ensures denergyMax == if de < 0 then Max(old(denergyMax), -de) else old(denergyMax)
      ensures secPerPercent == if denergyMax == old(denergyMax) then old(secPerPercent)
                               else Max(CDiv(mwPerPercent, denergyMax), 1)
    {
      PushRate(de);
      if de < 0 {
        RaiseMax(de);
        var mean := window.Average();
        if mean == 0 {
          return false;
        }
        EstimateLow(mean);
      } else {
        var mean := window.Average();
        EstimateFull(mean);
      }
      return true;
    }

    method ProcessEnergy(dt: int, was: int) returns (ok: bool)
      requires Valid()
      modifies this`current, this`denergyMax, this`secPerPercent, window
      ensures Valid()
      ensures var rate := Rate(old(current.energy), was, dt);
        && (rate == 0 ==> ok && Abs() == old(Abs()))
        && (rate != 0 ==>
              && window.values == Tail(old(window.values) + [rate], window.maxSize)
              && (ok <==> !(rate < 0 && Mean(window.values) == 0))
              && (ok ==> current == if rate < 0 then Discharging(old(current), Mean(window.values))
                                    else Charging(old(current), energyFull, Mean(window.values)))
              && denergyMax == (if rate < 0 then Max(old(denergyMax), -rate) else old(denergyMax))
              && secPerPercent == if denergyMax == old(denergyMax) then old(secPerPercent)
                                  else Max(CDiv(mwPerPercent, denergyMax), 1))
    {
      if dt == 0 {
        return true;
      }
      var de := CDiv(current.energy - was, dt);
      if de == 0 {
        return true;
      }
      ok := ProcessRate(de);
    }

    /** The energy field of a pass that began in `m`. */
    method CopyEnergy(dt: int, ghost m: Mon) returns (ok: bool, count: nat)
      requires Valid() && Abs().(last := m.last, pub := m.pub) == m
      requires last.energy == m.last.energy && dt == m.current.batTime - m.last.batTime
      modifies this`last, this`current, this`denergyMax, this`secPerPercent, window
      ensures Valid() && (ok <==> !Faults(m))
      ensures ok ==> last == old(last).(energy := m.current.energy)
      ensures ok ==> Abs() == Apply(m).(last := last, pub := old(shown))
      ensures count == One(m.last.energy != m.current.energy)
    {
      count := One(last.energy != current.energy);
      if last.energy == current.energy {
        assert Drain(m) == 0;
        return true, count;
      }
      ok := ProcessEnergy(dt, last.energy);
      if ok {
        last := last.(energy := current.energy);
        EnergyIsApplied(m, Abs());
      }
    }

    /** The last four fields of a pass: each is published and copied if it changed. */
    method CopyRest() returns (count: nat)
      requires Valid()
      modifies this`last, this`shown
      ensures Valid()
      ensures last == old(last).(power := current.power, capacity := current.capacity,
                                 toLow := current.toLow, toFull := current.toFull)
      ensures shown == Render(old(shown), old(last), last)
      ensures count == Differences(old(last), last)
    {
      count := 0;
      if last.power != current.power {
        shown := shown.(power := Text(current.power));
        shown := shown.(onBattery := Flag(current.power < 0));
        last := last.(power := current.power);
        count := count + 1;
      }
      if last.capacity != current.capacity {
        shown := shown.(chargePercentage := Text(current.capacity));
        last := last.(capacity := current.capacity);
        count := count + 1;
      }
      var more := CopyTimes();
      count := count + more;
    }

    method CopyTimes() returns (count: nat)
      requires Valid()
      modifies this`last, this`shown
      ensures Valid()
      ensures last == old(last).(toLow := current.toLow, toFull := current.toFull)
      ensures shown == Render(old(shown), old(last), last)
      ensures count == Differences(old(last), last)
    {
      count := 0;
      if last.toLow != current.toLow {
        shown := shown.(timeUntilLow := Text(current.toLow));
        last := last.(toLow := current.toLow);
        count := count + 1;
      }
      if last.toFull != current.toFull {
        shown := shown.(timeUntilFull := Text(current.toFull));
        last := last.(toFull := current.toFull);
        count := count + 1;
      }
    }

    /** The first two fields of a pass. */
    method CopyFirst() returns (dt: int, count: nat, chargingChanged: bool)
      requires Valid()
      modifies this`last, this`shown
      ensures Valid() && dt == current.batTime - old(last).batTime
      ensures last == old(last).(batTime := current.batTime, online := current.online)
      ensures shown == Render(old(shown), old(last), last)
      ensures count == Differences(old(last), last)
      ensures chargingChanged <==> old(last).online != current.online
    {
      dt, count := 0, 0;
      if last.batTime != current.batTime {
        dt := current.batTime - last.batTime;
        last := last.(batTime := current.batTime);
        count := count + 1;
      }
      chargingChanged := last.online != current.online;
      if chargingChanged {
        shown := shown.(isCharging := Flag(current.online));
        last := last.(online := current.online);
        count := count + 1;
      }
    }

    /** `copy_apply_if_changed` with the actions of `notify`: visits the fields in order; a
        field that an earlier action changed is seen later in the same pass. */
    method CopyChanged() returns (ok: bool, count: nat, chargingChanged: bool)
      requires Valid()
      modifies this, window
      ensures Valid() && (ok <==> !Faults(old(Abs())))
      ensures ok ==> Abs() == Apply(old(Abs()))
      ensures ok ==> count == Differences(old(last), last)
      ensures chargingChanged <==> old(last.online) != old(current.online)
      ensures ending == old(ending) && dtimer == old(dtimer)
    {
      ghost var m := Abs();
      var dt, more;
      dt, count, chargingChanged := CopyFirst();
      ok, more := CopyEnergy(dt, m);
      if !ok {
        return;
      }
      ghost var before, table := last, shown;
      var rest := CopyRest();
      assert last == current == Shown(m);
      RenderInThree(m, before, table, last);
      CountInThree(m.last, last);
      count := count + more + rest;
    }

    method NotifyPass() returns (ok: bool)
      requires Valid()
      modifies this, window
      ensures Valid() && (ok <==> Notify(old(Abs())).Some?)
      ensures ok ==> Abs() == Notify(old(Abs())).value
    {
      var count, chargingChanged;
      ok, count, chargingChanged := CopyChanged();
      if !ok || count == 1 {
        return;
      }
      if chargingChanged {
        window.Clear();
        dtimer := 5;
        ending := ChargingChanged;
      } else if current.online {
        dtimer := 4;
        ending := OnlinePass;
      } else {
        dtimer := if current.power != 0 then Max(CDiv(secPerPercent, 2), 1) else 5;
        ending := if current.power != 0 then DrainingPass else IdlePass;
      }
    }

    /** A udev event brings one device; a poll or the screen enumerates all of them. */
    method WakeUp(ds: seq<Device>) returns (ok: bool)
      requires Valid()
      modifies this, window
      ensures Valid() && (ok <==> Wake(old(Abs()), ds).Some?)
      ensures ok ==> Abs() == Wake(old(Abs()), ds).value
    {
      var i := 0;
      while i < |ds|
        invariant Valid() && 0 <= i <= |ds|
        invariant OnDevices(Abs(), ds[i..]) == OnDevices(old(Abs()), ds)
      {
        assert ds[i..][1..] == ds[i + 1..];
        OnOne(ds[i]);
        i := i + 1;
      }
      UpdateOnline();
      ok := NotifyPass();
    }

    method Greet(d: Device)
      requires Valid()
      modifies this
      ensures Valid() && Abs() == OnFirst(old(Abs()), d)
    {
      if d.kind == Battery {
        energyFull := d.energyFull;
      }
      OnOne(d);
      mwPerPercent := CDiv(energyFull, 100);
      CalcLimits();
    }

    /** The first enumeration. */
    method Begin(ds: seq<Device>) returns (ok: bool)
      requires Valid()
      modifies this, window
      ensures Valid() && (ok <==> Start(old(Abs()), ds).Some?)
      ensures ok ==> Abs() == Start(old(Abs()), ds).value
    {
      var i := 0;
      while i < |ds|
        invariant Valid() && 0 <= i <= |ds|
        invariant OnFirsts(Abs(), ds[i..]) == OnFirsts(old(Abs()), ds)
      {
        assert ds[i..][1..] == ds[i + 1..];
        Greet(ds[i]);
        i := i + 1;
      }
      UpdateOnline();
      ok := NotifyPass();
    }
  }
}
