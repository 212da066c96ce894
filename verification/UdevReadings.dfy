/** What the battery monitor makes of its readings: the estimates of one pass, the period it
    chooses, and what whole runs remember of them (src/udev/provider_udev.cpp). */
module UdevReadings {
  import opened Values
  import opened UdevWindow
  import opened UdevMonitor

  // ---- The rate of one pass ----

  /** The rate of a pass is the change of energy per second, truncated towards zero; it is
      zero if no time has passed. */
  lemma RateIsTruncated(m: Mon)
    ensures var de, dt := m.current.energy - m.last.energy, m.current.batTime - m.last.batTime;
      && (dt == 0 ==> Drain(m) == 0)
      && (dt != 0 && de >= 0 ==> 0 <= de - dt * Drain(m) < Abs(dt))
      && (dt != 0 && de <= 0 ==> -Abs(dt) < de - dt * Drain(m) <= 0)
  {
    var dt := m.current.batTime - m.last.batTime;
    if dt != 0 {
      CDivTruncates(m.current.energy - m.last.energy, dt);
    }
  }

  /** The average of a pass is the mean of the last rates, the new one included. */
  lemma AverageIsOfLastRates(m: Mon)
    ensures Average(m) == Mean(if Drain(m) == 0 then m.window else Tail(m.window + [Drain(m)], m.size))
  {
  }

  // ---- Charging ----

  lemma {:induction false} SumOfPositives(s: seq<int>)
    requires forall i | 0 <= i < |s| :: s[i] > 0
    ensures Sum(s) >= |s|
    decreases |s|
  {
    if s != [] {
      SumOfPositives(s[1..]);
    }
  }

  lemma PositiveMean(s: seq<int>)
    requires s != [] && forall i | 0 <= i < |s| :: s[i] > 0
    ensures Mean(s) >= 1
  {
    SumOfPositives(s);
    MeanIsZeroIff(s);
    CDivSign(Sum(s), |s|);
  }

  lemma TailOfPositives(window: seq<int>, size: nat, de: int)
    requires size >= 1 && de > 0 && forall i | 0 <= i < |window| :: window[i] > 0
    ensures var w := Tail(window + [de], size);
      w != [] && Mean(w) >= 1
  {
    PositiveMean(Tail(window + [de], size));
  }

  /** A pass with a rise of energy never faults. Nothing is left until low; the time until
      full is what is missing, divided by the average, or zero if that is zero. */
  lemma RisingEstimate(m: Mon)
    requires Drain(m) > 0
    ensures Notify(m).Some?
    ensures var r := Notify(m).value.last;
      && r.power == Average(m) && r.toLow == 0
      && r.toFull == if Average(m) == 0 then 0 else CDiv(m.energyFull - m.current.energy, Average(m))
  {
    NotifyShows(m);
  }

  /** A window of rises only: the average is positive and its estimate is what is missing
      divided by the mean rise. */
  lemma ChargingEstimate(m: Mon)
    requires m.size >= 1 && Drain(m) > 0
    requires forall i | 0 <= i < |m.window| :: m.window[i] > 0
    ensures Average(m) >= 1 && Notify(m).Some?
    ensures var r := Notify(m).value.last;
      && r.power == Average(m) && r.toLow == 0
      && (m.current.energy <= m.energyFull ==>
            r.toFull == (m.energyFull - m.current.energy) / Average(m) >= 0)
  {
    TailOfPositives(m.window, m.size, Drain(m));
    RisingEstimate(m);
    if m.current.energy <= m.energyFull {
      QuotientSign(m.energyFull - m.current.energy, Average(m));
    }
  }

  /** Rises that earlier drains cancel out leave no estimate. */
  lemma CancelledRise(m: Mon)
    requires Drain(m) > 0
    requires Abs(Sum(NewWindow(m))) < |NewWindow(m)|
    ensures Notify(m).Some?
    ensures var r := Notify(m).value.last;
      r.power == 0 && r.toLow == 0 && r.toFull == 0
  {
    MeanIsZeroIff(NewWindow(m));
    RisingEstimate(m);
  }

  /** Without a rate the estimates stay. */
  lemma SteadyEstimate(m: Mon)
    requires Drain(m) == 0
    ensures Notify(m).Some? && Notify(m).value.last == m.current
  {
    NotifyShows(m);
  }

  // ---- The period ----

  /** Two states differ in exactly one field. */
  predicate OneFieldDiffers(a: Info, b: Info) {
    a != b &&
    (|| b == a.(batTime := b.batTime) || b == a.(online := b.online) || b == a.(energy := b.energy)
     || b == a.(power := b.power) || b == a.(capacity := b.capacity) || b == a.(toLow := b.toLow)
     || b == a.(toFull := b.toFull))
  }

  lemma OneDifference(a: Info, b: Info)
    ensures Differences(a, b) == 1 <==> OneFieldDiffers(a, b)
  {
    if Differences(a, b) == 1 {
      if a.batTime != b.batTime {
        assert b == a.(batTime := b.batTime);
      } else if a.online != b.online {
        assert b == a.(online := b.online);
      } else if a.energy != b.energy {
        assert b == a.(energy := b.energy);
      } else if a.power != b.power {
        assert b == a.(power := b.power);
      } else if a.capacity != b.capacity {
        assert b == a.(capacity := b.capacity);
      } else if a.toLow != b.toLow {
        assert b == a.(toLow := b.toLow);
      } else {
        assert b == a.(toFull := b.toFull);
      }
    }
  }

  /** The rates in the window after a pass: cleared when charging starts or ends, but not if
      nothing else has changed. */
  function RatesAfter(rates: seq<int>, m: Mon, now: Info): seq<int> {
    if m.last.online != now.online && !OneFieldDiffers(m.last, now) then []
    else if Drain(m) == 0 then rates
    else rates + [Drain(m)]
  }

  /** Which period a pass chooses: none if one field changed; five seconds when charging
      starts or ends or without power; four while charging; else half the time that one percent
      lasts at the worst rate, or a second. */
  lemma PeriodChoice(m: Mon)
    requires Notify(m).Some? && m.denergyMax > 0
    ensures var r := Notify(m).value;
      && r.last.online == m.current.online
      && r.dtimer ==
           (if OneFieldDiffers(m.last, r.last) then m.dtimer
            else if m.last.online != r.last.online then 5
            else if r.last.online then 4
            else if r.last.power == 0 then 5
            else Max(CDiv(r.secPerPercent, 2), 1))
      && (r.denergyMax == m.denergyMax ==> r.secPerPercent == m.secPerPercent)
      && (r.denergyMax != m.denergyMax ==> r.secPerPercent == Max(CDiv(m.mwPerPercent, r.denergyMax), 1))
  {
    OneDifference(m.last, Shown(m));
    PassKeeps(m);
  }

  lemma PassKeeps(m: Mon)
    requires Notify(m).Some? && m.denergyMax > 0
    ensures var r := Notify(m).value;
      && r.last == Shown(m) && r.denergyMax == NewMax(m) >= m.denergyMax
      && r.energyFull == m.energyFull && r.chargers == m.chargers && r.size == m.size
      && r.last.energy == m.current.energy && r.last.batTime == m.current.batTime
      && r.last.capacity == m.current.capacity && r.last.online == m.current.online
  {
  }

  /** If the window holds the last rates before a pass, it does after it. */
  lemma PassWindow(m: Mon, rates: seq<int>)
    requires Notify(m).Some? && m.denergyMax > 0 && m.window == Tail(rates, m.size)
    ensures var r := Notify(m).value;
      r.window == Tail(RatesAfter(rates, m, r.last), r.size)
  {
    OneDifference(m.last, Shown(m));
    PassKeeps(m);
    PushKeepsTail(rates, m.size, Drain(m));
    TailPush(rates, m.size, Drain(m));
  }

  lemma TailPush(rates: seq<int>, n: nat, v: int)
    ensures Tail(Tail(rates, n) + [v], n) == Tail(rates + [v], n)
  {
    PushKeepsTail(rates, n, v);
  }

  // ---- Whole runs ----

  ghost function RatesOfRun(rates: seq<int>, m: Mon, wakes: seq<seq<Device>>): seq<int>
    decreases |wakes|
  {
    if wakes == [] || Wake(m, wakes[0]).None? then rates
    else
      var r := Wake(m, wakes[0]).value;
      RatesOfRun(RatesAfter(rates, AfterEnumeration(OnDevices(m, wakes[0])), r.last), r, wakes[1..])
  }

  lemma {:induction false} RunWindow(m: Mon, wakes: seq<seq<Device>>, rates: seq<int>)
    requires Sound(m) && Rested(m) && Run(m, wakes).Some? && m.window == Tail(rates, m.size)
    ensures var r := Run(m, wakes).value;
      r.window == Tail(RatesOfRun(rates, m, wakes), r.size)
    decreases |wakes|
  {
    if wakes != [] {
      var a, r := AfterEnumeration(OnDevices(m, wakes[0])), Wake(m, wakes[0]).value;
      DevicesKeep(m, wakes[0]);
      WakeKeeps(m, wakes[0]);
      PassWindow(a, rates);
      RunWindow(r, wakes[1..], RatesAfter(rates, a, r.last));
    }
  }

  /** In every reachable state the window holds the last non-zero rates since charging last
      started or ended. */
  lemma WindowIsHistory(m: Mon, ds: seq<Device>, wakes: seq<seq<Device>>)
    requires IsNew(m) && Start(m, ds).Some? && Run(Start(m, ds).value, wakes).Some?
    ensures var a, m1 := AfterEnumeration(OnFirsts(m, ds)), Start(m, ds).value;
      var r := Run(m1, wakes).value;
      r.window == Tail(RatesOfRun(RatesAfter([], a, m1.last), m1, wakes), m.size) && r.size == m.size
  {
    var a, m1 := AfterEnumeration(OnFirsts(m, ds)), Start(m, ds).value;
    FirstsSetLimits(m, ds);
    StartKeeps(m, ds);
    PassKeeps(a);
    PassWindow(a, []);
    RunWindow(m1, wakes, RatesAfter([], a, m1.last));
    RunKeepsConstants(m1, wakes);
  }

  lemma {:induction false} RunKeepsConstants(m: Mon, wakes: seq<seq<Device>>)
    requires Sound(m) && Rested(m) && Run(m, wakes).Some?
    ensures Run(m, wakes).value.energyFull == m.energyFull && Run(m, wakes).value.size == m.size
    decreases |wakes|
  {
    if wakes != [] {
      DevicesKeep(m, wakes[0]);
      WakeKeeps(m, wakes[0]);
      PassKeeps(AfterEnumeration(OnDevices(m, wakes[0])));
      RunKeepsConstants(Wake(m, wakes[0]).value, wakes[1..]);
    }
  }

  // ---- Batteries ----

  /** The last battery reading among some devices. */
  function LatestBattery(ds: seq<Device>): Option<Device>
    decreases |ds|
  {
    if ds == [] then None
    else
      var later := LatestBattery(ds[1..]);
      if later.Some? then later else if ds[0].kind == Battery then Some(ds[0]) else None
  }

  lemma {:induction false} LatestAppend(x: seq<Device>, y: seq<Device>)
    ensures LatestBattery(x + y) ==
      if LatestBattery(y).Some? then LatestBattery(y) else LatestBattery(x)
    decreases |x|
  {
    if x == [] {
      assert x + y == y;
    } else {
      assert (x + y)[1..] == x[1..] + y;
      LatestAppend(x[1..], y);
    }
  }

  /** The state shows this reading, or the one before it if there is none. */
  predicate Reads(i: Info, was: Info, reading: Option<Device>) {
    match reading
    case Some(d) => i.energy == d.energyNow && i.capacity == d.capacity && i.batTime == d.now
    case None => i.energy == was.energy && i.capacity == was.capacity && i.batTime == was.batTime
  }

  lemma {:induction false} DevicesRead(m: Mon, ds: seq<Device>)
    ensures Reads(OnDevices(m, ds).current, m.current, LatestBattery(ds))
    decreases |ds|
  {
    if ds != [] {
      DevicesRead(OnDevice(m, ds[0]), ds[1..]);
    }
  }

  lemma {:induction false} FirstsRead(m: Mon, ds: seq<Device>)
    requires m.denergyMax == 10000
    ensures var r := OnFirsts(m, ds);
      && Reads(r.current, m.current, LatestBattery(ds))
      && r.energyFull == match LatestBattery(ds) { case Some(d) => d.energyFull case None => m.energyFull }
    decreases |ds|
  {
    if ds != [] {
      FirstsRead(OnFirst(m, ds[0]), ds[1..]);
    }
  }

  lemma {:induction false} RunReads(m: Mon, wakes: seq<seq<Device>>)
    requires Sound(m) && Rested(m) && Run(m, wakes).Some?
    ensures Reads(Run(m, wakes).value.last, m.last, LatestBattery(Flatten(wakes)))
    decreases |wakes|
  {
    if wakes != [] {
      var a, r := AfterEnumeration(OnDevices(m, wakes[0])), Wake(m, wakes[0]).value;
      DevicesKeep(m, wakes[0]);
      WakeKeeps(m, wakes[0]);
      PassKeeps(a);
      DevicesRead(m, wakes[0]);
      RunReads(r, wakes[1..]);
      LatestAppend(wakes[0], Flatten(wakes[1..]));
    }
  }

  /** In every reachable state energy, capacity and time are those of the latest battery
      reading, and the full energy is that of the last one of the first enumeration. */
  lemma LatestReadingIsTracked(m: Mon, ds: seq<Device>, wakes: seq<seq<Device>>)
    requires IsNew(m) && Start(m, ds).Some? && Run(Start(m, ds).value, wakes).Some?
    ensures var r := Run(Start(m, ds).value, wakes).value;
      && Reads(r.last, m.last, LatestBattery(ds + Flatten(wakes)))
      && r.energyFull == match LatestBattery(ds) { case Some(d) => d.energyFull case None => 800000 }
  {
    var a, m1 := AfterEnumeration(OnFirsts(m, ds)), Start(m, ds).value;
    FirstsSetLimits(m, ds);
    StartKeeps(m, ds);
    FirstsRead(m, ds);
    PassKeeps(a);
    RunReads(m1, wakes);
    RunKeepsConstants(m1, wakes);
    LatestAppend(ds, Flatten(wakes));
  }

  // ---- Chargers ----

  lemma OnlineIffKnown(chargers: map<string, bool>)
    ensures AnyOnline(chargers) <==> exists p :: Known(chargers, p) == Some(true)
  {
    if p :| p in chargers && chargers[p] {
      assert Known(chargers, p) == Some(true);
    }
  }

  /** The first report of some charger is that it is online. */
  ghost predicate SomeFirstOnline(ds: seq<Device>) {
    exists p :: FirstReport(ds, p) == Some(true)
  }

  lemma EndsRested(m: Mon, ds: seq<Device>, wakes: seq<seq<Device>>)
    requires IsNew(m) && Start(m, ds).Some? && Run(Start(m, ds).value, wakes).Some?
    ensures Rested(Run(Start(m, ds).value, wakes).value)
  {
    StartKeeps(m, ds);
    RunKeeps(Start(m, ds).value, wakes);
  }

  /** In every reachable state the monitor is online iff the first report of some charger was. */
  lemma OnlineIffFirstReported(m: Mon, ds: seq<Device>, wakes: seq<seq<Device>>)
    requires IsNew(m) && Start(m, ds).Some? && Run(Start(m, ds).value, wakes).Some?
    ensures Run(Start(m, ds).value, wakes).value.last.online <==> SomeFirstOnline(ds + Flatten(wakes))
  {
    var all, chargers := ds + Flatten(wakes), Run(Start(m, ds).value, wakes).value.chargers;
    EndsRested(m, ds, wakes);
    OnlineIffKnown(chargers);
    forall p ensures Known(chargers, p) == FirstReport(all, p) {
      KnownChargersAreFirstReports(m, ds, wakes, p);
    }
    SameReports(chargers, all);
  }

  lemma SameReports(chargers: map<string, bool>, all: seq<Device>)
    requires forall p :: Known(chargers, p) == FirstReport(all, p)
    ensures (exists p :: Known(chargers, p) == Some(true)) <==> SomeFirstOnline(all)
  {
    if p :| Known(chargers, p) == Some(true) {
      assert FirstReport(all, p) == Some(true);
    }
    if p :| FirstReport(all, p) == Some(true) {
      assert Known(chargers, p) == Some(true);
    }
  }
}
