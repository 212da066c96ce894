/** What the UPower bridge publishes, stated on the readings of the proxies
    (src/upower/provider_upower.cpp). */
module UPowerReadings {
  import opened Values
  import opened UPower

  /** `round` gives the nearest integer, away from zero for halves. */
  lemma RoundIsNearest(x: real)
    ensures Round(x) == Round(x).Floor as real
    ensures x >= 0.0 ==> -0.5 < Round(x) - x <= 0.5
    ensures x < 0.0 ==> -0.5 <= Round(x) - x < 0.5
  {
    if x >= 0.0 {
      var n := (x + 0.5).Floor;
      assert Round(x) == n as real && (n as real).Floor == n;
    } else {
      var n := (-x + 0.5).Floor;
      assert Round(x) == (-n) as real && ((-n) as real).Floor == -n;
    }
  }

  /** All six properties, written out. */
  ghost predicate Publishes(
    s: State, percentage: real, onBattery: bool, lowBattery: bool, timeUntilLow: int, charging: bool)
  {
    && Full(s.pub)
    && s.pub[ChargePercentage] == Number(Round(percentage)) && s.pub[Capacity] == Number(percentage)
    && s.pub[OnBattery] == Truth(onBattery) && s.pub[LowBattery] == Truth(lowBattery)
    && s.pub[TimeUntilLow] == Count(timeUntilLow) && s.pub[IsCharging] == Truth(charging)
  }

  lemma RefinedIsPublished(s: State)
    requires Refines(s)
    ensures Publishes(s, s.last.percentage, s.last.onBattery, s.last.lowBattery, s.last.timeToEmpty,
                      s.last.state == 1 || s.last.state == 4)
  {
  }

  /** What the last update could see. */
  datatype Seen = Battery(reading: Info) | ManagerOnly(reading: Info) | Nothing

  function Look(device: bool, manager: bool, r: Info): Seen {
    if device && manager then Battery(r) else if manager then ManagerOnly(r) else Nothing
  }

  /** The bridge tracks and publishes what was seen: the whole reading of a battery; of the
      manager alone its two flags, beside fixed values; of neither the defaults. */
  ghost predicate Shows(s: State, seen: Seen) {
    match seen
    case Battery(r) =>
      s.last == r
      && Publishes(s, r.percentage, r.onBattery, r.lowBattery, r.timeToEmpty, r.state == 1 || r.state == 4)
    case ManagerOnly(r) =>
      s.last == Info(99.0, r.onBattery, r.lowBattery, 12345, 0, 0)
      && Publishes(s, 99.0, r.onBattery, r.lowBattery, 12345, false)
    case Nothing =>
      s.last == Info(87.0, true, false, 878787, 0, 0)
      && Publishes(s, 87.0, true, false, 878787, false)
  }

  lemma UpdateShows(s: State, r: Info)
    requires Refines(s)
    ensures Refines(Update(s, r)) && Shows(Update(s, r), Look(s.device, s.manager, r))
  {
    UpdateRefines(s, r);
    RefinedIsPublished(Update(s, r));
  }

  /** A Changed signal shows the new reading. */
  lemma ChangedIsShown(s: State, r: Info)
    requires Refines(s) && s.manager
    ensures Shows(Step(s, Changed(r)), if s.device then Battery(r) else ManagerOnly(r))
  {
    UpdateShows(s, r);
  }

  // ---- Proxies ----

  predicate IsFirstBattery(ps: seq<Probe>, i: nat) {
    i < |ps| && ps[i].isBattery && forall j | 0 <= j < i :: !ps[j].isBattery
  }

  lemma {:induction false} FirstBatteryIsFound(s: State, ps: seq<Probe>, i: nat)
    requires IsFirstBattery(ps, i)
    ensures FindBattery(s, ps) == Update(s.(device := true, path := ps[i].path), ps[i].reading)
    decreases |ps|
  {
    if i > 0 {
      assert forall j | 0 <= j < i - 1 :: ps[1..][j] == ps[j + 1];
      FirstBatteryIsFound(s, ps[1..], i - 1);
    }
  }

  lemma {:induction false} NoBatteryIsFound(s: State, ps: seq<Probe>)
    requires forall j | 0 <= j < |ps| :: !ps[j].isBattery
    ensures FindBattery(s, ps) == s
    decreases |ps|
  {
    if ps != [] {
      NoBatteryIsFound(s, ps[1..]);
    }
  }

  lemma {:induction false} FirstOrNone(ps: seq<Probe>, n: nat)
    requires n <= |ps| && forall i: nat :: !IsFirstBattery(ps, i)
    ensures forall j | 0 <= j < n :: !ps[j].isBattery
    decreases n
  {
    if n > 0 {
      FirstOrNone(ps, n - 1);
      assert !IsFirstBattery(ps, n - 1);
    }
  }

  /** The probe that an event adopts as the battery. */
  ghost predicate Adopts(s: State, ev: Event, p: Probe) {
    match ev
    case Enumerated(ps) => exists i: nat :: IsFirstBattery(ps, i) && ps[i] == p
    case DeviceAdded(q) => s.manager && q.isBattery && q == p
    case _ => false
  }

  predicate DropsBattery(s: State, ev: Event) {
    match ev
    case ManagerLost(_, _) => true
    case DeviceRemoved(gone, _) => s.manager && gone == s.path
    case _ => false
  }

  /** The battery proxy is the last one adopted and not dropped since; the removal of any other
      device changes nothing. */
  lemma ProxiesFollowEvents(s: State, ev: Event)
    ensures var r := Step(s, ev);
      && (r.manager <==> ev.ManagerUp? || (s.manager && !ev.ManagerLost?))
      && (forall p | Adopts(s, ev, p) :: r.device && r.path == p.path)
      && (DropsBattery(s, ev) ==> !r.device && r.path == "")
      && ((forall p :: !Adopts(s, ev, p)) && !DropsBattery(s, ev) ==> r.device == s.device && r.path == s.path)
      && (ev.DeviceRemoved? && !DropsBattery(s, ev) ==> r == s)
  {
    if ev.Enumerated? {
      if i: nat :| IsFirstBattery(ev.probes, i) {
        FirstBatteryIsFound(s, ev.probes, i);
        assert Adopts(s, ev, ev.probes[i]);
        forall p | Adopts(s, ev, p) ensures p == ev.probes[i] {
          var j: nat :| IsFirstBattery(ev.probes, j) && ev.probes[j] == p;
          assert i == j;
        }
      } else {
        FirstOrNone(ev.probes, |ev.probes|);
        NoBatteryIsFound(s, ev.probes);
      }
    } else if ev.DeviceAdded? && s.manager && ev.probe.isBattery {
      assert Adopts(s, ev, ev.probe);
    }
  }

  // ---- Runs ----

  function FirstReading(ps: seq<Probe>): Option<Info> {
    if ps == [] then None else if ps[0].isBattery then Some(ps[0].reading) else FirstReading(ps[1..])
  }

  /** What is seen last, after one more event. */
  function SeenAfter(was: Seen, s: State, ev: Event): Seen {
    match ev
    case ManagerUp => was
    case ManagerLost(_, _) => Nothing
    case Enumerated(ps) =>
      if FirstReading(ps).None? then was else Look(true, s.manager, FirstReading(ps).value)
    case DeviceAdded(p) => if s.manager && p.isBattery then Battery(p.reading) else was
    case DeviceRemoved(gone, r) => if s.manager && gone == s.path then ManagerOnly(r) else was
    case Changed(r) => if s.manager || s.device then Look(s.device, s.manager, r) else was
  }

  function SeenOf(was: Seen, s: State, evs: seq<Event>): Seen
    decreases |evs|
  {
    if evs == [] then was else SeenOf(SeenAfter(was, s, evs[0]), Step(s, evs[0]), evs[1..])
  }

  lemma {:induction false} FindShows(s: State, ps: seq<Probe>, was: Seen)
    requires Refines(s) && Shows(s, was)
    ensures Shows(FindBattery(s, ps),
                  if FirstReading(ps).None? then was else Look(true, s.manager, FirstReading(ps).value))
    decreases |ps|
  {
    if ps != [] {
      if ps[0].isBattery {
        UpdateShows(s.(device := true, path := ps[0].path), ps[0].reading);
      } else {
        FindShows(s, ps[1..], was);
      }
    }
  }

  lemma StepShows(s: State, ev: Event, was: Seen)
    requires Refines(s) && Shows(s, was)
    ensures Refines(Step(s, ev)) && Shows(Step(s, ev), SeenAfter(was, s, ev))
  {
    StepRefines(s, ev);
    match ev
    case ManagerUp =>
    case ManagerLost(first, second) =>
      UpdateShows(s.(device := false, path := ""), first);
      UpdateShows(ResetDevice(s, first).(manager := false), second);
    case Enumerated(ps) => FindShows(s, ps, was);
    case DeviceAdded(p) =>
      if s.manager && p.isBattery {
        UpdateShows(s.(device := true, path := p.path), p.reading);
      }
    case DeviceRemoved(gone, r) =>
      if s.manager && gone == s.path {
        UpdateShows(s.(device := false, path := ""), r);
      }
    case Changed(r) =>
      if s.manager || s.device {
        UpdateShows(s, r);
      }
  }

  lemma {:induction false} RunShows(s: State, evs: seq<Event>, was: Seen)
    requires Refines(s) && Shows(s, was)
    ensures Shows(Run(s, evs), SeenOf(was, s, evs))
    decreases |evs|
  {
    if evs != [] {
      StepShows(s, evs[0], was);
      RunShows(Step(s, evs[0]), evs[1..], SeenAfter(was, s, evs[0]));
    }
  }

  /** After any sequence of events the bridge tracks and publishes the last reading it could
      make, or the defaults if it has made none since it lost the manager. */
  lemma LastReadingIsPublished(s: State, evs: seq<Event>)
    requires IsInitial(s)
    ensures Shows(Run(s, evs), SeenOf(Nothing, s, evs))
  {
    IncrementalIsFull(s, []);
    RefinedIsPublished(s);
    RunShows(s, evs, Nothing);
  }
}
