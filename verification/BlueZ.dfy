/** The Bluetooth bridge: the set of connected devices against the history of device events
    (src/bluez/provider_bluez.cpp). */
module BlueZ {
  import opened Values
  import opened Properties

  /** Source names, by which setters are registered, and others the adapter may have. */
  datatype Name = Powered | Discoverable | Connected | Address | Other(id: string)

  type Path = string

  /** A device's answer when it is added: an error, or its Connected value if it has one. */
  datatype Answer = Failed | Props(connected: Option<bool>)

  datatype Added = Added(path: Path, answer: Answer)

  datatype Event =
    | AdapterChanged(props: Option<map<Name, string>>, devices: Option<seq<Added>>)
    | AdapterProperty(name: Name, text: string)
    | DeviceCreated(dev: Added)
    | DeviceRemoved(path: Path)
    | DeviceChanged(path: Path, connected: bool)

  datatype State = State(devices: set<Path>, connected: set<Path>, pub: map<Name, string>)

  // ---- Operations ----

  function Announce(s: State): State {
    s.(pub := Put(s.pub, Connected, Flag(s.connected != {})))
  }

  function SetConnected(s: State, p: Path, on: bool): State {
    Announce(s.(connected := if on then s.connected + {p} else s.connected - {p}))
  }

  function RemoveDevice(s: State, p: Path): State {
    var s1 := s.(devices := s.devices - {p}, connected := s.connected - {p});
    if p in s.connected then Announce(s1) else s1
  }

  function AddDevice(s: State, d: Added): State {
    var s1 := RemoveDevice(s, d.path);
    var s2 := match d.answer {
      case Failed => s1
      case Props(None) => s1
      case Props(Some(on)) => SetConnected(s1, d.path, on)
    };
    s2.(devices := s2.devices + {d.path})
  }

  function AddDevices(s: State, ds: seq<Added>): State
    decreases |ds|
  {
    if ds == [] then s else AddDevices(AddDevice(s, ds[0]), ds[1..])
  }

  /** Devices of the previous adapter stay. */
  function AdapterChange(s: State, props: Option<map<Name, string>>, ds: Option<seq<Added>>): State {
    var s1 := if props.Some? then s.(pub := PutAll(s.pub, props.value)) else s;
    if ds.Some? then AddDevices(s1, ds.value) else s1
  }

  /** A device's own signal is delivered only while its proxy lives. */
  function Step(s: State, ev: Event): State {
    match ev
    case AdapterChanged(props, ds) => AdapterChange(s, props, ds)
    case AdapterProperty(name, text) => s.(pub := Put(s.pub, name, text))
    case DeviceCreated(d) => AddDevice(s, d)
    case DeviceRemoved(p) => RemoveDevice(s, p)
    case DeviceChanged(p, on) => if p in s.devices then SetConnected(s, p, on) else s
  }

  function Run(s: State, evs: seq<Event>): State
    decreases |evs|
  {
    if evs == [] then s else Run(Step(s, evs[0]), evs[1..])
  }

  predicate IsInitial(s: State) {
    && s.devices == {} && s.connected == {}
    && s.pub == map[Powered := "0", Discoverable := "0", Connected := "0", Address := "00:00:00:00:00:00"]
  }

  // ---- History ----

  /** What one path goes through. */
  datatype Fact = Up | Down | Gone

  function Facts(ev: Event, p: Path): seq<Fact> {
    match ev
    case AdapterChanged(_, ds) => if ds.Some? then AddedFacts(ds.value, p) else []
    case AdapterProperty(_, _) => []
    case DeviceCreated(d) => if d.path == p then [FactOf(d.answer)] else []
    case DeviceRemoved(q) => if q == p then [Gone] else []
    case DeviceChanged(q, on) => if q == p then [if on then Up else Down] else []
  }

  function AddedFacts(ds: seq<Added>, p: Path): seq<Fact>
    decreases |ds|
  {
    if ds == [] then []
    else (if ds[0].path == p then [FactOf(ds[0].answer)] else []) + AddedFacts(ds[1..], p)
  }

  /** A device is connected on arrival only if it says so. */
  function FactOf(a: Answer): Fact {
    if a == Props(Some(true)) then Up else Down
  }

  /** The latest fact about a path; a change of a path that is gone is never delivered. */
  function Latest(was: Fact, ev: Event, p: Path): Fact {
    var fs := Facts(ev, p);
    if fs == [] then was
    else if ev.DeviceChanged? && was == Gone then Gone
    else fs[|fs| - 1]
  }

  function History(was: Fact, evs: seq<Event>, p: Path): Fact
    decreases |evs|
  {
    if evs == [] then was else History(Latest(was, evs[0], p), evs[1..], p)
  }

  /** The state agrees with the latest fact about `p`. */
  predicate Mirrors(s: State, p: Path, f: Fact) {
    (p in s.connected <==> f == Up) && (p in s.devices <==> f != Gone)
  }

  predicate Told(s: State) {
    Connected in s.pub && s.pub[Connected] == Flag(s.connected != {})
  }

  /** The adapter has no property of its own called Connected. */
  predicate Benign(ev: Event) {
    match ev
    case AdapterChanged(Some(props), _) => Connected !in props
    case AdapterProperty(name, _) => name != Connected
    case _ => true
  }

  lemma AddMirrors(s: State, d: Added, p: Path, f: Fact)
    requires Mirrors(s, p, f)
    ensures Mirrors(AddDevice(s, d), p, if d.path == p then FactOf(d.answer) else f)
    ensures Told(s) ==> Told(AddDevice(s, d))
  {
  }

  lemma {:induction false} AddsMirror(s: State, ds: seq<Added>, p: Path, f: Fact)
    requires Mirrors(s, p, f)
    ensures var fs := AddedFacts(ds, p);
      Mirrors(AddDevices(s, ds), p, if fs == [] then f else fs[|fs| - 1])
    ensures Told(s) ==> Told(AddDevices(s, ds))
    decreases |ds|
  {
    if ds != [] {
      AddMirrors(s, ds[0], p, f);
      AddsMirror(AddDevice(s, ds[0]), ds[1..], p, if ds[0].path == p then FactOf(ds[0].answer) else f);
    }
  }

  lemma StepMirrors(s: State, ev: Event, p: Path, f: Fact)
    requires Mirrors(s, p, f)
    ensures Mirrors(Step(s, ev), p, Latest(f, ev, p))
    ensures Told(s) && Benign(ev) ==> Told(Step(s, ev))
  {
    match ev
    case AdapterChanged(props, ds) =>
      var s1 := if props.Some? then s.(pub := PutAll(s.pub, props.value)) else s;
      if ds.Some? {
        AddsMirror(s1, ds.value, p, f);
      }
    case DeviceCreated(d) => AddMirrors(s, d, p, f);
    case _ =>
  }

  lemma {:induction false} RunMirrors(s: State, evs: seq<Event>, p: Path, f: Fact)
    requires Mirrors(s, p, f)
    ensures Mirrors(Run(s, evs), p, History(f, evs, p))
    ensures Told(s) && (forall i | 0 <= i < |evs| :: Benign(evs[i])) ==> Told(Run(s, evs))
    decreases |evs|
  {
    if evs != [] {
      StepMirrors(s, evs[0], p, f);
      RunMirrors(Step(s, evs[0]), evs[1..], p, Latest(f, evs[0], p));
    }
  }

  /** After any run, `connected_` is exactly the paths whose latest event left them
      connected, all of them with a device proxy; and if the adapter never reports a
      property called Connected, the published value tells whether there is one. */
  lemma ConnectedIsHistory(s: State, evs: seq<Event>, p: Path)
    requires IsInitial(s)
    ensures var r := Run(s, evs);
      && (p in r.connected <==> History(Gone, evs, p) == Up)
      && (p in r.devices <==> History(Gone, evs, p) != Gone)
      && (p in r.connected ==> p in r.devices)
      && ((forall i | 0 <= i < |evs| :: Benign(evs[i])) ==>
            Connected in r.pub && r.pub[Connected] == Flag(r.connected != {}))
  {
    RunMirrors(s, evs, p, Gone);
  }

  /** Only a device that says whether it is connected, or one that was, has its arrival or its
      removal published. */
  lemma OnlyConnectionsAnnounce(s: State, d: Added)
    requires d.path !in s.connected
    ensures RemoveDevice(s, d.path).pub == s.pub
    ensures d.answer == Failed || d.answer == Props(None) ==> AddDevice(s, d).pub == s.pub
  {
  }

  // ---- Adapter properties ----

  /** The latest text that the adapter reported under a name. */
  function LatestText(was: string, ev: Event, n: Name): string {
    match ev
    case AdapterChanged(Some(props), _) => if n in props then props[n] else was
    case AdapterProperty(name, text) => if name == n then text else was
    case _ => was
  }

  function TextOf(was: string, evs: seq<Event>, n: Name): string
    decreases |evs|
  {
    if evs == [] then was else TextOf(LatestText(was, evs[0], n), evs[1..], n)
  }

  lemma {:induction false} AddsKeepTexts(s: State, ds: seq<Added>, n: Name)
    requires n != Connected && n in s.pub
    ensures n in AddDevices(s, ds).pub && AddDevices(s, ds).pub[n] == s.pub[n]
    decreases |ds|
  {
    if ds != [] {
      AddsKeepTexts(AddDevice(s, ds[0]), ds[1..], n);
    }
  }

  lemma StepShowsText(s: State, ev: Event, n: Name)
    requires n != Connected && n in s.pub
    ensures n in Step(s, ev).pub && Step(s, ev).pub[n] == LatestText(s.pub[n], ev, n)
  {
    match ev
    case AdapterChanged(props, ds) =>
      var s1 := if props.Some? then s.(pub := PutAll(s.pub, props.value)) else s;
      if ds.Some? {
        AddsKeepTexts(s1, ds.value, n);
      }
    case _ =>
  }

  /** After any run every other published property is what the adapter last reported of it. */
  lemma {:induction false} AdapterTextsAreHistory(s: State, evs: seq<Event>, n: Name)
    requires n != Connected && n in s.pub
    ensures n in Run(s, evs).pub && Run(s, evs).pub[n] == TextOf(s.pub[n], evs, n)
    decreases |evs|
  {
    if evs != [] {
      StepShowsText(s, evs[0], n);
      AdapterTextsAreHistory(Step(s, evs[0]), evs[1..], n);
    }
  }

  /** An adapter property called Connected overwrites the published value: it stays right
      exactly if the reported text happens to be right. */
  lemma AdapterMayOverwrite(s: State, text: string)
    requires Told(s)
    ensures Told(Step(s, AdapterProperty(Connected, text))) <==> text == Flag(s.connected != {})
  {
  }

  /** One such property, and a bridge without devices publishes a connection. */
  lemma AdapterOverwrites(s: State)
    requires IsInitial(s)
    ensures var r := Run(s, [AdapterProperty(Connected, "1")]);
      r.connected == {} && !Told(r)
  {
    var ev := AdapterProperty(Connected, "1");
    assert [ev][1..] == [];
    assert Run(s, [ev]) == Step(s, ev);
  }

  // ---- The bridge object ----

  class Bridge {
    const target: Namespace<Name, string>
    var devices: set<Path>
    var connected: set<Path>

    ghost predicate Valid()
      reads this, target
    {
      target.Valid()
    }

    ghost function Abs(): State
      reads this, target
      requires Valid()
    {
      State(devices, connected, target.View())
    }

    /** Enabled and Visible are published under the names of their sources. */
    constructor ()
      ensures Valid() && fresh(target) && IsInitial(Abs())
    {
      var ns := new Namespace<Name, string>();
      target := ns;
      devices, connected := {}, {};
      new;
      ns.AddProperty(Other("Enabled"), "0", Powered);
      ns.AddProperty(Other("Visible"), "0", Discoverable);
      ns.AddProperty(Connected, "0", Connected);
      ns.AddProperty(Address, "00:00:00:00:00:00", Address);
    }

    method OnConnected(p: Path, on: bool)
      requires Valid()
      modifies this`connected, target
      ensures Valid() && Abs() == SetConnected(old(Abs()), p, on)
    {
      if on {
        connected := connected + {p};
      } else {
        connected := connected - {p};
      }
      target.UpdateProperty(Connected, Flag(connected != {}));
    }

    method Remove(p: Path)
      requires Valid()
      modifies this, target
      ensures Valid() && Abs() == RemoveDevice(old(Abs()), p)
    {
      if p in devices {
        devices := devices - {p};
      }
      if p in connected {
        connected := connected - {p};
        target.UpdateProperty(Connected, Flag(connected != {}));
      }
    }

    method Add(d: Added)
      requires Valid()
      modifies this, target
      ensures Valid() && Abs() == AddDevice(old(Abs()), d)
    {
      Remove(d.path);
      match d.answer {
        case Props(Some(on)) => OnConnected(d.path, on);
        case _ =>
      }
      devices := devices + {d.path};
    }

    method DefaultAdapterChanged(props: Option<map<Name, string>>, found: Option<seq<Added>>)
      requires Valid()
      modifies this, target
      ensures Valid() && Abs() == AdapterChange(old(Abs()), props, found)
    {
      if props.Some? {
        target.SetProperties(props.value);
      }
      if found.Some? {
        var ds, i := found.value, 0;
        ghost var s1 := Abs();
        while i < |ds|
          invariant Valid() && 0 <= i <= |ds|
          invariant AddDevices(Abs(), ds[i..]) == AddDevices(s1, ds)
        {
          assert ds[i..][1..] == ds[i + 1..];
          Add(ds[i]);
          i := i + 1;
        }
      }
    }

    method Handle(ev: Event)
      requires Valid()
      modifies this, target
      ensures Valid() && Abs() == Step(old(Abs()), ev)
    {
      match ev
      case AdapterChanged(props, ds) => DefaultAdapterChanged(props, ds);
      case AdapterProperty(name, text) => target.UpdateProperty(name, text);
      case DeviceCreated(d) => Add(d);
      case DeviceRemoved(p) => Remove(p);
      case DeviceChanged(p, on) =>
        if p in devices {
          OnConnected(p, on);
        }
    }
  }
}
