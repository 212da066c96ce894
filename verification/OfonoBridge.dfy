/** The oFono bridge as the source writes it: an object whose methods update its fields,
    loop over replies and call back into one another (src/ofono/provider_ofono.cpp).
    Every method is proved to do to the state what OfonoModel says. */
module OfonoBridge {
  import opened Values
  import opened Properties
  import opened OfonoTypes
  import opened OfonoRuns
  import M = OfonoModel

  class Bridge {
    const env: Env
    const target: Namespace<Prop, string>

    var manager: Handle
    var modem: bool
    var modemPath: string
    var sim: Handle
    var network: bool
    var oper: bool
    var stk: Handle
    var connectionManager: bool
    var contexts: map<string, Context>
    var mmsContext: string
    var interfaces: set<Interface>
    var hasSim: bool
    var status: CellStatus
    var setName: Naming
    var networkName: string
    var operatorName: string
    /** Number of D-Bus queries made so far. */
    var calls: nat

    ghost predicate Valid()
      reads this, target
    {
      target.Valid()
    }

    ghost function Abs(): State
      reads this, target
      requires Valid()
    {
      State(manager, modem, modemPath, sim, network, oper, stk, connectionManager, contexts,
            mmsContext, interfaces, hasSim, status, setName, networkName, operatorName,
            target.View(), calls)
    }

    constructor (env: Env)
      ensures Valid() && fresh(target) && this.env == env && IsInitial(Abs())
    {
      this.env := env;
      var ns := new Namespace<Prop, string>();
      target := ns;
      manager, modem, modemPath, sim, network, oper := Absent, false, "", Absent, false, false;
      stk, connectionManager, contexts, mmsContext, interfaces := Absent, false, map[], "", {};
      hasSim, status, setName, networkName, operatorName, calls := false, Unknown, Home, "", "", 0;
      new;
      AddDefaults(ns);
    }

    method ResetProperties(noSim: bool)
      requires Valid()
      modifies target
      ensures Valid() && target.View() == M.ResetTable(old(target.View()), noSim)
    {
      DefaultsReachEverything(target.View());
      target.SetDefaults(DefaultList(DEFAULT_ORDER));
      if noSim {
        target.UpdateProperty(RegistrationStatus, "no-sim");
      }
    }

    /** `set_name_home` and `set_name_roaming` do the same. */
    method PublishName()
      requires Valid()
      modifies target
      ensures Valid() && Abs() == M.PublishName(old(Abs()))
    {
      var name := networkName;
      if name == "" {
        name := operatorName;
      }
      target.UpdateProperty(NetworkName, name);
      target.UpdateProperty(ExtendedNetworkName, name);
    }

    /** `set_status` up to its reaction to a registration change. */
    method EnterStatus(st: CellStatus)
      requires Valid()
      modifies this, target
      ensures Valid() && Abs() == M.Enter(old(Abs()), st)
    {
      if st == CellStatus.NoSim {
        hasSim := false;
      }
      setName := if st == Roaming then Roam else Home;
      target.UpdateProperty(RegistrationStatus, Ckit(st));
      status := st;
    }

    method SetStatus(st: CellStatus)
      requires Valid()
      modifies this, target
      ensures Valid() && Abs() == M.SetStatus(env, old(Abs()), st)
      decreases M.Rank(Abs()), if st == CellStatus.NoSim then 0 else 1, 0
    {
      if st == status {
        return;
      }
      if !hasSim && st != CellStatus.NoSim {
        SetStatus(CellStatus.NoSim);
        return;
      }
      var isRegistered, wasRegistered := st in env.registered, status in env.registered;
      EnterStatus(st);
      if isRegistered && !wasRegistered {
        if !modem {
        } else if sim.Absent? {
          SetupSim();
        } else if !network {
          SetupNetwork();
        } else {
          EnumerateOperators();
        }
      }
    }

    method SimUpdate(k: Key, v: Variant)
      requires Valid() && !sim.Absent?
      modifies this, target
      ensures Valid() && Abs() == M.SimUpdate(env, old(Abs()), k, v)
      decreases 4, 0, 0
    {
      if k == Present {
        hasSim := v.toBool;
        if hasSim {
          if !network {
            SetStatus(Offline);
          }
        } else {
          SetStatus(CellStatus.NoSim);
        }
      } else if k == MobileCountryCode {
        target.UpdateProperty(HomeMCC, v.encoded);
      } else if k == MobileNetworkCode {
        target.UpdateProperty(HomeMNC, v.encoded);
      }
    }

    method ReadSim(props: Props)
      requires Valid() && !sim.Absent?
      modifies this, target
      ensures Valid() && Abs() == M.SimLoop(env, old(Abs()), props)
      decreases 4, 1, |props|
    {
      var i := 0;
      while i < |props|
        invariant Valid() && 0 <= i <= |props| && !sim.Absent?
        invariant M.SimLoop(env, Abs(), props[i..]) == M.SimLoop(env, old(Abs()), props)
      {
        assert props[i..][1..] == props[i + 1..];
        SimUpdate(props[i].0, props[i].1);
        i := i + 1;
      }
    }

    method FinishSim(props: Props)
      requires Valid() && !sim.Absent?
      modifies this, target
      ensures Valid() && Abs() == M.SimReply(env, old(Abs()), props)
      decreases 4, 2, 0
    {
      ReadSim(props);
      if !sim.Absent? {
        sim := Wired;
        if SimToolkit in interfaces {
          SetupStk();
        }
      }
    }

    method SetupSim()
      requires Valid()
      modifies this, target
      ensures Valid() && Abs() == M.SetupSim(env, old(Abs()))
      decreases 4, 3, 0
    {
      sim := Silent;
      var res := env.props(calls);
      calls := calls + 1;
      if res.None? {
        return;
      }
      FinishSim(res.value);
    }

    method ResetNetwork()
      requires Valid()
      modifies this, target
      ensures Valid() && Abs() == M.ResetNetwork(env, old(Abs()))
      decreases M.Rank(Abs().(network := false)), 2, 0
    {
      oper := false;
      network := false;
      assert Abs() == old(Abs()).(oper := false, network := false);
      SetStatus(Offline);
      ResetProperties(!hasSim);
    }

    method NetPublish(k: Key, v: Variant)
      requires Valid() && k != Key.Status
      modifies this, target
      ensures Valid() && Abs() == M.NetPublish(old(Abs()), k, v)
    {
      if k == Name {
        networkName := v.toString;
        PublishName();
      } else if k == Strength {
        var strength: UInt32 := v.toUInt;
        target.UpdateProperty(SignalStrength, Dec(strength));
        target.UpdateProperty(SignalBars, Dec(Bars(strength)));
      } else if k == Key.Technology {
        var row := TechRow(v.toString);
        if row.Some? {
          target.UpdateProperty(Prop.Technology, row.value.0);
          target.UpdateProperty(DataTechnology, row.value.1);
        }
      } else {
        var direct := M.DirectTarget(k);
        if direct.Some? {
          target.UpdateProperty(direct.value, v.encoded);
        }
      }
    }

    method NetUpdate(k: Key, v: Variant)
      requires Valid()
      modifies this, target
      ensures Valid() && Abs() == M.NetUpdate(env, old(Abs()), k, v)
      decreases M.Rank(Abs()), 3, 0
    {
      if !hasSim {
        ResetNetwork();
      }
      if k == Key.Status {
        target.UpdateProperty(Prop.Status, v.encoded);
        SetStatus(MapStatus(v.toString));
      } else {
        NetPublish(k, v);
      }
    }

    method ReadNetwork(props: Props)
      requires Valid()
      modifies this, target
      ensures Valid() && Abs() == M.NetLoop(env, old(Abs()), props)
      decreases M.Rank(Abs()), 4, |props|
    {
      var i := 0;
      while i < |props|
        invariant Valid() && 0 <= i <= |props|
        invariant M.Rank(Abs()) <= M.Rank(old(Abs()))
        invariant M.NetLoop(env, Abs(), props[i..]) == M.NetLoop(env, old(Abs()), props)
      {
        assert props[i..][1..] == props[i + 1..];
        NetUpdate(props[i].0, props[i].1);
        i := i + 1;
      }
    }

    method SetupNetwork()
      requires Valid()
      modifies this, target
      ensures Valid() && Abs() == M.SetupNetwork(env, old(Abs()))
      decreases M.Rank(Abs().(network := true)), 5, 0
    {
      ghost var s := Abs();
      network := true;
      var res := env.props(calls);
      calls := calls + 1;
      assert Abs() == s.(network := true, calls := s.calls + 1);
      if res.None? {
        return;
      }
      ReadNetwork(res.value);
    }

    method OperUpdate(k: Key, v: Variant)
      requires Valid()
      modifies this, target
      ensures Valid() && Abs() == M.OperUpdate(env, old(Abs()), k, v)
      decreases M.OperRank(Abs()), 3, 0
    {
      if sim.Absent? {
        ResetNetwork();
      }
      if k == Name {
        operatorName := v.toString;
        PublishName();
      }
    }

    method SetupOperator(props: Props) returns (done: bool)
      requires Valid()
      modifies this, target
      ensures Valid() && (done <==> M.IsCurrent(props))
      ensures Abs() == if done then M.OperLoop(env, old(Abs()).(oper := true), props) else old(Abs())
      decreases M.OperRank(Abs()), 4, |props| + 1
    {
      if Lookup(props, Key.Status).toString != "current" {
        return false;
      }
      oper := true;
      var i := 0;
      ghost var s1 := Abs();
      while i < |props|
        invariant Valid() && 0 <= i <= |props|
        invariant M.OperRank(Abs()) <= M.OperRank(s1)
        invariant M.OperLoop(env, Abs(), props[i..]) == M.OperLoop(env, s1, props)
      {
        assert props[i..][1..] == props[i + 1..];
        OperUpdate(props[i].0, props[i].1);
        i := i + 1;
      }
      return true;
    }

    method EnumerateOperators()
      requires Valid()
      modifies this, target
      ensures Valid() && Abs() == M.EnumerateOperators(env, old(Abs()))
      decreases M.OperRank(Abs()), 6, 0
    {
      if !network {
        return;
      }
      var res := env.objects(calls);
      calls := calls + 1;
      if res.None? {
        return;
      }
      TryOperators(res.value);
    }

    method TryOperators(ops: Objects)
      requires Valid()
      modifies this, target
      ensures Valid() && Abs() == M.OpsLoop(env, old(Abs()), ops)
      decreases M.OperRank(Abs()), 5, |ops|
    {
      var i := 0;
      while i < |ops|
        invariant Valid() && 0 <= i <= |ops|
        invariant Abs() == old(Abs())
        invariant M.OpsLoop(env, Abs(), ops[i..]) == M.OpsLoop(env, Abs(), ops)
      {
        assert ops[i..][1..] == ops[i + 1..];
        var done := SetupOperator(ops[i].1);
        if done {
          return;
        }
        i := i + 1;
      }
    }

    method ResetStk()
      requires Valid()
      modifies this, target
      ensures Valid() && Abs() == M.ResetStk(old(Abs()))
    {
      stk := Absent;
      target.UpdateProperty(StkIdleModeText, "");
    }

    method StkUpdate(k: Key, v: Variant)
      requires Valid()
      modifies this, target
      ensures Valid() && Abs() == M.StkUpdate(old(Abs()), k, v)
    {
      if !hasSim {
        ResetStk();
      } else if k == IdleModeText {
        target.UpdateProperty(StkIdleModeText, v.encoded);
      }
    }

    method SetupStk()
      requires Valid()
      modifies this, target
      ensures Valid() && Abs() == M.SetupStk(env, old(Abs()))
    {
      stk := Silent;
      var res := env.props(calls);
      calls := calls + 1;
      if res.None? {
        return;
      }
      var props, i := res.value, 0;
      ghost var s1 := Abs();
      while i < |props|
        invariant Valid() && 0 <= i <= |props|
        invariant M.StkLoop(Abs(), props[i..]) == M.StkLoop(s1, props)
      {
        assert props[i..][1..] == props[i + 1..];
        StkUpdate(props[i].0, props[i].1);
        i := i + 1;
      }
      if stk.Absent? {
        return;
      }
      stk := Wired;
    }

    /** Walks the contexts in map order up to the first usable one. */
    method UpdateMmsContext()
      requires Valid()
      modifies this`mmsContext, target
      ensures Valid() && Abs() == M.UpdateMms(old(Abs()))
    {
      mmsContext := "";
      var rest := contexts.Keys;
      ghost var paths := MmsPaths(contexts);
      while rest != {}
        invariant Valid() && rest <= contexts.Keys && paths <= rest
        invariant mmsContext == "" && target.View() == old(target.View())
        decreases rest
      {
        LeastExists(rest);
        ghost var least :| IsLeast(least, rest);
        var path :| path in rest && forall j | j in rest :: LexLe(path, j);
        if IsMms(contexts[path]) {
          mmsContext := path;
          assert IsLeast(path, paths);
          break;
        }
        rest := rest - {path};
      }
      FirstMmsMeaning(contexts, mmsContext);
      target.UpdateProperty(MMSContext, mmsContext);
    }

    method ResetConnectionManager()
      requires Valid()
      modifies this, target
      ensures Valid() && Abs() == M.ResetCm(old(Abs()))
    {
      connectionManager := false;
      contexts := map[];
      UpdateMmsContext();
    }

    method ContextAdded(path: string, props: Props)
      requires Valid()
      modifies this, target
      ensures Valid() && Abs() == M.AddContext(old(Abs()), path, props)
    {
      contexts := contexts[path := M.ContextOf(props)];
      UpdateMmsContext();
    }

    method ContextRemoved(path: string)
      requires Valid()
      modifies this, target
      ensures Valid() && Abs() == M.RemoveContext(old(Abs()), path)
    {
      contexts := contexts - {path};
      UpdateMmsContext();
    }

    method ContextChanged(path: string, k: Key, v: Variant)
      requires Valid() && path in contexts
      modifies this, target
      ensures Valid() && Abs() == M.ChangeContext(old(Abs()), path, k, v)
    {
      contexts := contexts[path := contexts[path][k := v]];
      UpdateMmsContext();
    }

    method ConnectionManagerUpdate(k: Key, v: Variant)
      requires Valid()
      modifies target
      ensures Valid() && Abs() == M.CmUpdate(old(Abs()), k, v)
    {
      if k == RoamingAllowed {
        target.UpdateProperty(DataRoamingAllowed, v.encoded);
      }
    }

    method SetupConnectionManager()
      requires Valid()
      modifies this, target
      ensures Valid() && Abs() == M.SetupCm(env, old(Abs()))
    {
      ghost var s := Abs();
      connectionManager := true;
      var res := env.props(calls);
      calls := calls + 1;
      assert Abs() == s.(cm := true, calls := s.calls + 1);
      if res.None? {
        return;
      }
      ReadConnectionManager(res.value);
      QueryContexts();
    }

    method ReadConnectionManager(props: Props)
      requires Valid()
      modifies this, target
      ensures Valid() && Abs() == M.CmLoop(old(Abs()), props)
    {
      var i := 0;
      while i < |props|
        invariant Valid() && 0 <= i <= |props|
        invariant M.CmLoop(Abs(), props[i..]) == M.CmLoop(old(Abs()), props)
      {
        assert props[i..][1..] == props[i + 1..];
        ConnectionManagerUpdate(props[i].0, props[i].1);
        i := i + 1;
      }
    }

    method QueryContexts()
      requires Valid()
      modifies this, target
      ensures Valid() && Abs() == M.QueryContexts(env, old(Abs()))
    {
      var res := env.objects(calls);
      calls := calls + 1;
      if res.None? {
        return;
      }
      var found, i := res.value, 0;
      ghost var s1 := Abs();
      while i < |found|
        invariant Valid() && 0 <= i <= |found|
        invariant M.ContextLoop(Abs(), found[i..]) == M.ContextLoop(s1, found)
      {
        assert found[i..][1..] == found[i + 1..];
        ContextAdded(found[i].0, found[i].1);
        i := i + 1;
      }
    }

    method ResetSim()
      requires Valid()
      modifies this, target
      ensures Valid() && Abs() == M.ResetSim(env, old(Abs()))
    {
      ghost var s := Abs();
      oper := false;
      network := false;
      sim := Absent;
      assert Abs() == s.(oper := false, network := false, sim := Absent);
      SetStatus(CellStatus.NoSim);
      ResetProperties(true);
    }

    method ResetModem()
      requires Valid()
      modifies this, target
      ensures Valid() && Abs() == M.ResetModem(env, old(Abs()))
    {
      modemPath := "";
      modem := false;
      ResetConnectionManager();
      ResetSim();
    }

    method ProcessInterfaces(list: seq<string>)
      requires Valid()
      modifies this, target
      ensures Valid() && Abs() == M.ProcessInterfaces(env, old(Abs()), list)
    {
      var now := ReadInterfaces(list);
      var simState := EdgeOf(interfaces, now, SimManager);
      if simState == Reset {
        if !sim.Absent? {
          ResetSim();
          interfaces := now;
          return;
        }
      } else if simState == Set {
        SetupSim();
      }
      FollowRest(now);
      interfaces := now;
    }

    /** The part of `process_interfaces` after the SIM interface. */
    method FollowRest(now: set<Interface>)
      requires Valid()
      modifies this, target
      ensures Valid() && Abs() == M.FollowAfterSim(env, old(Abs()), now)
    {
      var netState := EdgeOf(interfaces, now, NetworkRegistration);
      if netState == Reset {
        ResetNetwork();
      } else if netState == Set {
        SetupNetwork();
      }
      var stkState := EdgeOf(interfaces, now, SimToolkit);
      if stkState == Set {
        SetupStk();
      } else if stkState == Reset {
        ResetStk();
      }
      var cmState := EdgeOf(interfaces, now, ConnectionManager);
      if cmState == Set {
        SetupConnectionManager();
      } else if cmState == Reset {
        ResetConnectionManager();
      }
    }

    method ModemUpdate(k: Key, v: Variant)
      requires Valid()
      modifies this, target
      ensures Valid() && Abs() == M.ModemUpdate(env, old(Abs()), k, v)
    {
      if k == Interfaces {
        ProcessInterfaces(v.toStringList);
      } else if k == Powered {
        if !v.toBool && sim.Absent? {
          ResetSim();
        }
      }
    }

    method SetupModem(path: string, props: Props) returns (done: bool)
      requires Valid()
      modifies this, target
      ensures Valid() && (done <==> M.IsHardware(props))
      ensures Abs() == M.SetupModem(env, old(Abs()), path, props)
    {
      if Lookup(props, Type).toString != "hardware" {
        return false;
      }
      modem := true;
      modemPath := path;
      var i := 0;
      ghost var s1 := Abs();
      while i < |props|
        invariant Valid() && 0 <= i <= |props|
        invariant M.ModemLoop(env, Abs(), props[i..]) == M.ModemLoop(env, s1, props)
      {
        assert props[i..][1..] == props[i + 1..];
        ModemUpdate(props[i].0, props[i].1);
        i := i + 1;
      }
      return true;
    }

    method ModemRemoved(path: string)
      requires Valid()
      modifies this, target
      ensures Valid()
      ensures Abs() == if path == old(modemPath) then M.ResetModem(env, old(Abs())) else old(Abs())
    {
      if path == modemPath {
        ResetModem();
      }
    }

    method ConnectManager()
      requires Valid()
      modifies this, target
      ensures Valid() && Abs() == M.Connect(env, old(Abs()))
    {
      manager := Silent;
      var res := env.objects(calls);
      calls := calls + 1;
      if res.None? || res.value == [] {
        return;
      }
      var modems, i, done := res.value, 0, false;
      ghost var s1 := Abs();
      while i < |modems| && !done
        invariant Valid() && 0 <= i <= |modems|
        invariant done ==> Abs() == M.ModemsLoop(env, s1, modems)
        invariant !done ==> Abs() == s1
        invariant !done ==> M.ModemsLoop(env, s1, modems[i..]) == M.ModemsLoop(env, s1, modems)
      {
        assert modems[i..][1..] == modems[i + 1..];
        done := SetupModem(modems[i].0, modems[i].1);
        i := i + 1;
      }
      manager := Wired;
    }

    /** The D-Bus side: an event reaches the handler of a live proxy. */
    method Handle(ev: Event)
      requires Valid()
      modifies this, target
      ensures Valid() && Abs() == Step(env, old(Abs()), ev)
    {
      match ev
      case Connected => ConnectManager();
      case ServiceLost => LoseService();
      case ModemAdded(path, props) =>
        if manager.Wired? {
          var _ := SetupModem(path, props);
        }
      case ModemRemoved(path) =>
        if manager.Wired? {
          ModemRemoved(path);
        }
      case ModemChanged(k, v) =>
        if modem {
          ModemUpdate(k, v);
        }
      case ContextAdded(_, _) => HandleContext(ev);
      case ContextRemoved(_) => HandleContext(ev);
      case ContextChanged(_, _, _) => HandleContext(ev);
      case _ => HandleProperty(ev);
    }

    method HandleProperty(ev: Event)
      requires Valid()
      requires ev.SimChanged? || ev.NetworkChanged? || ev.OperatorChanged? || ev.StkChanged? || ev.CmChanged?
      modifies this, target
      ensures Valid() && Abs() == Step(env, old(Abs()), ev)
    {
      match ev
      case SimChanged(k, v) =>
        if sim.Wired? {
          SimUpdate(k, v);
        }
      case NetworkChanged(k, v) =>
        if network {
          NetUpdate(k, v);
        }
      case OperatorChanged(k, v) =>
        if oper {
          OperUpdate(k, v);
        }
      case StkChanged(k, v) =>
        if stk.Wired? {
          StkUpdate(k, v);
        }
      case CmChanged(k, v) =>
        if connectionManager {
          ConnectionManagerUpdate(k, v);
        }
    }

    method HandleContext(ev: Event)
      requires Valid() && (ev.ContextAdded? || ev.ContextRemoved? || ev.ContextChanged?)
      modifies this, target
      ensures Valid() && Abs() == Step(env, old(Abs()), ev)
    {
      match ev
      case ContextAdded(path, props) =>
        if connectionManager {
          ContextAdded(path, props);
        }
      case ContextRemoved(path) =>
        if connectionManager {
          ContextRemoved(path);
        }
      case ContextChanged(path, k, v) =>
        if path in contexts {
          ContextChanged(path, k, v);
        }
    }

    method LoseService()
      requires Valid()
      modifies this, target
      ensures Valid() && Abs() == M.LoseService(old(Abs()))
    {
      manager := Absent;
      ResetProperties(false);
    }
  }

  /** Creates the properties of the namespace, each with its default. */
  method AddDefaults(ns: Namespace<Prop, string>)
    requires ns.Valid() && ns.View() == map[]
    modifies ns
    ensures ns.Valid() && forall p: Prop :: p in ns.View() && ns.View()[p] == DefaultOf(p)
  {
    var i := 0;
    while i < |DEFAULT_ORDER|
      invariant 0 <= i <= |DEFAULT_ORDER| && ns.Valid()
      invariant forall p | p in ns.View() :: ns.View()[p] == DefaultOf(p)
      invariant forall j | 0 <= j < i :: DEFAULT_ORDER[j] in ns.View()
    {
      ns.AddProperty(DEFAULT_ORDER[i], DefaultOf(DEFAULT_ORDER[i]), DEFAULT_ORDER[i]);
      i := i + 1;
    }
    forall p: Prop ensures p in ns.View() {
      Listed(p);
    }
  }

  /** `get_interfaces`: cuts the prefix off each name and looks the rest up. */
  method ReadInterfaces(list: seq<string>) returns (res: set<Interface>)
    ensures res == GetInterfaces(list)
  {
    res := {};
    var i := 0;
    while i < |list|
      invariant 0 <= i <= |list|
      invariant res == GetInterfaces(list[..i])
    {
      var v := list[i];
      ReadNext(list, i);
      if |STD_PREFIX| <= |v| && v[..|STD_PREFIX|] == STD_PREFIX {
        var id := InterfaceId(v[|STD_PREFIX|..]);
        if id.Some? {
          res := res + {id.value};
        }
      }
      i := i + 1;
    }
    assert list[..i] == list;
  }

  lemma ReadNext(list: seq<string>, i: nat)
    requires i < |list|
    ensures ReadName(GetInterfaces(list[..i]), list[i]) == GetInterfaces(list[..i + 1])
  {
    var before := GetInterfaces(list[..i]);
    var after := GetInterfaces(list[..i + 1]);
    NameReads(before, list[i]);
    forall j: Interface
      ensures j in ReadName(before, list[i]) <==> j in after
    {
      var full := STD_PREFIX + InterfaceName(j);
      assert full in list[..i + 1] <==> full in list[..i] || full == list[i];
    }
  }

  function ReadName(before: set<Interface>, v: string): set<Interface> {
    var n := |STD_PREFIX|;
    if n <= |v| && v[..n] == STD_PREFIX && InterfaceId(v[n..]).Some?
    then before + {InterfaceId(v[n..]).value} else before
  }

  /** Reading one name adds exactly the interface it names, if it names one. */
  lemma NameReads(before: set<Interface>, v: string)
    ensures forall j: Interface :: j in ReadName(before, v) <==>
      j in before || STD_PREFIX + InterfaceName(j) == v
  {
    var n := |STD_PREFIX|;
    forall j: Interface
      ensures j in ReadName(before, v) <==> j in before || STD_PREFIX + InterfaceName(j) == v
    {
      var full := STD_PREFIX + InterfaceName(j);
      assert full[..n] == STD_PREFIX && full[n..] == InterfaceName(j);
      if n <= |v| && v[..n] == STD_PREFIX {
        InterfaceIdInverts(v[n..], j);
        assert v == STD_PREFIX + v[n..];
      }
    }
  }
}
