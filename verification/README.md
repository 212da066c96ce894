# Models of the statefs providers

This project models the stateful providers of the statefs provider collection and proves
properties of them over all inputs and all runs.

- **Properties** (`Properties.dfy`): the published table of the Qt providers, setters by
  source name.
- **oFono** (`OfonoTypes`, `OfonoModel`, `OfonoFacts`, `OfonoRuns`, `OfonoEdges`,
  `OfonoReplies`, `OfonoLists`, `OfonoContexts`, `OfonoPresence`, `OfonoShortfalls`,
  `OfonoBridge`): the re-entrant bridge. `OfonoBridge` is the object with its methods and
  loops; `OfonoModel` says what each does to the state; `OfonoReplies`, `OfonoLists` and
  `OfonoContexts` say what replies, signals and lists of interfaces lead to;
  `OfonoShortfalls` has short runs that go wrong; the others prove what holds over every run.
- **udev** (`UdevWindow`, `UdevMonitor`, `UdevReadings`, `UdevLoop`): the sliding average,
  the battery pass with its adaptive polling period, and the event loop that re-arms itself.
- **BME** (`BmeFraming`, `BmeEvents`): the framed request/reply protocol and the detection
  of changed events.
- **BlueZ, UPower, UPowerReadings, ConnMan**: bridges that mirror a D-Bus service into published values.

`dafny verify dfyconfig.toml` checks the whole project.

## Reading the models

- The outside world is arbitrary. In oFono the n-th D-Bus query of a run is answered by
  `env.props(n)` or `env.objects(n)`, any function of n, where None is an error; a statement
  for all `env` covers a world that reacts to the bridge. Elsewhere replies, readings and
  attribute values are part of the event.
- A QVariantMap is a list with distinct keys in some order; no result depends on the order.
  A QVariant is known by its conversions. Its published text (`valueEncode`) is not part of
  this model; numbers are published in decimal and booleans as 1 or 0.
- Signals reach only proxies that live and whose signal is connected; a blocking query does
  not re-enter.
- `cor::copy_apply_if_changed` is not in the repository. It is taken to visit the fields in
  order, to act on and copy each field that differs, to see fields that an earlier action
  changed, and to count the fields it copied.
- The registered set of oFono is a parameter. As constructed it selects NoSim and Denied;
  {Registered, Roaming} is evidently meant. Termination holds for every set; coherence is
  stated for every set without Offline, which covers both.
- The size of the sliding window is a parameter: its initialiser
  (`src/udev/provider_udev.cpp:63`) reads the member it initialises.

## Where the code falls short

Each has its exact condition; most have a short run of a new object that reaches it.

- oFono, set as constructed: resetting the SIM can set it up again and then publish
  "no-sim" over an offline modem (`ResetSimCoherentIff`, `ConstructedSetLosesCoherence`).
- oFono: removing a modem does not clear the interface set, so one that comes back with the
  same interfaces is not set up, and its SIM is never seen (`StepFollowsIff`,
  `ReturningModemIsIgnored`, `ReturningModemHasNoSim`).
- oFono: removing a modem at NoSim does not clear `has_sim_` (`ModemRemovalResets`,
  `RemovalKeepsSim`).
- oFono: a network reset, a SIM reset and the loss of the service blank MMSContext although
  the cached context is still there (`BulkResetsHideMms`, `PowerOffHidesMms`).
- oFono: losing the service resets the registration but not the status (`LossKeeps`,
  `LossAtNoSim`).
- oFono: a SIM that turns up at NoSim beside a network proxy is published as "no-sim"
  (`SimUpdateDisownsIff`, `SetupSimDisownsIff`, `NoSimMeansNoSim`,
  `PresentSimPublishedAsNoSim`).
- oFono: signal bars wrap to 0 for strengths above 2^32 - 20 (`BarsAreCeiling`,
  `StrongestHasNoBars`).
- udev: if no power device is there at the start, `mw_per_percent_` is never initialised, nor
  is `sec_per_percent_max_` until a drain above 10000 computes it from that value, and polls
  can come too late (`PollingGuarantee`, `UnsetLimitsPollLate`, `UnsetPercentPollsLate`).
- udev: a drain whose windowed average truncates to zero divides by zero (`FaultsIff`,
  `MixedWindowFaults`, `FullBatteryFaults`).
- udev: the first report of a charger is never replaced (`KnownChargersAreFirstReports`,
  `ChargingIsSticky`, `UnpluggingIsMissed`).
- udev: a handler that throws loses its pending operations for good: the screen handler if
  reading the screen property fails, the udev handler if the device library throws
  (`StaysArmedIff`, `FailedReadLosesScreen`, `UdevReadIsLost`, `ThrowLosesUdevRead`).
- BME: a reply of the wrong length above 0x80 bytes, or one whose read fails, is left on the
  stream (`QueryResynchronises`), and the query after such a long reply must fail
  (`TooLongSpoilsNext`, `LongReplyIsLeft`).
- BlueZ: an adapter property called Connected would overwrite the published value
  (`AdapterMayOverwrite`, `AdapterOverwrites`).
- ConnMan: a list of offline services, or none for an error, leaves the old network published
  (`NoneOnlineIsSelected`, `OfflineListKeepsNetwork`), and an offline manager blanks the table
  under a service that is still monitored (`StepKeepsIff`, `OfflineManagerBlanksServed`).

## Model

| member | source | states |
|---|---|---|
| OfonoModel.SetStatus | src/ofono/provider_ofono.cpp:375-419 | `set_status` terminates from every state, for every sequence of replies and every registered set; no call raises the rank (SIM proxy absent, then distance from "settled without a SIM"), and the SIM proxy is never lost on the way |
| OfonoModel.SimUpdate | src/ofono/provider_ofono.cpp:780-796 | the handler of one SIM property terminates, and keeps the SIM proxy through every nested `set_status` |
| OfonoModel.SimLoop | src/ofono/provider_ofono.cpp:803-805 | reading a SIM reply terminates for every list of properties, with the SIM proxy kept |
| OfonoModel.SetupSim | src/ofono/provider_ofono.cpp:777-816 | setting the SIM up terminates and always ends with a SIM proxy, on error replies too |
| OfonoModel.ResetNetwork | src/ofono/provider_ofono.cpp:454-462 | `reset_network` terminates below the rank it has with the network proxy gone |
| OfonoModel.NetAction | src/ofono/provider_ofono.cpp:292-318 | acting on one network property terminates and does not raise the rank |
| OfonoModel.NetUpdate | src/ofono/provider_ofono.cpp:615-622 | the handler of one network property, reset included, terminates and does not raise the rank |
| OfonoModel.NetLoop | src/ofono/provider_ofono.cpp:638-640 | reading a network reply terminates although each entry may reset the network and set it up again inside the loop |
| OfonoModel.SetupNetwork | src/ofono/provider_ofono.cpp:612-644 | `setup_network` terminates below the rank it has with the network proxy present |
| OfonoModel.OperUpdate | src/ofono/provider_ofono.cpp:555-562 | the handler of one operator property terminates; with a SIM proxy it leaves the rank unchanged |
| OfonoModel.OperLoop | src/ofono/provider_ofono.cpp:546-573 | reading an operator terminates; with a SIM proxy the rank is unchanged |
| OfonoModel.EnumerateOperators | src/ofono/provider_ofono.cpp:761-775 | enumerating operators terminates; with a SIM proxy the rank is unchanged |
| OfonoTypes.ConstructedSelects | src/ofono/provider_ofono.cpp:265 | `status_registered_("0010001")`, read with its rightmost character as bit 0, selects NoSim and Denied |
| OfonoFacts.SetStatusKeeps | src/ofono/provider_ofono.cpp:375-419 | `set_status` keeps, through all nested calls: coherence of the published registration, SIM safety, the name setter, the proxy order, the published table and the context cache; set to NoSim it always ends SIM-safe; everything outside the cluster is untouched |
| OfonoFacts.SimUpdateKeeps | src/ofono/provider_ofono.cpp:780-796 | a SIM property keeps all of these, although `has_sim_` and the status disagree in between |
| OfonoFacts.SimLoopKeeps | src/ofono/provider_ofono.cpp:803-805 | a whole SIM reply keeps all of these |
| OfonoFacts.SetupSimKeeps | src/ofono/provider_ofono.cpp:777-816 | setting the SIM up keeps all of these, toolkit query included |
| OfonoFacts.SimLoopVerdict | src/ofono/provider_ofono.cpp:780-805 | from a state without network and a status that fits `has_sim_`, a SIM reply leaves Offline with a SIM and NoSim without, and there is a SIM iff there was one or the reply says so |
| OfonoFacts.SetupSimVerdict | src/ofono/provider_ofono.cpp:777-816 | a SIM set up in a settled bridge ends Offline iff the query reports it present, else at NoSim |
| OfonoFacts.OfflineVerdict | src/ofono/provider_ofono.cpp:375-419 | `set_status(Offline)` without a network ends at Offline with a SIM and at NoSim without, nested set-ups included |
| OfonoFacts.ResetNetworkKeeps | src/ofono/provider_ofono.cpp:454-462 | `reset_network` keeps the invariants and makes the published registration coherent, from every SIM-safe state, whatever the nested queries answer |
| OfonoFacts.ResetTableKeeps | src/ofono/provider_ofono.cpp:818-823 | a bulk reset keeps the invariant, and leaves the registration coherent iff the status text is the one it writes |
| OfonoFacts.NetActionKeeps | src/ofono/provider_ofono.cpp:292-318 | acting on a network property keeps the invariants, including strength and bars, technology rows and both names |
| OfonoFacts.NetLoopKeeps | src/ofono/provider_ofono.cpp:638-640 | a whole network reply keeps the invariants through nested resets |
| OfonoFacts.SetupNetworkKeeps | src/ofono/provider_ofono.cpp:612-644 | setting the network up keeps the invariants |
| OfonoFacts.OperUpdateKeeps | src/ofono/provider_ofono.cpp:555-562 | an operator property keeps the invariants |
| OfonoFacts.OpsLoopKeeps | src/ofono/provider_ofono.cpp:204-216 | trying operators up to the first current one keeps the invariants |
| OfonoFacts.EnumerateOperatorsKeeps | src/ofono/provider_ofono.cpp:761-775 | enumerating operators keeps the invariants |
| OfonoFacts.SetupStkKeeps | src/ofono/provider_ofono.cpp:646-681 | setting the toolkit up keeps the invariants |
| OfonoFacts.NetworkCannotUnsettle | src/ofono/provider_ofono.cpp:612-644 | in a bridge settled without a SIM no list of network properties changes the status, the SIM proxy or the number of queries |
| OfonoFacts.BarsAreCeiling | src/ofono/provider_ofono.cpp:294-299 | the published bars are the published strength / 20 rounded up, iff the strength is at most 2^32 - 20; above that they read 0 |
| OfonoReplies.RegistrationTexts | src/ofono/provider_ofono.cpp:246-265 | the text that oFono reports fixes the published text: "registered" gives "home", "roaming" "roam", "denied" "forbidden", anything else "offline"; no report gives NoSim |
| OfonoReplies.TechTable | src/ofono/provider_ofono.cpp:238-244 | exactly five reported technologies have a row, and which |
| OfonoReplies.PlainStatus | src/ofono/provider_ofono.cpp:375-404 | a new status that is not newly registered is taken and published, with its name setter, and nothing else changes |
| OfonoReplies.RegisteringFindsOperator | src/ofono/provider_ofono.cpp:405-418 | becoming registered beside a network proxy asks for the operators once and takes the first one whose Status reads "current": there is an operator proxy, and its name is published unless the network has one |
| OfonoReplies.RegisteringFindsNone | src/ofono/provider_ofono.cpp:405-418 | without a current operator, or an answer, no operator proxy is made and no name changes |
| OfonoReplies.RegisteringSetsNetworkUp | src/ofono/provider_ofono.cpp:405-418 | becoming registered without a network proxy asks for the network once, and every entry of the reply is shown |
| OfonoReplies.NetworkReplyIsShown | src/ofono/provider_ofono.cpp:292-318 | after a network reply beside all proxies every entry is published under its own property, through all nested operator searches, and what no entry concerns stays |
| OfonoReplies.NetworkWithoutSim | src/ofono/provider_ofono.cpp:615-622 | without a SIM a network property drops the network, blanks the table and is then shown; a status has no effect |
| OfonoLists.SimSetupIsShown | src/ofono/provider_ofono.cpp:777-816 | with {Registered, Roaming}, setting the SIM up shows every entry of the reply, and asks the toolkit iff its interface is listed; an error leaves a proxy without signal |
| OfonoLists.RegisteringShowsSim | src/ofono/provider_ofono.cpp:405-418 | becoming registered without a SIM proxy sets the SIM up and shows its reply |
| OfonoLists.ToolkitSetupIsShown | src/ofono/provider_ofono.cpp:646-681 | setting the toolkit up shows the idle text with a SIM, and without one any property takes text and proxy away |
| OfonoLists.ManagerSetupIsShown | src/ofono/provider_ofono.cpp:691-759 | setting the connection manager up shows whether roaming is allowed, and asks for the contexts only after that answer |
| OfonoLists.SimResetIsShown | src/ofono/provider_ofono.cpp:444-452 | resetting the SIM blanks all properties to their literal defaults and "no-sim"; unless NoSim newly counts as registered, all three proxies go without a query |
| OfonoLists.NetworkResetIsShown | src/ofono/provider_ofono.cpp:454-462 | resetting the network blanks all properties; the bridge is then Offline with a SIM and at NoSim without, and unless NoSim newly counts as registered both proxies are gone without a query |
| OfonoLists.OperatorWithoutSim | src/ofono/provider_ofono.cpp:555-562 | an operator property without a SIM proxy resets the network first |
| OfonoLists.ReportedStatusIsPublished | src/ofono/provider_ofono.cpp:300-304 | a status reported by signal is published with its literal registration text, whatever it was before |
| OfonoLists.NetworkSignalIsShown | src/ofono/provider_ofono.cpp:615-627 | a network signal beside all proxies is shown and changes nothing that does not depend on it |
| OfonoLists.SimSignalIsShown | src/ofono/provider_ofono.cpp:780-811 | a SIM signal is shown; Present decides the status, unless a network proxy keeps it |
| OfonoLists.OperatorSignalIsShown | src/ofono/provider_ofono.cpp:555-570 | of an operator only the name counts, and it is published unless the network has one |
| OfonoLists.ToolkitSignalIsShown | src/ofono/provider_ofono.cpp:649-659 | a toolkit signal shows the idle text with a SIM and drops the toolkit without |
| OfonoLists.PowerSignal | src/ofono/provider_ofono.cpp:526-531 | powering off resets the SIM iff there is no SIM proxy |
| OfonoRuns.ResetSimCoherentIff | src/ofono/provider_ofono.cpp:444-452 | after `reset_sim` the published registration is coherent iff the reset did not revive a SIM, a condition on the state before it and the next reply; a revived SIM leaves the status Offline |
| OfonoRuns.ResetSimKeeps | src/ofono/provider_ofono.cpp:444-452 | `reset_sim` keeps the invariants and ends SIM-safe |
| OfonoRuns.IntendedNeverRevives | src/ofono/provider_ofono.cpp:265 | with {Registered, Roaming} no reset revives a SIM |
| OfonoRuns.ModemRemovalResets | src/ofono/provider_ofono.cpp:435-452 | from any state, removing the modem leaves no proxy but the toolkit's, no context, status NoSim, every property at its default but "no-sim", and makes no query; the interface set and the toolkit stay, and `has_sim_` stays iff the status already was NoSim |
| OfonoRuns.UpdateMmsKeeps | src/ofono/provider_ofono.cpp:421-433 | recomputing the message context keeps the invariants, and publishes the first usable path |
| OfonoRuns.ResetCmClears | src/ofono/provider_ofono.cpp:683-689 | resetting the connection manager empties the contexts, the cached path and the published MMSContext |
| OfonoRuns.ProcessInterfacesKeeps | src/ofono/provider_ofono.cpp:471-514 | processing an interface list keeps the invariants on every way out, and coherence unless a SIM is revived by the reset |
| OfonoLists.ListLosesNetwork | src/ofono/provider_ofono.cpp:494-496 | a list that drops the network interface and leaves the SIM takes network and operator away and blanks what the network reported, to literal texts; then the status is Offline with a SIM and NoSim without, and the registration reads so |
| OfonoLists.ListGainsNetwork | src/ofono/provider_ofono.cpp:497-501 | a list that brings the network interface sets the network up, and its reply is shown |
| OfonoLists.ListKeepsNetwork | src/ofono/provider_ofono.cpp:494-501 | a list without a change of that interface leaves network, operator, status and their properties alone |
| OfonoLists.ListLosesSim | src/ofono/provider_ofono.cpp:485-490 | a list that drops the interface of a live SIM blanks the table and ends: contexts and toolkit stay |
| OfonoLists.ListGainsSim | src/ofono/provider_ofono.cpp:491-492 | a list that brings the SIM interface sets the SIM up, and its reply is shown |
| OfonoLists.ListGainsBoth | src/ofono/provider_ofono.cpp:485-501 | a list that brings both interfaces asks for the SIM first; if that is present the next answer is the network's, and the entries of both replies are shown |
| OfonoLists.ListAndToolkit | src/ofono/provider_ofono.cpp:503-507 | what a list does to the toolkit in each of the cases of its interface |
| OfonoLists.ListAndManager | src/ofono/provider_ofono.cpp:509-513 | what a list does to the connection manager in each of the cases of its interface |
| OfonoLists.InterfaceNames | src/ofono/provider_ofono.cpp:109-150 | the four interfaces that matter are read from their literal D-Bus names |
| OfonoRuns.SetupModemKeeps | src/ofono/provider_ofono.cpp:516-544 | setting a modem up keeps the invariants, and coherence unless a reset among its properties revives a SIM |
| OfonoRuns.ModemsLoopPicksFirst | src/ofono/provider_ofono.cpp:592 | of the modems found at start only the first hardware modem is set up |
| OfonoRuns.ContextEventKeeps | src/ofono/provider_ofono.cpp:700-721 | after a context is added, changed or removed, the published MMSContext is the cached path, which is the first usable one |
| OfonoContexts.ContextSignal | src/ofono/provider_ofono.cpp:700-721 | a context signal changes its own context as it says, entry by entry, and no other; a removal erases it |
| OfonoContexts.ContextsAreHistory | src/ofono/provider_ofono.cpp:683-759 | in every reachable state the cache holds exactly the paths reported, by signal or in a reply, and neither removed nor lost with the manager since, each with the reported properties and the later changes over them |
| OfonoContexts.UsableIff | src/ofono/provider_ofono.cpp:421-433 | a reported context is usable iff its Type reads "mms" and its MessageCenter is not blank |
| OfonoRuns.LossKeeps | src/ofono/provider_ofono.cpp:603-607 | losing the service keeps the invariants; the published registration stays coherent iff the status reads "offline" |
| OfonoRuns.StepKeeps | src/ofono/provider_ofono.cpp:575-610 | every event keeps the invariants, and coherence when it is quiet |
| OfonoRuns.ReachableStatesAreSafe | src/ofono/provider_ofono.cpp:375-419 | in every reachable state: without a SIM the status is NoSim or still Unknown; the roaming setter is in use iff roaming; an operator proxy implies network, SIM and modem proxies; both technologies are unknown or a row of the technology table, strength and bars come from one reading, and both names agree; the published name is current or blank; the cached context is the first usable one, and the published one is the cached one or blank |
| OfonoRuns.QuietRunsAreCoherent | src/ofono/provider_ofono.cpp:375-462 | published RegistrationStatus is the text of the status in every reachable state of a run in which no reset revives a SIM |
| OfonoRuns.IntendedRunsAreCoherent | src/ofono/provider_ofono.cpp:375-462 | with {Registered, Roaming} it is so in every run that keeps the service, without further condition |
| OfonoEdges.EdgesUseTheOldSet | src/ofono/provider_ofono.cpp:480-513 | while an interface list is processed, all four edges are computed from the previous set |
| OfonoEdges.EdgesTelescope | src/ofono/provider_ofono.cpp:165-174 | over every run the Set and Reset edges of each interface alternate starting with Set, and their balance is its bit in `interfaces_`, early exits included |
| OfonoEdges.UnsafeMeansNeverMoved | src/ofono/provider_ofono.cpp:328-337 | a bridge without a SIM that is not at NoSim has been at its first Unknown, without a SIM, all along |
| OfonoEdges.StepFollowsIff | src/ofono/provider_ofono.cpp:435-514 | while the modem lists the SIM interface there is a SIM proxy: every event keeps that, iff it is not the removal of a modem that lists it |
| OfonoEdges.SimFollowsItsInterface | src/ofono/provider_ofono.cpp:471-514 | so it holds in every reachable state of a run in which no modem is removed |
| OfonoEdges.ReturningModemIsIgnored | src/ofono/provider_ofono.cpp:435-442 | a modem that comes back after its removal with the interfaces remembered from before gets no SIM proxy and causes no query |
| OfonoEdges.BulkResetsHideMms | src/ofono/provider_ofono.cpp:444-462 | after a network reset, a SIM reset or the loss of the service MMSContext agrees with the cache iff there is no usable context |
| OfonoPresence.SimUpdateDisownsIff | src/ofono/provider_ofono.cpp:780-796 | from a state in which NoSim means no SIM, a SIM property ends with a SIM at NoSim iff it reports one present at NoSim beside a network proxy |
| OfonoPresence.SetupSimDisownsIff | src/ofono/provider_ofono.cpp:777-816 | setting the SIM up does so iff that happens at NoSim beside a network proxy and the query reports a SIM |
| OfonoPresence.NoSimMeansNoSim | src/ofono/provider_ofono.cpp:375-419 | with NoSim outside the registered set, NoSim means no SIM in every reachable state of a run in which no SIM is reported at NoSim beside a network proxy |
| OfonoShortfalls.ConstructedSetLosesCoherence | src/ofono/provider_ofono.cpp:444-452 | with the set as constructed, three events lead a new bridge to be Offline and publish "no-sim" |
| OfonoShortfalls.ReturningModemHasNoSim | src/ofono/provider_ofono.cpp:435-442 | with the intended set, four events lead to a modem that lists the SIM interface and a bridge without a SIM proxy |
| OfonoShortfalls.RemovalKeepsSim | src/ofono/provider_ofono.cpp:435-452 | five events lead to a removed modem and `has_sim_` still set |
| OfonoShortfalls.PresentSimPublishedAsNoSim | src/ofono/provider_ofono.cpp:780-796 | four events lead a new bridge to know of a SIM and publish "no-sim" |
| OfonoShortfalls.StrongestHasNoBars | src/ofono/provider_ofono.cpp:294-299 | three events lead a new bridge to publish the strength 2^32 - 1 with no bars |
| OfonoShortfalls.PowerOffHidesMms | src/ofono/provider_ofono.cpp:526-531 | four events lead to a usable cached context and a blank MMSContext |
| OfonoShortfalls.LossAtNoSim | src/ofono/provider_ofono.cpp:603-607 | three events lead to a bridge at NoSim that publishes "offline" |
| OfonoTypes.DefaultsReachEverything | src/ofono/provider_ofono.cpp:818-850 | writing the list of defaults gives all sixteen properties their default |
| OfonoTypes.InterfaceIdInverts | src/ofono/provider_ofono.cpp:109-133 | looking an interface name up inverts naming an interface |
| OfonoTypes.FirstMmsMeaning | src/ofono/provider_ofono.cpp:421-433 | the chosen path is the least, in map order, of those whose Type is "mms" with a non-empty MessageCenter; it is empty if there is none |
| OfonoBridge.ReadInterfaces | src/ofono/provider_ofono.cpp:135-150 | the loop over names yields exactly the interfaces whose prefixed name occurs |
| OfonoBridge.Bridge.constructor | src/ofono/provider_ofono.cpp:328-337 | a new bridge over a namespace with its defaults is an initial state |
| OfonoBridge.Bridge.SetStatus | src/ofono/provider_ofono.cpp:375-419 | the recursive method terminates and takes the state where the specification does |
| OfonoBridge.Bridge.SimUpdate | src/ofono/provider_ofono.cpp:780-796 | same, for a SIM property |
| OfonoBridge.Bridge.SetupSim | src/ofono/provider_ofono.cpp:777-816 | same, for the SIM query and the loop over its reply |
| OfonoBridge.Bridge.ResetNetwork | src/ofono/provider_ofono.cpp:454-462 | same, for the network reset |
| OfonoBridge.Bridge.NetUpdate | src/ofono/provider_ofono.cpp:615-622 | same, for a network property |
| OfonoBridge.Bridge.SetupNetwork | src/ofono/provider_ofono.cpp:612-644 | same, for the network query and the loop over its reply |
| OfonoBridge.Bridge.OperUpdate | src/ofono/provider_ofono.cpp:555-562 | same, for an operator property |
| OfonoBridge.Bridge.SetupOperator | src/ofono/provider_ofono.cpp:546-573 | same, for an operator; it reports whether the operator is current |
| OfonoBridge.Bridge.EnumerateOperators | src/ofono/provider_ofono.cpp:761-775 | same, for the search for the current operator |
| OfonoBridge.Bridge.SetupStk | src/ofono/provider_ofono.cpp:646-681 | same, for the toolkit |
| OfonoBridge.Bridge.UpdateMmsContext | src/ofono/provider_ofono.cpp:421-433 | the walk over the contexts in map order, with its early exit, finds and publishes the first usable path |
| OfonoBridge.Bridge.SetupConnectionManager | src/ofono/provider_ofono.cpp:691-759 | same, for the connection manager and its contexts |
| OfonoBridge.Bridge.ResetSim | src/ofono/provider_ofono.cpp:444-452 | same, for the SIM reset |
| OfonoBridge.Bridge.ResetModem | src/ofono/provider_ofono.cpp:435-442 | same, for the modem reset |
| OfonoBridge.Bridge.ProcessInterfaces | src/ofono/provider_ofono.cpp:471-514 | same, for an interface list, early exit included |
| OfonoBridge.Bridge.SetupModem | src/ofono/provider_ofono.cpp:516-544 | same, for a modem; it reports whether the modem is a hardware modem |
| OfonoBridge.Bridge.ConnectManager | src/ofono/provider_ofono.cpp:579-602 | same, for connecting to the service |
| OfonoBridge.Bridge.Handle | src/ofono/provider_ofono.cpp:575-610 | every event takes the object where the step of the run model goes |
| Properties.MapIsAnyFold | src/util/ns.cpp:14-36 | writing a map equals updating its entries one by one in any order; entries without a setter change nothing |
| Properties.LastDefaultWins | src/util/ns.cpp:38-50 | in a default list the last non-null value of a name wins, nulls are skipped, unknown names ignored |
| Properties.Namespace.AddProperty | src/util/ns.cpp:66-81 | a new property becomes the one its source name writes, and setters stay distinct |
| Properties.Namespace.UpdateProperty | src/util/ns.cpp:53-64 | one source name changes, and none if it has no setter |
| Properties.Namespace.SetProperties | src/util/ns.cpp:14-36 | the loop over setters, in any order, writes the whole map |
| Properties.Namespace.SetDefaults | src/util/ns.cpp:38-50 | the loop over the list writes it from left to right |
| UdevWindow.PushKeepsTail | src/udev/provider_udev.cpp:74-82 | pushing and trimming keeps the window the last values of the history, for every window size |
| UdevWindow.PrecisionCancels | src/udev/provider_udev.cpp:84-93 | multiplying by the precision before and dividing by it after the truncating division cancels |
| UdevWindow.MeanBounds | src/udev/provider_udev.cpp:84-93 | the average of a non-empty window lies between any bounds of its values |
| UdevWindow.MeanIsZeroIff | src/udev/provider_udev.cpp:84-93 | the average is zero iff the window is empty or its sum is smaller than its length |
| UdevWindow.LastN.Clear | src/udev/provider_udev.cpp:68-72 | clearing starts a new history |
| UdevWindow.LastN.Push | src/udev/provider_udev.cpp:74-82 | after any pushes since the last clear, the window is the last N of them and the sum is theirs |
| UdevWindow.LastN.Average | src/udev/provider_udev.cpp:84-93 | the result is the truncated mean of the last N values pushed since the last clear |
| UdevMonitor.PeriodPollsOften | src/udev/provider_udev.cpp:230-233 | the limit and period computations yield one second, or a period in which the worst rate costs at most half of one percent |
| UdevMonitor.NotifyKeeps | src/udev/provider_udev.cpp:531-620 | a pass keeps all invariants that do not depend on the limits, shows the closed-form state, and raises `denergy_max_` to the new drain if that is worse |
| UdevMonitor.NotifyKeepsLimits | src/udev/provider_udev.cpp:598-619 | limits that are set up stay so, and after every pass, also one in which one field changed, the period of the last draining pass still satisfies the polling guarantee |
| UdevMonitor.ReachableMonitorsAreSound | src/udev/provider_udev.cpp:531-620 | in every reachable state, whatever the first enumeration found: period >= 1; one time estimate is 0; every published field is current or was never published |
| UdevMonitor.PollingGuarantee | src/udev/provider_udev.cpp:402-423 | in every reachable state whose last full pass was a draining one, the period is 1 or the worst rate seen uses at most half a percent of `energy_full_` in it, iff the first enumeration found a power device or the uninitialised limit in use is below four seconds: `sec_per_percent_max_` itself up to a worst rate of 10000, `mw_per_percent_` / worst rate above |
| UdevMonitor.UnsetLimitsPollLate | src/udev/provider_udev.cpp:407-417 | without a device at the start, and with 1000 in the uninitialised limit, a loss of 1000 in a second is followed by a period of 500 seconds, which misses the guarantee |
| UdevMonitor.UnsetPercentPollsLate | src/udev/provider_udev.cpp:407-417 | without a device at the start, and with 10^9 in the uninitialised percent, a loss of 20000 in a second is followed by a period of 25000 seconds, 600 times the full energy at that rate |
| UdevMonitor.MaxIsOfAllDrains | src/udev/provider_udev.cpp:552-556 | in every reachable state `denergy_max_` is the largest of 10000 and all drains ever observed, the first pass included |
| UdevMonitor.FaultsIff | src/udev/provider_udev.cpp:551-568 | a pass divides by zero iff the battery drains while the window, with the new rate, is empty or sums to less than its length |
| UdevMonitor.MixedWindowFaults | src/udev/provider_udev.cpp:551-568 | from every rested state with an empty window of two values or more, a rise and a fall of one unit in two seconds reach that division |
| UdevMonitor.FullBatteryFaults | src/udev/provider_udev.cpp:551-568 | so does a new monitor that starts with a full battery |
| UdevMonitor.DrainingEstimate | src/udev/provider_udev.cpp:551-568 | with only drains in the window the average is at most -1 and the time to low is energy / abs(average) |
| UdevReadings.ChargingEstimate | src/udev/provider_udev.cpp:551-568 | with only rises in the window the average is at least 1, nothing is left until low, and the time to full is (full energy - energy) / average |
| UdevReadings.RisingEstimate | src/udev/provider_udev.cpp:560-568 | every pass with a rise is defined; the time to full is what is missing divided by the average, or 0 if that is 0 |
| UdevReadings.CancelledRise | src/udev/provider_udev.cpp:560-568 | a rise that earlier drains cancel out leaves power and both estimates 0 |
| UdevReadings.RateIsTruncated | src/udev/provider_udev.cpp:540-550 | the rate is the change of energy per second truncated towards zero, and 0 if no time has passed |
| UdevReadings.PeriodChoice | src/udev/provider_udev.cpp:598-619 | which period a pass chooses: none if exactly one field changed, 5, 4 or 5 seconds by charging and power, else half the time of one percent |
| UdevReadings.OneDifference | src/udev/provider_udev.cpp:598-601 | the count of changed fields is 1 iff the states differ in exactly one field |
| UdevReadings.WindowIsHistory | src/udev/provider_udev.cpp:531-620 | in every reachable state the window holds the last non-zero rates since charging last started or ended |
| UdevReadings.LatestReadingIsTracked | src/udev/provider_udev.cpp:524-529 | in every reachable state energy, capacity and time are the latest battery reading, and the full energy that of the first enumeration |
| UdevReadings.OnlineIffFirstReported | src/udev/provider_udev.cpp:493-522 | in every reachable state the monitor is online iff the first report of some charger was |
| UdevMonitor.KnownChargersAreFirstReports | src/udev/provider_udev.cpp:517-522 | in every reachable state, what is known of a charger is the first thing ever reported of it, by the first enumeration or since |
| UdevMonitor.ChargingIsSticky | src/udev/provider_udev.cpp:493-522 | hence charging is published as changed at most once in a run, from off to on |
| UdevMonitor.UnpluggingIsMissed | src/udev/provider_udev.cpp:517-522 | a charger found at the start and reported as unplugged later is published as charging in the rest of every run |
| UdevMonitor.Monitor.UpdateOnline | src/udev/provider_udev.cpp:493-500 | the monitor is online iff some charger is known as online |
| UdevMonitor.Monitor.ProcessEnergy | src/udev/provider_udev.cpp:540-569 | an energy change updates window, worst rate, limits and estimates as the closed form says, or faults |
| UdevMonitor.Monitor.CopyChanged | src/udev/provider_udev.cpp:589-598 | the field-by-field pass, in which later fields see earlier actions, equals the closed form and counts the changed fields |
| UdevMonitor.Monitor.NotifyPass | src/udev/provider_udev.cpp:531-620 | the pass and the choice of the period equal the closed form, fault included |
| UdevMonitor.Monitor.WakeUp | src/udev/provider_udev.cpp:622-632 | enumerating devices and notifying equals one step of a run |
| UdevMonitor.Monitor.Begin | src/udev/provider_udev.cpp:402-420 | the first enumeration equals the start of a run |
| UdevLoop.StaysArmedIff | src/udev/provider_udev.cpp:425-486 | an armed loop stays armed over an event iff its handler neither fails nor, unless it serves an outdated wait, throws; also when a timer completion was queued before its cancellation |
| UdevLoop.ReachableLoopsAreArmed | src/udev/provider_udev.cpp:402-486 | in every reachable state without failing handlers exactly one udev read, one screen read if the stream is open, and one wait that nothing cancelled or replaced are pending |
| UdevLoop.PollRearms | src/udev/provider_udev.cpp:634-656 | when the running wait of an armed loop is up its handler can run, and leaves one new running wait and the same reads |
| UdevLoop.ErrorStops | src/udev/provider_udev.cpp:429-473 | an error code stops the loop for good |
| UdevLoop.OneRunningWait | src/udev/provider_udev.cpp:634-656 | at most one wait is running, and it is the newest |
| UdevLoop.UdevReadIsLost | src/udev/provider_udev.cpp:425-452 | once the udev read is lost nothing brings it back |
| UdevLoop.ThrowLosesUdevRead | src/udev/provider_udev.cpp:425-452 | if the device library throws in the first udev handler, no wait is left running and the udev read is lost for the rest of every run |
| UdevLoop.FailedReadLosesScreen | src/udev/provider_udev.cpp:454-486 | a failing read of the screen property in the first screen handler leaves no wait running, and loses the screen read for the rest of every run |
| UdevLoop.EventLoop.MonitorTimer | src/udev/provider_udev.cpp:634-656 | re-arming cancels the running wait and starts a new one |
| UdevLoop.EventLoop.OnEvent | src/udev/provider_udev.cpp:429-442 | the udev handler equals its step, with its error and exception exits |
| UdevLoop.EventLoop.OnScreen | src/udev/provider_udev.cpp:457-473 | the screen handler equals its step, with its error and exception exits |
| UdevLoop.EventLoop.OnTimer | src/udev/provider_udev.cpp:637-652 | the timer handler equals its step; a cancelled wait does nothing |
| BmeFraming.WordRoundTrip | src/bme/bmeipc.c:80-83 | 32-bit words and their four bytes determine each other |
| BmeFraming.FrameOnTheWire | src/bme/bmeipc.c:105-116 | the literal bytes of a short frame |
| BmeFraming.AcceptsIffSent | src/bme/bmeipc.c:105-168 | receiving a size accepts exactly the streams that begin with what sending a message of that size writes, and yields that message |
| BmeFraming.QueryResynchronises | src/bme/bmeipc.c:184-247 | whichever reads fail, one query that stays in step returns what a conforming reply means, under both conventions, and the cursor ends behind the reply; it stays in step iff no read it needs fails and a reply of the wrong length is at most 0x80 long; otherwise it returns an error with the reply or its whole body still ahead |
| BmeFraming.TooLongSpoilsNext | src/bme/bmeipc.c:184-247 | after a reply of the wrong length above 0x80 the next query, whatever it asks for, reads twelve bytes of the left-over body and fails with -EPROTO |
| BmeFraming.LongReplyIsLeft | src/bme/bmeipc.c:184-197 | so it is for 129 bytes in place of four |
| BmeFraming.SessionStaysInStep | src/bme/bmeipc.c:232-247 | over any sequence of such queries every query gets its own reply and the cursor stays on frame boundaries |
| BmeFraming.Connection.Send | src/bme/bmeipc.c:105-127 | a request is appended as a frame; a short write is an error |
| BmeFraming.Connection.Receive | src/bme/bmeipc.c:129-168 | a failing read passes its code on and moves nothing; otherwise the cursor moves by what was there, and the result is the payload iff header and size match |
| BmeFraming.Connection.CleanReply | src/bme/bmeipc.c:184-197 | a reply is skipped unless it is too long |
| BmeFraming.Connection.ReceiveStatus | src/bme/bmeipc.c:204-230 | both status conventions, the refusal and the drain |
| BmeFraming.Connection.Query | src/bme/bmeipc.c:232-247 | a query whose request was not fully written reads nothing; otherwise it appends one frame and reads as specified, failing reads included |
| BmeEvents.RaisedIff | src/bme/bmeipc.c:386-401 | a flag is raised iff its own counter changed |
| BmeEvents.FlagOfEachCounter | src/bme/bmeipc.c:386-401 | which flag belongs to each of the four counters |
| BmeEvents.UpdateMeans | src/bme/bmeipc.c:376-384 | a change adds its flags and clears the timeout flag, and nothing else changes a flag |
| BmeEvents.UpdatesAccumulate | src/bme/bmeipc.c:376-384 | updates one after another raise what they raise together |
| BmeEvents.StateUpdate | src/bme/bmeipc.c:386-401 | the loop overwrites the stored counters with the new ones, raises exactly the changed ones and clears the timeout flag iff something changed |
| BlueZ.ConnectedIsHistory | src/bluez/provider_bluez.cpp:68-141 | after any run `connected_` is exactly the paths whose latest event left them connected, all with a proxy, and the published value tells whether there is one unless the adapter reports a Connected property |
| BlueZ.StepMirrors | src/bluez/provider_bluez.cpp:68-141 | every event keeps the agreement between sets and history |
| BlueZ.AdapterTextsAreHistory | src/bluez/provider_bluez.cpp:68-84 | after any run every other published property is what the adapter last reported of it |
| BlueZ.OnlyConnectionsAnnounce | src/bluez/provider_bluez.cpp:102-141 | the arrival of a device that says nothing of a connection, and the removal of one without, publish nothing |
| BlueZ.AdapterMayOverwrite | src/bluez/provider_bluez.cpp:80-83 | an adapter property called Connected leaves the published value right iff its text is |
| BlueZ.AdapterOverwrites | src/bluez/provider_bluez.cpp:80-83 | one such event makes a new bridge without devices publish a connection |
| BlueZ.Bridge.Add | src/bluez/provider_bluez.cpp:102-132 | adding a device equals its specification, for every answer |
| BlueZ.Bridge.Remove | src/bluez/provider_bluez.cpp:134-141 | removing a device equals its specification |
| BlueZ.Bridge.DefaultAdapterChanged | src/bluez/provider_bluez.cpp:68-100 | a new adapter publishes its properties and adds its devices, keeping the old ones |
| BlueZ.Bridge.Handle | src/bluez/provider_bluez.cpp:68-141 | every event takes the object where the step of the run model goes |
| UPower.IncrementalIsFull | src/upower/provider_upower.cpp:51-85 | after any sequence of appearances, losses and changes the published values equal a full render of the tracked ones, TimeUntilFull aside |
| UPowerReadings.LastReadingIsPublished | src/upower/provider_upower.cpp:42-150 | after any sequence of events the bridge tracks and publishes the last reading: all fields of a battery; of the manager alone its two flags beside 99, 12345 and no charging; of neither the literal defaults |
| UPowerReadings.ChangedIsShown | src/upower/provider_upower.cpp:73-85 | a Changed signal publishes the new reading, field by field |
| UPowerReadings.ProxiesFollowEvents | src/upower/provider_upower.cpp:87-150 | the battery proxy is the first battery found, or the last one added, until it or the manager goes; the removal of another device changes nothing |
| UPowerReadings.RoundIsNearest | src/upower/provider_upower.cpp:56-57 | `round` gives the nearest integer, halves away from zero |
| UPower.UpdateRefines | src/upower/provider_upower.cpp:51-85 | one update keeps that, and leaves in TimeUntilFull what the last of its three writers wrote |
| UPower.TimeUntilFullIsZeroOrTracked | src/upower/provider_upower.cpp:51-85 | after any sequence of events TimeUntilFull is 0 or what a full render would publish |
| UPower.NothingLeftToCharge | src/upower/provider_upower.cpp:65-70 | TimeUntilFull is 0 after an update in which the state changes to a non-charging or full one |
| UPower.LossRestoresDefaults | src/upower/provider_upower.cpp:143-147 | losing the manager brings the refined properties back to the defaults |
| UPower.Bridge.UpdateAllProps | src/upower/provider_upower.cpp:51-85 | the field-by-field pass equals its specification in all three cases of present proxies |
| UPower.Bridge.Try | src/upower/provider_upower.cpp:87-106 | a battery is taken and published, any other device ignored |
| UPower.Bridge.Enumerate | src/upower/provider_upower.cpp:111-117 | the search stops at the first battery |
| UPower.Bridge.Handle | src/upower/provider_upower.cpp:108-150 | every event takes the object where the step of the run model goes |
| ConnMan.FirstOnlineIsSelected | src/connman/provider_connman.cpp:147-221 | the first online service is current, monitored and published; offline services before it have no effect |
| ConnMan.NoneOnlineIsSelected | src/connman/provider_connman.cpp:198-221 | without an answer or an online service in it none is current; the table is blanked iff the answer is the empty list |
| ConnMan.SelectedIff | src/connman/provider_connman.cpp:198-221 | for every answer, a service is current afterwards iff the answer has an online one |
| ConnMan.AskingSelects | src/connman/provider_connman.cpp:59-105 | each event that asks for services, with the effect of every answer |
| ConnMan.OtherEventsPublish | src/connman/provider_connman.cpp:59-105 | every other event keeps the selection: an offline or lost manager blanks the table, a change of the monitored service is published under its own property, nothing else is |
| ConnMan.CurrentIsOfLastAnswer | src/connman/provider_connman.cpp:198-221 | after any run the current service is the first online one of the last answer |
| ConnMan.ServiceTexts | src/connman/provider_connman.cpp:44-57 | which types and states give which published texts |
| ConnMan.OfflineListKeepsNetwork | src/connman/provider_connman.cpp:198-221 | after an online list and then an offline one or an error, no service is current and the old network is still published as connected |
| ConnMan.RunsArePaired | src/connman/provider_connman.cpp:198-221 | at every event boundary a service is monitored iff one is current, and it is that one |
| ConnMan.StepKeepsIff | src/connman/provider_connman.cpp:59-105 | an event keeps "connected while a service is monitored" iff it does not blank the table under a monitored service |
| ConnMan.OfflineManagerBlanksServed | src/connman/provider_connman.cpp:63-73 | after an online list and an offline manager, a service is monitored and a blank, disconnected network published |
| ConnMan.RunsStayConnected | src/connman/provider_connman.cpp:59-105 | runs of such events keep it |
| ConnMan.ResetWrites | src/connman/provider_connman.cpp:268-287 | resetting blanks five properties and leaves the traffic counters alone |
| ConnMan.Bridge.ProcessService | src/connman/provider_connman.cpp:147-196 | an online service is published and monitored, an offline one changes nothing |
| ConnMan.Bridge.ProcessAll | src/connman/provider_connman.cpp:198-221 | the loop with its early exit equals the specification for every answer |
| ConnMan.Bridge.ServiceUpdate | src/connman/provider_connman.cpp:171-183 | a change of the monitored service equals its specification; a state change selects anew |
| ConnMan.Bridge.Handle | src/connman/provider_connman.cpp:59-105 | every event takes the object where the step of the run model goes |
| Values.CDivTruncates | src/udev/provider_udev.cpp:84-93 | C++ division: the remainder is smaller than the divisor and has the sign of the dividend |
| Values.LeastExists | src/ofono/provider_ofono.cpp:421-433 | every non-empty set of paths has a first one in map order |
| Values.LexMeans | src/ofono/provider_ofono.cpp:421-433 | map order: one path continues the other, or the first place where they differ decides |

## Left out

- D-Bus, Qt signals, udev enumeration, sockets, inotify, descriptors, threads and logging: they appear as arbitrary inputs, events and sets of pending operations.
- Object paths that the oFono bridge only passes back to D-Bus (`operator_path_`, the path argument of the set-up functions): replies are arbitrary anyway.
- `supports_stk_` in the oFono bridge: never read.
- The oFono toolkit and connection manager against their interface bits: no equivalence holds, because losing a SIM leaves the processing early.
- BlueZ resets of Enabled and Visible: their setters are registered under other names, so the defaults do not reach them; bluez service loss is not an event of the model.
- ConnMan.Bridge.Handle: does not handle added and removed technologies, nor tethering: the set is never cleared by a reset, and the text of several entries depends on hash order.
- The udev Temperature property and the `Capacity` property, which the monitor never sets.
- Overflow of C++ `long` in the battery monitor: integers are unbounded there; 32-bit arithmetic is modelled in the signal bars and in the BME frames.
- Partial reads of BME frames: a read that does not fail returns frames in full. Result buffers and replies are shorter than 2^31 bytes.
- `bme_open`, the inotify watch and the event file of BME, and the providers mce, profile, keyboard, back cover and `provider_bme.cpp`: no state worth proving.
- `TupleDBus` in `include/statefs/qt/dbus.hpp`: a short recursion over a stream class that is not in the repository.
- UPower.IncrementalIsFull: TimeUntilFull is excluded, because three fields write it and a full render would not reproduce their order; `UPower.UpdateRefines` says exactly what one update leaves in it, and `UPower.TimeUntilFullIsZeroOrTracked` what holds over all runs.
