# oc-daemon verification

A Dafny model of the event loops of oc-daemon, an OpenConnect VPN daemon, and proofs
about them. Four parts are modelled, each at the level of its handlers and of whole runs:

- **Split excludes** (`prefixes`, `aging`, `excludes`, `splitrouting`): the static
  exclude prefixes, which must stay pairwise disjoint; the dynamic exclude addresses
  with their TTLs; the local networks of the host; and the prefix lists published to
  VPN setup.
- **DNS proxy** (`watches`, `dnsproxy`): the watch list and the concurrent handling of
  DNS replies, composed with split routing.
- **Daemon** (`vpnsetup`, `daemon`, `runner`): the handlers of the daemon's main loop
  with VPN setup and traffic policing, and the daemon composed with the openconnect
  runner.
- **Traffic policing protocol** (`cpd`, `resolver`, `trafpol`, `policing`): captive
  portal detection, resolver, traffic policing and daemon as processes that meet over
  unbuffered channels.

How the parts are written:

- Every component that updates its fields is a class. Its methods follow the source
  branch by branch, and their contracts tie the new state to a function of the old one.
  The main results are lemmas about these functions over all runs, that is, over
  sequences of events or steps of any length.
- Go maps are visited in any order: loops pick an arbitrary remaining key. Where the
  order can be seen in the result (the devices whose addresses are added), it is a
  parameter of the event, or a ghost result of the method.
- Concurrency is a step system. A step is the work of one process up to its next
  blocking point, an operation under a lock, or one hand-over on an unbuffered channel.
  A step that is not enabled leaves the state alone, so every sequence of steps is a run.
- Addresses are a family and a number below 2^32 or 2^128; prefixes keep their unmasked
  address, as netip does. Maps keyed by the text of a prefix are sets of prefixes, since
  different valid prefixes have different texts.
- Domain names are sequences of labels, so a suffix is a parent domain by construction.
- I/O, timers, clocks, DNS answers, netlink events and process starts are events or
  parameters. Installing a packet filter list is an assignment.

Main results, each for all runs:

- Static excludes stay disjoint, keep exactly the maximal networks added and cover exactly
  what was added, in any order (`AntichainOverRuns`, `AddedAllKeepsMaximal`,
  `AddedAllCovers`, `AddOrderIrrelevant`).
- The published prefix list is exactly the excludes and what was dropped since (`RunAgrees`),
  a list is sent exactly when there is something new (`SentIffChanged`), and local networks
  are tracked exactly, by the events of the run (`LocalNetworksTracked`).
- TTL lifetimes are exact, in cleanups and in seconds (`SurvivesExactly`, `WallClock`,
  `ExcludeLifetime`, `TempLifetime`).
- Under any concurrency a DNS reply is written only after its watched addresses are
  excluded (`WrittenAfterExcluded`), every accepted name goes back to a configured watch
  (`AcceptedHasOrigin`), and a chain of aliases is followed to its addresses (`ChainReported`,
  `AddressFoundIff`).
- The events that change each part of the daemon's status are characterised exactly
  (`CallsExactly`, `ConnectionExactly`, `StatusExactly`, `CommandsExactly`, `SettingsFollow`,
  `PolicingStateExactly`).
- VPN setup, server address and policing follow the daemon's status (`SetupFollowsStatus`,
  `AlternateIff`, `ServerAllowedExactly`, `PolicingReported`, `PolicingExactly`).
- Daemon and runner agree on the openconnect process (`NeverAlreadyRunning`,
  `EventsBetweenHandOvers`).
- In the policing protocol no request is lost (`NoRequestLost`, `OneUpdateNoCommandLost`,
  `UpdatesPassedOn`), reports are what the probes found (`ReportsReadAreResults`), statuses
  are the change points of reports (`StatusesAreChanges`), names get the addresses found
  (`WorkerResolves`), the filter is exact (`HostsInstalled`) and nobody is stuck (`NobodyStuck`, `CommandSoonDone`).

Properties that the code does not have, each with the exact condition under which it does:

- Setup and teardown of the VPN need not alternate. `Daemon.SecondReportSetsUpTwice` gives
  a run, and `Daemon.AlternateIff` shows that they do exactly if no config is set up on top
  of a different one.
- Connected does not imply a VPN config. `Daemon.ReconnectBeforeConnect` gives a run, and
  `Daemon.ConnectedConfigIff` shows that it does throughout a run exactly if no reconnect
  report comes too early.
- Policing is not checked when the disable flag changes. `Daemon.PolicingNotStopped` gives a
  run, and `Daemon.PolicingExactly` says for every run when policing runs and when that is
  as it should be: the flag at the last check decides.
- A remove does not undo an add. `SplitExcludes.ReplacedNotRestored` gives the family of
  cases, and `SplitExcludes.RemoveUndoesAddIff` the condition. This is why
  `SplitRouting.LocalNetworksTracked` needs prefixes that are equal or disjoint.
- Daemon and runner can block each other (`Runner.DeadlockReachable`), and then do so for
  ever (`Runner.DeadlockForEver`). An event can end that way exactly when it makes the
  daemon hand over a disconnect (`Runner.CanDeadlockIff`), and blocks at once exactly when
  the runner is about to hand over an event (`Runner.BlocksAtOnceIff`).
- An address behind an alias can be missed when a request takes long.
  `DnsProxy.TwoCleanupsLoseTarget` gives a run with two cleanups, and
  `DnsProxy.AddressFoundIff` and `DnsProxy.AddressBelowFoundIff` the exact number of cleanups
  that loses it, behind a CNAME and below a DNAME target.
- A name can be resolved again before its TTL has passed, although the comment at
  internal/trafpol/resolver.go:126-128 says that a periodic update only takes names resolved
  more than the TTL ago. It can also be resolved again any number of timer intervals too
  late, since the timer does nothing during an update. `Resolver.RefreshedInTimeIff` says
  when the comment is right; `Resolver.PeriodicRefreshAge` and `Resolver.RefreshAgeTight`
  give the exact window.

## Model

| member | source | states |
|---|---|---|
| `Prefixes.ContainsIsBlock` | internal/splitrt/excludes.go:95-100 | a prefix of b bits contains exactly the aligned block of 2^(w-b) addresses around its own address, whatever its host bits are |
| `Prefixes.OverlapsIffShared` | internal/splitrt/excludes.go:56-60 | two prefixes overlap exactly when some address is in both |
| `Prefixes.WithinIffCovered` | internal/splitrt/excludes.go:56-68 | overlap plus not longer, as AddStatic tests it, is exactly inclusion of the covered addresses |
| `Prefixes.MaskedEqual` | internal/splitrt/excludes.go:56-68 | two prefixes mask to the same network exactly when they have the same length and overlap |
| `Aging.SurvivesExactly` | internal/splitrt/excludes.go:138-154 | an entry survives n cleanups exactly when n is at most its TTL divided by the interval, plus one if it was just refreshed |
| `Aging.WallClock` | internal/splitrt/excludes.go:10-13 | with cleanups every interval an entry is never dropped before its TTL has passed and is gone two intervals after that |
| `Aging.WallClockTight` | internal/splitrt/excludes.go:138-154 | no smaller window would do at either end |
| `SplitExcludes.Excludes.AddStatic` | internal/splitrt/excludes.go:48-76 | keeps the prefixes pairwise disjoint for every iteration order; false means already covered and nothing changed; the covered addresses become the old ones and those of the new prefix |
| `SplitExcludes.NeverBlockedAndReplacing` | internal/splitrt/excludes.go:55-68 | among disjoint prefixes the early return never follows a delete |
| `SplitExcludes.AntichainOverRuns` | internal/splitrt/excludes.go:48-76 | static excludes stay pairwise non-overlapping over every sequence of adds and removes |
| `SplitExcludes.AddedStaticCovers` | internal/splitrt/excludes.go:53-72 | adding a prefix adds exactly its addresses, also when it is refused or replaces others |
| `SplitExcludes.AddedAllKeepsMaximal` | internal/splitrt/excludes.go:53-72 | after any list of adds the masked prefixes kept are exactly the maximal ones of the list, each once |
| `SplitExcludes.AddedAllCovers` | internal/splitrt/excludes.go:53-72 | and they cover exactly the union of everything added |
| `SplitExcludes.AddOrderIrrelevant` | internal/splitrt/splitrt.go:235-257 | the masked result does not depend on the order of the calls |
| `SplitExcludes.ReplacedNotRestored` | internal/splitrt/excludes.go:120-130 | a prefix replaced by a wider one is gone after the wider one is removed |
| `SplitExcludes.RemoveUndoesAddIff` | internal/splitrt/excludes.go:48-130 | among disjoint prefixes a remove undoes an add exactly when the prefix was not there and was refused or overlapped nothing |
| `SplitExcludes.Excludes.AddDynamic` | internal/splitrt/excludes.go:79-117 | adds, refreshes or skips an address; true exactly when the set of entries changed |
| `SplitExcludes.Excludes.RemoveStatic` | internal/splitrt/excludes.go:120-130 | removes exactly this prefix and says whether it was there |
| `SplitExcludes.Excludes.Cleanup` | internal/splitrt/excludes.go:133-158 | ages every dynamic entry by one cleanup, in any order; true exactly when an entry was dropped |
| `SplitExcludes.Excludes.GetPrefixes` | internal/splitrt/excludes.go:31-45 | lists exactly the static and dynamic entries, one list element per entry |
| `SplitRouting.Devices.GetType` | internal/splitrt/devices.go:32-43 | lists every device that does (not) have the type exactly once |
| `SplitRouting.Addresses.Add` | internal/splitrt/addresses.go:30-38 | the per-device list refines a set: adds the address to this device only, without duplicates |
| `SplitRouting.Addresses.Remove` | internal/splitrt/addresses.go:41-59 | the per-device list refines a set: removes the address from this device only |
| `SplitRouting.SplitRouting.AddExcept` | internal/splitrt/splitrt.go:242-257 | adds one exclude list in order, leaving out its marker |
| `SplitRouting.SplitRouting.Start` | internal/splitrt/splitrt.go:221-261 | adds gateway and configured excludes except the two markers, and publishes them if there are any |
| `SplitRouting.SplitRouting.AddNewExcludes` | internal/splitrt/splitrt.go:115-121 | adds the addresses that are not local excludes yet; true exactly when one was added |
| `SplitRouting.SplitRouting.RemoveOldExcludes` | internal/splitrt/splitrt.go:123-128 | removes the local excludes that are no addresses any more; true exactly when one was there |
| `SplitRouting.SplitRouting.UpdateLocalNetworkExcludes` | internal/splitrt/splitrt.go:85-139 | brings the static excludes up to date for some order of the selected devices and publishes if anything changed |
| `SplitRouting.SplitRouting.HandleDeviceUpdate` | internal/splitrt/splitrt.go:142-160 | skips loopback and the VPN device when adding; the published list keeps agreeing with the excludes |
| `SplitRouting.SplitRouting.HandleAddressUpdate` | internal/splitrt/splitrt.go:163-172 | the published list keeps agreeing with the excludes |
| `SplitRouting.SplitRouting.HandleDNSReport` | internal/splitrt/splitrt.go:175-184 | when the report is closed its address is covered by the list last sent |
| `SplitRouting.SplitRouting.HandleTimer` | internal/splitrt/splitrt.go:208-210 | drops expired addresses without publishing; what the published list has too much is recorded |
| `SplitRouting.RunAgrees` | internal/splitrt/splitrt.go:187-218 | in every run, after every event, the list last sent has exactly the excludes and the dynamic addresses dropped by a cleanup since then |
| `SplitRouting.SentIffChanged` | internal/splitrt/splitrt.go:116-184 | in every run an event sends a list exactly when it changes the static excludes or brings a new dynamic address |
| `SplitRouting.ReportCovered` | internal/splitrt/splitrt.go:175-184 | a handled report is covered by the list last sent, whether it was added, refreshed or skipped |
| `SplitRouting.ExcludeLifetime` | internal/splitrt/excludes.go:101-158 | over any events without a refresh a dynamic exclude is there exactly until it has seen more cleanups than it has lives |
| `SplitRouting.ReportLifetime` | internal/splitrt/excludes.go:101-158 | after a report with TTL t the address survives exactly t/300 + 1 cleanups |
| `SplitRouting.LocalNetworksTracked` | internal/splitrt/splitrt.go:85-172 | with 0.0.0.0/32 among the excludes and all prefixes of the run equal or disjoint, the static excludes are after every event exactly the gateway, the two lists without their markers, and the addresses last added to devices last added whose type is not "device", or with virtual-only off not empty |
| `SplitRouting.NoLocalNetworks` | internal/splitrt/splitrt.go:64-92 | without that marker the static excludes never change from what the configured ones make |
| `SplitRouting.DeviceByEvents` | internal/splitrt/splitrt.go:142-160 | a device is known exactly if the last event about its index, loopback and tunnel device aside, added it, and it is the one of that event |
| `SplitRouting.AddressByEvents` | internal/splitrt/splitrt.go:163-172 | a device has an address exactly if the last event about both added it |
| `WatchList.Watches.CleanTemp` | internal/dnsproxy/watches.go:78-100 | ages both maps of temporary watches by one cleanup, in any order |
| `WatchList.Watches.CleanMap` | internal/dnsproxy/watches.go:82-99 | one map aged by one cleanup, whatever the order of its keys |
| `WatchList.Watches.Contains` | internal/dnsproxy/watches.go:137-169 | true exactly for a CNAME target or a name at or below a watch or DNAME target, never for the root |
| `WatchList.Watches.Remove` | internal/dnsproxy/watches.go:66-73 | removes the name from all three maps |
| `WatchList.Watches.SetWatches` | internal/dnsproxy/proxy.go:251-256 | the watch list is then exactly the given names without temporary ones |
| `DnsProxy.WrittenAfterExcluded` | internal/dnsproxy/proxy.go:105-169 | in every interleaving, when a reply is written each address record found watched had its report closed, and its address was then covered by the list last sent |
| `DnsProxy.ReportOfRecord` | internal/dnsproxy/proxy.go:105-140 | in every interleaving a report that is handled is that of the record its request waits for; its address is then in a static exclude or a dynamic one with the full TTL of the record |
| `DnsProxy.AcceptedHasOrigin` | internal/dnsproxy/proxy.go:76-103 | in every interleaving each accepted name is not the root and is linked to a watch configured in the run by a finite chain of received records, each stored only after its own owner was accepted |
| `DnsProxy.TempLifetime` | internal/dnsproxy/watches.go:78-100 | in every run in which its name is not stored again in the same map a temporary watch is there exactly until the list is flushed or it has seen more cleanups than it has lives |
| `DnsProxy.StoredLifetime` | internal/dnsproxy/watches.go:44-63 | a target stored with TTL t, whatever was there before, survives exactly t/10 + 1 cleanups |
| `DnsProxy.AddressFoundIff` | internal/dnsproxy/proxy.go:143-164 | in every interleaving an address at a CNAME target that nothing else makes accepted is found watched exactly when at most TTL/10 + 1 cleanups and no flush came between storing and looking |
| `DnsProxy.AddressBelowFoundIff` | internal/dnsproxy/proxy.go:143-164 | the same for an address at or below a DNAME target |
| `DnsProxy.ChainReported` | internal/dnsproxy/proxy.go:143-164 | with aliases (DNAMEs and CNAMEs) in chain order from a watch every address on the chain is reported wherever it stands, under any concurrent requests and as many cleanups as the entries of just these aliases outlive when stored |
| `DnsProxy.ChainReportedDespiteCleanup` | internal/dnsproxy/proxy.go:143-164 | one cleanup during the request never loses an address, whatever the TTLs |
| `DnsProxy.SlowRequestReportedIff` | internal/dnsproxy/proxy.go:143-169 | a run from the start with n cleanups before the third pass: the reply is written, and its address was reported exactly when n is at most TTL/10 + 1 |
| `DnsProxy.TwoCleanupsLoseTarget` | internal/dnsproxy/watches.go:78-100 | a run from the start with two cleanups in which a reply is written and its address, on the chain of an alias with TTL 0, never was reported |
| `DnsProxy.Proxy.HandleRecord` | internal/dnsproxy/proxy.go:148-163 | the handling of one record in one pass is a run of the step system |
| `DnsProxy.Proxy.HandlePass` | internal/dnsproxy/proxy.go:147-164 | one pass over a reply is a run of the step system |
| `DnsProxy.Proxy.HandleReply` | internal/dnsproxy/proxy.go:143-169 | the three passes over a reply are a run of the step system that ends with the reply written |
| `VpnSetup.VPNSetup.Setup` | internal/vpnsetup/vpnsetup.go:254-292 | config, watches, split routing and ensure loop are set up together for this config |
| `VpnSetup.VPNSetup.Teardown` | internal/vpnsetup/vpnsetup.go:295-330 | from an active setup everything is torn down and the watch list is empty |
| `Daemon.SetupFollowsStatus` | internal/daemon/daemon.go:370-451 | in every reachable state VPN setup holds exactly the config in the status, the status shows that config's address and device and the server of the login, each teardown gets the config last set up, and not running means everything of the connection is cleared |
| `Daemon.CallsExactly` | internal/daemon/daemon.go:371-451 | exactly which events set up or tear down the VPN, and with which config |
| `Daemon.ConnectionExactly` | internal/daemon/daemon.go:314-490 | exactly which events lead into each connection state |
| `Daemon.StatusExactly` | internal/daemon/daemon.go:314-490 | exactly which events change running flag, PID, login and connect time, and to what |
| `Daemon.CommandsExactly` | internal/daemon/daemon.go:314-368 | the runner gets a start exactly for a complete login with nothing running, and a stop exactly when a running VPN is ended by a client, a resume or a trusted network |
| `Daemon.SetupTeardownAlternate` | internal/daemon/daemon.go:370-451 | if each openconnect process reports connect at most once, setup and teardown strictly alternate |
| `Daemon.SecondReportSetsUpTwice` | internal/daemon/daemon.go:371-418 | a run from the start in which a second, different config after an attempt to reconnect is set up without a teardown |
| `Daemon.ConnectedWithoutConfig` | internal/daemon/daemon.go:474-490 | a step loses that connected implies a VPN config exactly by a reconnect report while connecting without one |
| `Daemon.ConnectedConfigIff` | internal/daemon/daemon.go:474-490 | throughout a run connected implies a VPN config exactly if no reconnect report comes while connecting without one |
| `Daemon.ReconnectBeforeConnect` | internal/daemon/daemon.go:474-490 | a run from the start that ends connected without a VPN config |
| `Daemon.ServerAllowedExactly` | internal/daemon/daemon.go:325-339 | in every reachable state running policing allows exactly the addresses of the config and of the current profile and the current server address, which with a saved login is that of the login |
| `Daemon.PolicingReported` | internal/daemon/daemon.go:857-924 | in every run policing implies always-on and untrusted, and is reported active exactly when it runs |
| `Daemon.SettingsFollow` | internal/daemon/daemon.go:400-707 | in every run TND runs exactly when the current profile has servers for it, its results and profile updates are taken over, and the disable flag is that of the config last set up |
| `Daemon.PolicingStateExactly` | internal/daemon/daemon.go:710-924 | exactly which events make policing be reported as disabled or inactive, and a captive portal as detected or not |
| `Daemon.PolicingRechecked` | internal/daemon/daemon.go:626-707 | right after each TND result and profile update policing runs exactly when always-on, not trusted and not disabled |
| `Daemon.PolicingOutdated` | internal/daemon/daemon.go:371-418 | a step makes policing stop being as it should be exactly by a new config that changes the disable flag while the profile is always-on and the network not trusted |
| `Daemon.PolicingExactly` | internal/daemon/daemon.go:626-707 | in every run policing runs exactly when always-on, not trusted and not disabled at the last TND result or profile update; it is as it should be exactly when the flag is unchanged since or does not matter |
| `Daemon.PolicingNotStopped` | internal/daemon/daemon.go:371-418 | a run from the start in which policing keeps running although the config set up disables it |
| `Daemon.AlternateIff` | internal/daemon/daemon.go:370-451 | setup and teardown strictly alternate in exactly those runs in which no config is reported, while running and not connected, on top of a different one |
| `Daemon.CheckedAfterCommand` | internal/daemon/daemon.go:612-631 | the state in which a TND result hands over a disconnect, and the policing check after it, together are the handler |
| `Daemon.Daemon.constructor` | internal/daemon/daemon.go:1030-1049 | the state after Start satisfies all invariants |
| `Daemon.Daemon.StartTrafPolComponent` | internal/daemon/daemon.go:857-880 | starts policing with the addresses and names of config and profile, and the server address |
| `Daemon.Daemon.StopTrafPolComponent` | internal/daemon/daemon.go:883-900 | stops policing and forgets that the server address was added |
| `Daemon.Daemon.CheckTrafPolRunning` | internal/daemon/daemon.go:904-924 | starts or stops policing by disable flag, profile and network |
| `Daemon.Daemon.ConnectVPN` | internal/daemon/daemon.go:314-349 | hands a connect to the runner exactly when nothing runs and the login is valid; nothing else is handed over; all invariants are kept |
| `Daemon.Daemon.DisconnectVPN` | internal/daemon/daemon.go:352-368 | hands a disconnect to the runner exactly when openconnect runs |
| `Daemon.Daemon.UpdateVPNConfigUp` | internal/daemon/daemon.go:371-418 | sets up a new config exactly when running and not connected |
| `Daemon.Daemon.UpdateVPNConfigDown` | internal/daemon/daemon.go:421-451 | tears VPN setup down only when it is active, unless connecting or connected |
| `Daemon.Daemon.UpdateVPNConfig` | internal/daemon/daemon.go:493-523 | invalid updates change nothing; all invariants are kept |
| `Daemon.Daemon.HandleTNDResult` | internal/daemon/daemon.go:626-631 | policing afterwards runs exactly when it should; the runner gets a disconnect exactly when a running VPN is ended; all invariants are kept |
| `Daemon.Daemon.HandleRunnerDisconnect` | internal/daemon/daemon.go:635-653 | everything of the connection is cleared and the server address is removed from policing if it was added |
| `Daemon.Daemon.HandleRunnerConnect` | internal/daemon/daemon.go:656-664 | openconnect is flagged as running with its PID |
| `Daemon.Daemon.HandleSleepMonEvent` | internal/daemon/daemon.go:671-679 | a resume disconnects a running VPN |
| `Daemon.Daemon.HandleProfileUpdate` | internal/daemon/daemon.go:694-707 | policing is restarted with the new profile and runs exactly when it should |
| `Daemon.Daemon.HandleCPDStatusUpdate` | internal/daemon/daemon.go:710-718 | the captive portal status is taken over |
| `Runner.Connect.HandleConnect` | internal/ocrunner/connect.go:169-236 | refuses when a command is held, else starts a process or queues the exit of a failed start |
| `Runner.Connect.HandleOCExit` | internal/ocrunner/connect.go:263-269 | clears the command and offers a disconnect event |
| `Runner.NeverAlreadyRunning` | internal/ocrunner/connect.go:169-175 | in every run of daemon and runner nothing is running or pending when the daemon hands over a connect, so the already-running branch is unreachable |
| `Runner.RunningIsOutstanding` | internal/daemon/daemon.go:635-668 | at most one process is outstanding, and the daemon flags running exactly from its hand-over until the disconnect event |
| `Runner.StartedPidShown` | internal/ocrunner/connect.go:208-245 | a started process is shown with its PID when the daemon takes the connect event |
| `Runner.EventsBetweenHandOvers` | internal/ocrunner/connect.go:222-302 | between two hand-overs there is at most one connect event followed by exactly one disconnect event, even if the start fails |
| `Runner.DeadlockIff` | internal/ocrunner/connect.go:77-82 | daemon and runner can make no further step exactly when a disconnect and an event are handed over against each other |
| `Runner.DeadlockReachable` | internal/ocrunner/connect.go:326-329 | a client that disconnects before the connect event was taken leads there |
| `Runner.EventHandled` | internal/daemon/daemon.go:612-631 | with the command handed over in the middle, an event has the effect of its handler |
| `Runner.DeadlockForEver` | internal/ocrunner/connect.go:77-82 | from there daemon and runner never leave their place, whatever the process does |
| `Runner.BlocksAtOnceIff` | internal/ocrunner/connect.go:326-329 | a disconnect blocks at once exactly when the runner is about to hand over an event |
| `Runner.CanDeadlockIff` | internal/ocrunner/connect.go:263-302 | an event can end in a deadlock exactly when it makes the daemon hand over a disconnect, which it can whenever openconnect runs |
| `Cpd.NoRequestLost` | internal/cpd/cpd.go:115-195 | in every run at most one probe is outstanding, and for each request a probe has started since or one is owed and starts when the report is delivered |
| `Cpd.ProbeStartsIff` | internal/cpd/cpd.go:115-167 | in every run a probe starts exactly on a request or timer event when none runs, and on delivery of a report when one is owed |
| `Cpd.ReportsAreResults` | internal/cpd/cpd.go:97-150 | in every run the reports delivered are in order what the probes found, a portal exactly when one of the checks detected one, and at most the last is still to be delivered |
| `Cpd.ProbeServer` | internal/cpd/cpd.go:97-105 | detects a portal exactly when one of the checks does, and stops at the first |
| `Cpd.CPD.Probe` | internal/cpd/cpd.go:97-112 | a probe ends with the result of its checks |
| `Cpd.CPD.TakeProbeReport` | internal/cpd/cpd.go:182-183 | the main loop delivers the very report it received |
| `Cpd.CPD.HandleProbeRequest` | internal/cpd/cpd.go:115-123 | starts a probe or notes that one is owed |
| `Cpd.CPD.HandleProbeReport` | internal/cpd/cpd.go:126-150 | delivers the report whatever number of requests comes in meanwhile; an owed probe starts then |
| `Cpd.CPD.HandleTimer` | internal/cpd/cpd.go:153-167 | starts a probe only when none runs |
| `Resolver.OneUpdateNoCommandLost` | internal/trafpol/resolver.go:129-210 | in every run at most one update is in progress, each name is held by at most one worker, and for each command an update of all names has started since or is owed and starts when the current one is done, which is only when the queue is empty and no worker holds a name |
| `Resolver.UpdateStartsIff` | internal/trafpol/resolver.go:129-210 | in every run exactly these steps start an update; it has one idle worker per ten names and a queue of all names, or of those whose TTL does not outlast the timer interval |
| `Resolver.AnsweredNotPending` | internal/trafpol/resolver.go:45-114 | right after an answer the name has the full TTL and no worker or queue is still to resolve it |
| `Resolver.DueAtBounds` | internal/trafpol/resolver.go:134-139 | over a run, a timer firing that starts an update is the first to resolve a name again exactly when the TTL is in the interval after the firings that were not skipped |
| `Resolver.NotTakenIff` | internal/trafpol/resolver.go:134-210 | over every run without an update of all names, no periodic update resolves a name exactly when the firings that were not skipped do not use up its TTL, which is then lower by their number of intervals |
| `Resolver.PeriodicRefreshAge` | internal/trafpol/resolver.go:126-210 | in every run without an update of all names, with k firings skipped, a name is resolved again less than one timer interval before or after its TTL and k intervals |
| `Resolver.RefreshedInTimeIff` | internal/trafpol/resolver.go:126-210 | it is then at least as old as its TTL exactly when a firing was skipped or the first one came more than (TTL - 1) modulo the interval after the name was resolved |
| `Resolver.RefreshAfter` | internal/trafpol/resolver.go:177-210 | for every number of skipped firings, and every number of others that fits the TTL, there is a run from the start |
| `Resolver.RefreshAgeTight` | internal/trafpol/resolver.go:126-210 | both ends of the window are met by runs from the start, for every number of skipped and of other firings |
| `Resolver.RefreshedEarly` | internal/trafpol/resolver.go:126-139 | with a TTL of one interval and no firing skipped a name is resolved again before its TTL has passed, unless the firing comes a whole interval after |
| `Resolver.ResolvedName.Resolve` | internal/trafpol/resolver.go:45-114 | the first answer that is no failure decides: the name gets the full TTL and exactly the addresses found, or keeps its own if not found; with failures only nothing changes; an update is sent exactly when the addresses differ |
| `Resolver.WorkerResolves` | internal/trafpol/resolver.go:45-114 | the same for a worker of a concurrent update that gets these answers one by one; no other name changes |
| `Resolver.ResolverLoop.SelectNames` | internal/trafpol/resolver.go:133-140 | lists the due names once each and ages the others, in any order |
| `Resolver.ResolverLoop.HandleCommand` | internal/trafpol/resolver.go:179-188 | starts an update of all names or notes that one is owed |
| `Resolver.ResolverLoop.HandleUpdateDone` | internal/trafpol/resolver.go:190-197 | starts an owed update or becomes idle |
| `Resolver.ResolverLoop.HandleTimer` | internal/trafpol/resolver.go:199-210 | starts a periodic update only when none is in progress |
| `TrafPol.HandlersKeepFilter` | internal/trafpol/trafpol.go:112-198 | every handler leaves the installed hosts equal to allowed and resolved addresses, and portal ports installed exactly while a portal is recorded |
| `TrafPol.TrafPol.GetAllowedHostsIPs` | internal/trafpol/trafpol.go:142-164 | exactly the allowed addresses and the addresses of all allowed names |
| `TrafPol.TrafPol.AddAllowedAddr` | internal/trafpol/trafpol.go:176-198 | adds the address and reinstalls the hosts; true exactly when it was not allowed before |
| `TrafPol.TrafPol.RemoveAllowedAddr` | internal/trafpol/trafpol.go:176-198 | removes the address and reinstalls the hosts; true exactly when it was allowed before |
| `TrafPol.TrafPol.HandleResolverUpdate` | internal/trafpol/trafpol.go:167-173 | the name has exactly these addresses and the hosts are reinstalled |
| `TrafPol.TrafPol.HandleCPDReport` | internal/trafpol/trafpol.go:112-138 | reports a change exactly when the portal state changes, and then sets the ports; names are resolved again exactly when a portal goes away |
| `Policing.StatusesAreChanges` | internal/trafpol/trafpol.go:234-262 | in every run the statuses taken by the daemon alternate starting with detected, are the change points of the reports read, and lag by at most one pending status |
| `Policing.ReportsReadAreResults` | internal/cpd/cpd.go:126-150 | in every run the reports traffic policing reads are in order what the probes found, and the portal ports are open exactly when the last one read found a portal |
| `Policing.HostsInstalled` | internal/trafpol/trafpol.go:142-198 | in every run resolver and policy agree on each name except while its update is handed over, and the installed hosts are exactly allowed and resolved addresses |
| `Policing.CommandProgresses` | internal/trafpol/trafpol.go:338-381 | while the daemon waits for a command, TrafPol or its hand-over partner can step, and a rank decreases |
| `Policing.CommandNeverSetBack` | internal/trafpol/trafpol.go:234-278 | no step increases the rank unless TrafPol takes another event first |
| `Policing.CommandSoonDone` | internal/trafpol/trafpol.go:234-278 | in every run a command takes at most four steps of TrafPol and two more for each other event taken first |
| `Policing.UpdatesPassedOn` | internal/trafpol/trafpol.go:103-138 | whenever traffic policing is back in its select, CPD has taken exactly one request for each DNS update, and the resolver one for each DNS update and one for each end of a portal |
| `Policing.CommandAnswered` | internal/trafpol/trafpol.go:176-221 | a finished command added or removed exactly its address, and its result tells whether anything changed |
| `Policing.NobodyStuck` | internal/trafpol/trafpol.go:234-278 | from every reachable state at most five hand-overs answer the daemon's command and let every offered report and resolver update be taken |

## Left out

- Shutdown: closing of done channels, dropped sends after stop, and the error paths of component starts.
- Invalid (zero) netip prefixes, which config conversion could produce from a broken mask, and IPv6 zones.
- DNS requests that get no reply (wrong question count, no remote, exchange error), and domain names that are not valid.
- Letter case of domain names and the text form of names; matching is on labels as given.
- The choice of the DNS report reader in VPN setup's main loop: split routing is taken to be active in `dnsproxy`.
- `Remotes` of the DNS proxy, allowed devices of traffic policing, command templates and their execution.
- DNS ensure polling of VPN setup; only that it is started and stopped.
- PID file, command line and signals of the openconnect process.
- The list of allowed hosts in the D-Bus status, and the host that CPD adds to the allowed ones: it counts as part of the daemon's config.
- Daemon.Daemon.HandleTNDResult: the method itself does not block; it records the command, and `runner` has the daemon block in the state `Daemon.AtCommand` until the runner takes it.
- Policing.CommandProgresses: TrafPol's select may prefer other ready events any number of times; fairness of Go's select is not modelled, and `Policing.CommandSoonDone` bounds the steps by the number of such events.
- The intervals of the CPD timer and the waiting times between probes and between resolve tries. The resolver's timer is taken to fire every interval exactly.
- D-Bus, socket, netlink and file system code, token handling, XML profile and vpncscript environment parsing.
