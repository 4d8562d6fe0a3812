# singctl: verified models of its hard cores

singctl runs sing-box cores behind a system proxy, optionally as a VPN next to a corporate (Cisco)
VPN. This project models the parts of it in which an error would lose data, leak a core, strand the
browser on a dead script or send traffic down the wrong path, and proves what they guarantee.
`dafny verify dfyconfig.toml` checks everything.

| file | models |
|---|---|
| `Uplink.dfy`, `Writes.dfy` | the packet uploader: one writer, the runner and any number of closers, interleaved at their critical sections; and what each Write reports |
| `Lifecycle.dfy`, `Calls.dfy`, `Runtime.dfy` | the two-core manager when calls do not overlap: what every call computes under every fault, when it succeeds, and the class that computes it |
| `Overtake.dfy`, `Solo.dfy`, `Leak.dfy`, `Report.dfy` | the same manager step by step at its locks, overtaken by Shutdowns; the proof that both views agree; which Shutdowns lead to a lost core; and what an overtaken call reports |
| `Policy.dfy`, `Debounce.dfy`, `Coexist.dfy`, `Effects.dfy`, `Shut.dfy`, `Settle.dfy`, `Monitor.dfy` | the daemon that yields to the corporate VPN: polls, a channel of decisions, the executor and user requests, interleaved; what is ordered, and that orders take effect |
| `Rules.dfy`, `Pac.dfy` | rule lists, the generated proxy script as a small program with an interpreter, and the reference matcher |
| `ProxyConfig.dfy`, `Ini.dfy`, `IniMeans.dfy`, `IniExact.dfy` | the rules file: printer, parser, what its lines mean, exact round trip |
| `SysProxy.dfy` | the transactional Apply over a network port that may fail at every call |
| `Watchdog.dfy`, `Probe.dfy` | the pressure window and the single-flight extension probe |
| `Padding.dfy`, `Base64.dfy`, `Chunks.dfy`, `Links.dfy` | padding near a compressed length, the four base64 dialects, hidden uplink chunks, link splitting |
| `Singbox.dfy` | the generated proxy and forwarder configurations |
| `Subscriptions.dfy`, `Processes.dfy`, `ListingOrder.dfy`, `Distinct.dfy` | refresh and merge of subscriptions, grouping of processes |
| `Text.dfy`, `Wrappers.dfy` | string operations and `Option`/`Result` |

Code that updates fields in place is a class here, code that loops is a method with a loop; each is
proved equal to a function, and the theorems are about that function. Every foreign call (networks,
cores, DNS, files, random sources, clocks) is a parameter that may take any value, so a theorem over
all parameters is a theorem over all faults.

## Where the code does not do what one might expect

* A manager in state "stopped" may still run a proxy: a recreate whose retry succeeds reports failure
  (`Lifecycle.StoppedProxyExample`, exactly when: `Lifecycle.StoppedWithProxyIff`), and StartProxy does
  not mend it (`Lifecycle.StartProxyKeepsStopped`). Shutdown keeps the recorded binding (`Lifecycle.ShutdownResult`).
* The generation check and the publication after it are separate critical sections. "Off" is final for
  the transition it overtakes exactly when it does not fall between the two
  (`Overtake.ShutdownIsFinalIff`). In the window of the forwarder, and only there, later calls can lose a
  core (`Leak.LosesIff`, `Solo.RaceCanLeak`); in that of a dial a live proxy is recorded as stopped.
* Our tunnel can be up beside an active corporate VPN: a start admitted before a poll may publish after
  it (`Shut.LateStartExample`), and displaying an older event lets a new start in
  (`Shut.StaleFlagExample`). Until the next poll, exactly (`Coexist.TunnelBesideCisco`,
  `Coexist.NextPollCloses`, `Shut.StaysClosedIff`).
* `disableService` stops at its first failing call, although the comment at
  `internal/sysproxy/manager.go:113-117` says that all calls run; the model follows the code.
* Restoring "off" on a manager that already serves a script leaves the server running
  (`SysProxy.Manager.Restore`), and after a restart it leaves the previous process's dead address in
  place (`SysProxy.Boot`).
* The generated script and the Go matcher disagree on dotted quads with leading zeros, under some rule
  list, and, bracket globs aside, on no other host (`Pac.AddressConditionIsExact`,
  `Pac.DisagreeingHosts`).
* The default padding range reaches to 1000 bytes, but the tokenish generator meets its tolerance for
  every draw only up to 608 (`Padding.GuaranteedTargets`).
* A text that is not exactly representable in the rules file is not read back
  (`IniExact.RoundTripIff`); even a parsed config is not if a host or service fills its line
  (`IniExact.ParsePrintParse`).
* The two link splitters differ on every text without a link (`Links.SplittersAgree`). A piece that
  ends in a vertical tab or form feed before a separator keeps it (`Links.PieceIsLink`).
* A caller that joins a running probe may get a result older than an invalidation that preceded its
  call (`Probe.ReturnedIsFreshIff`, `Probe.JoinedCanBeStale`).
* A failing subscription fetch writes back the links of its snapshot, undoing a refresh that overlapped
  it (`Subscriptions.FailedFetchReverts`, `Subscriptions.OverlapLosesLinks`).
* Roots of applications can depend on the order of processes when some process has no name yet
  (`ListingOrder.OrderMatters`, exactly when: `ListingOrder.OrderFreeIff`), and are not idempotent on parent cycles (`Processes.TwoCycle`,
  `Processes.RootIdempotentIff`).

## Model

| member | source | states |
|---|---|---|
| Uplink.PacketUploader.constructor | internal/xhttp/conn.go:161-180 | a fresh uploader is empty and open; a nonpositive configured chunk size means one million bytes |
| Uplink.PacketUploader.TurnOfWrite | internal/xhttp/conn.go:186-203 | one locked pass of Write: wait, fail or accept as many bytes as fit |
| Uplink.PacketUploader.TurnOfRun | internal/xhttp/conn.go:238-251 | one locked pass of run: wait, exit or take the next chunk |
| Uplink.PacketUploader.MarkClosed | internal/xhttp/conn.go:214-222 | closing is recorded once and tells the first closer from the others |
| Uplink.PacketUploader.RecordFailure | internal/xhttp/conn.go:267-272 | a failed post marks the uploader failed and changes nothing else |
| Uplink.InvKept | internal/xhttp/conn.go:182-277 | every event of every goroutine keeps the uploader invariant |
| Uplink.ReachableInv | internal/xhttp/conn.go:182-277 | the invariant holds in every interleaving |
| Uplink.Conservation | internal/xhttp/conn.go:182-277 | acknowledged chunks in order, the chunk in flight or failed, and the buffer are exactly the accepted bytes; every chunk has 1..maxChunk bytes and the buffer never exceeds maxChunk |
| Uplink.ServerHoldsPrefix | internal/xhttp/conn.go:227-277 | at every moment the server holds an exact prefix of the accepted bytes, numbered from zero without gaps |
| Uplink.PacingNeverCancelled | internal/xhttp/conn.go:255-261 | the context is cancelled only after the runner has exited, so the early return of the pacing select is never taken |
| Uplink.NoLostWakeup | internal/xhttp/conn.go:189-191 | whoever sleeps sleeps on a condition that still holds, and writer and runner never both sleep |
| Uplink.ExitIsFinal | internal/xhttp/conn.go:231-277 | after the runner exited nothing more is accepted or sent |
| Uplink.CloseDelivers | internal/xhttp/conn.go:213-225 | when a Close returned and no post failed, the server has every accepted byte, and this stays so |
| Uplink.RemainingBounds | internal/xhttp/conn.go:237-276 | once closed, the runner's remaining events are bounded by a measure every one of them lowers |
| Uplink.CloseDrains | internal/xhttp/conn.go:213-225 | after closing the runner performs at most seven more events, and as long as it has not exited it can move |
| Writes.WriteReports | internal/xhttp/conn.go:182-205 | in every interleaving: a Write reports no error exactly when all its bytes were accepted, a closed pipe only when closed, an upload error only after a failed POST; while the uploader is open and unfailed no finished Write was short |
| Writes.WriterTurnMeans | internal/xhttp/conn.go:186-203 | an awake writer with bytes left fails exactly when the uploader is closed or failed, the close first; else waits exactly when the buffer is full; else accepts until it has none left or the buffer is full, and wakes the runner |
| Writes.RunnerTurnMeans | internal/xhttp/conn.go:238-251 | an awake runner exits exactly after a failure or with nothing left after a close; else waits exactly when nothing is buffered; else takes everything buffered and wakes the writer |
| Lifecycle.RecreateFacts | internal/runtime/manager.go:512-527 | recreating reports success exactly when the first dial starts; a live proxy is left exactly when either dial started; state and forwarder are untouched |
| Lifecycle.ApplyKeeps | internal/runtime/manager.go:153-457 | every call under every fault keeps the mode invariant, and every created core is published or closed, exactly once |
| Lifecycle.EveryRunKeepsInv | internal/runtime/manager.go:153-457 | the same over every sequence of calls: forwarder iff VPN, VPN has a bound proxy, proxy-only a proxy, suspended no core and no binding, no core leaked or closed twice |
| Lifecycle.StartForwarderSucceeds | internal/runtime/manager.go:180-234 | once it may start, it succeeds if and only if the first rebind and the forwarder start, which is if and only if it ends in VPN mode bound to the probed interface |
| Lifecycle.FailedStartRollsBack | internal/runtime/manager.go:202-222 | a start that fails after the rebind was attempted ends without a forwarder, proxy-only on the previous binding or stopped; the rollback's first dial decides which |
| Lifecycle.LeavingVpn | internal/runtime/manager.go:268-293 | leaving VPN closes the forwarder exactly once; "stopped" is recorded exactly when the first dial fails, and a proxy then lives exactly when the retry started |
| Lifecycle.StoppedProxyExample | internal/runtime/manager.go:377-395 | a run, through UnbindProxy, that ends stopped with a live proxy |
| Lifecycle.StoppedWithProxyIff | internal/runtime/manager.go:153-545 | for every call from every other sound state: it ends stopped with a live proxy if and only if the unbinding of StopForwarder or UnbindProxy failed and its retry started, or the rollback of a failed StartForwarder or Bind did |
| Lifecycle.StartProxyKeepsStopped | internal/runtime/manager.go:153-160 | StartProxy then reports success and leaves "stopped" recorded |
| Lifecycle.ShutdownResult | internal/runtime/manager.go:437-457 | Shutdown closes every core exactly once but keeps the recorded binding |
| Lifecycle.VpnRoundTrip | internal/runtime/manager.go:180-293 | entering and leaving VPN mode without faults restores an unbound proxy-only manager |
| Calls.StartProxyMeans | internal/runtime/manager.go:153-174 | succeeds exactly when a proxy runs already or the routes are cleaned and the proxy starts; what it leaves either way |
| Calls.ResumeMeans | internal/runtime/manager.go:323-341 | acts on a suspended manager only, and resumes it exactly when the proxy starts |
| Calls.SuspendMeans | internal/runtime/manager.go:299-319 | always succeeds and closes every core exactly once |
| Calls.BindMeans | internal/runtime/manager.go:349-373 | when it rebinds, when it succeeds, and that a failure restores the previous binding or stops |
| Calls.UnbindMeans | internal/runtime/manager.go:377-395 | succeeds exactly when the unbound proxy starts, otherwise stops the manager; a retry may leave an unbound proxy |
| Calls.RefreshMeans | internal/runtime/manager.go:400-427 | succeeds exactly when the first dial starts; mode, binding and forwarder survive exactly when one of the two does |
| Calls.OldProxyClosed | internal/runtime/manager.go:512-527 | every call under every fault either changes nothing or closes the proxy it found, exactly once |
| Calls.GoneForever | internal/runtime/manager.go:153-457 | a core once closed is never used again by any call |
| Runtime.Manager.constructor | internal/runtime/manager.go:107-109 | a new manager is stopped and owns nothing |
| Runtime.Manager.DialProxy | internal/runtime/manager.go:485-507 | refines the dial of the sequential specification, fault by fault |
| Runtime.Manager.RecreateProxy | internal/runtime/manager.go:512-527 | refines closing, dialling and dialling again |
| Runtime.Manager.RollbackProxy | internal/runtime/manager.go:531-545 | refines the rollback |
| Runtime.Manager.StartProxy | internal/runtime/manager.go:153-174 | refines the specified call |
| Runtime.Manager.StartForwarder | internal/runtime/manager.go:180-234 | refines the specified call |
| Runtime.Manager.StopForwarder | internal/runtime/manager.go:238-293 | refines the specified call |
| Runtime.Manager.SuspendForCisco | internal/runtime/manager.go:299-319 | refines the specified call |
| Runtime.Manager.ResumeProxy | internal/runtime/manager.go:323-341 | refines the specified call |
| Runtime.Manager.BindProxyToPhysical | internal/runtime/manager.go:349-373 | refines the specified call |
| Runtime.Manager.UnbindProxy | internal/runtime/manager.go:377-395 | refines the specified call |
| Runtime.Manager.RefreshProxy | internal/runtime/manager.go:400-427 | refines the specified call |
| Runtime.Manager.Shutdown | internal/runtime/manager.go:437-457 | refines the specified call |
| Runtime.Drive | internal/runtime/manager.go:73-457 | a manager driven by any calls and faults is where the specification says, so all its invariants hold of the object |
| Overtake.TurnKeeps | internal/runtime/manager.go:153-545 | every lock-level step of a transition keeps the ownership of every core and the emptiness of the slots it writes |
| Overtake.ShutdownKeeps | internal/runtime/manager.go:437-457 | so does every step of a Shutdown, wherever it falls |
| Overtake.NoCoreLost | internal/runtime/manager.go:126-457 | one transition interleaved with any number of Shutdowns: each created core is published, held by exactly one party or closed, exactly once, at every moment |
| Overtake.SupersededKeepsMode | internal/runtime/manager.go:224-231 | once superseded, no step but the final publication of StartForwarder changes the state |
| Overtake.OffForever | internal/runtime/manager.go:485-507 | a superseded transition that is not about to publish never publishes again |
| Overtake.WindowPublishes | internal/runtime/manager.go:498-505 | a transition between check and publication publishes whatever a Shutdown did |
| Overtake.ShutdownIsFinalIff | internal/runtime/manager.go:429-457 | the manager stays off after the Shutdown, in every continuation, if and only if the Shutdown did not fall between the check and the publication |
| Overtake.ShutdownClosesAll | internal/runtime/manager.go:429-457 | outside that window every core ever created has been closed exactly once in the end |
| Solo.CallIsRun | internal/runtime/manager.go:126-140 | without interference the lock-level steps carry every call to exactly the sequential result, for every draw of faults |
| Solo.ReachWindow | internal/runtime/manager.go:180-231 | the window between check and publication is reached from every manager with a proxy |
| Solo.RaceCanLeak | internal/runtime/manager.go:224-231 | from every sound proxy-only manager a Shutdown in that window ends in VPN mode without a proxy, and the next start of proxy and forwarder loses a core |
| Leak.LosesIff | internal/runtime/manager.go:224-231 | from every sound manager, for every call overtaken by Shutdowns, once everything has ended: some later calls lose a core if and only if the last Shutdown fell between the check of StartForwarder and the publication of its forwarder |
| Leak.HarmlessRun | internal/runtime/manager.go:498-505 | after a Shutdown anywhere else, the dial window included, the manager stays stopped without a forwarder whatever the transition still does |
| Report.SuccessMeans | internal/runtime/manager.go:126-140 | with any Shutdowns in between, a call that has ended returns success if and only if it published its own core or found nothing to do |
| Report.ForwarderSuccess | internal/runtime/manager.go:224-231 | outside VPN mode, StartForwarder returns success if and only if the run reached the publication of its forwarder |
| Report.OvertakenReports | internal/runtime/manager.go:224-227 | a call overtaken by a Shutdown returns success if and only if success was decided before it, or it stood right before the deciding publication, or it had not begun and has nothing to do on a manager that is off; everywhere else it reports that it was superseded |
| Debounce.Debouncer.constructor | internal/monitor/debounce.go:16-21 | a threshold below one means one; nothing is committed yet |
| Debounce.Debouncer.Observe | internal/monitor/debounce.go:25-45 | refines the specified transition of state and change report |
| Debounce.CountsAfter | internal/monitor/debounce.go:9-14 | what the counters mean: the pending value is the last observation and count is the length of its run while it is not committed |
| Debounce.CommittedMeans | internal/monitor/debounce.go:5-8 | after every nonempty history the committed value is that of the last window of threshold equal observations, or the first observation if there is none |
| Debounce.SettledUnique | internal/monitor/debounce.go:5-8 | that value is unique, so the history determines the committed value |
| Debounce.ReportsMeans | internal/monitor/debounce.go:25-45 | a change is reported if and only if the history's value changed with the last observation |
| Policy.DecideMeans | internal/policy/policy.go:87-139 | for each action exactly when it is decided: the forwarder is started on request only and never beside an active corporate VPN, stopped on request or when that appears; a stale binding goes before a refresh; nothing is ever bound |
| Policy.NextModeMeans | internal/policy/policy.go:87-139 | the announced mode differs from the present one exactly when the forwarder is started or stopped |
| Monitor.Watcher.Poll | internal/monitor/monitor.go:139-186 | one poll refines the specified one; an event is emitted exactly for an actionable decision, and a detector error changes nothing |
| Monitor.HasAction | internal/monitor/monitor.go:188-195 | true exactly when the decision contains something to do |
| Monitor.Executor.Apply | internal/app/executor.go:1036-1106 | folding the flags and driving the manager refines the specified effect, for every action list and fault |
| Monitor.Executor.Display | internal/app/executor.go:1111-1115 | the observation is remembered as the flag that refuses new starts |
| Monitor.Executor.AdmitVpn | internal/app/executor.go:784-793 | the check of EnableVPN, on its own because the lock is released before the manager is called: a start is admitted unless the flag is set |
| Monitor.Executor.AdmitProxy | internal/app/executor.go:762-774 | the check of EnableProxy: which manager call follows |
| Monitor.Executor.Advance | internal/app/executor.go:794-799 | the next manager call of an admitted request, and what is left of it |
| Monitor.Daemon.Poll | internal/monitor/monitor.go:139-186 | a poll of the daemon refines the specified event: display, decision, and an event in the channel |
| Monitor.Daemon.Take | internal/app/executor.go:1024-1033 | the executor receives the oldest event of the channel, on its own because polls may fall before it is applied |
| Monitor.Daemon.Enact | internal/app/executor.go:1036-1103 | the received event is applied, refining the specified event |
| Monitor.Daemon.Show | internal/app/executor.go:1104-1106 | its observation is displayed |
| Monitor.Daemon.Turn | internal/app/executor.go:784-799 | an admitted request makes its next call beside everything else |
| Monitor.Executor.ProxyBoundToPhysical | internal/app/executor.go:1140-1143 | bound means proxy-only with a nonempty binding |
| Monitor.Executor.Mode | internal/app/executor.go:1155-1161 | VPN exactly in the manager's VPN state |
| Monitor.Serve | cmd/singctl/main.go:1115-1125 | monitor, channel, executor and requests as objects, in any interleaving, are in the state of the specified system, so its theorems hold of them |
| Coexist.ApplyFailsClosed | internal/app/executor.go:1036-1106 | applying "fail closed" or "stop forwarding" ends without a forwarder under every fault and every other requested action, and no applied decision starts one |
| Coexist.PollKeeps | internal/policy/policy.go:87-139 | a poll keeps the invariant: when it leaves "active" committed beside VPN mode, the order to stop is outstanding |
| Coexist.RunKeepsInv | internal/monitor/monitor.go:139-186 | the invariant in every interleaving: a committed active VPN beside our own means a publication after the last poll or a stop order in the channel or being applied |
| Coexist.TunnelBesideCisco | internal/policy/policy.go:115-118 | in every interleaving of polls, executor and requests, under all faults: once the last threshold observations, or all, saw the corporate VPN, a forwarder is up only if it was published after the last poll or the order to stop it is in the channel or being applied; when no event is in the channel or being applied, if and only if the former |
| Coexist.NextPollCloses | internal/app/executor.go:1036-1106 | whatever is up, the next poll that leaves "active" committed closes it once the outstanding events are worked off, whatever fails |
| Effects.PollOrdersMeans | internal/monitor/monitor.go:139-186 | after every run, what the next successful poll orders: in VPN mode to stop beside an active corporate VPN, else to refresh when the interface moved since it was last named; outside it to release a binding, else to refresh when the committed state flips; nothing else, and no event then |
| Effects.RefreshHappens | internal/app/executor.go:1092-1102 | whatever else is ordered and whatever fails, an ordered refresh closes the running proxy, exactly once |
| Effects.RefreshResumes | internal/app/executor.go:1092-1102 | it resumes a suspended manager exactly when the proxy starts |
| Effects.RefreshAlone | internal/app/executor.go:1092-1102 | alone it keeps mode, binding and forwarder if one of its dials starts, and stops the manager otherwise |
| Effects.StopHappens | internal/app/executor.go:1036-1091 | the order to stop closes the forwarder and leaves an unbound proxy exactly when one of the dials starts |
| Effects.UnbindHappens | internal/app/executor.go:1036-1102 | the order to release a binding leaves no bound proxy, and proxy-only mode exactly when the first dial starts |
| Effects.BindHappens | internal/app/executor.go:1036-1102 | the order to bind goes to the observed interface, else to the probed one; without either nothing happens |
| Effects.VpnServed | internal/app/executor.go:784-804 | an admitted request for VPN mode, without faults and undisturbed, ends in VPN mode on the probed interface |
| Effects.ProxyServed | internal/app/executor.go:762-774 | a request for proxy-only mode leaves VPN mode whatever fails, and leads to a proxy when the next dial starts |
| Shut.StaysClosedIff | internal/app/executor.go:784-804 | while every observation sees the corporate VPN the forwarder stays closed, for all requests and faults, if and only if it is closed, no admitted start is on its way, the flag is set, and no event still to be displayed predates it |
| Shut.LateStartExample | internal/app/executor.go:784-804 | a start admitted before the first poll publishes after it: all observations active, no event outstanding, forwarder up |
| Shut.StaleFlagExample | internal/app/executor.go:1104-1116 | displaying an older applied event clears the flag, so that a start requested after an active poll is admitted |
| Settle.CalmPoll | internal/monitor/monitor.go:139-186 | once one poll has seen the network as it is, a poll that finds no event in the channel or being applied emits only when it commits the pending flip |
| Settle.Settles | internal/monitor/monitor.go:139-186 | from every reachable state without a request on its way, while the network does not change and the user requests nothing, at most two polls that find no event in the channel or being applied emit one, all among the first threshold successful polls, whatever fails and however slow the executor is |
| Watchdog.PressureWindow.Observe | internal/app/watchdog.go:132-153 | the in-place update refines the specified window; it reports exactly its leaks |
| Watchdog.SinceMeans | internal/app/watchdog.go:127-130 | since holds the time of the earliest sample that starts an unbroken stretch of its resource |
| Watchdog.LeakMeans | internal/app/watchdog.go:125-153 | a leak is reported if and only if one single resource was at or over its positive limit in every sample of a gapless stretch ending now and spanning SustainedFor |
| Padding.TokenishPadding | internal/xhttp/padding.go:62-91 | the loop computes the specified adjustment within its 150 rounds |
| Padding.AppendAddsOne | internal/xhttp/padding.go:77-84 | an append adds exactly one compressed byte |
| Padding.RemovalDropsAtMostOne | internal/xhttp/padding.go:89 | a removal drops at most one compressed byte and adds none |
| Padding.NearForEveryDraw | internal/xhttp/padding.go:59-91 | for every draw the result is within two bytes of a target from -1 to 608 |
| Padding.GuaranteedTargets | internal/xhttp/padding.go:59-91 | these are exactly the targets for which every base62 draw ends within tolerance |
| Padding.ResultExact | internal/xhttp/padding.go:69-91 | for every draw, target and number of rounds: a near draw is kept; a short one gets one of X and Z in turn for every missing byte; a long one is cut to its longest prefix that is not too long, as far as the rounds reach |
| Base64.DialectsAgree | internal/sub/sub.go:110-113 | any two of the four decoders that accept a text return the same bytes |
| Base64.TrialOrderIrrelevant | internal/sub/sub.go:110-122 | the outcome does not depend on the order in which the decoders are tried |
| Base64.FirstAcceptedMeans | internal/sub/sub.go:104-124 | a result is some decoder's output that looks like links; none means that no decoder has one |
| Base64.DecodeBase64 | internal/sub/sub.go:104-124 | strips blanks and tries the four decoders in the source's order |
| Base64.RawAccepts | internal/sub/sub.go:111-112 | an unpadded decoder accepts exactly the alphabet texts whose length is not one modulo four |
| Base64.PaddedAccepts | internal/sub/sub.go:111-112 | a padded decoder accepts exactly whole groups with at most two padding signs at the end |
| Base64.RoundTrip | internal/xhttp/client.go:487 | decoding an encoded payload returns it |
| Base64.EncodeDecoded | internal/sub/sub.go:110-113 | for every accepted text, canonical or not, encoding what was decoded gives the text back apart from left-over bits, so the decoded bytes are determined |
| Base64.PaddedIsRaw | internal/sub/sub.go:110-113 | a padded decoder reads what the unpadded one reads without the padding |
| Base64.LineBreaksIgnored | internal/sub/sub.go:104-113 | a line break anywhere changes nothing in any dialect |
| Base64.TestVectors | internal/sub/sub.go:110-113 | the short test vectors of section 10 of RFC 4648 |
| Base64.AlphabetsDiffer | internal/sub/sub.go:110-113 | the two letters in which the alphabets differ, each rejected by the other |
| Chunks.ChunkEncoded | internal/xhttp/client.go:486-498 | terminates for every size range and draw; nonempty pieces, sized as the range allows, whose concatenation is the encoding |
| Chunks.AttachPacketPayload | internal/xhttp/client.go:465-482 | in body, headers or cookies the receiver recovers the payload, and nothing else of the request changes |
| Chunks.CollectedFrom | internal/xhttp/client.go:467-474 | collecting the numbered pieces until one is missing gives back their concatenation |
| Links.OrderIrrelevant | internal/protocol/protocol.go:171-190 | the order of the schemes in the expression never changes what is found |
| Links.SchemeUnique | internal/protocol/protocol.go:171-190 | at most one scheme stands before `://` at a position |
| Links.NoStartInside | internal/sub/sub.go:53 | no link starts inside the scheme of another |
| Links.StartMeans | internal/protocol/protocol.go:171-190 | a link starts exactly at a scheme with its separator that is not glued to a preceding word character |
| Links.CaseIrrelevant | internal/protocol/protocol.go:171-190 | letter case decides nothing |
| Links.ScanMeans | internal/sub/sub.go:130 | the scan returns every start of a link, ascending, and nothing else |
| Links.SplitLinks | internal/protocol/parseall.go:79-102 | both splitters' loops compute the specified pieces; no piece is empty |
| Links.SplittersAgree | internal/sub/sub.go:129-148 | the two splitters agree on a text if and only if some link starts in it |
| Links.PieceIsLink | internal/sub/sub.go:134-146 | every piece starts with its only start and ends in no separator; it is a clean link unless it ends in a vertical tab or form feed |
| Links.JoinThenSplit | internal/sub/sub.go:126-148 | any links joined by any runs of newlines, spaces, commas and semicolons are split into the same list |
| Links.SplitIsStable | internal/protocol/parseall.go:66-102 | the pieces of any text, joined by any separators, are split into the same pieces, unless some link is followed by a vertical tab or form feed and then only separators and spaces with a comma or semicolon among them |
| Links.StuckPieces | internal/protocol/parseall.go:96-100 | some piece ends in a space if and only if the text has such a link |
| Probe.Cache.Enter | internal/netext/controller_darwin.go:39-58 | the first critical section of a call refines the specified turn |
| Probe.Cache.Finish | internal/netext/controller_darwin.go:60-66 | recording a result refreshes the time only for the current generation |
| Probe.Cache.Invalidate | internal/netext/controller_darwin.go:81-86 | forgets the time and starts a new generation |
| Probe.RunKeepsInv | internal/netext/controller_darwin.go:39-86 | the invariant of flights, generations and results holds in every interleaving |
| Probe.OneProbeAtATime | internal/netext/controller_darwin.go:46-58 | at most one probe runs at a time |
| Probe.FastPathIsFresh | internal/netext/controller_darwin.go:41-45 | a fast return carries the latest finished probe, which started after the last invalidation and finished within the time-to-live |
| Probe.EnterIff | internal/netext/controller_darwin.go:39-58 | in every reachable state a call returns at once if and only if the last finished probe started after the last invalidation and is younger than the time-to-live; else it joins if and only if a probe is running; else it starts one |
| Probe.WaiterGetsLaterResult | internal/netext/controller_darwin.go:46-54 | a waiter returns a result of a probe that finished after its call began |
| Probe.WaiterIsServed | internal/netext/controller_darwin.go:46-66 | the flight a waiter waits for is closed or led by a caller |
| Probe.JoinedIsFreshIff | internal/netext/controller_darwin.go:46-48 | the joined probe started after the last invalidation if and only if its generation is current |
| Probe.ReturnedIsFreshIff | internal/netext/controller_darwin.go:46-54 | the value a waiter returns comes from the joined probe or a later one; that probe started after the last invalidation before the call if and only if it is a later one or the joined one did |
| Probe.JoinedCanBeStale | internal/netext/controller_darwin.go:46-54 | a run in which a waiter gets a result older than an invalidation before its call |
| Singbox.GenerateProxyConfig | internal/singbox/generate.go:268-387 | the loops compute the specified configuration for every profile list; where it sends traffic: `Singbox.ProxyRelays` |
| Singbox.FirewallRouteRules | internal/singbox/generate.go:131-157 | usable rules become routes in order; the block outbound is added exactly when one of them blocks |
| Singbox.PlaceServers | internal/singbox/generate.go:291-306 | nodes, tags and boot hosts of all profiles, sorted by kind |
| Singbox.NonLiteralHosts | internal/singbox/generate.go:209-217 | keeps exactly the hosts that need a resolver |
| Singbox.TagsUnique | internal/singbox/generate.go:287-328 | outbound and endpoint tags are unique for every profile list |
| Singbox.ReferencesDefined | internal/singbox/generate.go:307-384 | every tag that routes, groups, detours and DNS rules refer to is defined |
| Singbox.BlockIffNeeded | internal/singbox/generate.go:131-157 | the block outbound exists if and only if some usable rule blocks, if and only if some route uses it |
| Singbox.ProxyRelays | internal/singbox/generate.go:347-384 | the exact routing decision of the proxy for all traffic: the first matching firewall rule decides; else private networks and Russian domains go direct; everything else goes to the proxy |
| Singbox.ProxyGroups | internal/singbox/generate.go:290-322 | every profile is rendered where its kind belongs; one profile is "proxy" itself, several are chosen among by a selector over exactly all of them and the group of all of them, its default |
| Singbox.FirewallIsLocal | internal/singbox/generate.go:349-357 | firewall rules change the decision only for traffic that some usable rule matches |
| Singbox.FirewallAddsOnly | internal/singbox/generate.go:323-328 | otherwise the configuration is the one without firewall |
| Singbox.BootHostsRuled | internal/singbox/generate.go:336-346 | every domain a server dials, and the probe host, is answered by the DNS server without detour |
| Singbox.OthersThroughProxy | internal/singbox/generate.go:329-346 | a name is resolved without the proxy if and only if a server dials it or the probe fetches it; every other name is resolved through the proxy |
| Singbox.Acyclic | internal/singbox/generate.go:274-346 | no outbound, host or DNS server ever depends on itself |
| Singbox.GenerateForwarderConfig | internal/singbox/generate.go:410-469 | the loops compute the specified forwarder configuration |
| Singbox.ForwarderRelays | internal/singbox/generate.go:410-469 | DNS on the tunnel is hijacked; exactly private traffic and traffic to literal server addresses stays direct; everything else goes to the local proxy |
| Singbox.ForwarderClosed | internal/singbox/generate.go:434-467 | its tags are unique and its references defined |
| Distinct.DedupeLoop | internal/singbox/generate.go:239-250 | the loop with a seen set computes the specified list |
| Distinct.DedupeMeans | internal/singbox/generate.go:236-250 | exactly the nonblank elements, each once, in the order of first occurrence |
| Subscriptions.Executor.EffectiveLinks | internal/app/subscriptions.go:62-85 | the loops compute the trimmed distinct links |
| Subscriptions.EffectiveLinksMean | internal/app/subscriptions.go:57-85 | exactly the nonblank trimmed links of user and subscriptions, none twice, by first occurrence |
| Subscriptions.ManualLinksFirst | internal/app/subscriptions.go:57-84 | every link the user entered precedes every link only a subscription supplies |
| Subscriptions.Executor.FetchAll | internal/app/subscriptions.go:187-201 | one outcome per record, the number of changed records, and whether any fetch failed |
| Subscriptions.FetchKeepsUrl | internal/app/subscriptions.go:224-244 | no outcome changes a record's URL, and a failed one leaves its links |
| Subscriptions.ChangesCount | internal/app/subscriptions.go:187-201 | the reported number is that of the records whose fetch succeeded and brought a different joined text |
| Subscriptions.Executor.Merge | internal/app/subscriptions.go:203-213 | the nested loops replace the first record of every URL by the last outcome for it |
| Subscriptions.MergedKeepsUrls | internal/app/subscriptions.go:204-212 | a merge keeps the URLs found at merge time in their order: nothing is resurrected, nothing dropped |
| Subscriptions.RefreshMeans | internal/app/subscriptions.go:171-222 | whatever was added or removed during the fetches, repeated URLs included: the first record of a URL gets the last outcome fetched for it, every other record stays |
| Subscriptions.FailedFetchReverts | internal/app/subscriptions.go:165-170 | after a failed fetch the subscription is the snapshot's record with the error, whatever the list held at merge time |
| Subscriptions.FetchedReplaces | internal/app/subscriptions.go:224-244 | after a successful fetch the subscription holds what was fetched, its time and no error; a blank title keeps the one before |
| Subscriptions.OverlapLosesLinks | internal/app/subscriptions.go:171-222 | two overlapping refreshes in which the failing one merges last lose the new links of the other |
| Subscriptions.JoinedTellsApart | internal/app/subscriptions.go:190-198 | comparing joined texts detects every change of nonblank one-line links |
| Processes.AppRoot | internal/proclist/proclist.go:94-111 | ends on every parent map, cyclic ones included, at the specified root |
| Processes.RootIsTopmost | internal/proclist/proclist.go:91-111 | the root is reached from parent to parent within the application, and nothing unvisited of it is above |
| Processes.RootIff | internal/proclist/proclist.go:91-111 | a process is the root if and only if some chain of parents without repetition ends there, each known, not 0 or 1, no launcher and of the same application, and the parent beyond it is not such or has been passed |
| Processes.RootIdempotentIff | internal/proclist/proclist.go:91-111 | the root of a root is itself if and only if climbing from the process enters no cycle of two or more processes |
| Processes.AcyclicRoot | internal/proclist/proclist.go:91-111 | on every parent map without cycles the root has no parent in its application and is its own root |
| Processes.TwoCycle | internal/proclist/proclist.go:91-111 | two processes that are each other's parent are each other's root |
| Processes.DedupSortPorts | internal/proclist/proclist.go:308-322 | in place, over the array it reads: the front becomes the ascending list of the distinct ports |
| Processes.SortMeans | internal/proclist/proclist.go:320 | sorting keeps the elements of a list without repetitions and orders them |
| Processes.GroupApps | internal/proclist/proclist.go:117-161 | every process goes to exactly one application; each lists exactly the distinct ports of its members and counts its distinct other members |
| ListingOrder.NamedRoots | internal/proclist/proclist.go:140-144 | when every process has a name, each process's root is the one the given names determine |
| ListingOrder.OrderIrrelevant | internal/proclist/proclist.go:112-144 | then any other order of the same processes gives each the same root and the same applications in all |
| ListingOrder.OrderMatters | internal/proclist/proclist.go:140-144 | without a name they do |
| ListingOrder.OrderFreeIff | internal/proclist/proclist.go:117-144 | for distinct pids: every order of the list gives each process the same application if and only if the application of no listed process stops right below a listed, still unnamed process of the same application |
| Rules.ClassifyRules | internal/sysproxy/pac.go:136-159 | the loop computes the three classes of a rule list, in order and without repeated domains |
| Rules.ClassifyMeans | internal/sysproxy/pac.go:120-159 | some rule of the list matches a host if and only if some classified entry does |
| Pac.GenerateInclude | internal/sysproxy/pac.go:29-52 | emits the specified include program |
| Pac.GenerateExclude | internal/sysproxy/pac.go:60-118 | emits the specified exclude program |
| Pac.MatchesDomainSuffix | internal/sysproxy/pac.go:308-328 | true exactly when the host is one of the domains or below one |
| Pac.MatchesRuleSet | internal/sysproxy/pac.go:280-301 | true exactly when some rule of the list matches |
| Pac.MatchesExcludeDirect | internal/sysproxy/pac.go:253-268 | direct exactly when no proxy rule matches and a direct rule or the bare-host rule does |
| Pac.MatchesIncludeProxy | internal/sysproxy/pac.go:273-275 | proxied exactly when some proxy rule matches |
| Pac.SuffixWalkMeans | internal/sysproxy/pac.go:173-177 | the script's suffix walk finds a key exactly when some shorter parent domain is one |
| Pac.TableMeans | internal/sysproxy/pac.go:165-178 | the domain table with its walk matches exactly the domains and their subdomains |
| Pac.GlobsAgree | internal/sysproxy/pac.go:330-337 | script globs and Go globs of stars and question marks agree on every host without a slash |
| Pac.RuleBlockMeans | internal/sysproxy/pac.go:165-235 | a block of rules returns its verdict exactly for the hosts its list matches and otherwise falls through |
| Pac.IncludePreservesMeaning | internal/sysproxy/pac.go:25-52 | the include script proxies exactly what the reference matcher proxies |
| Pac.ExcludePreservesMeaning | internal/sysproxy/pac.go:54-118 | the exclude script sends direct exactly what the reference matcher does, and proxy rules beat direct ones |
| Pac.CanonicalAgrees | internal/sysproxy/pac.go:207-213 | canonical dotted quads and hosts that do not look like one satisfy the address condition |
| Pac.DisagreeingHosts | internal/sysproxy/pac.go:207-213 | the hosts that do not meet it are exactly four octets of which some has a leading zero |
| Pac.AddressConditionIsExact | internal/sysproxy/pac.go:293-299 | script and matcher agree on a host under every rule list without bracket or escape globs if and only if the host meets that condition |
| Ini.ParseINI | internal/sysproxy/ini.go:134-226 | the line loop computes the specified parse, with the number of the offending line |
| Ini.PrintINI | internal/sysproxy/ini.go:256-287 | the builder writes exactly the specified lines |
| IniMeans.AcceptedIff | internal/sysproxy/ini.go:134-226 | a text is accepted if and only if no line is at fault, by kind, and some line sets the mode; otherwise the first line at fault is reported by number and kind, or the missing mode |
| IniMeans.AcceptedMeans | internal/sysproxy/ini.go:126-226 | every key of an accepted text has the value of the last line that sets it, or is empty or zero, and bare host names then bypass the proxy; the rules are the entries of their sections in order |
| Ini.AtoiItoa | internal/sysproxy/ini.go:185-205 | printed integers are read back |
| Ini.LinesUnlines | internal/sysproxy/ini.go:140-143 | written lines are scanned as written |
| Ini.PrintThenParse | internal/sysproxy/ini.go:252-287 | parsing the printed text gives the config back, rules trimmed and blank ones dropped |
| Ini.RoundTrip | internal/sysproxy/ini.go:252-287 | the identity for trimmed, nonblank rules |
| Ini.RoundTripRoutesAlike | internal/sysproxy/ini.go:252-287 | otherwise the config that is read back still routes every host alike |
| IniExact.ParsedIsWellFormed | internal/sysproxy/ini.go:126-226 | parsing yields only configs with a mode, trimmed fields without comment signs, valid rules and integers in range |
| IniExact.RoundTripIff | internal/sysproxy/ini.go:134-287 | a config is read back as printed if and only if it is of that form and its lines fit the scanner |
| IniExact.ParsePrintParse | internal/sysproxy/ini.go:134-287 | printing and parsing a parsed config changes nothing, except when its host or service overfills the printed line |
| SysProxy.PacServer.Prepare | internal/sysproxy/pacserver.go:46-73 | binds a candidate beside the live listener, at the wanted port or one of the system's choice, unless that listener already serves; a failed bind changes nothing |
| SysProxy.PacServer.Commit | internal/sysproxy/pacserver.go:107-124 | afterwards exactly the candidate's listener is open and serves the new script at the announced address |
| SysProxy.PacServer.Abort | internal/sysproxy/pacserver.go:126-130 | afterwards exactly the old listener is open |
| SysProxy.PacServer.Close | internal/sysproxy/pacserver.go:174-183 | no listener is left, even when closing reports an error |
| SysProxy.Manager.constructor | internal/sysproxy/manager.go:40-46 | a new manager serves nothing and is sound exactly when no service carries an address of a previous process |
| SysProxy.Manager.DisableService | internal/sysproxy/manager.go:207-218 | success means the service is cleared; after a failing call the later ones are not made |
| SysProxy.Manager.PrepareListener | internal/sysproxy/manager.go:138-155 | succeeds exactly when a listener can be had; only the taken legacy port falls back to a port of the system's choice |
| SysProxy.BypassMeans | internal/sysproxy/manager.go:336-348 | the bypass list holds exactly the normalised nonblank direct entries that are no networks, domains first and once each, then wildcards |
| SysProxy.PacRoutes | internal/sysproxy/pac.go:14-23 | the script of every config decides every host as its rules do, in include and in exclude mode |
| SysProxy.Manager.Repoint | internal/sysproxy/manager.go:181-199 | succeeds exactly when every forward call does; then the new service carries the new address and bypass list and the old one is cleared |
| SysProxy.Manager.PointBack | internal/sysproxy/manager.go:160-169 | succeeds exactly when its calls do; then the old service points at the live script again and the new one is cleared |
| SysProxy.Manager.Rollback | internal/sysproxy/manager.go:157-177 | succeeds exactly when its own calls do; then the old service, or none, is back on the live address |
| SysProxy.Manager.Switch | internal/sysproxy/manager.go:157-199 | succeeds exactly when every forward call does; otherwise everything is put back, or not, exactly as the rollback's replies decide |
| SysProxy.Manager.DisableServices | internal/sysproxy/manager.go:113-128 | clears the new service and the one owned so far, exactly when all the calls made succeed |
| SysProxy.Manager.ApplyOff | internal/sysproxy/manager.go:112-132 | "off" is adopted if and only if both services are cleared and the server is closed; which reply decides each other outcome |
| SysProxy.Manager.Adopt | internal/sysproxy/manager.go:200-204 | after the commit the new config is in force, and its address the only one in use if no other service carried one |
| SysProxy.Manager.ApplyOn | internal/sysproxy/manager.go:133-204 | applied if and only if a listener can be had and every forward call succeeds, and then in force; the legacy pin is given up exactly when its port is taken; otherwise config, address and served script are unchanged, and the system stays sound unless the rollback fails |
| SysProxy.Manager.Apply | internal/sysproxy/manager.go:103-205 | the exact condition on the outside replies under which it succeeds, and which reply decides every other outcome; what is served afterwards decides every host as the applied rules do; under every fault but those of rollback and close at most one service carries our script, it is the configured one, and its address is answered; a failed include or exclude restores the old service; other services are untouched; from any state an applied config is in force and clears up dead addresses on the services it visits |
| SysProxy.Manager.Restore | internal/sysproxy/manager.go:244-255 | a persisted "off" touches nothing, so dead addresses remain exactly when there were any; any other restored config is in force and leaves none on the services it visits |
| SysProxy.Boot | internal/sysproxy/manager.go:220-255 | a restarted daemon over any network it finds: a restored include or exclude leaves no dead address if and only if no other service carried one, a restored "off" if and only if none did |
| SysProxy.ApplyAll | internal/sysproxy/manager.go:96-205 | in any sequence of Apply calls from a sound state no dead script address without failing rollbacks or closes; whatever failed before, a valid config is applied as soon as nothing fails, and a last successful call is in force |

## Left out

* Overlapping transitions of the manager: one transition and any number of Shutdowns are interleaved; two transitions at once are not.
* Timeouts: a caller that stops waiting changes nothing the manager does, so `transition` is its work; liveness of the cores is not claimed.
* The generation and packet counters are unbounded; the 64-bit wrap-around of the source is not modelled.
* NotifyForwarderExited is StopForwarder under another label.
* Uplink.Conservation: one Write call at a time, as `net.Conn` users of this type make; concurrent writers are not interleaved.
* The download half of the connection (`pendingReader`) and the stream modes of the dialer.
* Coexist.TunnelBesideCisco: the manager calls of the executor and of the requests are single events, as are the reads of one poll; calls that overlap each other inside the manager are not modelled. A poll may see a StartForwarder halfway, and any other call as not yet done. The channel is unbounded, which allows every behaviour of the bounded one; a poll that blocks on a full one counts as finished.
* Runs before a manager is loaded, and profile reloads that replace it; `Policy.Decide` with user intents is modelled but not called by the loop, as in the source.
* Watchdog: the sampling, the cooldown file and the exit; a sample at Go's zero time, which the source would take for "unset".
* Padding: the sending side's placement of the padding; the ceiling of target / 0.8 is computed in integers, which the floating-point expression agrees with for every target of realistic size.
* Base64.DecodeBase64: the test for a link in the decoded bytes is a parameter.
* Links.JoinThenSplit: ASCII text; the case folding of the regular expression also maps two non-ASCII letters to `s` and `k`, and trimming also removes two non-ASCII spaces. The schemes are lower-case letters and digits, as all registered ones are.
* Share links mixed with whole configuration files, and the per-protocol parsers.
* Singbox: rendering of the nodes, log, inbound and Clash API sections, port defaults of the proxy; which resolver sing-box itself picks for a dial beyond the DNS rules of the configuration.
* Singbox.ForwarderRelays: a literal address is routed as the text `host/32` or `host/128`; an IPv4-mapped IPv6 literal gets the `/32` of the source.
* Subscriptions: persisting, reloading, adding and removing; a concurrent change is any list at merge time.
* Processes.GroupApps: the final display order of applications and the display name of unnamed ones; `lsof` and `ps` parsing; which names are launchers and which belong together are parameters, so the stripping of helper suffixes is not modelled.
* Rules.ClassifyMeans: addresses and networks are IPv4 in dotted form; IPv6 hosts and IPv4-mapped networks are not modelled. Lower-casing and trimming act on ASCII.
* Pac.MatchesRuleSet: bracket classes and escapes of globs are read literally, and IPv6 hosts match no network, as the lines for `Rules.ClassifyMeans` and `Pac.GlobsAgree` say.
* Pac.GlobsAgree: globs of stars and question marks; the bracket classes and escapes of the source's matcher, which scripts do not have, are not modelled. Hosts contain no slash, as the source presumes.
* Pac: the script as text (quoting, alignment, comments) and names every JavaScript object inherits; a domain table is a set.
* Ini: legacy YAML and plain domain lists, the import merge, and the wording of errors; the parser's result is the error kind and its line.
* SysProxy: the LaunchAgent diagnosis and reclaiming a port; ports answered by other processes; closing the old listener while committing is taken to succeed, as the source ignores its result.
* Command line, control protocol, notifications, the macOS application and packaging.
