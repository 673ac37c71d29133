# Noctaya: a verified model of the demand protocol and the operator's ordering logic

Noctaya lets an accelerator backend scale to zero and brings it back when requests arrive. Whether it may
sleep is decided by a distributed, time-driven protocol: gateways count their requests and hold activation
leases, report their demand over a network, an aggregator sums the reports up and forgets silent gateways,
and KEDA follows the result through a stream. This project models that protocol step by step and proves what
holds in every run, for every interleaving, every delay and every crash. A second group of files does the
same for the operator: the order of its writes, runtime selection, status and the crash-safe promotion of
model artifacts.

`dafny verify dfyconfig.toml` checks everything.

## How the model is built

* **One step per critical section.** `GatewayMachine` (one gateway process), `Probe` (the shared readiness
  probe), `Promotion` (the promotion script), `StatusWrites` (status writers) and `DemandSystem` (many
  gateways, the network, the aggregator, the streams) are state machines. A step is one section under a
  mutex, one atomic operation, one clock reading or one channel operation. Clock samples are separate steps,
  so they may be stale when they are used, as in the code. Theorems quantify over all runs.
* **Objects that change in place are classes.** `Mailboxes.Subscriptions`, `Aggregator.DemandAggregator`,
  `GatewayProcess.Gateway`, `Waits.Response` with its two wrappers, `Reporter.DemandReporter`, `Promotion.CacheVolume`,
  `Cluster.ObjectStore` and `StatusWrites.Client` hold the fields the source updates; their methods are
  specified by functions that the machines use as well. `Subscriptions.Publish`, `DemandAggregator` and
  `Client` let others act between any two of their operations.
* **Time** is an integer. Clock readings, the outcome of probes, what the network delivers, and when a
  process crashes are inputs or unrestricted choices.

Files: `Mailboxes`, `Activation`, `GatewayMachine`, `GatewayInvariant`, `GatewayTheorems`, `GatewayRuns`,
`GatewayReports`, `Gateway`, `Waits`, `Probe`, `Reporter` (gateway); `Aggregator`, `AggregatorHistory`, `Convergence`,
`ActivityStream`, `DemandSystem`, `DemandSystemRuns` (aggregation and the whole path); `Promotion`, `Reconcile`, `ReconcileOutcome`,
`ScalerEndpoint`, `Cluster`, `Selection`, `Observation`, `Status` (operator).

## What the proofs found

These are properties one would expect that do not hold of the code. Each is shown to fail on concrete runs
or inputs, and each comes with the exact condition under which it does hold.

* **A gateway's own demand stream can miss an activation.** It is seeded with a live reading, not with the
  published value. If the demand returns to the published value before it is published again, the stream
  stays at its seed: it shows 0 while a request is waiting (`GatewayRuns.MissedActivation`). It agrees with
  the published demand exactly if the seed did or the published demand has changed since
  (`GatewayTheorems.StreamAgreement`). The aggregator seeds with its published total, so KEDA's streams on
  the aggregator always agree (`DemandSystem.StreamsAgree`).
* **The last report of a quiet gateway can be wrong.** A heartbeat that goes off after a request has
  given back its unit and before that is announced reports 0; if the next request restores the published
  value, nothing is sent again (`GatewayRuns.StaleHeartbeat`), and the aggregate is 0 while a request waits
  (`DemandSystemRuns.WaitingRequestNotCounted`). With an idle reporter and an empty mailbox the last report
  differs from the published demand exactly if it came from a heartbeat that read something else than was
  published at that moment, or from a seed as above (`GatewayReports.ReportDiffersExactly`). A heartbeat that
  goes off in a quiet gateway and finds it quiet reports the demand
  (`GatewayReports.QuietHeartbeatIsTruthful`).
* **A lease deadline can move backward**, because the clock is read before the lease mutex is taken
  (`GatewayRuns.StaleRenewalShortensLease`). A step moves it backward exactly if it is a renewal whose sample
  is older than the one stored by the latest renewal before it
  (`GatewayTheorems.DeadlineMovesBackExactly`); the stored deadline is always that latest sample plus the
  timeout (`GatewayTheorems.DeadlineIsLastSample`), and the floor lasts exactly until then
  (`GatewayTheorems.LeaseLastsExactly`).
* **Withdrawn demand can come back.** Expiry forgets sequence numbers, so a delayed copy of an old report
  counts for one more time to live (`Convergence.LateCopyRevivesDemand`), exactly if the withdrawal has
  expired (`Convergence.WithdrawalLasts`). Within a membership period sequence numbers only grow
  (`AggregatorHistory.SequenceGrowsInPeriod`).
* **Background sweeps can be seen.** The clock is read before the mutex, and a sweep that overtakes another
  operation hides a member from a query (`AggregatorHistory.OvertakingSweepIsVisible`) or lets a stale report
  in (`AggregatorHistory.OvertakingSweepRevives`). A sweep before a query or a report is invisible exactly if
  it does not read the clock later than that operation (`AggregatorHistory.HarmlessExactly`), and if that
  holds throughout, all of them are (`AggregatorHistory.SweepsDoNotMatter`).
* **Switching between one gateway and several leaves KEDA deaf for a moment.** The gateway Deployment is
  rewritten before the scaler Service is pointed to the Deployment that now hears of the demand, and a
  reconciliation may stop in between. Scaling up, the endpoint is not served at all
  (`ScalerEndpoint.ScaleUpLeavesEndpointUnserved`, `ScalerEndpoint.UnservedExactlyWhenScalingUp`); scaling
  down, it is an aggregator to which nobody reports (`ScalerEndpoint.ScaleDownLeavesEndpointDeaf`). The
  endpoint hears of the demand in every prefix of a reconciliation except exactly in these two cases
  (`ScalerEndpoint.UnheardExactlyWhenSwitching`).
* **An interrupted promotion can leave more than `.partial`**, contrary to `docs/architecture.md:123`: a
  complete destination without its marker (`Promotion.CompleteButUnmarked`) or a half-deleted one
  (`Promotion.HalfDeleted`). The model follows the code; neither is trusted. Where there was no destination,
  only the sibling is left exactly if the attempt stops before the rename (`Promotion.OnlyPartialExactly`);
  in general the destination stays as it was exactly if no step removed from it or renamed over it
  (`Promotion.LeftAloneExactly`), in particular if the attempt stops before clearing it
  (`Promotion.EarlyStopKeepsDst`).
* **An artifact with a directory in the marker's place never becomes ready**, however often it is tried
  (`Promotion.DirectoryNeverReady`), although its promotion succeeds (`Promotion.PromotedButNeverReady`). An
  artifact can become ready exactly if it holds neither that nor a symbolic link
  (`Promotion.ReadyExactly`).
* **A long gateway identity makes every report malformed** (`DemandSystemRuns.LongIdentityIsRefused`), exactly
  if it has more than 487 characters (`DemandSystem.IdentityFits`).

## Model

| member | source | states |
|---|---|---|
| `Mailboxes.Subscriptions.Publish` | internal/gateway/demand/subscriptions.go:33-53 | With receivers taking mail between any two channel operations, the second send always finds room, every box ends as if one atomic publication had happened among its receptions, an unchanged value touches nothing, and the result is true exactly on a change from 0 to positive |
| `Mailboxes.Subscriptions.Send` | internal/gateway/demand/subscriptions.go:49 | The send after the drop meets an empty channel, so it cannot block |
| `Mailboxes.Subscriptions.Subscribe` | internal/gateway/demand/subscriptions.go:55-72 | A new box with an unused id holds its seed; consistency of all boxes is kept |
| `Mailboxes.Subscriptions.Unsubscribe` | internal/gateway/demand/subscriptions.go:64-71 | Exactly that box disappears |
| `Mailboxes.RunConsistent` | internal/gateway/demand/subscriptions.go:33-72 | After every history of publications, subscriptions and receptions each box that has seen a change shows the published value, each other one its seed |
| `Mailboxes.SubscriberAgreement` | internal/gateway/demand/subscriptions.go:33-72 | A subscriber's newest value is the published one if and only if it was seeded with it or the value has changed since |
| `Mailboxes.ActivationsAreRisingEdges` | internal/gateway/demand/subscriptions.go:36-39 | The number of true results equals the number of rising edges from 0 in the published values |
| `GatewayInvariant.RunInv` | internal/gateway/proxy/activation.go:35-109 | The inductive invariant of the gateway machine in every reachable state: slots and pending count handlers, one watcher, one notifier, timed graces, and every difference between demand and published demand has somebody who will publish |
| `GatewayTheorems.NoLostPublication` | internal/gateway/proxy/demand.go:22-51 | Once notifications have drained the published demand equals the demand, except that it may still show the floor 1 after the clock removed it, and then the watcher or grace timer that will withdraw it exists; it is never too low; at quiescence they are equal |
| `GatewayTheorems.SingleWatcher` | internal/gateway/proxy/activation.go:35-100 | In every reachable state the lease is active exactly if its watcher flag is set, exactly if a watcher exists or is about to start, and there are never two |
| `GatewayTheorems.AdmissionBound` | internal/gateway/proxy/proxy.go:47-59 | In every reachable state pending and slots count exactly the handlers that own a unit, and 0 <= pending <= slots <= MaxQueue |
| `GatewayTheorems.AdmitsExactly` | internal/gateway/proxy/proxy.go:47-56 | In every reachable state a request is admitted if and only if fewer than MaxQueue handlers occupy a place |
| `GatewayTheorems.DemandCounts` | internal/gateway/proxy/demand.go:22-35 | In every reachable state the demand is the number of counted handlers, and 0 or 1 if there is none |
| `GatewayTheorems.NoDeadlock` | internal/gateway/proxy/demand.go:42-58 | In every reachable state each goroutine can go on, has ended, or waits for the clock, for mail or for a mutex whose holder can go on |
| `GatewayTheorems.ServesWhenReady` | internal/gateway/proxy/proxy.go:64-99 | In every run a handler forwards if and only if its readiness check succeeds, at once or while it waits; one that does not renews the lease next |
| `GatewayTheorems.SamplesAreReadings` | internal/gateway/proxy/activation.go:35-100 | In every run each clock sample a goroutine carries is what the clock showed at a step of its own |
| `GatewayTheorems.GraceNeverShrinks` | internal/gateway/proxy/activation.go:90-92 | The end of the ready grace never moves backward in any run |
| `GatewayTheorems.TimeoutRetirement` | internal/gateway/proxy/activation.go:80-100 | A lease ends without readiness only after the deadline stored at that moment, so no renewal is cancelled, and ending it does not change the demand |
| `GatewayTheorems.RetiresExactly` | internal/gateway/proxy/activation.go:80-100 | In every run a watcher that comes to retire the lease does so if and only if its sample has reached the deadline it finds then; it ends if it does and probes if it does not |
| `GatewayTheorems.LoneWatcherRetires` | internal/gateway/proxy/activation.go:51-64 | From every state a watcher left alone after the deadline ends the lease in four steps and owes the notification |
| `GatewayTheorems.LoneWatcherSucceeds` | internal/gateway/proxy/activation.go:59-71 | From every state a watcher before the deadline whose probe finds the backend ready ends the lease and begins the grace |
| `GatewayTheorems.LoneWatcherStartsOver` | internal/gateway/proxy/activation.go:65-77 | One whose probe does not starts over with nothing changed |
| `GatewayTheorems.LeaseKeepsDemand` | internal/gateway/proxy/activation.go:35-78 | From a renewal on, until readiness is observed, demand is at least 1 up to the oldest stored sample plus the activation timeout, whether or not the client is still there |
| `GatewayTheorems.DeadlineIsLastSample` | internal/gateway/proxy/activation.go:35-44 | In every run the stored deadline is the sample of the latest renewal plus the activation timeout |
| `GatewayTheorems.LeaseLastsExactly` | internal/gateway/proxy/activation.go:35-100 | Until readiness is observed the lease gives its floor if and only if the clock is before the latest renewal's sample plus the timeout, and demand is then at least 1 |
| `GatewayTheorems.DeadlineMovesBackExactly` | internal/gateway/proxy/activation.go:35-44 | A step of a run moves the stored deadline backward if and only if it is a renewal with an older sample than that of the latest renewal before it |
| `GatewayTheorems.GraceKeepsDemand` | internal/gateway/proxy/activation.go:88-100 | After readiness was observed demand is at least 1 for the whole grace |
| `GatewayTheorems.ReportsInRange` | internal/gateway/proxy/reporter.go:106-133 | Everything published or reported lies between 0 and MaxQueue |
| `GatewayTheorems.StreamAgreement` | internal/gateway/proxy/demand.go:53-58 | In every run a demand stream of a gateway agrees with the published demand if and only if its seed did or the published demand has changed since |
| `GatewayReports.RunRoles` | internal/gateway/proxy/reporter.go:106-125 | In every reachable state there is at most one reporter, and every mailbox that is read exists and has one reader |
| `GatewayReports.LastReport` | internal/gateway/proxy/reporter.go:106-133 | In every run an idle reporter with an empty mailbox has last reported the newest value of its mailbox or what its heartbeat read, whichever woke it last, and since that heartbeat the published demand has not moved |
| `GatewayReports.ReportDiffersExactly` | internal/gateway/proxy/reporter.go:106-133 | That report differs from the published demand if and only if the heartbeat read another demand than was published at that moment, or the mailbox still shows a seed that was not the published value |
| `GatewayReports.ReportShowsDemandExactly` | internal/gateway/proxy/reporter.go:106-133 | In a quiet gateway the last report is the demand if and only if neither is the case |
| `GatewayReports.QuietHeartbeatIsTruthful` | internal/gateway/proxy/reporter.go:116-117 | In every run a heartbeat that goes off in a quiet gateway and finds it quiet until the reporter is idle again reports the demand |
| `GatewayReports.WithdrawsLast` | internal/gateway/proxy/reporter.go:118-122 | In every run a reporter that is asked to stop reports 0 last, and nothing is ever reported after that |
| `GatewayRuns.MissedActivation` | internal/gateway/proxy/demand.go:53-58 | A reachable quiet state in which a stream's newest value is 0 although demand and published demand are 1 |
| `GatewayRuns.StaleHeartbeat` | internal/gateway/proxy/reporter.go:116-117 | A reachable quiet state with demand 1, published demand 1, an idle reporter, an empty mailbox and last report 0 |
| `GatewayRuns.StaleRenewalShortensLease` | internal/gateway/proxy/activation.go:35-44 | A reachable renewal that moves the stored deadline backward |
| `GatewayProcess.Gateway.constructor` | internal/gateway/proxy/gateway.go:60-103 | Exactly the settings that are not positive are replaced by their defaults; afterwards all are positive |
| `GatewayProcess.Gateway.Demand` | internal/gateway/proxy/demand.go:22-35 | The pending count, or the floor of one; zero exactly if nothing is pending and neither lease nor grace holds |
| `GatewayProcess.Gateway.NotifyDemandChange` | internal/gateway/proxy/demand.go:42-51 | The published value becomes the demand and subscribers stay consistent |
| `GatewayProcess.Gateway.ChangePending` | internal/gateway/proxy/demand.go:37-40 | The count changes by delta and the resulting demand is published |
| `GatewayProcess.Gateway.SubscribeDemand` | internal/gateway/proxy/demand.go:53-58 | The subscriber is seeded with the live demand, the published value is untouched |
| `GatewayProcess.Gateway.BeginActivation` | internal/gateway/proxy/activation.go:35-49 | The lease is renewed from the sample, a watcher is asked for exactly if there was none, and at least 1 is published unless the new deadline has already passed |
| `GatewayProcess.Gateway.FinishActivation` | internal/gateway/proxy/activation.go:80-100 | The lease ends exactly on readiness or if the stored deadline has passed at the sample; readiness arms the grace and publishes at least 1 while it lasts; a lease that is kept publishes nothing |
| `GatewayProcess.Gateway.Reject` | internal/gateway/proxy/proxy.go:114-119 | 503 with Retry-After 10, counted once |
| `GatewayProcess.Gateway.Serve` | internal/gateway/proxy/proxy.go:46-112 | The slot and the pending unit are given back; a status is committed at most once and exactly the committed status is recorded; nothing is recorded exactly if the client left before a commit; 429 with Retry-After 5 exactly on a full queue; every cold admitted request renews the lease; forwarded exactly if the backend was seen ready by this handler; the wait ended as its last round shows; the body is in every case what the client should be sent: the error text, the heartbeats due, the stream error, the backend's answer |
| `GatewayProcess.Gateway.Admitted` | internal/gateway/proxy/proxy.go:61-112 | The same for the part between admission and release |
| `GatewayProcess.Gateway.Await` | internal/gateway/proxy/proxy.go:71-98 | The wait, held in a stream if one can be opened: its outcome is what the last round shows, and exactly the heartbeats due are sent |
| `GatewayProcess.Gateway.GiveUp` | internal/gateway/proxy/proxy.go:73-97 | After a timeout 503 with Retry-After 10, or the stream error if a stream is open; after the client has left nothing more; exactly the committed status is recorded |
| `GatewayProcess.Gateway.Forward` | internal/gateway/proxy/proxy.go:104-111 | The status recorded is the one the client has: 200 after a committed stream, the backend's otherwise |
| `Waits.WaitForBackend` | internal/gateway/proxy/activation.go:162-180 | Ends within timeout/retry + 2 rounds; only the last round decides; ready, timed out and client closed if and only if that round says so; a timeout is never early and never hides a readiness that was seen |
| `Waits.HoldWithHeartbeat` | internal/gateway/proxy/activation.go:111-153 | Commits 200 exactly once and exactly if the client is there and can be flushed to; the same bound; each of the three results if and only if the last round says so, with a heartbeat that cannot be written as a reason for client closed; the body grows by exactly the heartbeats that were due and could be written |
| `Waits.HeartbeatSpacing` | internal/gateway/proxy/activation.go:140-146 | Heartbeats are at least an interval apart |
| `Waits.NeverOverdue` | internal/gateway/proxy/activation.go:140-146 | No round goes to sleep with a heartbeat overdue |
| `Waits.CommittedWriter.WriteHeader` | internal/gateway/proxy/proxy.go:139-144 | The status of the backend's answer is dropped after a stream has been committed |
| `Waits.StatusRecorder.WriteHeader` | internal/gateway/proxy/proxy.go:152-160 | The status recorded is the one passed on, and it is the committed one if nothing was committed before |
| `Probe.SingleFlight` | internal/gateway/proxy/activation.go:182-213 | In every reachable state at most one probe is in flight, the shared channel exists exactly while some caller is probing, and whoever waits for an unfinished probe waits for that one |
| `Probe.ProbeRate` | internal/gateway/proxy/activation.go:182-213 | Even with stale samples, probes begun within any window number at most 1 + window/RetryInterval |
| `Probe.CachedAnswer` | internal/gateway/proxy/activation.go:184-190 | A cached answer is the result of the latest completed probe, which ended less than a retry interval before the caller's sample |
| `Probe.ProberAnswer` | internal/gateway/proxy/activation.go:200-211 | In every run the caller that ran the probe answers what it found, and exactly that is remembered with its time |
| `Probe.WaiterAnswer` | internal/gateway/proxy/activation.go:191-198 | In every run a caller that waits for another's probe answers false, and only because its own request ended, or starts over once that probe has finished |
| `Probe.ProbesWhenStale` | internal/gateway/proxy/activation.go:184-202 | In every run a caller probes if and only if the last probe ended a retry interval or more before its sample, or there was none, and none is in flight; it waits if one is, and answers from the cache otherwise |
| `Probe.ReadyWasProbed` | internal/gateway/proxy/activation.go:182-213 | In every run nobody is told that the backend is ready unless a probe has found it so |
| `Probe.SampleIsOwn` | internal/gateway/proxy/activation.go:184 | In every run a caller's sample is a clock reading it made itself earlier in this call |
| `Reporter.DemandReporter.Send` | internal/gateway/proxy/reporter.go:127-133 | The next sequence number, never zero and never reused |
| `Reporter.DemandReporter.Run` | internal/gateway/proxy/reporter.go:106-125 | One report per signal with its demand, and at shutdown a withdrawal whose sequence number is above all others |
| `Aggregator.DemandAggregator.constructor` | internal/gateway/scaler/aggregator.go:120-151 | Defaults for settings that are not positive; no members, published total 0 |
| `Aggregator.DemandAggregator.RecalculateLocked` | internal/gateway/scaler/aggregator.go:295-305 | In whatever order the map is visited the total is the saturated sum of the members' demands |
| `Aggregator.DemandAggregator.ExpireLocked` | internal/gateway/scaler/aggregator.go:280-293 | Exactly the expired members disappear, and the result is how many |
| `Aggregator.DemandAggregator.PublishLocked` | internal/gateway/scaler/aggregator.go:307-311 | The published value becomes the total |
| `Aggregator.DemandAggregator.Update` | internal/gateway/scaler/aggregator.go:249-270 | Of the members that outlive the reading: stale if and only if one of that gateway has at least that sequence number, capacity if and only if it has none and the cap is reached, otherwise the record is replaced with a full time to live; cap, total and published value are kept in step |
| `Aggregator.DemandAggregator.HandleReport` | internal/gateway/scaler/aggregator.go:235-246 | 400 if and only if identity, sequence or demand is out of range, and then nothing changes; 429 if and only if there is no room; 204 otherwise |
| `Aggregator.SaturatedMeaning` | internal/gateway/scaler/aggregator.go:298-301 | Every sum an int64 can hold is kept, every other becomes the largest int64 |
| `Aggregator.DemandAggregator.Expire` | internal/gateway/scaler/aggregator.go:272-278 | Sweeps and publishes; a sweep that removes nothing changes nothing |
| `Aggregator.DemandAggregator.Demand` | internal/gateway/scaler/aggregator.go:181-186 | With any reports and sweeps of other callers between its two critical sections, the answer is the saturated sum of the members at the second one |
| `Aggregator.DemandAggregator.SubscribeDemand` | internal/gateway/scaler/aggregator.go:188-193 | Whatever comes between its two critical sections, the seed of a new stream is the total at the second one and is the published value |
| `Aggregator.SumWithout` | internal/gateway/scaler/aggregator.go:297-303 | The sum does not depend on the order of the members |
| `AggregatorHistory.MembersAreHistory` | internal/gateway/scaler/aggregator.go:249-293 | For every history, with clock readings in any order, a gateway is a member exactly while an accepted report of it is neither replaced nor reached by a clock reading at its expiry, and its record is that report; stale copies do not extend it |
| `AggregatorHistory.SequenceGrowsWithinMembership` | internal/gateway/scaler/aggregator.go:253-257 | While a report is remembered, another of that gateway is accepted if and only if its sequence number is higher |
| `AggregatorHistory.SequenceGrowsInPeriod` | internal/gateway/scaler/aggregator.go:253-266 | Of two reports of a gateway accepted in one membership period, the later one has the larger sequence number |
| `AggregatorHistory.LargestOfPeriod` | internal/gateway/scaler/aggregator.go:249-293 | A member's sequence number is at least that of every report accepted since it was last forgotten |
| `AggregatorHistory.DemandIsHistory` | internal/gateway/scaler/aggregator.go:181-186 | Demand is the saturated sum, over the history, of the reports that count |
| `AggregatorHistory.CountsInOrder` | internal/gateway/scaler/aggregator.go:249-305 | With clock readings in order, what counts is exactly the last accepted report of each gateway, for one time to live |
| `AggregatorHistory.AnswerIsHistory` | internal/gateway/scaler/aggregator.go:252-261 | For every history and report: stale if and only if a report of that gateway with at least its sequence number counts, capacity if and only if none of that gateway counts and as many gateways as allowed have one that does |
| `AggregatorHistory.TornDemand` | internal/gateway/scaler/aggregator.go:181-186 | Whatever happens between Demand's sweep and its reading, the answer is the demand of the history up to the reading, with nothing expired in it |
| `AggregatorHistory.DeadGatewayForgotten` | internal/gateway/scaler/aggregator.go:280-293 | A gateway without an accepted report in the last time to live contributes nothing |
| `AggregatorHistory.SweepsDoNotMatter` | internal/gateway/scaler/aggregator.go:153-164 | Inserting or removing background sweeps anywhere changes no result and no demand that a caller sees, provided that no sweep reads the clock later than the next operation with a caller |
| `AggregatorHistory.InOrderIsTimely` | internal/gateway/scaler/aggregator.go:153-186 | Clock readings in the order of the critical sections meet that condition |
| `AggregatorHistory.HarmlessExactly` | internal/gateway/scaler/aggregator.go:249-293 | A sweep just before a query, or before any report, is invisible after every history if and only if it does not read the clock later than that operation |
| `AggregatorHistory.OvertakingSweepIsVisible` | internal/gateway/scaler/aggregator.go:153-186 | For every pair of readings out of order, a history in which the query misses a member that has not expired at its own reading |
| `AggregatorHistory.OvertakingSweepRevives` | internal/gateway/scaler/aggregator.go:249-293 | For every report and every pair of readings out of order, a history in which the sweep turns stale into accepted |
| `Convergence.KeepsNewest` | internal/gateway/scaler/aggregator.go:249-270 | Within one time to live and the member cap, delivery in any order keeps the newest report of every gateway heard of |
| `Convergence.Converges` | internal/gateway/scaler/aggregator.go:249-305 | The same reports in any order with any repeats give the same sequence and demand for every gateway and the same total |
| `Convergence.LateCopyRevivesDemand` | internal/gateway/scaler/aggregator.go:280-287 | A history in which a delayed copy is accepted after the withdrawal has expired |
| `Convergence.WithdrawalLasts` | internal/gateway/scaler/aggregator.go:249-293 | An older report is stale exactly as long as the newest accepted one has not expired; afterwards it is accepted exactly if there is room |
| `ActivityStream.StreamIsActive` | internal/gateway/scaler/external_scaler.go:56-82 | The bits sent strictly alternate and end with the activity of the newest value received; if a send fails, what was sent is a beginning of that |
| `ActivityStream.BitsFollowActivity` | internal/gateway/scaler/external_scaler.go:64-80 | One bit for the first value and one for every edge, alternating, starting and ending with the activity of the first and last value |
| `DemandSystem.RunKept` | internal/gateway/scaler/aggregator.go:181-311 | The inductive invariant of the whole system: wiring, members equal to the history, only genuine deliveries, streams in step |
| `DemandSystem.NoReportRefused` | internal/gateway/scaler/aggregator.go:235-240 | In every run a report that a gateway sends is malformed only for the length of its identity, whenever it arrives |
| `DemandSystem.MembersAreGenuine` | internal/gateway/scaler/aggregator.go:249-270 | Under loss, delay, repetition and reordering each member's record is a report its gateway has really sent |
| `DemandSystem.MembersHoldLargest` | internal/gateway/scaler/aggregator.go:249-293 | In every run a member's record is really sent and has the largest sequence number accepted in its membership period |
| `DemandSystem.NewestReportCounts` | internal/gateway/scaler/aggregator.go:249-293 | In every run the newest report of a gateway, once accepted, is its record as long as it is remembered |
| `DemandSystem.QuietGatewayIsCounted` | internal/gateway/proxy/reporter.go:106-133 | In every system run a quiet gateway with an idle reporter whose newest report is remembered is counted with its demand if and only if the reporter's last wake did not mislead it, whichever run of the gateway led to its state |
| `DemandSystemRuns.WaitingRequestNotCounted` | internal/gateway/proxy/reporter.go:116-117 | A reachable system with a waiting request, a quiet gateway, its newest report accepted, and total 0 |
| `DemandSystem.TotalIsBounded` | internal/backend/resources/scaler.go:138-143 | The aggregate lies between 0 and the number of gateways times their queue |
| `DemandSystem.SilentGatewayContributesNothing` | internal/gateway/scaler/aggregator.go:280-293 | In every run a gateway whose last accepted report is a time to live old contributes nothing |
| `DemandSystem.StreamsAgree` | internal/gateway/scaler/external_scaler.go:56-82 | In every run the bits of each stream alternate, and with an empty mailbox the last one says whether the aggregate is positive |
| `DemandSystem.ActiveBecauseOfGateway` | internal/gateway/scaler/external_scaler.go:56-82 | A stream with an empty mailbox was last told to be active if and only if some remembered report shows demand |
| `DemandSystem.KedaFollowsDemand` | internal/gateway/scaler/external_scaler.go:56-82 | If every gateway is counted with its demand, a stream with an empty mailbox was last told to be active if and only if some gateway has demand |
| `DemandSystem.SettledSystemFollowsDemand` | internal/gateway/scaler/external_scaler.go:56-82 | The same, from requests to KEDA, once every gateway is quiet with an idle reporter that was not misled and its newest report is accepted and remembered |
| `DemandSystem.NetworkOrderIrrelevant` | internal/gateway/proxy/reporter.go:127-133 | Because sequence numbers are never reused, from every reachable state the order and repetition of deliveries do not matter within one time to live |
| `DemandSystem.IdentityFits` | internal/gateway/proxy/reporter.go:91-98 | In every run a gateway's reports are well formed if and only if the gateway's own identity has at most 487 characters |
| `DemandSystemRuns.LongIdentityIsRefused` | internal/gateway/proxy/reporter.go:91-98 | For every longer identity a reachable system in which that gateway's first report is malformed |
| `Promotion.MarkerMeansWhole` | internal/backend/resources/cache.go:326-345 | After any number of attempts, each interrupted anywhere, also halfway through a copy or a deletion, a readiness marker implies that the destination is the whole artifact |
| `Promotion.MarkedIsFinal` | internal/backend/resources/cache.go:332-333 | Once the marker is there no attempt changes the destination again |
| `Promotion.EarlyStopKeepsDst` | internal/backend/resources/cache.go:332-340 | An attempt stopped before it clears the destination leaves it as it was |
| `Promotion.LeftAloneExactly` | internal/backend/resources/cache.go:332-343 | Wherever an attempt is stopped, the destination it found is still there if and only if no step removed from it, removed it or renamed the copy over it |
| `Promotion.OnlyPartialExactly` | internal/backend/resources/cache.go:338-343 | Where there was no destination, there is none afterwards if and only if the attempt did not reach the rename |
| `Promotion.CompleteButUnmarked` | internal/backend/resources/cache.go:342-343 | A run from an empty volume that leaves the whole artifact without marker |
| `Promotion.HalfDeleted` | internal/backend/resources/cache.go:341 | A run from an empty volume that leaves a proper part of an older unmarked destination |
| `Promotion.DirectoryNeverReady` | internal/backend/resources/cache.go:332-343 | In every run of every number of attempts an artifact with a directory in the marker's place is not marked |
| `Promotion.PromotedButNeverReady` | internal/backend/resources/cache.go:332-343 | One whole attempt from an empty volume that promotes such an artifact and leaves it unmarked |
| `Promotion.ReadyExactly` | internal/backend/resources/cache.go:332-343 | From an empty volume some run ends marked if and only if the artifact holds neither a symbolic link nor a directory in the marker's place |
| `Promotion.CacheVolume.RemoveTree` | internal/backend/resources/cache.go:339-341 | Entry after entry, in any order; errors are ignored, so exactly what cannot be removed is left |
| `Promotion.CacheVolume.CopyTree` | internal/backend/resources/cache.go:340 | Entry after entry, in any order, the copy equals the source |
| `Promotion.CacheVolume.Promote` | internal/backend/resources/cache.go:326-345 | From every state an interruption can leave, one whole attempt ends marked if and only if it was marked before, or the artifact has no symbolic link and no directory in the marker's place and what is in the way can be removed; success means a whole destination |
| `Reconcile.GuardKeepsSafe` | internal/controller/llmservice/ownership.go:37-95 | Each operation keeps the store safe under its own precondition |
| `Reconcile.PlanGuarded` | internal/controller/llmservice/lifecycle.go:91-178 | The order of the operations establishes every one of these preconditions in time |
| `Reconcile.EveryPrefixSafe` | internal/controller/llmservice/lifecycle.go:91-178 | After any number of reconciliations with replicas changing at will, each stopped anywhere, a backend Deployment has its ScaledObject, a Deployment mounting the Secret has it, and the scaler Service selects a stored Deployment |
| `Reconcile.CreateOnceIsKept` | internal/controller/llmservice/ownership.go:53-95 | Cache claims, prewarm Jobs and somebody else's Secret survive all reconciliations unchanged |
| `ReconcileOutcome.SucceedsExactly` | internal/controller/llmservice/ownership.go:53-81 | An uninterrupted run gets through if and only if the Secret, where needed, is absent with a new token of 32 characters or ours with such a token, and the cache claim and the prewarm Job are absent, or ours with the same hash |
| `ReconcileOutcome.ChangedSpecificationFails` | internal/controller/llmservice/ownership.go:73-78 | A cache claim or prewarm Job made from another specification makes the run fail |
| `ReconcileOutcome.FailureTouchesNoWorkload` | internal/controller/llmservice/lifecycle.go:104-157 | No prefix of a run that fails has changed the backend, the gateways, the aggregator or their Services |
| `ReconcileOutcome.Outcome` | internal/controller/llmservice/lifecycle.go:91-178 | A run that gets through leaves under every key exactly what a declarative table says: workloads as wanted, budget, aggregator and Secret for several replicas and none of ours otherwise, create-once objects as first made |
| `ReconcileOutcome.Idempotent` | internal/controller/llmservice/lifecycle.go:91-178 | Reconciling again gets through and changes nothing |
| `ScalerEndpoint.UnservedExactlyWhenScalingUp` | internal/controller/llmservice/lifecycle.go:128-150 | Some prefix leaves KEDA's endpoint unserved if and only if replicas rise above one while the Service selects the gateways and nothing stops the run before the gateway Deployment is written |
| `ScalerEndpoint.ScaleUpLeavesEndpointUnserved` | internal/controller/llmservice/lifecycle.go:128-150 | After a complete run with one replica from nothing, a run with two replicas stopped after its sixth operation leaves the endpoint unserved |
| `ScalerEndpoint.CompletionServes` | internal/controller/llmservice/lifecycle.go:91-157 | A run that nothing stops ends with the endpoint served, whatever it started from |
| `ScalerEndpoint.UnheardExactlyWhenSwitching` | internal/controller/llmservice/lifecycle.go:128-155 | From a store in which KEDA reaches the Deployment that hears of the demand, some prefix breaks that if and only if the Service selects the other Deployment than the new replicas want and nothing stops the run before the gateway Deployment is written |
| `ScalerEndpoint.ScaleDownLeavesEndpointDeaf` | internal/backend/resources/gateway.go:90-112 | After complete runs with one and two replicas, a run with one replica stopped after its fourth operation leaves KEDA with an aggregator to which nobody reports |
| `ScalerEndpoint.CompletionHears` | internal/controller/llmservice/lifecycle.go:91-157 | A run that nothing stops ends with KEDA reaching the Deployment that hears of the demand, whatever it started from |
| `Cluster.ObjectStore.EnsureCreated` | internal/controller/llmservice/ownership.go:53-81 | Creates what is absent and never changes what is there; accepts that if and only if it is ours and no hash is asked for or the same one is recorded |
| `Cluster.ObjectStore.DeleteOwned` | internal/controller/llmservice/ownership.go:83-95 | Removes the object exactly if it is ours |
| `Cluster.ObjectStore.ApplyDesired` | internal/controller/llmservice/lifecycle.go:91-157 | The store afterwards is that of the plan's executed prefix, and it is safe; success if and only if every operation was made and none failed |
| `Selection.ChoiceMeaning` | internal/controller/llmservice/selection.go:51-83 | A runtime is picked if and only if it is the unrivalled highest-priority one of the first preferred vendor that has any; no match if and only if no preferred vendor has any; a tie if and only if two share the top, and it names exactly those |
| `Selection.BestOf` | internal/controller/llmservice/selection.go:56-68 | One pass finds a top runtime of the vendor and exactly the names that share its priority |
| `Selection.PickByVendor` | internal/controller/llmservice/selection.go:51-83 | The nested loops compute the declarative choice, errors included |
| `Selection.PermutationInvariant` | internal/controller/llmservice/selection.go:51-83 | The choice does not depend on the order of the list |
| `Selection.ResolveMeaning` | internal/controller/llmservice/selection.go:29-49 | A named runtime is used whatever the selector says, or reported missing; without a name the first preferred vendor's unrivalled runtime is; without either the service is misconfigured |
| `Selection.WatchComplete` | internal/controller/llmservice/watches.go:47-77 | If adding, removing or changing one runtime changes what a service resolves to, its error included, the old or the new runtime wakes that service |
| `Selection.ServicesForRuntime` | internal/controller/llmservice/watches.go:67-76 | Exactly the services the runtime wakes are requested, once each |
| `BackendObservation.ServingContainer` | internal/controller/llmservice/observation.go:164-171 | The first status with the serving container's name, if there is any |
| `BackendObservation.GravestCause` | internal/controller/llmservice/observation.go:101-150 | The branches that classify a Pod agree with the ranking of the classes: the class found is the gravest that applies |
| `BackendObservation.NothingGraver` | internal/controller/llmservice/observation.go:202-219 | No active Pod has a graver cause than the one reported |
| `BackendObservation.ObserveBackend` | internal/controller/llmservice/observation.go:48-84 | Reports an exceeded deadline first, then the gravest active Pod, then that there is none; degraded if and only if an applicable deadline passed or some active Pod fails |
| `BackendObservation.DegradedExactly` | internal/controller/llmservice/observation.go:48-84 | The Pod that is named may be another one, but degraded is reported if and only if some cause exists |
| `BackendObservation.PodOrderIrrelevant` | internal/controller/llmservice/observation.go:64-78 | Any two readings of the same Pods in any order report the same, so the unstable sort does no harm |
| `BackendObservation.FailingMeans` | internal/controller/llmservice/observation.go:173-188 | A Pod fails if and only if its serving container waits for one of five named reasons, was killed for memory now or before, or restarted more than once |
| `BackendObservation.WaitingMeans` | internal/controller/llmservice/observation.go:134-145 | A Pod that does not fail is delayed if and only if it is unschedulable, and loading if and only if it is not and its container runs without being ready |
| `BackendObservation.DeadlineMeans` | internal/controller/llmservice/observation.go:152-162 | The deadline is exceeded if and only if some condition says so |
| `BackendObservation.PriorityOrder` | internal/controller/llmservice/observation.go:202-219 | The order of the classes from the gravest on |
| `BackendObservation.FinishedPodsIgnored` | internal/controller/llmservice/observation.go:95-99 | A Pod that is being deleted, has succeeded or has failed makes no difference to the report |
| `BackendObservation.TextBeforeMeans` | internal/controller/llmservice/observation.go:68-73 | Messages are compared in dictionary order |
| `BackendObservation.FirstMessageNamed` | internal/controller/llmservice/observation.go:64-78 | Among Pods with the same cause the one with the first message is reported |
| `BackendObservation.MessageNamesPod` | internal/controller/llmservice/observation.go:101-150 | The message quotes the name of its Pod |
| `ServiceStatus.PhaseMeaning` | internal/controller/llmservice/status.go:49-61 | Each of the five phases if and only if its own condition on ready replicas, failing Pods, an applicable deadline, existing Pods and the minimum holds |
| `ServiceStatus.RefreshedCoherent` | internal/controller/llmservice/status.go:51-107 | From every earlier status the new phase and conditions do not contradict each other, and Degraded holds exactly if the observation is degraded |
| `ServiceStatus.RefreshedContents` | internal/controller/llmservice/status.go:63-107 | Ready replicas, runtime, address and generation are those observed; each condition has the reason and message that go with the phase; a transition time moves if and only if the truth value does |
| `ServiceStatus.FailedCoherent` | internal/controller/llmservice/status.go:218-253 | The same after a failed reconcile; AutoscalingReady tells whether the ScaledObject was applied; runtime, replicas and endpoint stay |
| `ServiceStatus.RefreshIsStable` | internal/controller/llmservice/status.go:134-138 | A second refresh of an unchanged backend yields the same status at any later time, so nothing is written |
| `StatusWrites.StoredStatusCoherent` | internal/controller/llmservice/status.go:120-149 | With any number of writers, conflicts, lost answers, crashes and foreign edits, every stored status is coherent |
| `StatusWrites.WriteReplacesRead` | internal/controller/llmservice/status.go:128-147 | In every run a write either changes nothing or replaces exactly the version its writer read, in at most five attempts |
| `StatusWrites.EventsAreTransitions` | internal/controller/llmservice/status.go:151-198 | Every event names a real change between two adjacent versions, and no version has two events |
| `StatusWrites.WarningNeverRepeated` | internal/controller/llmservice/status.go:151-178 | Between two warnings for one failure class there is a stored status that did not show it |
| `StatusWrites.AnnouncedExactly` | internal/controller/llmservice/status.go:113-198 | In every run, once its writer has announced a version, the events about it are for ever exactly those that the change of the Degraded condition calls for: one warning with the new reason, one recovery, or none |
| `StatusWrites.PutExactly` | internal/controller/llmservice/status.go:128-147 | In every run a writer owes its announcement if and only if it refreshes, met the version it had read and got the answer; on a conflict it reads again, up to five attempts |
| `StatusWrites.GetExactly` | internal/controller/llmservice/status.go:129-139 | In every run a writer goes on to write over exactly what it has read, unless the object is gone or shows the desired status |
| `StatusWrites.Client.UpdateStatusWithRetry` | internal/controller/llmservice/status.go:120-149 | A change is reported exactly with the status it overwrote, at adjacent versions; no change and no error means the desired status was stored; each error only for its own reason, a conflict only after five of them |
| `StatusWrites.Client.UpdateStatus` | internal/controller/llmservice/status.go:42-118 | A committed write is announced with exactly the events that the change of the Degraded condition calls for, and nothing else is; the desired status is coherent and degraded if and only if the backend fails |

## Left out

- HTTP, gRPC, TLS, tokens, API keys, JSON and metrics: plumbing around the modelled decisions; metrics appear only as the recorded codes and the count of rejections.
- Gateway shutdown (`Close`) and aggregator shutdown: the watcher, timers and handlers of the model are never cancelled from outside; the reporter's shutdown is modelled.
- Liveness under fairness: instead of "eventually published" the model proves who still owes the publication, and explicit bounds.
- Informational (1xx) responses, panics and a reverse proxy that writes no status: a forwarded request has one upstream status.
- Peeking into the request body to find out whether a stream is wanted: an input of the model.
- Wrap-around of the 64-bit report sequence and of subscriber ids: unreachable in practice.
- Kubernetes beyond a keyed store with owner, hash and versions: server-side apply is replacement, deletion is atomic, caches are not stale. Nothing is claimed about ownership of objects that forced apply overwrites.
- KEDA, the HPA, the rendering of Pods and Services beyond which Secret is mounted and which Deployment is selected, drain times and metric targets.
- The limit on concurrent demand reports and the unary calls of the external scaler: they only read or refuse.
- The fixed sentences of status conditions are named instead of spelled out.
- Selection.BestOf: takes lists whose names are distinct, which the API server guarantees for cluster-scoped objects.
- Selection.PickByVendor: takes lists whose names are distinct, for the same reason; the sorted list of tied names in the error is modelled as a set.
- Waits.WaitForBackend: takes it that the clock does not run backward and that every sleep lasts at least the retry interval, which the round bound needs.
- Waits.HoldWithHeartbeat: the same.
- GatewayProcess.Gateway.Admitted: the same as GatewayProcess.Gateway.Serve.
- GatewayProcess.Gateway.Serve: one request seen alone, with every clock reading and readiness answer given; the interleaving of requests is in GatewayMachine.
- Reporter.DemandReporter.Run: the values taken from the mailbox and read by the heartbeat are given; GatewayReports ties them to the gateway.
- Promotion.CacheVolume.Promote: one writer at a time, as with a single prewarm Job; directory entries are removed and copied in any order and the rename is atomic.
- BackendObservation.ObserveBackend: Pod names are taken to need no escaping when quoted, as valid Pod names do not; the library sort is an insertion sort.
