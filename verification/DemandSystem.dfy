/** The whole demand path: gateways that report, a network that may lose, delay, repeat and reorder
    their reports, the aggregator, and the streams through which KEDA sees it. */
module DemandSystem {
  import opened Common
  import opened Aggregator
  import opened AggregatorHistory
  import ActivityStream
  import Convergence
  import GatewayInvariant
  import GatewayMachine
  import GatewayReports
  import GatewayTheorems
  import Mailboxes

  datatype System = System(
    limits: Limits,
    gateways: map<string, GatewayMachine.State>,
    clock: int,
    members: Members,
    demands: Mailboxes.Subs,
    events: seq<Event>)

  ghost function Total(m: Members): int {
    Saturated(Sum(m))
  }

  /** The identity of a reporter process: the gateway's identity, a slash and 24 hex digits. */
  function MemberId(gatewayId: string, suffix: string): string {
    gatewayId + "/" + suffix
  }

  /** The k-th report a gateway has sent. */
  function ReportOf(id: string, g: GatewayMachine.State, k: nat): Report
    requires k < |g.sent|
  {
    Report(id, k + 1, g.sent[k])
  }

  datatype Action =
    | Join(gatewayId: string, suffix: string, gateway: GatewayMachine.State)
    | Local(id: string, action: GatewayMachine.Action)   // a gateway takes a step of its own
    | Arrives(id: string, k: nat, now: int)              // the network delivers a copy of a report
    | Sweeps(now: int)
    | Asked(now: int)
    | Connect
    | Disconnect(stream: nat)
    | Reads(stream: nat)
    | Elapse(time: nat)

  ghost function Observed(s: System, e: Event): System {
    var m := Apply(s.members, e, s.limits);
    s.(members := m, demands := Mailboxes.Publish(s.demands, Total(m)), events := s.events + [e])
  }

  ghost function Step(s: System, a: Action): Option<System> {
    match a
    case Join(gatewayId, suffix, g) =>
      var id := MemberId(gatewayId, suffix);
      if gatewayId == "" || |suffix| != 24 || id in s.gateways || !GatewayMachine.Initial(g) || g.cfg.maxQueue != s.limits.maxDemand
      then None else Some(s.(gateways := s.gateways[id := g]))
    case Local(id, action) =>
      if id !in s.gateways then None
      else (match GatewayMachine.Step(s.gateways[id], action)
            case None => None
            case Some(g) => Some(s.(gateways := s.gateways[id := g])))
    case Arrives(id, k, now) =>
      if now > s.clock || id !in s.gateways || k >= |s.gateways[id].sent| then None
      else
        var r := ReportOf(id, s.gateways[id], k);
        Some(if WellFormed(r, s.limits) then Observed(s, Delivered(r, now)) else s)
    case Sweeps(now) => if now > s.clock then None else Some(Observed(s, Swept(now)))
    case Asked(now) => if now > s.clock then None else Some(Observed(s, Queried(now)))
    case Connect => Some(s.(demands := Mailboxes.Subscribe(s.demands, Total(s.members))))
    case Disconnect(stream) => Some(s.(demands := Mailboxes.Unsubscribe(s.demands, stream)))
    case Reads(stream) => Some(s.(demands := Mailboxes.Receive(s.demands, stream)))
    case Elapse(time) => Some(s.(clock := s.clock + time))
  }

  ghost predicate Initial(s: System) {
    && s.limits.ttl > 0 && s.limits.maxMembers > 0 && s.limits.maxDemand > 0
    && s.gateways == map[] && s.members == map[] && s.demands == Mailboxes.NoSubscriptions && s.events == []
  }

  ghost predicate Run(states: seq<System>, actions: seq<Action>) {
    && |states| == |actions| + 1 && Initial(states[0])
    && forall k {:trigger actions[k]} :: 0 <= k < |actions| ==> Step(states[k], actions[k]) == Some(states[k + 1])
  }

  // ---- the invariant ----

  // `r` is a report that its gateway has really sent.
  ghost predicate Genuine(gs: map<string, GatewayMachine.State>, r: Report) {
    r.id in gs && 0 < r.sequence <= |gs[r.id].sent| && r.demand == gs[r.id].sent[r.sequence - 1]
  }

  ghost predicate Wired(s: System) {
    forall id :: id in s.gateways ==>
      && id != "" && GatewayInvariant.Inv(s.gateways[id]) && GatewayTheorems.Reachable(s.gateways[id])
      && s.gateways[id].cfg.maxQueue == s.limits.maxDemand
  }

  ghost predicate Truthful(s: System) {
    && s.members == After(s.events, s.limits)
    && (forall k :: 0 <= k < |s.events| && s.events[k].Delivered? ==> Genuine(s.gateways, s.events[k].report))
    && (forall k :: 0 <= k < |s.events| ==> s.events[k].now <= s.clock)
  }

  ghost predicate Streamed(s: System) {
    && s.demands.last == Total(s.members)
    && Mailboxes.Consistent(s.demands)
    && (forall b :: b in s.demands.boxes ==> s.demands.boxes[b].seed == s.demands.boxes[b].base)
  }

  ghost predicate Inv(s: System) {
    && s.limits.ttl > 0 && s.limits.maxMembers > 0 && s.limits.maxDemand > 0
    && Wired(s) && Truthful(s) && Streamed(s)
  }

  lemma TruthfulKept(s: System, e: Event)
    requires Truthful(s) && e.now <= s.clock && (e.Delivered? ==> Genuine(s.gateways, e.report))
    ensures Truthful(Observed(s, e))
  {
    assert (s.events + [e])[..|s.events|] == s.events;
  }

  lemma EventKept(s: System, e: Event)
    requires Inv(s) && e.now <= s.clock && (e.Delivered? ==> Genuine(s.gateways, e.report))
    ensures Inv(Observed(s, e))
  {
    TruthfulKept(s, e);
    Mailboxes.StepConsistent(s.demands, Mailboxes.DoPublish(Total(Apply(s.members, e, s.limits))));
  }

  lemma StreamKept(s: System, op: Mailboxes.Op)
    requires Inv(s) && !op.DoPublish? && (op.DoSubscribe? ==> op.current == Total(s.members))
    ensures Inv(s.(demands := Mailboxes.Apply(s.demands, op)))
  {
    Mailboxes.StepConsistent(s.demands, op);
  }

  lemma SentGrows(g: GatewayMachine.State, a: GatewayMachine.Action, h: GatewayMachine.State)
    requires GatewayMachine.Step(g, a) == Some(h)
    ensures |g.sent| <= |h.sent| && h.sent[..|g.sent|] == g.sent && h.cfg == g.cfg
  {
    if a.Thread? {
      GatewayInvariant.MailboxEffect(g, a.id, g.threads[a.id], a.choice);
    }
  }

  lemma LocalKept(s: System, id: string, a: GatewayMachine.Action, g: GatewayMachine.State)
    requires Inv(s) && id in s.gateways && GatewayMachine.Step(s.gateways[id], a) == Some(g)
    ensures Inv(s.(gateways := s.gateways[id := g]))
  {
    var before := s.gateways[id];
    GatewayInvariant.StepInv(before, a, g);
    GatewayTheorems.Reach(before, a, g);
    SentGrows(before, a, g);
    var t := s.(gateways := s.gateways[id := g]);
    forall k | 0 <= k < |t.events| && t.events[k].Delivered? ensures Genuine(t.gateways, t.events[k].report) {
      StaysGenuine(s.gateways, id, g, s.events[k].report);
    }
  }

  lemma StaysGenuine(gs: map<string, GatewayMachine.State>, id: string, g: GatewayMachine.State, r: Report)
    requires id in gs && |gs[id].sent| <= |g.sent| && g.sent[..|gs[id].sent|] == gs[id].sent
    requires Genuine(gs, r)
    ensures Genuine(gs[id := g], r)
  {
    if r.id == id { assert g.sent[r.sequence - 1] == g.sent[..|gs[id].sent|][r.sequence - 1]; }
  }

  lemma JoinKept(s: System, id: string, g: GatewayMachine.State)
    requires Inv(s) && id !in s.gateways && id != "" && GatewayMachine.Initial(g)
    requires g.cfg.maxQueue == s.limits.maxDemand
    ensures Inv(s.(gateways := s.gateways[id := g]))
  {
    GatewayInvariant.InitialInv(g);
    GatewayTheorems.InitialReachable(g);
  }

  lemma ArrivesKept(s: System, id: string, k: nat, now: int)
    requires Inv(s) && now <= s.clock && id in s.gateways && k < |s.gateways[id].sent|
    ensures Inv(Observed(s, Delivered(ReportOf(id, s.gateways[id], k), now)))
  {
    EventKept(s, Delivered(ReportOf(id, s.gateways[id], k), now));
  }

  lemma StepKept(s: System, a: Action, t: System)
    requires Inv(s) && Step(s, a) == Some(t)
    ensures Inv(t)
  {
    match a
    case Join(gatewayId, suffix, g) => JoinKept(s, MemberId(gatewayId, suffix), g);
    case Local(id, action) => LocalKept(s, id, action, t.gateways[id]);
    case Arrives(id, k, now) => ArrivesKept(s, id, k, now);
    case Sweeps(now) => EventKept(s, Swept(now));
    case Asked(now) => EventKept(s, Queried(now));
    case Connect => StreamKept(s, Mailboxes.DoSubscribe(Total(s.members)));
    case Disconnect(stream) => StreamKept(s, Mailboxes.DoUnsubscribe(stream));
    case Reads(stream) => StreamKept(s, Mailboxes.DoReceive(stream));
    case Elapse(_) =>
  }

  lemma {:induction false} RunKept(states: seq<System>, actions: seq<Action>, k: nat)
    requires Run(states, actions) && k < |states|
    ensures Inv(states[k])
  {
    if k == 0 {
    } else {
      RunKept(states, actions, k - 1);
      assert Step(states[k - 1], actions[k - 1]) == Some(states[k]);
      StepKept(states[k - 1], actions[k - 1], states[k]);
    }
  }

  // ---- what holds in every run ----

  /** Whenever it arrives, a report that a gateway sends is refused as malformed only for the length of
      its identity: sequence and demand are always in range. */
  lemma NoReportRefused(states: seq<System>, actions: seq<Action>, n: nat, id: string, k: nat)
    requires Run(states, actions) && n < |states| && id in states[n].gateways && k < |states[n].gateways[id].sent|
    ensures WellFormed(ReportOf(id, states[n].gateways[id], k), states[n].limits) <==> |id| <= MaxMemberIdLength
  {
    RunKept(states, actions, n);
    assert GatewayInvariant.Reported(states[n].gateways[id]);
  }

  /** Every report of a gateway is accepted as well formed exactly if the gateway's own identity has at
      most 487 characters. */
  lemma IdentityFits(states: seq<System>, actions: seq<Action>, n: nat, gatewayId: string, suffix: string, k: nat)
    requires Run(states, actions) && n < |states| && |suffix| == 24
    requires var id := MemberId(gatewayId, suffix); id in states[n].gateways && k < |states[n].gateways[id].sent|
    ensures WellFormed(ReportOf(MemberId(gatewayId, suffix), states[n].gateways[MemberId(gatewayId, suffix)], k), states[n].limits)
            <==> |gatewayId| <= 487
  {
    NoReportRefused(states, actions, n, MemberId(gatewayId, suffix), k);
  }

  /** Every member is a gateway, and its record is a report that gateway has really sent. */
  lemma MembersAreGenuine(states: seq<System>, actions: seq<Action>, n: nat, id: string)
    requires Run(states, actions) && n < |states| && id in states[n].members
    ensures var m := states[n].members[id];
      && Genuine(states[n].gateways, Report(id, m.sequence, m.demand))
      && 0 <= m.demand <= states[n].limits.maxDemand
  {
    RunKept(states, actions, n);
    var s := states[n];
    var k := MemberHasHolder(s.events, s.limits, id);
    HolderIsMember(s.events, s.limits, k);
    assert GatewayInvariant.Reported(s.gateways[id]);
  }

  /** Of all the reports of a gateway accepted while it was remembered, its record is the one with the
      largest sequence number, and it shows what the gateway sent under that number. */
  lemma MembersHoldLargest(states: seq<System>, actions: seq<Action>, n: nat, i: nat)
    requires Run(states, actions) && n < |states| && i < |states[n].events| && AcceptedAt(states[n].events, i, states[n].limits)
    requires Remembered(states[n].events, states[n].limits, states[n].events[i].report.id, i, |states[n].events|)
    ensures var s, r := states[n], states[n].events[i].report;
      && r.id in s.members && r.sequence <= s.members[r.id].sequence
      && Genuine(s.gateways, Report(r.id, s.members[r.id].sequence, s.members[r.id].demand))
  {
    RunKept(states, actions, n);
    var s := states[n];
    LargestOfPeriod(s.events, s.limits, i, |s.events|);
    assert s.events[..|s.events|] == s.events;
    MembersAreGenuine(states, actions, n, s.events[i].report.id);
  }

  /** The newest report of a gateway, once accepted, is its record for as long as it is remembered. */
  lemma NewestReportCounts(states: seq<System>, actions: seq<Action>, n: nat, i: nat)
    requires Run(states, actions) && n < |states| && i < |states[n].events| && AcceptedAt(states[n].events, i, states[n].limits)
    requires Remembered(states[n].events, states[n].limits, states[n].events[i].report.id, i, |states[n].events|)
    requires var r := states[n].events[i].report; r.id in states[n].gateways && r.sequence == |states[n].gateways[r.id].sent|
    ensures var s, r := states[n], states[n].events[i].report;
      && r.id in s.members && s.gateways[r.id].sent != []
      && s.members[r.id].demand == s.gateways[r.id].sent[|s.gateways[r.id].sent| - 1]
  {
    MembersHoldLargest(states, actions, n, i);
  }

  /** From the request to the aggregate. A gateway is quiet, its reporter idle, and its newest report has
      been accepted and is remembered. Then the aggregator counts it with exactly its demand, unless the
      reporter's last wake misled it, and with another demand if it did. */
  lemma QuietGatewayIsCounted(states: seq<System>, actions: seq<Action>, n: nat, i: nat, reporter: nat)
    requires Run(states, actions) && n < |states| && i < |states[n].events| && AcceptedAt(states[n].events, i, states[n].limits)
    requires Remembered(states[n].events, states[n].limits, states[n].events[i].report.id, i, |states[n].events|)
    requires var r := states[n].events[i].report; r.id in states[n].gateways && r.sequence == |states[n].gateways[r.id].sent|
    requires var g := states[n].gateways[states[n].events[i].report.id];
      GatewayTheorems.NoNotification(g) && GatewayTheorems.NoBackground(g) && GatewayReports.IdleReporter(g, reporter)
    ensures var s, id := states[n], states[n].events[i].report.id;
      var g := s.gateways[id];
      && id in s.members && GatewayTheorems.Reachable(g)
      && forall gs, acts :: GatewayMachine.Run(gs, acts) && gs[|gs| - 1] == g ==>
           (s.members[id].demand == g.Demand() <==>
              !GatewayReports.Misled(GatewayReports.LastWake(gs, acts, reporter, |gs| - 1), g.subs.boxes[g.threads[reporter].box]))
  {
    NewestReportCounts(states, actions, n, i);
    RunKept(states, actions, n);
    var g := states[n].gateways[states[n].events[i].report.id];
    forall gs, acts | GatewayMachine.Run(gs, acts) && gs[|gs| - 1] == g
      ensures g.sent[|g.sent| - 1] == g.Demand() <==>
              !GatewayReports.Misled(GatewayReports.LastWake(gs, acts, reporter, |gs| - 1), g.subs.boxes[g.threads[reporter].box])
    {
      GatewayReports.ReportShowsDemandExactly(gs, acts, |gs| - 1, reporter);
    }
  }

  // `n` times `bound`, added up.
  function Times(n: nat, bound: int): int {
    if n == 0 then 0 else Times(n - 1, bound) + bound
  }

  lemma {:induction false} TimesMonotone(a: nat, b: nat, bound: int)
    requires a <= b && 0 <= bound
    ensures 0 <= Times(a, bound) <= Times(b, bound) == b * bound
  {
    if b > 0 { TimesMonotone(if a == b then a - 1 else a, b - 1, bound); }
  }

  lemma {:induction false} SumBound(m: Members, bound: int)
    requires forall id :: id in m ==> 0 <= m[id].demand <= bound
    ensures 0 <= Sum(m) <= Times(|m|, bound)
    decreases |m|
  {
    if m != map[] {
      var id :| id in m;
      var rest := m - {id};
      CountWithout(m, id);
      SumWithout(m, id);
      SumBound(rest, bound);
      assert Times(|m|, bound) == Times(|rest|, bound) + bound;
    } else {
      assert Sum(m) == 0;
    }
  }

  /** The aggregate is never negative and never more than every gateway's full queue. */
  lemma TotalIsBounded(states: seq<System>, actions: seq<Action>, n: nat)
    requires Run(states, actions) && n < |states|
    ensures 0 <= Total(states[n].members) <= |states[n].gateways| * states[n].limits.maxDemand
  {
    var s := states[n];
    forall id | id in s.members
      ensures id in s.gateways && 0 <= s.members[id].demand <= s.limits.maxDemand
    {
      MembersAreGenuine(states, actions, n, id);
    }
    SumBound(s.members, s.limits.maxDemand);
    SubsetSize(s.members.Keys, s.gateways.Keys);
    RunKept(states, actions, n);
    TimesMonotone(|s.members|, |s.gateways|, s.limits.maxDemand);
  }

  /** A gateway whose last accepted report is a time to live old contributes nothing. */
  lemma SilentGatewayContributesNothing(states: seq<System>, actions: seq<Action>, n: nat, id: string, now: int)
    requires Run(states, actions) && n < |states|
    requires forall k :: 0 <= k < |states[n].events| && AcceptedAt(states[n].events, k, states[n].limits)
                           && states[n].events[k].report.id == id
               ==> states[n].events[k].now + states[n].limits.ttl <= now
    ensures id !in Unexpired(states[n].members, now)
  {
    RunKept(states, actions, n);
    DeadGatewayForgotten(states[n].events, now, states[n].limits, id);
  }

  /** KEDA's view agrees with the aggregate: the bits of every stream alternate, and a stream that has
      read its mail has last been sent whether the aggregate is positive. */
  lemma StreamsAgree(states: seq<System>, actions: seq<Action>, n: nat, stream: nat)
    requires Run(states, actions) && n < |states| && stream in states[n].demands.boxes
    ensures var box := states[n].demands.boxes[stream];
      var bits := ActivityStream.Bits(box.got);
      && ActivityStream.Alternating(bits)
      && (box.mail.None? ==> bits != [] && bits[|bits| - 1] == (Total(states[n].members) > 0))
      && (box.mail.Some? ==> box.mail.value == Total(states[n].members))
  {
    RunKept(states, actions, n);
    var box := states[n].demands.boxes[stream];
    ActivityStream.BitsFollowActivity(box.got);
    assert Mailboxes.BoxConsistent(box, states[n].demands.last);
    assert box.mail.Some? ==> box.Flow()[|box.Flow()| - 1] == box.mail.value;
  }

  lemma {:induction false} PositiveSum(m: Members)
    requires NonNegative(m)
    ensures Sum(m) > 0 <==> exists id :: id in m && m[id].demand > 0
    decreases |m|
  {
    if m != map[] {
      var first :| first in m;
      var rest := m - {first};
      CountWithout(m, first);
      SumWithout(m, first);
      SumNonNegative(rest);
      PositiveSum(rest);
      if id :| id in m && m[id].demand > 0 && id != first { assert id in rest; }
      if id :| id in rest && rest[id].demand > 0 { assert id in m; }
    } else {
      assert Sum(m) == 0;
    }
  }

  /** A stream that has read its mail has last been told to activate exactly if some member's newest
      accepted report shows demand. */
  lemma ActiveBecauseOfGateway(states: seq<System>, actions: seq<Action>, n: nat, stream: nat)
    requires Run(states, actions) && n < |states| && stream in states[n].demands.boxes
    requires states[n].demands.boxes[stream].mail.None?
    ensures var s := states[n];
      var bits := ActivityStream.Bits(s.demands.boxes[stream].got);
      bits != [] && (bits[|bits| - 1] <==> exists id :: id in s.members && s.members[id].demand > 0)
  {
    StreamsAgree(states, actions, n, stream);
    forall id | id in states[n].members ensures states[n].members[id].demand >= 0 {
      MembersAreGenuine(states, actions, n, id);
    }
    PositiveSum(states[n].members);
  }

  /** If every gateway is counted with its demand, then a stream that has read its mail has last been told
      to activate exactly if some gateway has demand. */
  lemma KedaFollowsDemand(states: seq<System>, actions: seq<Action>, n: nat, stream: nat)
    requires Run(states, actions) && n < |states| && stream in states[n].demands.boxes
    requires states[n].demands.boxes[stream].mail.None?
    requires forall id :: id in states[n].gateways ==> Counted(states[n], id)
    ensures var s := states[n];
      var bits := ActivityStream.Bits(s.demands.boxes[stream].got);
      bits != [] && (bits[|bits| - 1] <==> exists id :: id in s.gateways && s.gateways[id].Demand() > 0)
  {
    var s := states[n];
    ActiveBecauseOfGateway(states, actions, n, stream);
    if id :| id in s.members && s.members[id].demand > 0 {
      MembersAreGenuine(states, actions, n, id);
      assert Counted(s, id);
    }
    if id :| id in s.gateways && s.gateways[id].Demand() > 0 {
      assert Counted(s, id);
    }
  }

  // The aggregator counts gateway `id` with exactly its demand.
  predicate Counted(s: System, id: string)
    requires id in s.gateways
  {
    id in s.members && s.members[id].demand == s.gateways[id].Demand()
  }

  // Gateway `id` is quiet, its reporter idle and not misled, and its newest report accepted and remembered.
  ghost predicate Settled(s: System, id: string, i: nat, reporter: nat)
    requires id in s.gateways
  {
    var g := s.gateways[id];
    && i < |s.events| && AcceptedAt(s.events, i, s.limits) && s.events[i].report.id == id
    && s.events[i].report.sequence == |g.sent| && Remembered(s.events, s.limits, id, i, |s.events|)
    && GatewayTheorems.NoNotification(g) && GatewayTheorems.NoBackground(g) && GatewayReports.IdleReporter(g, reporter)
    && exists gs, acts :: GatewayMachine.Run(gs, acts) && gs[|gs| - 1] == g &&
         !GatewayReports.Misled(GatewayReports.LastWake(gs, acts, reporter, |gs| - 1), g.subs.boxes[g.threads[reporter].box])
  }

  lemma SettledIsCounted(states: seq<System>, actions: seq<Action>, n: nat, id: string, i: nat, reporter: nat)
    requires Run(states, actions) && n < |states| && id in states[n].gateways && Settled(states[n], id, i, reporter)
    ensures Counted(states[n], id)
  {
    QuietGatewayIsCounted(states, actions, n, i, reporter);
  }

  /** From the requests to KEDA: once every gateway has settled, a stream that has read its mail has last
      been told to activate exactly if some gateway has demand. */
  lemma SettledSystemFollowsDemand(states: seq<System>, actions: seq<Action>, n: nat, stream: nat)
    requires Run(states, actions) && n < |states| && stream in states[n].demands.boxes
    requires states[n].demands.boxes[stream].mail.None?
    requires forall id :: id in states[n].gateways ==> exists i: nat, reporter: nat :: Settled(states[n], id, i, reporter)
    ensures var s := states[n];
      var bits := ActivityStream.Bits(s.demands.boxes[stream].got);
      bits != [] && (bits[|bits| - 1] <==> exists id :: id in s.gateways && s.gateways[id].Demand() > 0)
  {
    forall id | id in states[n].gateways ensures Counted(states[n], id) {
      var i: nat, reporter: nat :| Settled(states[n], id, i, reporter);
      SettledIsCounted(states, actions, n, id, i, reporter);
    }
    KedaFollowsDemand(states, actions, n, stream);
  }

  // ---- convergence ----

  /** Because a gateway never uses a sequence number twice, the network may reorder and repeat its
      reports at will: from any reachable state, two deliveries of the same reports within one time to
      live leave the same record for every gateway and the same total. */
  lemma NetworkOrderIrrelevant(states: seq<System>, actions: seq<Action>, n: nat,
                               ds: seq<Convergence.Delivery>, ds': seq<Convergence.Delivery>, start: int, start': int)
    requires Run(states, actions) && n < |states|
    requires forall r :: r in Convergence.Reports(ds) ==> Genuine(states[n].gateways, r)
    requires Convergence.Reports(ds) == Convergence.Reports(ds')
    requires var m, limits := states[n].members, states[n].limits;
      && Convergence.OneWindow(m, ds, start, limits) && Convergence.OneWindow(m, ds', start', limits)
      && |Convergence.Ids(m, ds)| <= limits.maxMembers
    ensures var a, b := Convergence.Deliver(states[n].members, ds, states[n].limits), Convergence.Deliver(states[n].members, ds', states[n].limits);
      && a.Keys == b.Keys
      && (forall id :: id in a ==> a[id].sequence == b[id].sequence && a[id].demand == b[id].demand)
      && Total(a) == Total(b)
  {
    var m, rs := states[n].members, Convergence.Reports(ds);
    forall id, r | Convergence.About(m, rs, id, r) ensures Genuine(states[n].gateways, r) {
      if id in m { MembersAreGenuine(states, actions, n, id); }
    }
    GenuineNoReuse(states[n].gateways, m, rs);
    Convergence.Converges(m, ds, ds', start, start', states[n].limits);
  }

  lemma GenuineNoReuse(gs: map<string, GatewayMachine.State>, m: Members, rs: set<Report>)
    requires forall id, r :: Convergence.About(m, rs, id, r) ==> Genuine(gs, r)
    ensures Convergence.NoReuse(m, rs)
  {
  }
}
