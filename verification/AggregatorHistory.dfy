/** The aggregator's members and demand, read off the history of what happened to it. */
module AggregatorHistory {
  import opened Common
  import opened Aggregator

  // Times are the clock readings passed to the operations. They are taken before the mutex, so a
  // history may show them out of order.
  datatype Event = Delivered(report: Report, now: int) | Swept(now: int) | Queried(now: int)

  function Apply(m: Members, e: Event, limits: Limits): Members {
    match e
    case Delivered(r, now) => Updated(m, r, now, limits)
    case Swept(now) => Unexpired(m, now)
    case Queried(now) => Unexpired(m, now)
  }

  function After(events: seq<Event>, limits: Limits): Members {
    if events == [] then map[]
    else Apply(After(events[..|events| - 1], limits), events[|events| - 1], limits)
  }

  // ---- the history's own account of who is a member ----

  /** Event `k` is a report that was accepted. */
  predicate AcceptedAt(events: seq<Event>, k: nat, limits: Limits)
    requires k < |events|
  {
    && events[k].Delivered?
    && Verdict(Unexpired(After(events[..k], limits), events[k].now), events[k].report, limits) == Accepted
  }

  /** Event `k` is the last accepted report of its gateway, and no clock reading since has reached
      the end of its time to live. */
  predicate Holds(events: seq<Event>, k: nat, limits: Limits)
    requires k < |events|
  {
    && AcceptedAt(events, k, limits)
    && forall j :: k < j < |events| ==>
         && events[j].now < events[k].now + limits.ttl
         && !(AcceptedAt(events, j, limits) && events[j].report.id == events[k].report.id)
  }

  function MemberOf(e: Event, limits: Limits): Member
    requires e.Delivered?
  {
    Member(e.report.sequence, e.report.demand, e.now + limits.ttl)
  }

  // Which events are accepted reports.
  function AcceptedBits(events: seq<Event>, limits: Limits): (bits: seq<bool>) {
    seq(|events|, k requires 0 <= k < |events| => AcceptedAt(events, k, limits))
  }

  // The same as Holds, with the accepted reports given.
  predicate Stands(events: seq<Event>, bits: seq<bool>, k: nat, limits: Limits)
    requires k < |events| == |bits|
  {
    && events[k].Delivered? && bits[k]
    && forall j :: k < j < |events| ==>
         && events[j].now < events[k].now + limits.ttl
         && !(bits[j] && events[j].Delivered? && events[j].report.id == events[k].report.id)
  }

  lemma HoldsStands(events: seq<Event>, k: nat, limits: Limits)
    requires k < |events|
    ensures Holds(events, k, limits) <==> Stands(events, AcceptedBits(events, limits), k, limits)
  {
    var bits := AcceptedBits(events, limits);
    assert forall j :: 0 <= j < |events| ==> bits[j] == AcceptedAt(events, j, limits);
  }

  lemma PrefixAccepted(events: seq<Event>, n: nat, limits: Limits)
    requires n <= |events|
    ensures AcceptedBits(events[..n], limits) == AcceptedBits(events, limits)[..n]
  {
    forall k | 0 <= k < n ensures AcceptedAt(events[..n], k, limits) == AcceptedAt(events, k, limits) {
      assert events[..n][..k] == events[..k];
    }
  }

  lemma StandsLonger(events: seq<Event>, bits: seq<bool>, k: nat, limits: Limits)
    requires k < |events| - 1 && |bits| == |events|
    ensures var n := |events| - 1;
      Stands(events, bits, k, limits) <==>
        && Stands(events[..n], bits[..n], k, limits)
        && events[n].now < events[k].now + limits.ttl
        && !(bits[n] && events[n].Delivered? && events[n].report.id == events[k].report.id)
  {
    var n := |events| - 1;
    var p, c := events[..n], bits[..n];
    assert forall j :: 0 <= j < n ==> p[j] == events[j] && c[j] == bits[j];
  }

  lemma HoldsLonger(events: seq<Event>, k: nat, limits: Limits)
    requires k < |events| - 1
    ensures var n := |events| - 1;
      Holds(events, k, limits) <==>
        && Holds(events[..n], k, limits)
        && events[n].now < events[k].now + limits.ttl
        && !(AcceptedAt(events, n, limits) && events[n].report.id == events[k].report.id)
  {
    var n, bits := |events| - 1, AcceptedBits(events, limits);
    PrefixAccepted(events, n, limits);
    HoldsStands(events, k, limits);
    HoldsStands(events[..n], k, limits);
    StandsLonger(events, bits, k, limits);
    assert bits[n] == AcceptedAt(events, n, limits);
  }

  lemma {:induction false} HolderIsMember(events: seq<Event>, limits: Limits, k: nat)
    requires k < |events| && Holds(events, k, limits)
    ensures var id := events[k].report.id;
      id in After(events, limits) && After(events, limits)[id] == MemberOf(events[k], limits)
  {
    if k < |events| - 1 {
      HoldsLonger(events, k, limits);
      HolderIsMember(events[..|events| - 1], limits, k);
    }
  }

  lemma {:induction false} MemberHasHolder(events: seq<Event>, limits: Limits, id: string) returns (k: nat)
    requires id in After(events, limits)
    ensures k < |events| && Holds(events, k, limits) && events[k].report.id == id
  {
    var n := |events| - 1;
    if AcceptedAt(events, n, limits) && events[n].report.id == id {
      k := n;
    } else {
      k := MemberHasHolder(events[..n], limits, id);
      HolderIsMember(events[..n], limits, k);
      assert events[..n][k] == events[k];
      HoldsLonger(events, k, limits);
    }
  }

  /** A gateway is a member exactly while some event of the history holds for it, and then its record
      is that event's report. This needs nothing of the clock. */
  lemma MembersAreHistory(events: seq<Event>, limits: Limits, id: string)
    ensures id in After(events, limits) <==>
            exists k :: 0 <= k < |events| && Holds(events, k, limits) && events[k].report.id == id
    ensures forall k :: 0 <= k < |events| && Holds(events, k, limits) && events[k].report.id == id ==>
              id in After(events, limits) && After(events, limits)[id] == MemberOf(events[k], limits)
  {
    if id in After(events, limits) {
      var k := MemberHasHolder(events, limits, id);
    }
    forall k | 0 <= k < |events| && Holds(events, k, limits) && events[k].report.id == id
      ensures id in After(events, limits) && After(events, limits)[id] == MemberOf(events[k], limits)
    {
      HolderIsMember(events, limits, k);
    }
  }

  /** While a gateway's report is remembered, only a higher sequence number replaces it. */
  lemma SequenceGrowsWithinMembership(events: seq<Event>, limits: Limits, k: nat, j: nat)
    requires k < j < |events| && events[k].Delivered? && events[j].Delivered?
    requires Holds(events[..j], k, limits) && events[j].now < events[k].now + limits.ttl
    requires events[j].report.id == events[k].report.id
    ensures AcceptedAt(events, j, limits) <==> events[j].report.sequence > events[k].report.sequence
  {
    MembersAreHistory(events[..j], limits, events[k].report.id);
  }

  // Event `j` finds gateway `id` unexpired.
  predicate Finds(events: seq<Event>, limits: Limits, id: string, j: nat)
    requires j < |events|
  {
    id in Unexpired(After(events[..j], limits), events[j].now)
  }

  /** From event `i` to event `k` gateway `id` is never forgotten: every operation finds it. */
  predicate Remembered(events: seq<Event>, limits: Limits, id: string, i: nat, k: nat)
    requires k <= |events|
  {
    forall j {:trigger Finds(events, limits, id, j)} :: i < j < k ==> Finds(events, limits, id, j)
  }

  // An operation that finds the gateway unexpired keeps it, with at least the sequence number it had.
  lemma SequenceStep(m: Members, e: Event, limits: Limits, id: string)
    requires id in Unexpired(m, e.now)
    ensures id in Apply(m, e, limits) && Apply(m, e, limits)[id].sequence >= m[id].sequence
  {
  }

  lemma AfterPrefix(events: seq<Event>, limits: Limits, k: nat)
    requires 0 < k <= |events|
    ensures After(events[..k], limits) == Apply(After(events[..k - 1], limits), events[k - 1], limits)
  {
    assert events[..k][..k - 1] == events[..k - 1];
  }

  lemma AcceptedIsRecorded(events: seq<Event>, limits: Limits, i: nat)
    requires i < |events| && AcceptedAt(events, i, limits)
    ensures var id, m := events[i].report.id, After(events[..i + 1], limits); id in m && m[id].sequence == events[i].report.sequence
  {
    AfterPrefix(events, limits, i + 1);
  }

  // Gateway `id` stays, with at least the sequence number it had.
  predicate Grows(m: Members, m': Members, id: string) {
    id in m ==> id in m' && m'[id].sequence >= m[id].sequence
  }

  predicate GrowsAt(ms: seq<Members>, id: string, j: nat)
    requires j < |ms| - 1
  {
    Grows(ms[j], ms[j + 1], id)
  }

  lemma {:induction false} GrowsAlong(ms: seq<Members>, id: string, i: nat, k: nat)
    requires i <= k < |ms| && forall j :: i <= j < k ==> GrowsAt(ms, id, j)
    ensures Grows(ms[i], ms[k], id)
    decreases k - i
  {
    if i < k {
      GrowsAlong(ms, id, i, k - 1);
      assert GrowsAt(ms, id, k - 1);
    }
  }

  lemma GrowsStep(events: seq<Event>, limits: Limits, id: string, j: nat)
    requires j < |events| && Finds(events, limits, id, j)
    ensures Grows(After(events[..j], limits), After(events[..j + 1], limits), id)
  {
    AfterPrefix(events, limits, j + 1);
    SequenceStep(After(events[..j], limits), events[j], limits, id);
  }

  function Snapshots(events: seq<Event>, limits: Limits): seq<Members> {
    seq(|events| + 1, j requires 0 <= j <= |events| => After(events[..j], limits))
  }

  lemma PeriodGrows(events: seq<Event>, limits: Limits, id: string, i: nat, k: nat)
    requires i < k <= |events| && Remembered(events, limits, id, i, k)
    ensures Grows(After(events[..i + 1], limits), After(events[..k], limits), id)
  {
    var ms := Snapshots(events, limits);
    forall j | i + 1 <= j < k ensures GrowsAt(ms, id, j) {
      assert Finds(events, limits, id, j);
      GrowsStep(events, limits, id, j);
    }
    GrowsAlong(ms, id, i + 1, k);
  }

  /** Throughout a membership period the remembered sequence number is at least that of every report
      accepted in it. */
  lemma LargestOfPeriod(events: seq<Event>, limits: Limits, i: nat, k: nat)
    requires i < k <= |events| && AcceptedAt(events, i, limits)
    requires Remembered(events, limits, events[i].report.id, i, k)
    ensures var id, m := events[i].report.id, After(events[..k], limits);
      id in m && m[id].sequence >= events[i].report.sequence
  {
    AcceptedIsRecorded(events, limits, i);
    PeriodGrows(events, limits, events[i].report.id, i, k);
  }

  /** Within one membership period the accepted sequence numbers strictly grow. */
  lemma SequenceGrowsInPeriod(events: seq<Event>, limits: Limits, i: nat, k: nat)
    requires i < k < |events| && AcceptedAt(events, i, limits) && AcceptedAt(events, k, limits)
    requires events[k].report.id == events[i].report.id
    requires Remembered(events, limits, events[i].report.id, i, k + 1)
    ensures events[i].report.sequence < events[k].report.sequence
  {
    LargestOfPeriod(events, limits, i, k);
    assert Finds(events, limits, events[i].report.id, k);
  }

  // ---- demand as a sum over the history ----

  // What one event adds to the demand: `demand`, reported by gateway `id` under `sequence`, if it `counts`.
  datatype Share = Share(id: string, sequence: nat, demand: int, counts: bool)

  /** An event counts at time `now` if it is a last accepted report whose time to live is not over. */
  function ShareOf(events: seq<Event>, k: nat, now: int, limits: Limits): Share
    requires k < |events|
  {
    if events[k].Delivered? then
      Share(events[k].report.id, events[k].report.sequence, events[k].report.demand, Holds(events, k, limits) && now < events[k].now + limits.ttl)
    else Share("", 0, 0, false)
  }

  function Shares(events: seq<Event>, now: int, limits: Limits): (shares: seq<Share>) {
    seq(|events|, k requires 0 <= k < |events| => ShareOf(events, k, now, limits))
  }

  function ShareSum(shares: seq<Share>): int {
    if shares == [] then 0
    else
      var s := shares[|shares| - 1];
      ShareSum(shares[..|shares| - 1]) + (if s.counts then s.demand else 0)
  }

  // `shares` describe the members: one counting share for each, with its demand.
  ghost predicate Describe(shares: seq<Share>, m: Members) {
    && (forall i, j :: 0 <= i < j < |shares| && shares[i].counts && shares[j].counts ==> shares[i].id != shares[j].id)
    && (forall i :: 0 <= i < |shares| && shares[i].counts ==>
          shares[i].id in m && m[shares[i].id].demand == shares[i].demand && m[shares[i].id].sequence == shares[i].sequence)
    && (forall id :: id in m ==> exists i :: 0 <= i < |shares| && shares[i].counts && shares[i].id == id)
  }

  lemma {:induction false} ShareSumIsSum(shares: seq<Share>, m: Members)
    requires Describe(shares, m)
    ensures ShareSum(shares) == Sum(m)
  {
    if shares == [] {
      assert m == map[];
    } else {
      var n := |shares| - 1;
      var p, s := shares[..n], shares[n];
      var rest := if s.counts then m - {s.id} else m;
      DescribeWithout(shares, m);
      ShareSumIsSum(p, rest);
      if s.counts { SumWithout(m, s.id); }
    }
  }

  lemma SharesDescribe(events: seq<Event>, now: int, limits: Limits)
    ensures Describe(Shares(events, now, limits), Unexpired(After(events, limits), now))
  {
    var m := Unexpired(After(events, limits), now);
    var shares := Shares(events, now, limits);
    forall i | 0 <= i < |shares| && shares[i].counts
      ensures shares[i].id in m && m[shares[i].id].demand == shares[i].demand && m[shares[i].id].sequence == shares[i].sequence
    {
      HolderIsMember(events, limits, i);
    }
    forall id | id in m ensures exists i :: 0 <= i < |shares| && shares[i].counts && shares[i].id == id {
      var k := MemberHasHolder(events, limits, id);
      HolderIsMember(events, limits, k);
      assert shares[k].counts && shares[k].id == id;
    }
    forall i, j | 0 <= i < j < |shares| && shares[i].counts && shares[j].counts
      ensures shares[i].id != shares[j].id
    {
      assert Holds(events, i, limits) && AcceptedAt(events, j, limits);
    }
  }

  /** The demand answered at time `now` is the saturated sum, over the history, of every last accepted
      report whose time to live has not been reached. */
  lemma DemandIsHistory(events: seq<Event>, now: int, limits: Limits)
    ensures Saturated(Sum(Unexpired(After(events, limits), now)))
         == Saturated(ShareSum(Shares(events, now, limits)))
  {
    SharesDescribe(events, now, limits);
    ShareSumIsSum(Shares(events, now, limits), Unexpired(After(events, limits), now));
  }

  predicate InOrder(events: seq<Event>) {
    forall i, j :: 0 <= i < j < |events| ==> events[i].now <= events[j].now
  }

  // The gateways with a share that counts.
  function CountingIds(shares: seq<Share>): set<string> {
    if shares == [] then {}
    else
      var s := shares[|shares| - 1];
      CountingIds(shares[..|shares| - 1]) + (if s.counts then {s.id} else {})
  }

  lemma {:induction false} CountingId(shares: seq<Share>, id: string)
    ensures id in CountingIds(shares) <==> exists k :: 0 <= k < |shares| && shares[k].counts && shares[k].id == id
  {
    if shares != [] {
      var p := shares[..|shares| - 1];
      CountingId(p, id);
      assert forall k :: 0 <= k < |p| ==> p[k] == shares[k];
    }
  }

  predicate DistinctIds(shares: seq<Share>) {
    forall i, j :: 0 <= i < j < |shares| && shares[i].counts && shares[j].counts ==> shares[i].id != shares[j].id
  }

  lemma {:induction false} CountsShares(shares: seq<Share>)
    requires DistinctIds(shares)
    ensures Count(shares, Counts) == |CountingIds(shares)|
  {
    if shares != [] {
      var n := |shares| - 1;
      CountsShares(shares[..n]);
      CountingId(shares[..n], shares[n].id);
    }
  }

  predicate Counts(s: Share) { s.counts }

  lemma DescribeWithout(shares: seq<Share>, m: Members)
    requires shares != [] && Describe(shares, m)
    ensures var s := shares[|shares| - 1];
      && (s.counts ==> s.id in m && m[s.id].demand == s.demand)
      && Describe(shares[..|shares| - 1], if s.counts then m - {s.id} else m)
  {
    var n := |shares| - 1;
    var p, s := shares[..n], shares[n];
    var rest := if s.counts then m - {s.id} else m;
    forall id | id in rest ensures exists i :: 0 <= i < |p| && p[i].counts && p[i].id == id {
      var i :| 0 <= i < |shares| && shares[i].counts && shares[i].id == id;
      assert p[i] == shares[i];
    }
  }

  // Some share of gateway `id` counts and has at least that sequence number.
  predicate Outnumbers(shares: seq<Share>, id: string, sequence: nat) {
    exists k :: 0 <= k < |shares| && shares[k].counts && shares[k].id == id && shares[k].sequence >= sequence
  }

  lemma AnswerOf(shares: seq<Share>, m: Members, r: Report, limits: Limits)
    requires Describe(shares, m)
    ensures Verdict(m, r, limits) == Stale <==> Outnumbers(shares, r.id, r.sequence)
    ensures Verdict(m, r, limits) == Capacity <==>
      !Outnumbers(shares, r.id, 0) && Count(shares, Counts) >= limits.maxMembers
  {
    CountsShares(shares);
    forall id ensures id in CountingIds(shares) <==> id in m { CountingId(shares, id); }
    assert CountingIds(shares) == m.Keys;
    if r.id in m {
      var k :| 0 <= k < |shares| && shares[k].counts && shares[k].id == r.id;
      assert shares[k].sequence >= 0;
    }
  }

  /** The answer to a report, read off the history: stale exactly if a report of that gateway with at least
      its sequence number counts; capacity exactly if none of that gateway counts and as many gateways as
      allowed have one that does. */
  lemma AnswerIsHistory(events: seq<Event>, r: Report, now: int, limits: Limits)
    ensures var answer, shares := Verdict(Unexpired(After(events, limits), now), r, limits), Shares(events, now, limits);
      && (answer == Stale <==> Outnumbers(shares, r.id, r.sequence))
      && (answer == Capacity <==> !Outnumbers(shares, r.id, 0) && Count(shares, Counts) >= limits.maxMembers)
  {
    SharesDescribe(events, now, limits);
    AnswerOf(Shares(events, now, limits), Unexpired(After(events, limits), now), r, limits);
  }

  // Event `k` is the last report of its gateway that was accepted.
  predicate LastAccepted(events: seq<Event>, k: nat, limits: Limits)
    requires k < |events|
  {
    && AcceptedAt(events, k, limits)
    && forall j :: k < j < |events| && AcceptedAt(events, j, limits) ==> events[j].report.id != events[k].report.id
  }

  // The same with the accepted reports given.
  predicate IsLast(events: seq<Event>, bits: seq<bool>, k: nat)
    requires k < |events| == |bits|
  {
    && events[k].Delivered? && bits[k]
    && forall j :: k < j < |events| && bits[j] && events[j].Delivered? ==> events[j].report.id != events[k].report.id
  }

  lemma LastIsLast(events: seq<Event>, k: nat, limits: Limits)
    requires k < |events|
    ensures LastAccepted(events, k, limits) <==> IsLast(events, AcceptedBits(events, limits), k)
  {
    var bits := AcceptedBits(events, limits);
    assert forall j :: 0 <= j < |events| ==> bits[j] == AcceptedAt(events, j, limits);
  }

  lemma StandsInOrder(events: seq<Event>, bits: seq<bool>, now: int, k: nat, limits: Limits)
    requires InOrder(events) && k < |events| == |bits| && events[|events| - 1].now <= now < events[k].now + limits.ttl
    ensures Stands(events, bits, k, limits) <==> IsLast(events, bits, k)
  {
    forall j | k < j < |events| ensures events[j].now < events[k].now + limits.ttl {
      assert events[j].now <= events[|events| - 1].now;
    }
  }

  /** While the clock is read in order, what counts is simply the last accepted report of each gateway,
      for one time to live after its acceptance. */
  lemma CountsInOrder(events: seq<Event>, now: int, limits: Limits, k: nat)
    requires InOrder(events) && k < |events| && events[|events| - 1].now <= now
    ensures ShareOf(events, k, now, limits).counts <==> LastAccepted(events, k, limits) && now < events[k].now + limits.ttl
  {
    HoldsStands(events, k, limits);
    LastIsLast(events, k, limits);
    if now < events[k].now + limits.ttl {
      StandsInOrder(events, AcceptedBits(events, limits), now, k, limits);
    }
  }

  /** A gateway none of whose reports was accepted within the last time to live contributes nothing. */
  lemma DeadGatewayForgotten(events: seq<Event>, now: int, limits: Limits, id: string)
    requires forall k :: 0 <= k < |events| && AcceptedAt(events, k, limits) && events[k].report.id == id ==>
               events[k].now + limits.ttl <= now
    ensures id !in Unexpired(After(events, limits), now)
  {
    MembersAreHistory(events, limits, id);
  }

  lemma AppliedStaysFresh(events: seq<Event>, e: Event, now: int, limits: Limits)
    requires forall id :: id in After(events, limits) ==> now < After(events, limits)[id].expiresAt
    requires now < e.now + limits.ttl
    ensures forall id :: id in After(events + [e], limits) ==> now < After(events + [e], limits)[id].expiresAt
  {
  }

  lemma {:induction false} SweptStaysFresh(h: seq<Event>, g: seq<Event>, now: int, limits: Limits)
    requires forall i :: 0 <= i < |g| ==> now < g[i].now + limits.ttl
    ensures var m := After(h + [Swept(now)] + g, limits); forall id :: id in m ==> now < m[id].expiresAt
  {
    if g == [] {
      assert h + [Swept(now)] + g == h + [Swept(now)];
      assert (h + [Swept(now)])[..|h|] == h;
    } else {
      var p, e := g[..|g| - 1], g[|g| - 1];
      SweptStaysFresh(h, p, now, limits);
      assert h + [Swept(now)] + g == (h + [Swept(now)] + p) + [e];
      AppliedStaysFresh(h + [Swept(now)] + p, e, now, limits);
    }
  }

  /** Demand sweeps and then reads the total in a second critical section. Whatever comes in between,
      it answers with the demand of the history up to the reading, and counts nothing expired. */
  lemma TornDemand(h: seq<Event>, between: seq<Event>, now: int, limits: Limits)
    requires forall i :: 0 <= i < |between| ==> now < between[i].now + limits.ttl
    ensures var events := h + [Swept(now)] + between;
      Saturated(Sum(After(events, limits))) == Saturated(ShareSum(Shares(events, now, limits)))
  {
    var events := h + [Swept(now)] + between;
    SweptStaysFresh(h, between, now, limits);
    assert Unexpired(After(events, limits), now) == After(events, limits);
    DemandIsHistory(events, now, limits);
  }

  // ---- background sweeps are invisible ----

  datatype Output = Answered(result: Result) | Told(demand: int)

  // What the caller of one operation sees. Sweeps have no caller.
  ghost function Output1(m: Members, e: Event, limits: Limits): seq<Output> {
    match e
    case Delivered(r, now) => [Answered(Verdict(Unexpired(m, now), r, limits))]
    case Queried(now) => [Told(Saturated(Sum(Unexpired(m, now))))]
    case Swept(_) => []
  }

  ghost function Outputs(events: seq<Event>, limits: Limits): seq<Output> {
    if events == [] then []
    else
      var p := events[..|events| - 1];
      Outputs(p, limits) + Output1(After(p, limits), events[|events| - 1], limits)
  }

  function WithoutSweeps(events: seq<Event>): seq<Event> {
    if events == [] then []
    else
      var p, e := WithoutSweeps(events[..|events| - 1]), events[|events| - 1];
      if e.Swept? then p else p + [e]
  }

  /** Every sweep reads the clock no later than the next operation that has a caller; the one after the
      history reads `now`. The operations themselves may read it in any order. */
  predicate Timely(events: seq<Event>, now: int) {
    events == [] ||
    (var p, e := events[..|events| - 1], events[|events| - 1];
     if e.Swept? then e.now <= now && Timely(p, now) else Timely(p, e.now))
  }

  lemma {:induction false} InOrderIsTimely(events: seq<Event>, now: int)
    requires InOrder(events) && (events != [] ==> events[|events| - 1].now <= now)
    ensures Timely(events, now)
  {
    if events != [] {
      var p, e := events[..|events| - 1], events[|events| - 1];
      if p != [] { assert p[|p| - 1].now <= e.now; }
      InOrderIsTimely(p, if e.Swept? then now else e.now);
    }
  }

  lemma ExpiryComposes(m: Members, now: int, later: int)
    requires now <= later
    ensures Unexpired(Unexpired(m, now), later) == Unexpired(m, later)
  {
  }

  lemma Appended(events: seq<Event>, e: Event, limits: Limits)
    ensures After(events + [e], limits) == Apply(After(events, limits), e, limits)
    ensures Outputs(events + [e], limits) == Outputs(events, limits) + Output1(After(events, limits), e, limits)
  {
  }

  // At time `now` nobody can tell the two sets of members apart.
  predicate Alike(m: Members, m': Members, now: int) {
    Unexpired(m, now) == Unexpired(m', now)
  }

  lemma AlikeApply(m: Members, m': Members, e: Event, limits: Limits)
    requires Alike(m, m', e.now) && !e.Swept?
    ensures Apply(m, e, limits) == Apply(m', e, limits)
    ensures Output1(m, e, limits) == Output1(m', e, limits)
  {
  }

  lemma AlikeSwept(m: Members, m': Members, now: int, later: int)
    requires Alike(m, m', later) && now <= later
    ensures Alike(Unexpired(m, now), m', later)
  {
  }

  // Nobody can tell the history from the one without its sweeps, neither so far nor at time `now`.
  ghost predicate Invisible(events: seq<Event>, limits: Limits, now: int) {
    && Outputs(events, limits) == Outputs(WithoutSweeps(events), limits)
    && Alike(After(events, limits), After(WithoutSweeps(events), limits), now)
  }

  lemma SweepStep(p: seq<Event>, e: Event, limits: Limits, now: int)
    requires e.Swept? ==> e.now <= now
    requires Invisible(p, limits, if e.Swept? then now else e.now)
    ensures Invisible(p + [e], limits, now)
  {
    var q := WithoutSweeps(p);
    assert (p + [e])[..|p|] == p;
    Appended(p, e, limits);
    if e.Swept? {
      AlikeSwept(After(p, limits), After(q, limits), e.now, now);
    } else {
      Appended(q, e, limits);
      AlikeApply(After(p, limits), After(q, limits), e, limits);
    }
  }

  lemma {:induction false} SweepsInvisible(events: seq<Event>, limits: Limits, now: int)
    requires Timely(events, now)
    ensures Invisible(events, limits, now)
  {
    if events != [] {
      var p, e := events[..|events| - 1], events[|events| - 1];
      assert events == p + [e];
      SweepsInvisible(p, limits, if e.Swept? then now else e.now);
      SweepStep(p, e, limits, now);
    }
  }

  /** Two histories that differ only in timely sweeps show their callers the same results and demands. */
  lemma SweepsDoNotMatter(h: seq<Event>, h': seq<Event>, limits: Limits, now: int, now': int)
    requires Timely(h, now) && Timely(h', now') && WithoutSweeps(h) == WithoutSweeps(h')
    ensures Outputs(h, limits) == Outputs(h', limits)
  {
    SweepsInvisible(h, limits, now);
    SweepsInvisible(h', limits, now');
  }

  // ---- a sweep out of turn ----

  function Only(r: Report, now: int, limits: Limits): Members {
    map[r.id := Member(r.sequence, r.demand, now + limits.ttl)]
  }

  lemma OnlyMember(r: Report, now: int, at: int, limits: Limits)
    requires limits.ttl > 0 && 0 < r.demand <= MaxInt64 && at < now + limits.ttl
    ensures var m := Only(r, now, limits);
      Unexpired(m, at) == m && Unexpired(m, now + limits.ttl) == map[] && Saturated(Sum(m)) == r.demand
  {
    var m := Only(r, now, limits);
    SumWithout(m, r.id);
    assert m - {r.id} == map[];
  }

  lemma FirstReport(r: Report, now: int, limits: Limits)
    requires limits.maxMembers > 0
    ensures After([Delivered(r, now)], limits) == Only(r, now, limits)
    ensures Outputs([Delivered(r, now)], limits) == [Answered(Accepted)]
  {
    Appended([], Delivered(r, now), limits);
    assert [] + [Delivered(r, now)] == [Delivered(r, now)];
    assert Unexpired(map[], now) == map[];
  }

  /** A sweep at `swept` that overtakes an operation with an earlier clock reading can be seen: a query
      misses a member that has not expired at its own reading, and a copy of a report that should be
      stale is accepted. */
  lemma OvertakingSweepIsVisible(limits: Limits, r: Report, swept: int, now: int)
    requires limits.ttl > 0 && limits.maxMembers > 0 && 0 < r.demand <= MaxInt64 && now < swept
    ensures var first := [Delivered(r, swept - limits.ttl)];
      && Outputs(first + [Queried(now)], limits) == [Answered(Accepted), Told(r.demand)]
      && Outputs(first + [Swept(swept)] + [Queried(now)], limits) == [Answered(Accepted), Told(0)]
  {
    var start := swept - limits.ttl;
    var first := [Delivered(r, start)];
    FirstReport(r, start, limits);
    OnlyMember(r, start, now, limits);
    Appended(first, Queried(now), limits);
    Appended(first, Swept(swept), limits);
    Appended(first + [Swept(swept)], Queried(now), limits);
  }

  lemma OnlyVerdicts(r: Report, start: int, now: int, limits: Limits)
    requires limits.maxMembers > 0 && now < start + limits.ttl
    ensures Output1(Only(r, start, limits), Delivered(r, now), limits) == [Answered(Stale)]
    ensures Output1(map[], Delivered(r, now), limits) == [Answered(Accepted)]
    ensures Unexpired(Only(r, start, limits), start + limits.ttl) == map[]
  {
    assert Unexpired(Only(r, start, limits), now) == Only(r, start, limits) && Unexpired(map[], now) == map[];
  }

  lemma OvertakingSweepRevives(limits: Limits, r: Report, swept: int, now: int)
    requires limits.ttl > 0 && limits.maxMembers > 0 && now < swept
    ensures var first := [Delivered(r, swept - limits.ttl)];
      && Outputs(first + [Delivered(r, now)], limits) == [Answered(Accepted), Answered(Stale)]
      && Outputs(first + [Swept(swept)] + [Delivered(r, now)], limits) == [Answered(Accepted), Answered(Accepted)]
  {
    var start := swept - limits.ttl;
    var first := [Delivered(r, start)];
    FirstReport(r, start, limits);
    OnlyVerdicts(r, start, now, limits);
    Appended(first, Delivered(r, now), limits);
    Appended(first, Swept(swept), limits);
    Appended(first + [Swept(swept)], Delivered(r, now), limits);
  }

  // No caller can tell whether a sweep came just before the operation `e`.
  ghost predicate Harmless(limits: Limits, swept: int, e: Event) {
    forall h :: Outputs(h + [Swept(swept)] + [e], limits) == Outputs(h + [e], limits)
  }

  lemma TimelyIsHarmless(limits: Limits, swept: int, e: Event)
    requires !e.Swept? && swept <= e.now
    ensures Harmless(limits, swept, e)
  {
    forall h ensures Outputs(h + [Swept(swept)] + [e], limits) == Outputs(h + [e], limits) {
      Appended(h, Swept(swept), limits);
      Appended(h + [Swept(swept)], e, limits);
      Appended(h, e, limits);
      ExpiryComposes(After(h, limits), swept, e.now);
    }
  }

  /** A sweep before a query or a report, whatever the report says, is harmless exactly if it does not
      read the clock later than that operation. */
  lemma HarmlessExactly(limits: Limits, swept: int, e: Event)
    requires limits.ttl > 0 && limits.maxMembers > 0 && !e.Swept?
    ensures Harmless(limits, swept, e) <==> swept <= e.now
  {
    if swept <= e.now {
      TimelyIsHarmless(limits, swept, e);
    } else {
      var r := if e.Delivered? then e.report else Report("gateway", 1, 1);
      if e.Delivered? {
        OvertakingSweepRevives(limits, r, swept, e.now);
      } else {
        OvertakingSweepIsVisible(limits, r, swept, e.now);
      }
      var first := [Delivered(r, swept - limits.ttl)];
      assert Outputs(first + [Swept(swept)] + [e], limits)[1] != Outputs(first + [e], limits)[1];
    }
  }
}
