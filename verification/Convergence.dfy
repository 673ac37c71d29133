/** Reports that arrive late, twice or in another order lead to the same demand, as long as nothing
    expires in between; and what happens when something does. */
module Convergence {
  import opened Aggregator
  import opened AggregatorHistory

  datatype Delivery = Delivery(report: Report, now: int)

  function Deliver(m: Members, ds: seq<Delivery>, limits: Limits): Members {
    if ds == [] then m
    else Updated(Deliver(m, ds[..|ds| - 1], limits), ds[|ds| - 1].report, ds[|ds| - 1].now, limits)
  }

  function Reports(ds: seq<Delivery>): set<Report> {
    if ds == [] then {} else Reports(ds[..|ds| - 1]) + {ds[|ds| - 1].report}
  }

  // All clock readings lie in one time to live, which the members present at its start outlast.
  predicate OneWindow(m: Members, ds: seq<Delivery>, start: int, limits: Limits) {
    && (forall id :: id in m ==> start + limits.ttl <= m[id].expiresAt)
    && (forall i :: 0 <= i < |ds| ==> start <= ds[i].now < start + limits.ttl)
  }

  // The gateways heard of: present at the start or delivered.
  function Ids(m: Members, ds: seq<Delivery>): set<string> {
    if ds == [] then m.Keys else Ids(m, ds[..|ds| - 1]) + {ds[|ds| - 1].report.id}
  }

  // Report `r` is about gateway `id` and belongs to the reports at hand, be it as the record that
  // was there at the start or as a delivery.
  predicate About(m: Members, rs: set<Report>, id: string, r: Report) {
    r.id == id && (r in rs || (id in m && r == Report(id, m[id].sequence, m[id].demand)))
  }

  // A reporter never uses a sequence number for two different demands.
  ghost predicate NoReuse(m: Members, rs: set<Report>) {
    forall id, r, r' :: About(m, rs, id, r) && About(m, rs, id, r') && r.sequence == r'.sequence ==> r == r'
  }

  // `member` records the report about `id` with the highest sequence number.
  ghost predicate Newest(m: Members, rs: set<Report>, id: string, member: Member) {
    && About(m, rs, id, Report(id, member.sequence, member.demand))
    && forall r :: About(m, rs, id, r) ==> r.sequence <= member.sequence
  }

  lemma {:induction false} IdsFromReports(m: Members, ds: seq<Delivery>, id: string)
    ensures id in Ids(m, ds) <==> id in m || exists r :: r in Reports(ds) && r.id == id
  {
    if ds != [] {
      var p, d := ds[..|ds| - 1], ds[|ds| - 1];
      IdsFromReports(m, p, id);
      assert d.report in Reports(ds);
      if r :| r in Reports(p) && r.id == id { assert r in Reports(ds); }
    }
  }

  // The effect of a report when nothing expires and there is room for its gateway.
  function Recorded(before: Members, r: Report, expiresAt: int): Members {
    if r.id in before && r.sequence <= before[r.id].sequence then before
    else before[r.id := Member(r.sequence, r.demand, expiresAt)]
  }

  lemma UpdateInWindow(before: Members, r: Report, now: int, end: int, limits: Limits)
    requires now < end <= now + limits.ttl && forall id :: id in before ==> end <= before[id].expiresAt
    requires |before.Keys + {r.id}| <= limits.maxMembers
    ensures Updated(before, r, now, limits) == Recorded(before, r, now + limits.ttl)
    ensures Updated(before, r, now, limits).Keys == before.Keys + {r.id}
    ensures forall id :: id in Updated(before, r, now, limits) ==> end <= Updated(before, r, now, limits)[id].expiresAt
  {
    assert Unexpired(before, now) == before;
    if r.id !in before { assert |before.Keys + {r.id}| == |before.Keys| + 1; }
  }

  /** In the window nobody is forgotten and nobody is refused. */
  lemma {:induction false} NothingExpires(m: Members, ds: seq<Delivery>, start: int, limits: Limits)
    requires OneWindow(m, ds, start, limits) && |Ids(m, ds)| <= limits.maxMembers
    ensures Deliver(m, ds, limits).Keys == Ids(m, ds)
    ensures forall id :: id in Deliver(m, ds, limits) ==> start + limits.ttl <= Deliver(m, ds, limits)[id].expiresAt
    ensures ds != [] ==>
      var d := ds[|ds| - 1];
      Deliver(m, ds, limits) == Recorded(Deliver(m, ds[..|ds| - 1], limits), d.report, d.now + limits.ttl)
  {
    if ds != [] {
      var p, d := ds[..|ds| - 1], ds[|ds| - 1];
      SubsetSize(Ids(m, p), Ids(m, ds));
      NothingExpires(m, p, start, limits);
      UpdateInWindow(Deliver(m, p, limits), d.report, d.now, start + limits.ttl, limits);
    }
  }

  /** Delivery in any order keeps, for every gateway heard of, its newest report. */
  lemma {:induction false} KeepsNewest(m: Members, ds: seq<Delivery>, start: int, limits: Limits, id: string)
    requires OneWindow(m, ds, start, limits) && |Ids(m, ds)| <= limits.maxMembers
    requires id in Ids(m, ds)
    ensures id in Deliver(m, ds, limits) && Newest(m, Reports(ds), id, Deliver(m, ds, limits)[id])
  {
    NothingExpires(m, ds, start, limits);
    if ds != [] {
      var p, d := ds[..|ds| - 1], ds[|ds| - 1];
      SubsetSize(Ids(m, p), Ids(m, ds));
      NothingExpires(m, p, start, limits);
      if id in Ids(m, p) {
        KeepsNewest(m, p, start, limits, id);
        NewestStep(m, Reports(p), d.report, id, Deliver(m, p, limits)[id], Deliver(m, ds, limits)[id]);
      } else {
        IdsFromReports(m, p, id);
        NewestFirst(m, Reports(p), d.report, Deliver(m, ds, limits)[id]);
      }
    }
  }

  lemma NewestStep(m: Members, rs: set<Report>, r: Report, id: string, before: Member, after: Member)
    requires Newest(m, rs, id, before)
    requires if id != r.id || r.sequence <= before.sequence then after == before
             else after.sequence == r.sequence && after.demand == r.demand
    ensures Newest(m, rs + {r}, id, after)
  {
  }

  lemma NewestFirst(m: Members, rs: set<Report>, r: Report, after: Member)
    requires r.id !in m && (forall q :: q in rs ==> q.id != r.id)
    requires after.sequence == r.sequence && after.demand == r.demand
    ensures Newest(m, rs + {r}, r.id, after)
  {
  }

  lemma {:induction false} SameDemandsSameSum(m: Members, m': Members)
    requires m.Keys == m'.Keys && forall id :: id in m ==> m[id].demand == m'[id].demand
    ensures Sum(m) == Sum(m')
    decreases |m|
  {
    if m == map[] {
      assert m' == map[];
    } else {
      var id :| id in m;
      SumWithout(m, id);
      SumWithout(m', id);
      SameDemandsSameSum(m - {id}, m' - {id});
    }
  }

  lemma NewestUnique(m: Members, rs: set<Report>, id: string, a: Member, b: Member)
    requires NoReuse(m, rs) && Newest(m, rs, id, a) && Newest(m, rs, id, b)
    ensures a.sequence == b.sequence && a.demand == b.demand
  {
  }

  /** Two deliveries of the same reports, in any order, with any repeats and at any moments of one
      time to live, end with the same record for every gateway and the same total. */
  lemma Converges(m: Members, ds: seq<Delivery>, ds': seq<Delivery>, start: int, start': int, limits: Limits)
    requires OneWindow(m, ds, start, limits) && OneWindow(m, ds', start', limits)
    requires Reports(ds) == Reports(ds') && NoReuse(m, Reports(ds))
    requires |Ids(m, ds)| <= limits.maxMembers
    ensures var a, b := Deliver(m, ds, limits), Deliver(m, ds', limits);
      && a.Keys == b.Keys
      && (forall id :: id in a ==> a[id].sequence == b[id].sequence && a[id].demand == b[id].demand)
      && Saturated(Sum(a)) == Saturated(Sum(b))
  {
    forall id ensures id in Ids(m, ds) <==> id in Ids(m, ds') {
      IdsFromReports(m, ds, id);
      IdsFromReports(m, ds', id);
    }
    assert Ids(m, ds) == Ids(m, ds');
    NothingExpires(m, ds, start, limits);
    NothingExpires(m, ds', start', limits);
    var a, b := Deliver(m, ds, limits), Deliver(m, ds', limits);
    forall id | id in a ensures a[id].sequence == b[id].sequence && a[id].demand == b[id].demand {
      KeepsNewest(m, ds, start, limits, id);
      KeepsNewest(m, ds', start', limits, id);
      NewestUnique(m, Reports(ds), id, a[id], b[id]);
    }
    SameDemandsSameSum(a, b);
  }

  // ---- what expiry forgets ----

  /** Without the window the last word can be lost. A gateway reports 5, withdraws, and is forgotten;
      then a delayed copy of its first report is accepted again and counts for another time to live. */
  lemma LateCopyRevivesDemand(limits: Limits, id: string)
    requires limits.ttl > 0 && limits.maxMembers > 0
    ensures var first, withdrawal := Report(id, 1, 5), Report(id, 2, 0);
      var h := [Delivered(first, 0), Delivered(withdrawal, 1), Delivered(first, 1 + limits.ttl)];
      && AcceptedAt(h, 0, limits) && AcceptedAt(h, 1, limits) && AcceptedAt(h, 2, limits)
      && id in After(h, limits) && After(h, limits)[id].demand == 5
  {
  }

  /** After a withdrawal has been accepted, an older report of that gateway is accepted again exactly
      if a clock reading has reached the end of the withdrawal's time to live. */
  lemma WithdrawalLasts(events: seq<Event>, limits: Limits, k: nat, late: Report, now: int)
    requires k < |events| && AcceptedAt(events, k, limits) && late.id == events[k].report.id
    requires late.sequence <= events[k].report.sequence && limits.maxMembers > 0
    requires forall j :: k < j < |events| ==> !(AcceptedAt(events, j, limits) && events[j].report.id == late.id)
    ensures var expired := events[k].now + limits.ttl <= now ||
                           exists j :: k < j < |events| && events[k].now + limits.ttl <= events[j].now;
      var live := Unexpired(After(events, limits), now);
      && (!expired ==> Verdict(live, late, limits) == Stale)
      && (expired ==> late.id !in live && (Verdict(live, late, limits) == Accepted <==> |live| < limits.maxMembers))
  {
    if forall j :: k < j < |events| ==> events[j].now < events[k].now + limits.ttl {
      assert Holds(events, k, limits);
      HolderIsMember(events, limits, k);
    } else if late.id in After(events, limits) {
      var i := MemberHasHolder(events, limits, late.id);
      HolderIsMember(events, limits, i);
    }
  }
}
