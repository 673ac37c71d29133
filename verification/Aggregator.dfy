/** The demand aggregator: the newest report of every gateway, forgotten after a time to live. */
module Aggregator {
  import Mailboxes

  const MaxInt64: int := 0x7FFF_FFFF_FFFF_FFFF
  const MaxMemberIdLength: nat := 512

  datatype Report = Report(id: string, sequence: nat, demand: int)

  datatype Member = Member(sequence: nat, demand: int, expiresAt: int)

  type Members = map<string, Member>

  datatype Result = Accepted | Stale | Capacity

  datatype Limits = Limits(ttl: int, maxMembers: int, maxDemand: int)

  /** The checks a report passes before it reaches the members. */
  predicate WellFormed(r: Report, limits: Limits) {
    && r.id != "" && |r.id| <= MaxMemberIdLength
    && r.sequence != 0
    && 0 <= r.demand <= limits.maxDemand
  }

  function Unexpired(m: Members, now: int): Members {
    map id | id in m && now < m[id].expiresAt :: m[id]
  }

  /** What a report meets once the expired members are gone. */
  function Verdict(live: Members, r: Report, limits: Limits): Result {
    if r.id in live then (if r.sequence <= live[r.id].sequence then Stale else Accepted)
    else if |live| >= limits.maxMembers then Capacity
    else Accepted
  }

  function Updated(m: Members, r: Report, now: int, limits: Limits): Members {
    var live := Unexpired(m, now);
    if Verdict(live, r, limits) == Accepted
    then live[r.id := Member(r.sequence, r.demand, now + limits.ttl)]
    else live
  }

  // A critical section of another caller.
  datatype Other = Reports(report: Report, now: int) | Sweeps(now: int)

  function Acted(m: Members, other: Other, limits: Limits): Members {
    match other
    case Reports(r, now) => Updated(m, r, now, limits)
    case Sweeps(now) => Unexpired(m, now)
  }

  function Meanwhile(m: Members, others: seq<Other>, limits: Limits): Members {
    if others == [] then m else Acted(Meanwhile(m, others[..|others| - 1], limits), others[|others| - 1], limits)
  }

  ghost function Sum(m: Members): int {
    if m == map[] then 0 else
      var id :| id in m;
      m[id].demand + Sum(m - {id})
  }

  function Saturated(n: int): int {
    if n > MaxInt64 then MaxInt64 else n
  }

  /** Saturation keeps every sum that an int64 can hold and replaces every other by the largest. */
  lemma SaturatedMeaning(n: int)
    ensures Saturated(n) <= MaxInt64 == 9_223_372_036_854_775_807
    ensures Saturated(n) == n <==> n <= MaxInt64
  {
  }

  ghost predicate NonNegative(m: Members) {
    forall id :: id in m ==> m[id].demand >= 0
  }

  /** The sum does not depend on the order in which members are visited. */
  lemma {:induction false} SumWithout(m: Members, id: string)
    requires id in m
    ensures Sum(m) == m[id].demand + Sum(m - {id})
    decreases |m|
  {
    var first :| first in m && Sum(m) == m[first].demand + Sum(m - {first});
    if first != id {
      SumWithout(m - {first}, id);
      SumWithout(m - {id}, first);
      assert m - {first} - {id} == m - {id} - {first};
    }
  }

  lemma {:induction false} SumNonNegative(m: Members)
    requires NonNegative(m)
    ensures Sum(m) >= 0
    decreases |m|
  {
    if m != map[] {
      var id :| id in m;
      SumWithout(m, id);
      SumNonNegative(m - {id});
    }
  }

  class DemandAggregator {
    const limits: Limits
    var members: Members
    var total: int
    var demands: Mailboxes.Subs

    ghost predicate Valid()
      reads this
    {
      && limits.ttl > 0 && limits.maxMembers > 0 && limits.maxDemand > 0
      && NonNegative(members)
      && |members| <= limits.maxMembers
      && total == Saturated(Sum(members))
      && Mailboxes.Consistent(demands)
    }

    /** The state between two operations: the total has been published. */
    ghost predicate Settled()
      reads this
    {
      Valid() && demands.last == total
    }

    constructor (ttl: int, maxMembers: int, maxDemand: int)
      ensures Settled() && members == map[] && demands == Mailboxes.NoSubscriptions
      ensures limits.ttl == (if ttl <= 0 then 10_000_000_000 else ttl)
      ensures limits.maxMembers == (if maxMembers <= 0 then 1024 else maxMembers)
      ensures limits.maxDemand == (if maxDemand <= 0 then 100 else maxDemand)
    {
      limits := Limits(if ttl <= 0 then 10_000_000_000 else ttl,
                       if maxMembers <= 0 then 1024 else maxMembers,
                       if maxDemand <= 0 then 100 else maxDemand);
      members, total, demands := map[], 0, Mailboxes.NoSubscriptions;
    }

    /** Adds up the members in whatever order the map is visited, stopping at the largest int64. */
    method RecalculateLocked()
      requires NonNegative(members)
      modifies this`total
      ensures total == Saturated(Sum(members))
    {
      var sum := 0;
      var todo := members;
      while todo != map[]
        invariant NonNegative(todo)
        invariant 0 <= sum <= MaxInt64 && sum + Sum(todo) == Sum(members)
        decreases |todo|
      {
        var id :| id in todo;
        var demand := todo[id].demand;
        SumWithout(todo, id);
        todo := todo - {id};
        SumNonNegative(todo);
        if demand > MaxInt64 - sum {
          sum := MaxInt64;
          total := sum;
          return;
        }
        sum := sum + demand;
      }
      total := sum;
    }

    method ExpireLocked(now: int) returns (expired: nat)
      requires Valid()
      modifies this`members, this`total
      ensures Valid() && members == Unexpired(old(members), now)
      ensures expired == |old(members)| - |members|
      ensures expired == 0 ==> members == old(members) && total == old(total)
    {
      expired := 0;
      var todo := members.Keys;
      ghost var before := members;
      while todo != {}
        invariant todo <= members.Keys <= before.Keys && NonNegative(members)
        invariant total == old(total)
        invariant expired + |members| == |before|
        invariant forall id :: id in members ==> members[id] == before[id]
        invariant forall id :: id in before ==>
                    (id in members <==> id in todo || now < before[id].expiresAt)
        decreases todo
      {
        var id :| id in todo;
        if !(now < members[id].expiresAt) {
          assert members.Keys == (members - {id}).Keys + {id};
          members := members - {id};
          expired := expired + 1;
        }
        todo := todo - {id};
      }
      assert members == Unexpired(before, now);
      if expired > 0 {
        RecalculateLocked();
      } else {
        SameSize(members.Keys, before.Keys);
        assert members == before;
        assert total == Saturated(Sum(before));
      }
    }

    method PublishLocked()
      requires Valid()
      modifies this`demands
      ensures Settled() && demands == Mailboxes.Publish(old(demands), total)
    {
      Mailboxes.StepConsistent(demands, Mailboxes.DoPublish(total));
      demands := Mailboxes.Publish(demands, total);
    }

    /** One authenticated, well-formed report, with the clock reading taken when it arrived. */
    method Update(r: Report, now: int) returns (result: Result)
      requires Settled() && WellFormed(r, limits)
      modifies this
      ensures Settled()
      ensures result == Verdict(Unexpired(old(members), now), r, limits)
      ensures members == Updated(old(members), r, now, limits)
      // in terms of the members that outlive `now`
      ensures var live := map id | id in old(members) && old(members)[id].expiresAt > now :: old(members)[id];
        && (result == Stale <==> r.id in live && r.sequence <= live[r.id].sequence)
        && (result == Capacity <==> r.id !in live && |live| >= limits.maxMembers)
        && members == (if result == Accepted then live[r.id := Member(r.sequence, r.demand, now + limits.ttl)] else live)
      ensures demands == Mailboxes.Publish(old(demands), total)
    {
      var _ := ExpireLocked(now);
      assert members == map id | id in old(members) && old(members)[id].expiresAt > now :: old(members)[id];
      if r.id in members {
        if r.sequence <= members[r.id].sequence {
          PublishLocked();
          return Stale;
        }
      } else if |members| >= limits.maxMembers {
        PublishLocked();
        return Capacity;
      }
      AddedSize(members, r.id, Member(r.sequence, r.demand, now + limits.ttl));
      members := members[r.id := Member(r.sequence, r.demand, now + limits.ttl)];
      RecalculateLocked();
      PublishLocked();
      return Accepted;
    }

    /** The whole handler, after authentication and decoding: the status it answers with. */
    method HandleReport(r: Report, now: int) returns (status: int)
      requires Settled()
      modifies this
      ensures Settled()
      ensures status == 400 <==> r.id == "" || |r.id| > 512 || r.sequence == 0 || r.demand < 0 || r.demand > limits.maxDemand
      ensures status == 400 ==> members == old(members) && demands == old(demands) && total == old(total)
      ensures status != 400 ==> members == Updated(old(members), r, now, limits)
      ensures var live := map id | id in old(members) && old(members)[id].expiresAt > now :: old(members)[id];
        status == 429 <==> status != 400 && r.id !in live && |live| >= limits.maxMembers
      ensures status in {204, 400, 429}
    {
      if !WellFormed(r, limits) {
        return 400;
      }
      var result := Update(r, now);
      status := if result == Capacity then 429 else 204;
    }

    method Expire(now: int)
      requires Settled()
      modifies this
      ensures Settled() && members == Unexpired(old(members), now)
      ensures demands == Mailboxes.Publish(old(demands), total)
    {
      var expired := ExpireLocked(now);
      if expired > 0 {
        PublishLocked();
      }
    }

    /** One critical section of another caller. */
    method Act(other: Other)
      requires Settled() && (other.Reports? ==> WellFormed(other.report, limits))
      modifies this
      ensures Settled() && members == Acted(old(members), other, limits)
      ensures demands.boxes.Keys == old(demands.boxes.Keys) && demands.next == old(demands.next)
    {
      match other {
        case Reports(r, now) => var result := Update(r, now);
        case Sweeps(now) => Expire(now);
      }
    }

    /** What other callers do between two critical sections of one call. */
    method Others(others: seq<Other>)
      requires Settled() && forall i :: 0 <= i < |others| && others[i].Reports? ==> WellFormed(others[i].report, limits)
      modifies this
      ensures Settled() && members == Meanwhile(old(members), others, limits)
      ensures demands.boxes.Keys == old(demands.boxes.Keys) && demands.next == old(demands.next)
    {
      ghost var start := members;
      var n := 0;
      while n < |others|
        invariant 0 <= n <= |others| && Settled() && members == Meanwhile(start, others[..n], limits)
        invariant demands.boxes.Keys == old(demands.boxes.Keys) && demands.next == old(demands.next)
      {
        assert others[..n + 1][..n] == others[..n];
        Act(others[n]);
        n := n + 1;
      }
      assert others[..n] == others;
    }

    /** Sweeps, and reads the total in a second critical section. */
    method Demand(now: int, others: seq<Other>) returns (demand: int)
      requires Settled() && forall i :: 0 <= i < |others| && others[i].Reports? ==> WellFormed(others[i].report, limits)
      modifies this
      ensures Settled() && members == Meanwhile(Unexpired(old(members), now), others, limits)
      ensures demand == total == Saturated(Sum(members))
    {
      Expire(now);
      Others(others);
      demand := total;
    }

    /** Sweeps, and subscribes in a second critical section. The stream is seeded with the total of that
        moment, which is the published value. */
    method SubscribeDemand(now: int, others: seq<Other>) returns (id: nat)
      requires Settled() && forall i :: 0 <= i < |others| && others[i].Reports? ==> WellFormed(others[i].report, limits)
      modifies this
      ensures Settled() && members == Meanwhile(Unexpired(old(members), now), others, limits)
      ensures id in demands.boxes && demands.boxes[id].seed == demands.boxes[id].base == total
      ensures id == old(demands.next) && demands.boxes.Keys == old(demands.boxes.Keys) + {id}
    {
      Expire(now);
      Others(others);
      id := demands.next;
      Mailboxes.StepConsistent(demands, Mailboxes.DoSubscribe(total));
      demands := Mailboxes.Subscribe(demands, total);
    }
  }

  lemma SameSize(small: set<string>, big: set<string>)
    requires small <= big && |small| == |big|
    ensures small == big
  {
    if id :| id in big && id !in small {
      assert small <= big - {id};
      SubsetSize(small, big - {id});
    }
  }

  lemma {:induction false} SubsetSize<T>(small: set<T>, big: set<T>)
    requires small <= big
    ensures |small| <= |big|
    decreases big
  {
    if small != {} {
      var x :| x in small;
      SubsetSize(small - {x}, big - {x});
    }
  }

  lemma CountWithout(m: Members, id: string)
    requires id in m
    ensures |m - {id}| + 1 == |m|
  {
  }

  lemma AddedSize(m: Members, id: string, member: Member)
    ensures |m[id := member]| <= |m| + 1
    ensures id in m ==> |m[id := member]| == |m|
  {
  }
}
