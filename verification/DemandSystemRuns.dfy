/** Runs of the whole system that host a given run of one gateway. */
module DemandSystemRuns {
  import opened Common
  import opened Aggregator
  import opened DemandSystem
  import AggregatorHistory
  import GatewayMachine
  import GatewayRuns
  import GatewayTheorems
  import Mailboxes

  // The system with one gateway and nothing heard from it.
  function Hosting(limits: Limits, id: string, g: GatewayMachine.State): System {
    System(limits, map[id := g], 0, map[], Mailboxes.NoSubscriptions, [])
  }

  ghost predicate Reachable(s: System) {
    exists states: seq<System>, actions: seq<Action> :: Run(states, actions) && states[|states| - 1] == s
  }

  lemma Reach(s: System, a: Action, t: System)
    requires Reachable(s) && Step(s, a) == Some(t)
    ensures Reachable(t)
  {
    var states: seq<System>, actions: seq<Action> :| Run(states, actions) && states[|states| - 1] == s;
    var states', actions' := states + [t], actions + [a];
    forall k | 0 <= k < |actions'| ensures Step(states'[k], actions'[k]) == Some(states'[k + 1]) {
      if k < |actions| { assert actions'[k] == actions[k]; }
    }
    assert Run(states', actions') && states'[|states'| - 1] == t;
  }

  lemma {:induction false} Hosted(gs: seq<GatewayMachine.State>, acts: seq<GatewayMachine.Action>, k: nat, gatewayId: string, suffix: string, limits: Limits)
    requires GatewayMachine.Run(gs, acts) && k < |gs| && gatewayId != "" && |suffix| == 24
    requires limits.ttl > 0 && limits.maxMembers > 0 && limits.maxDemand == gs[0].cfg.maxQueue
    ensures Reachable(Hosting(limits, MemberId(gatewayId, suffix), gs[k]))
  {
    var id := MemberId(gatewayId, suffix);
    if k == 0 {
      var start := Hosting(limits, id, gs[0]).(gateways := map[]);
      assert Run([start], []) && [start][|[start]| - 1] == start;
      assert map[][id := gs[0]] == map[id := gs[0]];
      Reach(start, Join(gatewayId, suffix, gs[0]), Hosting(limits, id, gs[0]));
    } else {
      Hosted(gs, acts, k - 1, gatewayId, suffix, limits);
      assert GatewayMachine.Step(gs[k - 1], acts[k - 1]) == Some(gs[k]);
      assert map[id := gs[k - 1]][id := gs[k]] == map[id := gs[k]];
      Reach(Hosting(limits, id, gs[k - 1]), Local(id, acts[k - 1]), Hosting(limits, id, gs[k]));
    }
  }

  /** Whatever its identity, a gateway can come to send a report; if its identity is longer than 487
      characters, that report is malformed. */
  lemma LongIdentityIsRefused(gatewayId: string, suffix: string, ttl: int, maxMembers: int) returns (s: System)
    requires |gatewayId| > 487 && |suffix| == 24 && ttl > 0 && maxMembers > 0
    ensures Reachable(s) && MemberId(gatewayId, suffix) in s.gateways && s.gateways[MemberId(gatewayId, suffix)].sent == [1]
    ensures !WellFormed(ReportOf(MemberId(gatewayId, suffix), s.gateways[MemberId(gatewayId, suffix)], 0), s.limits)
  {
    GatewayRuns.OneReported();
    var g := GatewayRuns.Rep(1, 1, None, None, [1], [GatewayMachine.Probing, GatewayMachine.Reporting(0)]);
    var gs, acts :| GatewayMachine.Run(gs, acts) && gs[|gs| - 1] == g;
    GatewayTheorems.ConfigConstant(gs, acts, 0, |gs| - 1);
    var limits := Limits(ttl, maxMembers, GatewayRuns.Example.maxQueue);
    Hosted(gs, acts, |gs| - 1, gatewayId, suffix, limits);
    s := Hosting(limits, MemberId(gatewayId, suffix), g);
  }

  /** The stale heartbeat of GatewayRuns.StaleHeartbeat reaches the aggregate: a request is waiting, the
      gateway is quiet and shows demand 1, its newest report has been accepted, and the total is 0. */
  lemma WaitingRequestNotCounted(gatewayId: string, suffix: string, ttl: int, maxMembers: int) returns (s: System)
    requires 0 < |gatewayId| <= 487 && |suffix| == 24 && ttl > 0 && maxMembers > 0
    ensures Reachable(s) && s.gateways.Keys == {MemberId(gatewayId, suffix)} && Total(s.members) == 0
    ensures var g := s.gateways[MemberId(gatewayId, suffix)];
      && GatewayTheorems.NoNotification(g) && g.Demand() == 1 && |g.sent| == 2
      && MemberId(gatewayId, suffix) in s.members && s.members[MemberId(gatewayId, suffix)].sequence == 2
  {
    var g := GatewayRuns.StaleHeartbeat();
    var gs, acts :| GatewayMachine.Run(gs, acts) && gs[|gs| - 1] == g;
    GatewayTheorems.ConfigConstant(gs, acts, 0, |gs| - 1);
    GatewayTheorems.AdmissionBound(gs, acts, |gs| - 1);
    var limits, id := Limits(ttl, maxMembers, g.cfg.maxQueue), MemberId(gatewayId, suffix);
    Hosted(gs, acts, |gs| - 1, gatewayId, suffix, limits);
    var before := Hosting(limits, id, g);
    s := Observed(before, AggregatorHistory.Delivered(Report(id, 2, 0), 0));
    var m: Members := map[id := Member(2, 0, ttl)];
    assert Unexpired(map[], 0) == map[];
    assert s.members == m;
    SumWithout(m, id);
    assert m - {id} == map[];
    Reach(before, Arrives(id, 1, 0), s);
  }
}
