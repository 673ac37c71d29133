/** Whether KEDA's connection always reaches a Deployment that serves the external scaler. */
module ScalerEndpoint {
  import opened Common
  import opened Reconcile

  predicate SelectsGateways(store: Store) {
    ScalerService in store && store[ScalerService].body == Selects(GatewayDeployment)
  }

  /** A gateway serves the scaler itself only while it is the only replica. */
  predicate Served(store: Store) {
    SelectsGateways(store) ==>
      && GatewayDeployment in store
      && store[GatewayDeployment].body.Gateways? && store[GatewayDeployment].body.replicas <= 1
  }

  // The plan around the write of the gateway Deployment.

  function Before(d: Desired): seq<Op> {
    [Apply(ScaledObject, Plain(""))] + CreateOnce(d) + Workloads(d)[..2]
  }

  function GatewayWrite(d: Desired): Op {
    Workloads(d)[2]
  }

  function Behind(d: Desired): seq<Op> {
    Workloads(d)[3..] + Scaler(d)
  }

  lemma PlanSplits(d: Desired)
    ensures Plan(d) == Before(d) + ([GatewayWrite(d)] + Behind(d))
  {
  }

  lemma PlanParts(d: Desired)
    ensures forall i :: 0 <= i < |Before(d)| ==> Avoids(Before(d)[i], GatewayDeployment) && Avoids(Before(d)[i], ScalerService)
    ensures forall i :: 0 <= i < |Behind(d)| ==> Avoids(Behind(d)[i], GatewayDeployment)
  {
  }

  // With several replicas the Service is never pointed at the gateways.
  lemma {:induction false} StaysAway(store: Store, me: string, ops: seq<Op>)
    requires !SelectsGateways(store)
    requires forall i :: 0 <= i < |ops| ==> Avoids(ops[i], ScalerService) || ops[i] == Apply(ScalerService, Selects(ScalerDeployment))
    ensures !SelectsGateways(Perform(store, me, ops))
    decreases |ops|
  {
    if ops != [] {
      assert Avoids(ops[0], ScalerService) || ops[0] == Apply(ScalerService, Selects(ScalerDeployment));
      var (next, ok) := Exec(store, me, ops[0]);
      forall i | 0 <= i < |ops[1..]|
        ensures Avoids(ops[1..][i], ScalerService) || ops[1..][i] == Apply(ScalerService, Selects(ScalerDeployment))
      {
        assert ops[1..][i] == ops[i + 1];
      }
      if ok { StaysAway(next, me, ops[1..]); }
    }
  }

  /** Prefixes that end before the gateway Deployment is written. */
  lemma ServedBefore(store: Store, me: string, d: Desired, n: nat)
    requires Served(store)
    ensures Served(Perform(store, me, Take(Before(d), n)))
    ensures SelectsGateways(store) <==> SelectsGateways(Perform(store, me, Take(Before(d), n)))
  {
    PlanParts(d);
    forall i | 0 <= i < |Take(Before(d), n)| ensures Take(Before(d), n)[i] == Before(d)[i] { }
    Untouched(store, me, Take(Before(d), n), GatewayDeployment);
    Untouched(store, me, Take(Before(d), n), ScalerService);
  }

  /** Prefixes that end behind it, when the new gateways do not leave a Service pointing at them. */
  lemma ServedBehind(store: Store, me: string, d: Desired, n: nat)
    requires d.Many() ==> !SelectsGateways(store)
    ensures Served(Perform(Exec(store, me, GatewayWrite(d)).0, me, Take(Behind(d), n)))
  {
    PlanParts(d);
    var s1, ops := Exec(store, me, GatewayWrite(d)).0, Take(Behind(d), n);
    forall i | 0 <= i < |ops| ensures ops[i] == Behind(d)[i] { }
    Untouched(s1, me, ops, GatewayDeployment);
    if d.Many() {
      forall i | 0 <= i < |ops|
        ensures Avoids(ops[i], ScalerService) || ops[i] == Apply(ScalerService, Selects(ScalerDeployment))
      {
        assert ops[i] in Workloads(d)[3..] || ops[i] in Scaler(d);
      }
      StaysAway(s1, me, ops);
    }
  }

  /** Starting from a served store, some prefix of a reconciliation leaves KEDA's endpoint unserved
      exactly if it raises the replicas above one while the Service still selects the gateways, and
      nothing stops it before it writes the gateway Deployment. */
  lemma UnservedExactlyWhenScalingUp(store: Store, me: string, d: Desired)
    requires Served(store)
    ensures (exists n: nat :: !Served(Perform(store, me, Take(Plan(d), n)))) <==>
            d.Many() && SelectsGateways(store) && AllOk(store, me, Before(d))
  {
    var rest := [GatewayWrite(d)] + Behind(d);
    PlanSplits(d);
    if d.Many() && SelectsGateways(store) && AllOk(store, me, Before(d)) {
      UnservedAt(store, me, d);
    } else {
      forall n: nat ensures Served(Perform(store, me, Take(Plan(d), n))) {
        Split(store, me, Before(d), rest, n);
        ServedBefore(store, me, d, n);
        if n > |Before(d)| && AllOk(store, me, Before(d)) {
          assert Take(Before(d), n) == Before(d);
          var s, k := Perform(store, me, Before(d)), n - |Before(d)|;
          assert Take(rest, k)[0] == GatewayWrite(d) && Take(rest, k)[1..] == Take(Behind(d), k - 1);
          ServedBehind(s, me, d, k - 1);
        }
      }
    }
  }

  lemma ScalerPointsAway(store: Store, me: string, d: Desired)
    requires d.Many()
    ensures !SelectsGateways(Perform(store, me, Behind(d)))
  {
    var w, c := Workloads(d), Scaler(d);
    assert Behind(d) == [w[3]] + ([w[4]] + ([c[0]] + ([c[1]] + [])));
    var s1 := Exec(store, me, w[3]).0;
    var s2 := Exec(s1, me, w[4]).0;
    var s3 := Exec(s2, me, c[0]).0;
    Runs(store, me, w[3], [w[4]] + ([c[0]] + ([c[1]] + [])));
    Runs(s1, me, w[4], [c[0]] + ([c[1]] + []));
    Runs(s2, me, c[0], [c[1]] + []);
    Runs(s3, me, c[1], []);
  }

  /** A reconciliation that nothing stops ends with the endpoint served, whatever it started from. */
  lemma CompletionServes(store: Store, me: string, d: Desired)
    requires AllOk(store, me, Before(d))
    ensures Served(Perform(store, me, Plan(d)))
  {
    var rest := [GatewayWrite(d)] + Behind(d);
    PlanSplits(d);
    Split(store, me, Before(d), rest, |Plan(d)|);
    var s := Perform(store, me, Before(d));
    assert Take(Plan(d), |Plan(d)|) == Plan(d) && Take(rest, |rest|) == rest;
    Runs(s, me, GatewayWrite(d), Behind(d));
    if d.Many() {
      ScalerPointsAway(Exec(s, me, GatewayWrite(d)).0, me, d);
    } else {
      ServedBehind(s, me, d, |Behind(d)|);
      assert Take(Behind(d), |Behind(d)|) == Behind(d);
    }
  }

  // ---- the window is real ----

  // The store after a complete reconciliation with one replica, from nothing.
  function Single(me: string): Store {
    map[ScaledObject := Object(me, Plain("")), BackendDeployment := Object(me, Plain("")),
        BackendService := Object(me, Plain("")), GatewayDeployment := Object(me, Gateways(1)),
        GatewayService := Object(me, Plain("")), ScalerService := Object(me, Selects(GatewayDeployment))]
  }

  // The same before the scaler Service is written.
  function WithoutScaler(me: string): Store {
    map[ScaledObject := Object(me, Plain("")), BackendDeployment := Object(me, Plain("")),
        BackendService := Object(me, Plain("")), GatewayDeployment := Object(me, Gateways(1)),
        GatewayService := Object(me, Plain(""))]
  }

  lemma SingleScaler(me: string, d: Desired)
    requires d.replicas == 1
    ensures Perform(WithoutScaler(me), me, Scaler(d)) == Single(me)
  {
    var c := Scaler(d);
    assert c == [c[0]] + ([c[1]] + ([c[2]] + []));
    Runs(WithoutScaler(me), me, c[0], [c[1]] + ([c[2]] + []));
    assert WithoutScaler(me)[ScalerService := Object(me, Selects(GatewayDeployment))] == Single(me);
    Runs(Single(me), me, c[1], [c[2]] + []);
    Runs(Single(me), me, c[2], []);
  }

  lemma SingleWorkloads(me: string, d: Desired, rest: seq<Op>)
    requires d.replicas == 1
    ensures Perform(map[ScaledObject := Object(me, Plain(""))], me, Workloads(d) + rest) == Perform(WithoutScaler(me), me, rest)
  {
    var w := Workloads(d);
    var s1: Store := map[ScaledObject := Object(me, Plain(""))];
    var s2 := s1[BackendDeployment := Object(me, Plain(""))];
    var s3 := s2[BackendService := Object(me, Plain(""))];
    var s4 := s3[GatewayDeployment := Object(me, Gateways(1))];
    assert w + rest == [w[0]] + ([w[1]] + ([w[2]] + ([w[3]] + ([w[4]] + rest))));
    Runs(s1, me, w[0], [w[1]] + ([w[2]] + ([w[3]] + ([w[4]] + rest))));
    Runs(s2, me, w[1], [w[2]] + ([w[3]] + ([w[4]] + rest)));
    Runs(s3, me, w[2], [w[3]] + ([w[4]] + rest));
    Runs(s4, me, w[3], [w[4]] + rest);
    assert s4[GatewayService := Object(me, Plain(""))] == WithoutScaler(me);
    Runs(WithoutScaler(me), me, w[4], rest);
  }

  lemma SingleIsReached(me: string, token: string)
    ensures Perform(map[], me, Plan(Desired(1, token, None, None))) == Single(me)
    ensures Served(Single(me)) && SelectsGateways(Single(me)) && Safe(Single(me), me)
  {
    var d, first := Desired(1, token, None, None), Apply(ScaledObject, Plain(""));
    assert CreateOnce(d) == [];
    assert Plan(d) == [first] + (Workloads(d) + Scaler(d));
    Runs(map[], me, first, Workloads(d) + Scaler(d));
    SingleWorkloads(me, d, Scaler(d));
    SingleScaler(me, d);
  }

  lemma BeforeTwo(me: string, token: string)
    requires UsableToken(token)
    ensures var d := Desired(2, token, None, None); |Before(d)| == 5 && AllOk(Single(me), me, Before(d))
  {
    var d := Desired(2, token, None, None);
    var b := Before(d);
    assert CreateOnce(d) == [EnsureCreated(DemandSecret, Token(token)), Validate];
    var s1 := Single(me)[ScaledObject := Object(me, Plain(""))];
    var s2 := s1[DemandSecret := Object(me, Token(token))];
    OkCons(s2, me, Apply(BackendDeployment, Plain("")), [Apply(BackendService, Plain(""))]);
    OkCons(s2, me, Validate, b[3..]);
    OkCons(s1, me, EnsureCreated(DemandSecret, Token(token)), b[2..]);
    OkCons(Single(me), me, Apply(ScaledObject, Plain("")), b[1..]);
    assert b == [b[0]] + b[1..] && b[1..] == [b[1]] + b[2..] && b[2..] == [b[2]] + b[3..];
    assert b[3..] == [b[3]] + [b[4]];
  }

  /** From there a reconciliation that raises the replicas to two and is stopped after its sixth
      operation, the write of the gateway Deployment, leaves KEDA's endpoint unserved. */
  lemma ScaleUpLeavesEndpointUnserved(me: string, token: string)
    requires UsableToken(token)
    ensures var store := Perform(map[], me, Plan(Desired(1, token, None, None)));
      Served(store) && !Served(Perform(store, me, Take(Plan(Desired(2, token, None, None)), 6)))
  {
    var d := Desired(2, token, None, None);
    SingleIsReached(me, token);
    BeforeTwo(me, token);
    UnservedAt(Single(me), me, d);
  }

  // The prefix that ends with the write of the gateway Deployment.
  lemma UnservedAt(store: Store, me: string, d: Desired)
    requires Served(store) && d.Many() && SelectsGateways(store) && AllOk(store, me, Before(d))
    ensures !Served(Perform(store, me, Take(Plan(d), |Before(d)| + 1)))
  {
    var n, rest := |Before(d)| + 1, [GatewayWrite(d)] + Behind(d);
    PlanSplits(d);
    Split(store, me, Before(d), rest, n);
    ServedBefore(store, me, d, |Before(d)|);
    var s := Perform(store, me, Before(d));
    assert Take(rest, 1) == [GatewayWrite(d)];
    assert Perform(s, me, [GatewayWrite(d)]) == Exec(s, me, GatewayWrite(d)).0;
  }

  // ---- who hears of the demand ----

  // The Deployment that the scaler Service should select.
  function Wanted(many: bool): Key {
    if many then ScalerDeployment else GatewayDeployment
  }

  predicate HasGateways(store: Store) {
    GatewayDeployment in store && store[GatewayDeployment].body.Gateways?
  }

  predicate SelectsFor(store: Store, many: bool) {
    ScalerService in store && store[ScalerService].body.Selects? ==> store[ScalerService].body.target == Wanted(many)
  }

  /** The Deployment that KEDA reaches is the one that hears of the demand: a single gateway knows its own,
      and several gateways report to the aggregator. */
  predicate Heard(store: Store) {
    ScalerService in store && store[ScalerService].body.Selects? ==>
      HasGateways(store) && SelectsFor(store, store[GatewayDeployment].body.replicas > 1)
  }

  lemma HeardIsServed(store: Store)
    requires Heard(store)
    ensures Served(store)
  {
  }

  // The Service keeps its right target, or is given it.
  lemma {:induction false} StaysRight(store: Store, me: string, ops: seq<Op>, many: bool)
    requires SelectsFor(store, many)
    requires forall i :: 0 <= i < |ops| ==> Avoids(ops[i], ScalerService) || ops[i] == Apply(ScalerService, Selects(Wanted(many)))
    ensures SelectsFor(Perform(store, me, ops), many)
    decreases |ops|
  {
    if ops != [] {
      assert Avoids(ops[0], ScalerService) || ops[0] == Apply(ScalerService, Selects(Wanted(many)));
      var (next, ok) := Exec(store, me, ops[0]);
      forall i | 0 <= i < |ops[1..]|
        ensures Avoids(ops[1..][i], ScalerService) || ops[1..][i] == Apply(ScalerService, Selects(Wanted(many)))
      {
        assert ops[1..][i] == ops[i + 1];
      }
      if ok { StaysRight(next, me, ops[1..], many); }
    }
  }

  lemma BehindPointsRight(d: Desired, i: nat)
    requires i < |Behind(d)|
    ensures Avoids(Behind(d)[i], ScalerService) || Behind(d)[i] == Apply(ScalerService, Selects(Wanted(d.Many())))
  {
  }

  lemma HeardBefore(store: Store, me: string, d: Desired, n: nat)
    requires Heard(store)
    ensures Heard(Perform(store, me, Take(Before(d), n)))
    ensures SameAt(store, Perform(store, me, Take(Before(d), n)), ScalerService)
  {
    PlanParts(d);
    forall i | 0 <= i < |Take(Before(d), n)| ensures Take(Before(d), n)[i] == Before(d)[i] { }
    Untouched(store, me, Take(Before(d), n), GatewayDeployment);
    Untouched(store, me, Take(Before(d), n), ScalerService);
  }

  lemma HeardBehind(store: Store, me: string, d: Desired, n: nat)
    requires SelectsFor(store, d.Many())
    ensures Heard(Perform(Exec(store, me, GatewayWrite(d)).0, me, Take(Behind(d), n)))
  {
    PlanParts(d);
    var s1, ops := Exec(store, me, GatewayWrite(d)).0, Take(Behind(d), n);
    forall i | 0 <= i < |ops|
      ensures Avoids(ops[i], GatewayDeployment)
      ensures Avoids(ops[i], ScalerService) || ops[i] == Apply(ScalerService, Selects(Wanted(d.Many())))
    {
      assert ops[i] == Behind(d)[i];
      BehindPointsRight(d, i);
    }
    Untouched(s1, me, ops, GatewayDeployment);
    StaysRight(s1, me, ops, d.Many());
  }

  // The prefix that ends with the write of the gateway Deployment.
  lemma UnheardAt(store: Store, me: string, d: Desired)
    requires Heard(store) && !SelectsFor(store, d.Many()) && AllOk(store, me, Before(d))
    ensures !Heard(Perform(store, me, Take(Plan(d), |Before(d)| + 1)))
  {
    var n, rest := |Before(d)| + 1, [GatewayWrite(d)] + Behind(d);
    PlanSplits(d);
    Split(store, me, Before(d), rest, n);
    HeardBefore(store, me, d, |Before(d)|);
    var s := Perform(store, me, Before(d));
    assert Take(rest, 1) == [GatewayWrite(d)];
    assert Perform(s, me, [GatewayWrite(d)]) == Exec(s, me, GatewayWrite(d)).0;
  }

  /** Starting from a store where KEDA's endpoint hears of the demand, some prefix of a reconciliation
      leaves it deaf exactly if the Service selects the other Deployment than the new number of replicas
      wants, be it more than one or not, and nothing stops the run before the gateway Deployment is written. */
  lemma UnheardExactlyWhenSwitching(store: Store, me: string, d: Desired)
    requires Heard(store)
    ensures (exists n: nat :: !Heard(Perform(store, me, Take(Plan(d), n)))) <==>
            !SelectsFor(store, d.Many()) && AllOk(store, me, Before(d))
  {
    var rest := [GatewayWrite(d)] + Behind(d);
    PlanSplits(d);
    if !SelectsFor(store, d.Many()) && AllOk(store, me, Before(d)) {
      UnheardAt(store, me, d);
    } else {
      forall n: nat ensures Heard(Perform(store, me, Take(Plan(d), n))) {
        Split(store, me, Before(d), rest, n);
        HeardBefore(store, me, d, n);
        if n > |Before(d)| && AllOk(store, me, Before(d)) {
          assert Take(Before(d), n) == Before(d);
          var s, k := Perform(store, me, Before(d)), n - |Before(d)|;
          assert Take(rest, k)[0] == GatewayWrite(d) && Take(rest, k)[1..] == Take(Behind(d), k - 1);
          HeardBehind(s, me, d, k - 1);
        }
      }
    }
  }

  lemma PointsRight(store: Store, me: string, d: Desired)
    ensures var t := Perform(store, me, Behind(d)); ScalerService in t && t[ScalerService].body == Selects(Wanted(d.Many()))
  {
    var w, c := Workloads(d), Scaler(d);
    var s1 := Exec(store, me, w[3]).0;
    var s2 := Exec(s1, me, w[4]).0;
    assert Behind(d) == [w[3]] + ([w[4]] + c);
    Runs(store, me, w[3], [w[4]] + c);
    Runs(s1, me, w[4], c);
    ScalerPointsRight(s2, me, d);
  }

  lemma ScalerPointsRight(store: Store, me: string, d: Desired)
    ensures var t := Perform(store, me, Scaler(d)); ScalerService in t && t[ScalerService].body == Selects(Wanted(d.Many()))
  {
    var c := Scaler(d);
    var s1 := Exec(store, me, c[0]).0;
    if d.Many() {
      assert c == [c[0]] + ([c[1]] + []);
      Runs(store, me, c[0], [c[1]] + []);
      Runs(s1, me, c[1], []);
    } else {
      assert c == [c[0]] + ([c[1]] + ([c[2]] + []));
      Runs(store, me, c[0], [c[1]] + ([c[2]] + []));
      Runs(s1, me, c[1], [c[2]] + []);
      Runs(Exec(s1, me, c[1]).0, me, c[2], []);
    }
  }

  /** A reconciliation that nothing stops ends with the endpoint hearing of the demand, whatever it
      started from, and with the Service selecting what the number of replicas wants. */
  lemma CompletionHears(store: Store, me: string, d: Desired)
    requires AllOk(store, me, Before(d))
    ensures var t := Perform(store, me, Plan(d));
      Heard(t) && ScalerService in t && t[ScalerService].body == Selects(Wanted(d.Many()))
  {
    var rest := [GatewayWrite(d)] + Behind(d);
    PlanSplits(d);
    Split(store, me, Before(d), rest, |Plan(d)|);
    assert Take(Plan(d), |Plan(d)|) == Plan(d) && Take(rest, |rest|) == rest;
    var s := Perform(store, me, Before(d));
    Runs(s, me, GatewayWrite(d), Behind(d));
    var s1 := Exec(s, me, GatewayWrite(d)).0;
    PointsRight(s1, me, d);
    PlanParts(d);
    Untouched(s1, me, Behind(d), GatewayDeployment);
  }

  /** Scaling down opens the window as well: after complete runs with one and then two replicas, a run
      with one replica that is stopped after its fourth operation leaves KEDA with an aggregator to which
      no gateway reports. */
  lemma ScaleDownLeavesEndpointDeaf(me: string, token: string)
    requires UsableToken(token)
    ensures var one, two := Plan(Desired(1, token, None, None)), Plan(Desired(2, token, None, None));
      var store := Perform(Perform(map[], me, one), me, two);
      Heard(store) && !Heard(Perform(store, me, Take(one, 4)))
  {
    var one, two := Desired(1, token, None, None), Desired(2, token, None, None);
    SingleIsReached(me, token);
    BeforeTwo(me, token);
    CompletionHears(Single(me), me, two);
    var store := Perform(Single(me), me, Plan(two));
    assert CreateOnce(one) == [];
    var b := Before(one);
    assert b == [b[0]] + ([b[1]] + ([b[2]] + []));
    var s1 := Exec(store, me, b[0]).0;
    OkCons(Exec(s1, me, b[1]).0, me, b[2], []);
    OkCons(s1, me, b[1], [b[2]] + []);
    OkCons(store, me, b[0], [b[1]] + ([b[2]] + []));
    UnheardAt(store, me, one);
  }
}
