/** The ordered writes of one reconciliation, stopped after any of them. */
module Reconcile {
  import opened Common

  // The objects of one LLMService, by the name the operator gives them.
  datatype Key =
    | ScaledObject | DemandSecret | CachePVC | PrewarmJob
    | BackendDeployment | BackendService | GatewayDeployment | GatewayService | GatewayPDB
    | ScalerDeployment | ScalerService

  // What of an object's content matters here.
  datatype Body =
    | Plain(hash: string)             // the recorded hash of a create-once specification, or ""
    | Token(text: string)             // the demand authentication Secret
    | Gateways(replicas: int)         // the gateway Deployment
    | Selects(target: Key)            // the scaler Service

  datatype Object = Object(owner: string, body: Body)

  type Store = map<Key, Object>

  datatype Op = Apply(key: Key, body: Body) | EnsureCreated(key: Key, body: Body) | Validate | DeleteOwned(key: Key)

  // The rendered resources. Replicas is the operator's setting, where 0 means the default of one.
  datatype Desired = Desired(replicas: nat, token: string, pvc: Option<string>, job: Option<string>)
  {
    predicate Many() { replicas > 1 }
  }

  // Of the trimmed token.
  predicate UsableToken(text: string) {
    |text| >= 32
  }

  function HashOf(body: Body): string {
    if body.Plain? then body.hash else ""
  }

  /** What an operation does to the store, and whether reconciliation goes on after it. */
  function Exec(store: Store, me: string, op: Op): (Store, bool) {
    match op
    case Apply(key, body) => (store[key := Object(me, body)], true)
    case EnsureCreated(key, body) =>
      if key !in store then (store[key := Object(me, body)], true)
      else (store, store[key].owner == me && (HashOf(body) == "" || HashOf(store[key].body) == HashOf(body)))
    case Validate =>
      (store, DemandSecret in store && store[DemandSecret].body.Token? && UsableToken(store[DemandSecret].body.text))
    case DeleteOwned(key) =>
      (if key in store && store[key].owner == me then store - {key} else store, true)
  }

  function If(b: bool, op: Op): seq<Op> {
    if b then [op] else []
  }

  // The plan in the order of the code, in four parts.

  function CreateOnce(d: Desired): seq<Op> {
    If(d.Many(), EnsureCreated(DemandSecret, Token(d.token)))
    + If(d.Many(), Validate)
    + (if d.pvc.Some? then [EnsureCreated(CachePVC, Plain(d.pvc.value))] else [])
    + (if d.job.Some? then [EnsureCreated(PrewarmJob, Plain(d.job.value))] else [])
  }

  function Workloads(d: Desired): seq<Op> {
    [Apply(BackendDeployment, Plain("")), Apply(BackendService, Plain("")),
     Apply(GatewayDeployment, Gateways(if d.replicas == 0 then 1 else d.replicas)),
     Apply(GatewayService, Plain("")),
     if d.Many() then Apply(GatewayPDB, Plain("")) else DeleteOwned(GatewayPDB)]
  }

  function Scaler(d: Desired): seq<Op> {
    if d.Many()
    then [Apply(ScalerDeployment, Plain("")), Apply(ScalerService, Selects(ScalerDeployment))]
    else [Apply(ScalerService, Selects(GatewayDeployment)), DeleteOwned(ScalerDeployment), DeleteOwned(DemandSecret)]
  }

  function Plan(d: Desired): seq<Op> {
    [Apply(ScaledObject, Plain(""))] + (CreateOnce(d) + (Workloads(d) + Scaler(d)))
  }

  /** Performs the operations in order and stops after the first that fails. */
  function Perform(store: Store, me: string, ops: seq<Op>): Store
    decreases |ops|
  {
    if ops == [] then store
    else
      var (next, ok) := Exec(store, me, ops[0]);
      if ok then Perform(next, me, ops[1..]) else next
  }

  /** Whether none of the operations fails. */
  predicate AllOk(store: Store, me: string, ops: seq<Op>)
    decreases |ops|
  {
    ops == [] || (Exec(store, me, ops[0]).1 && AllOk(Exec(store, me, ops[0]).0, me, ops[1..]))
  }

  // One reconciliation that gets through at most `calls` of its operations.
  datatype Attempt = Attempt(desired: Desired, calls: nat)

  function Take(ops: seq<Op>, n: nat): seq<Op> {
    if n < |ops| then ops[..n] else ops
  }

  function After(store: Store, me: string, attempts: seq<Attempt>): Store {
    if attempts == [] then store
    else
      var a := attempts[|attempts| - 1];
      Perform(After(store, me, attempts[..|attempts| - 1]), me, Take(Plan(a.desired), a.calls))
  }

  // ---- plans in parts ----

  /** A prefix of two plans in a row ends in the first, by its length or by a failure, or in the second. */
  lemma {:induction false} Split(store: Store, me: string, a: seq<Op>, b: seq<Op>, n: nat)
    ensures Perform(store, me, Take(a + b, n)) ==
      if n <= |a| || !AllOk(store, me, a) then Perform(store, me, Take(a, n))
      else Perform(Perform(store, me, a), me, Take(b, n - |a|))
    decreases |a|
  {
    if a == [] {
      assert a + b == b;
    } else if n > 0 {
      var (next, ok) := Exec(store, me, a[0]);
      assert (a + b)[0] == a[0] && (a + b)[1..] == a[1..] + b;
      assert Take(a + b, n)[1..] == Take(a[1..] + b, n - 1);
      assert Take(a, n)[1..] == Take(a[1..], n - 1);
      if ok { Split(next, me, a[1..], b, n - 1); }
    }
  }

  predicate SameAt(s: Store, t: Store, key: Key) {
    (key in s <==> key in t) && (key in s ==> s[key] == t[key])
  }

  predicate Avoids(op: Op, key: Key) {
    op.Validate? || op.key != key
  }

  lemma {:induction false} Untouched(store: Store, me: string, ops: seq<Op>, key: Key)
    requires forall i :: 0 <= i < |ops| ==> Avoids(ops[i], key)
    ensures SameAt(store, Perform(store, me, ops), key)
    decreases |ops|
  {
    if ops != [] {
      assert Avoids(ops[0], key);
      var (next, ok) := Exec(store, me, ops[0]);
      forall i | 0 <= i < |ops[1..]| ensures Avoids(ops[1..][i], key) {
        assert Avoids(ops[i + 1], key);
      }
      if ok { Untouched(next, me, ops[1..], key); }
    }
  }

  // Operations that never fail run to the end.
  lemma {:induction false} Runs(store: Store, me: string, op: Op, ops: seq<Op>)
    requires op.Apply? || op.DeleteOwned?
    ensures Perform(store, me, [op] + ops) == Perform(Exec(store, me, op).0, me, ops)
  {
  }

  lemma OkCons(store: Store, me: string, op: Op, rest: seq<Op>)
    ensures AllOk(store, me, [op] + rest) <==> Exec(store, me, op).1 && AllOk(Exec(store, me, op).0, me, rest)
  {
    assert ([op] + rest)[1..] == rest;
  }

  // ---- what every prefix keeps ----

  predicate Mounts(store: Store, key: Key, me: string) {
    && key in store && store[key].owner == me
    && (key == ScalerDeployment || (key == GatewayDeployment && store[key].body.Gateways? && store[key].body.replicas > 1))
  }

  /** A backend has its autoscaler, a Deployment of ours that mounts the Secret has it, and the scaler
      Service selects a Deployment that exists. */
  predicate Safe(store: Store, me: string) {
    && (BackendDeployment in store ==> ScaledObject in store)
    && (Mounts(store, GatewayDeployment, me) || Mounts(store, ScalerDeployment, me) ==> DemandSecret in store)
    && (ScalerService in store && store[ScalerService].body.Selects? ==>
          && store[ScalerService].body.target in {GatewayDeployment, ScalerDeployment}
          && store[ScalerService].body.target in store)
  }

  // The operation keeps the store safe.
  predicate Guard(store: Store, me: string, op: Op) {
    match op
    case Apply(BackendDeployment, _) => ScaledObject in store
    case Apply(GatewayDeployment, Gateways(replicas)) => replicas > 1 ==> DemandSecret in store
    case Apply(ScalerDeployment, _) => DemandSecret in store
    case Apply(ScalerService, Selects(target)) => target in {GatewayDeployment, ScalerDeployment} && target in store
    case DeleteOwned(DemandSecret) => !Mounts(store, GatewayDeployment, me) && !Mounts(store, ScalerDeployment, me)
    case DeleteOwned(ScalerDeployment) =>
      ScalerService in store && store[ScalerService].body == Selects(GatewayDeployment)
    case DeleteOwned(key) => key == GatewayPDB
    case EnsureCreated(key, _) => key in {DemandSecret, CachePVC, PrewarmJob}
    case _ => true
  }

  lemma GuardKeepsSafe(store: Store, me: string, op: Op)
    requires Safe(store, me) && Guard(store, me, op)
    ensures Safe(Exec(store, me, op).0, me)
  {
  }

  // Every operation of `ops`, when its turn comes, keeps the store safe.
  predicate Guarded(store: Store, me: string, ops: seq<Op>)
    decreases |ops|
  {
    ops == [] ||
    (&& Guard(store, me, ops[0])
     && (Exec(store, me, ops[0]).1 ==> Guarded(Exec(store, me, ops[0]).0, me, ops[1..])))
  }

  lemma {:induction false} GuardedPrefixSafe(store: Store, me: string, ops: seq<Op>, n: nat)
    requires Safe(store, me) && Guarded(store, me, ops)
    ensures Safe(Perform(store, me, Take(ops, n)), me)
    decreases |ops|
  {
    if ops != [] && n > 0 {
      GuardKeepsSafe(store, me, ops[0]);
      var (next, ok) := Exec(store, me, ops[0]);
      assert Take(ops, n)[0] == ops[0] && Take(ops, n)[1..] == Take(ops[1..], n - 1);
      if ok { GuardedPrefixSafe(next, me, ops[1..], n - 1); }
    }
  }

  lemma GuardedCons(store: Store, me: string, op: Op, rest: seq<Op>)
    requires Guard(store, me, op)
    requires Exec(store, me, op).1 ==> Guarded(Exec(store, me, op).0, me, rest)
    ensures Guarded(store, me, [op] + rest)
  {
  }

  // ---- the plan is guarded, from its end to its beginning ----

  lemma ScalerGuarded(store: Store, me: string, d: Desired)
    requires GatewayDeployment in store && store[GatewayDeployment].body.Gateways?
    requires d.Many() ==> DemandSecret in store
    requires !d.Many() ==> store[GatewayDeployment].body.replicas <= 1
    ensures Guarded(store, me, Scaler(d))
  {
    if d.Many() {
      var s1 := Exec(store, me, Scaler(d)[0]).0;
      GuardedCons(s1, me, Scaler(d)[1], []);
      GuardedCons(store, me, Scaler(d)[0], Scaler(d)[1..]);
    } else {
      var s1 := Exec(store, me, Scaler(d)[0]).0;
      var s2 := Exec(s1, me, Scaler(d)[1]).0;
      GuardedCons(s2, me, Scaler(d)[2], []);
      GuardedCons(s1, me, Scaler(d)[1], Scaler(d)[2..]);
      GuardedCons(store, me, Scaler(d)[0], Scaler(d)[1..]);
    }
  }

  lemma WorkloadsGuarded(store: Store, me: string, d: Desired)
    requires ScaledObject in store && (d.Many() ==> DemandSecret in store)
    ensures Guarded(store, me, Workloads(d) + Scaler(d))
  {
    var w := Workloads(d);
    var s1 := Exec(store, me, w[0]).0;
    var s2 := Exec(s1, me, w[1]).0;
    var s3 := Exec(s2, me, w[2]).0;
    var s4 := Exec(s3, me, w[3]).0;
    var s5 := Exec(s4, me, w[4]).0;
    ScalerGuarded(s5, me, d);
    GuardedCons(s4, me, w[4], Scaler(d));
    GuardedCons(s3, me, w[3], [w[4]] + Scaler(d));
    GuardedCons(s2, me, w[2], [w[3]] + ([w[4]] + Scaler(d)));
    GuardedCons(s1, me, w[1], [w[2]] + ([w[3]] + ([w[4]] + Scaler(d))));
    GuardedCons(store, me, w[0], [w[1]] + ([w[2]] + ([w[3]] + ([w[4]] + Scaler(d)))));
    assert w + Scaler(d) == [w[0]] + ([w[1]] + ([w[2]] + ([w[3]] + ([w[4]] + Scaler(d)))));
  }

  // The create-once operations only add, so what they add is there afterwards.
  lemma {:induction false} CreateOnceGuarded(store: Store, me: string, d: Desired, ops: seq<Op>)
    requires ScaledObject in store
    requires forall i :: 0 <= i < |ops| ==>
               ops[i].Validate? || (ops[i].EnsureCreated? && ops[i].key in {DemandSecret, CachePVC, PrewarmJob})
    requires d.Many() ==> DemandSecret in store || exists i :: 0 <= i < |ops| && ops[i].EnsureCreated? && ops[i].key == DemandSecret
    ensures Guarded(store, me, ops + (Workloads(d) + Scaler(d)))
    decreases |ops|
  {
    var rest := Workloads(d) + Scaler(d);
    if ops == [] {
      assert ops + rest == rest;
      WorkloadsGuarded(store, me, d);
    } else {
      var (next, ok) := Exec(store, me, ops[0]);
      assert ops + rest == [ops[0]] + (ops[1..] + rest);
      if ok {
        if i :| 0 < i < |ops| && ops[i].EnsureCreated? && ops[i].key == DemandSecret {
          assert ops[1..][i - 1] == ops[i];
        }
        CreateOnceGuarded(next, me, d, ops[1..]);
      }
      GuardedCons(store, me, ops[0], ops[1..] + rest);
    }
  }

  lemma PlanGuarded(store: Store, me: string, d: Desired)
    ensures Guarded(store, me, Plan(d))
  {
    var c := CreateOnce(d);
    if d.Many() { assert c[0] == EnsureCreated(DemandSecret, Token(d.token)); }
    var first := Apply(ScaledObject, Plain(""));
    CreateOnceGuarded(Exec(store, me, first).0, me, d, c);
    GuardedCons(store, me, first, c + (Workloads(d) + Scaler(d)));
  }

  /** After any number of reconciliations with any settings, each stopped after any of its operations
      or by one that failed, the store is safe. */
  lemma {:induction false} EveryPrefixSafe(store: Store, me: string, attempts: seq<Attempt>)
    requires Safe(store, me)
    ensures Safe(After(store, me, attempts), me)
  {
    if attempts != [] {
      var before, a := attempts[..|attempts| - 1], attempts[|attempts| - 1];
      EveryPrefixSafe(store, me, before);
      PlanGuarded(After(store, me, before), me, a.desired);
      GuardedPrefixSafe(After(store, me, before), me, Plan(a.desired), a.calls);
    }
  }

  // ---- what is never touched ----

  // `op` cannot change an object under `key` that is already there.
  predicate Spares(store: Store, me: string, key: Key, op: Op) {
    match op
    case Apply(k, _) => k != key
    case EnsureCreated(_, _) => true
    case Validate => true
    case DeleteOwned(k) => k != key || (key in store && store[key].owner != me)
  }

  lemma {:induction false} SparedBy(store: Store, me: string, key: Key, ops: seq<Op>)
    requires key in store && forall i :: 0 <= i < |ops| ==> Spares(store, me, key, ops[i])
    ensures var t := Perform(store, me, ops); key in t && t[key] == store[key]
    decreases |ops|
  {
    if ops != [] {
      assert Spares(store, me, key, ops[0]);
      var (next, ok) := Exec(store, me, ops[0]);
      forall i | 0 <= i < |ops[1..]| ensures Spares(next, me, key, ops[1..][i]) {
        assert Spares(store, me, key, ops[i + 1]);
      }
      if ok { SparedBy(next, me, key, ops[1..]); }
    }
  }

  lemma PlanSpares(store: Store, me: string, key: Key, d: Desired)
    requires key in store
    requires key in {CachePVC, PrewarmJob} || (key == DemandSecret && store[key].owner != me)
    ensures forall i :: 0 <= i < |Plan(d)| ==> Spares(store, me, key, Plan(d)[i])
  {
    var c, w, s := CreateOnce(d), Workloads(d), Scaler(d);
    assert forall i :: 0 <= i < |c| ==> Spares(store, me, key, c[i]);
    assert forall i :: 0 <= i < |w| ==> Spares(store, me, key, w[i]);
    assert forall i :: 0 <= i < |s| ==> Spares(store, me, key, s[i]);
    forall op | op in Plan(d) ensures Spares(store, me, key, op) {
      assert op == Apply(ScaledObject, Plain("")) || op in c || op in w || op in s;
    }
  }

  /** A cache claim or prewarm Job, whoever owns it, and a Secret of somebody else stay as they are
      through any number of reconciliations. */
  lemma {:induction false} CreateOnceIsKept(store: Store, me: string, key: Key, attempts: seq<Attempt>)
    requires key in store
    requires key in {CachePVC, PrewarmJob} || (key == DemandSecret && store[key].owner != me)
    ensures var t := After(store, me, attempts); key in t && t[key] == store[key]
  {
    if attempts != [] {
      var before, a := attempts[..|attempts| - 1], attempts[|attempts| - 1];
      CreateOnceIsKept(store, me, key, before);
      PlanSpares(After(store, me, before), me, key, a.desired);
      SparedBy(After(store, me, before), me, key, Take(Plan(a.desired), a.calls));
    }
  }
}
