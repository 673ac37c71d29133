/** When a reconciliation succeeds, what it leaves behind, and what a failing one has touched. */
module ReconcileOutcome {
  import opened Common
  import opened Reconcile

  // ---- plans in parts, without failures ----

  lemma {:induction false} OkAppend(store: Store, me: string, a: seq<Op>, b: seq<Op>)
    ensures AllOk(store, me, a + b) <==> AllOk(store, me, a) && AllOk(Perform(store, me, a), me, b)
    decreases |a|
  {
    if a == [] {
      assert a + b == b;
    } else {
      assert (a + b)[0] == a[0] && (a + b)[1..] == a[1..] + b;
      OkAppend(Exec(store, me, a[0]).0, me, a[1..], b);
    }
  }

  lemma PerformAppend(store: Store, me: string, a: seq<Op>, b: seq<Op>)
    requires AllOk(store, me, a)
    ensures Perform(store, me, a + b) == Perform(Perform(store, me, a), me, b)
  {
    Split(store, me, a, b, |a + b|);
    assert Take(a + b, |a + b|) == a + b && Take(a, |a + b|) == a && Take(b, |b|) == b;
    if b == [] { assert a + b == a; }
  }

  predicate NeverFails(op: Op) {
    op.Apply? || op.DeleteOwned?
  }

  lemma {:induction false} NeverFailing(store: Store, me: string, ops: seq<Op>)
    requires forall i :: 0 <= i < |ops| ==> NeverFails(ops[i])
    ensures AllOk(store, me, ops)
    decreases |ops|
  {
    if ops != [] {
      assert NeverFails(ops[0]);
      NeverFailing(Exec(store, me, ops[0]).0, me, ops[1..]);
    }
  }

  // ---- when a reconciliation succeeds ----

  /** What is stored under `key` is absent, or ours and made from the same specification. */
  predicate Fits(store: Store, me: string, key: Key, hash: string) {
    key in store ==>
      store[key].owner == me && (hash == "" || (store[key].body.Plain? && store[key].body.hash == hash))
  }

  /** The stored Secret is ours and holds a token of at least 32 characters; if there is none, the new
      token has as many. */
  predicate SecretFits(store: Store, me: string, token: string) {
    if DemandSecret in store
    then store[DemandSecret].owner == me && store[DemandSecret].body.Token? && |store[DemandSecret].body.text| >= 32
    else |token| >= 32
  }

  function SecretPart(d: Desired): seq<Op> {
    If(d.Many(), EnsureCreated(DemandSecret, Token(d.token))) + If(d.Many(), Validate)
  }

  function OncePart(key: Key, hash: Option<string>): seq<Op> {
    if hash.Some? then [EnsureCreated(key, Plain(hash.value))] else []
  }

  lemma CreateOnceParts(d: Desired)
    ensures CreateOnce(d) == SecretPart(d) + (OncePart(CachePVC, d.pvc) + OncePart(PrewarmJob, d.job))
  {
  }

  lemma SecretOk(store: Store, me: string, d: Desired)
    ensures AllOk(store, me, SecretPart(d)) <==> (d.Many() ==> SecretFits(store, me, d.token))
    ensures forall key :: key != DemandSecret ==> SameAt(store, Perform(store, me, SecretPart(d)), key)
  {
    if d.Many() {
      var e := EnsureCreated(DemandSecret, Token(d.token));
      assert SecretPart(d) == [e] + [Validate];
      OkCons(store, me, e, [Validate]);
      OkCons(Exec(store, me, e).0, me, Validate, []);
      assert [Validate] == [Validate] + [];
      forall key | key != DemandSecret ensures SameAt(store, Perform(store, me, SecretPart(d)), key) {
        Untouched(store, me, SecretPart(d), key);
      }
    }
  }

  lemma OnceOk(store: Store, me: string, key: Key, hash: Option<string>)
    ensures AllOk(store, me, OncePart(key, hash)) <==> (hash.Some? ==> Fits(store, me, key, hash.value))
    ensures forall k :: k != key ==> SameAt(store, Perform(store, me, OncePart(key, hash)), k)
  {
    if hash.Some? {
      var e := EnsureCreated(key, Plain(hash.value));
      assert OncePart(key, hash) == [e] + [];
      OkCons(store, me, e, []);
      forall k | k != key ensures SameAt(store, Perform(store, me, OncePart(key, hash)), k) {
        Untouched(store, me, OncePart(key, hash), k);
      }
    }
  }

  lemma CreateOnceOk(store: Store, me: string, d: Desired)
    ensures AllOk(store, me, CreateOnce(d)) <==>
      && (d.Many() ==> SecretFits(store, me, d.token))
      && (d.pvc.Some? ==> Fits(store, me, CachePVC, d.pvc.value))
      && (d.job.Some? ==> Fits(store, me, PrewarmJob, d.job.value))
  {
    var a, b, c := SecretPart(d), OncePart(CachePVC, d.pvc), OncePart(PrewarmJob, d.job);
    CreateOnceParts(d);
    OkAppend(store, me, a, b + c);
    SecretOk(store, me, d);
    var s1 := Perform(store, me, a);
    assert SameAt(store, s1, CachePVC) && SameAt(store, s1, PrewarmJob);
    OkAppend(s1, me, b, c);
    OnceOk(s1, me, CachePVC, d.pvc);
    var s2 := Perform(s1, me, b);
    assert SameAt(s1, s2, PrewarmJob);
    OnceOk(s2, me, PrewarmJob, d.job);
  }

  // The operations that can fail come first.
  function Risky(d: Desired): seq<Op> {
    [Apply(ScaledObject, Plain(""))] + CreateOnce(d)
  }

  lemma PlanRisky(d: Desired)
    ensures Plan(d) == Risky(d) + (Workloads(d) + Scaler(d))
    ensures forall i :: 0 <= i < |Workloads(d) + Scaler(d)| ==> NeverFails((Workloads(d) + Scaler(d))[i])
  {
  }

  /** A reconciliation that is not interrupted gets through exactly if the demand Secret, when it is
      needed, the cache claim and the prewarm Job each are absent or ours and unchanged. */
  lemma SucceedsExactly(store: Store, me: string, d: Desired)
    ensures AllOk(store, me, Plan(d)) <==>
      && (d.replicas > 1 ==> SecretFits(store, me, d.token))
      && (d.pvc.Some? ==> Fits(store, me, CachePVC, d.pvc.value))
      && (d.job.Some? ==> Fits(store, me, PrewarmJob, d.job.value))
    ensures AllOk(store, me, Plan(d)) <==> AllOk(store, me, Risky(d))
  {
    var first := Apply(ScaledObject, Plain(""));
    PlanRisky(d);
    OkAppend(store, me, Risky(d), Workloads(d) + Scaler(d));
    NeverFailing(Perform(store, me, Risky(d)), me, Workloads(d) + Scaler(d));
    OkCons(store, me, first, CreateOnce(d));
    CreateOnceOk(Exec(store, me, first).0, me, d);
  }

  predicate CreatedFirst(key: Key) {
    key == ScaledObject || key == DemandSecret || key == CachePVC || key == PrewarmJob
  }

  lemma RiskyAvoids(d: Desired, key: Key)
    requires !CreatedFirst(key)
    ensures forall i :: 0 <= i < |Risky(d)| ==> Avoids(Risky(d)[i], key)
  {
  }

  /** A reconciliation that fails, for instance because the cache claim was made from another
      specification, never gets to a workload: no prefix of it has changed the backend, the gateways, the
      scaler or their Services. */
  lemma FailureTouchesNoWorkload(store: Store, me: string, d: Desired, n: nat, key: Key)
    requires !AllOk(store, me, Plan(d)) && !CreatedFirst(key)
    ensures SameAt(store, Perform(store, me, Take(Plan(d), n)), key)
  {
    PlanRisky(d);
    SucceedsExactly(store, me, d);
    Split(store, me, Risky(d), Workloads(d) + Scaler(d), n);
    RiskyAvoids(d, key);
    var ops := Take(Risky(d), n);
    forall i | 0 <= i < |ops| ensures Avoids(ops[i], key) { assert ops[i] == Risky(d)[i]; }
    Untouched(store, me, ops, key);
  }

  /** A changed specification of a create-once object is refused: our own claim or Job with another hash
      makes the reconciliation fail. */
  lemma ChangedSpecificationFails(store: Store, me: string, d: Desired, key: Key, hash: string)
    requires (key == CachePVC && d.pvc == Some(hash)) || (key == PrewarmJob && d.job == Some(hash))
    requires hash != "" && key in store && store[key].body != Plain(hash)
    ensures !AllOk(store, me, Plan(d))
  {
    SucceedsExactly(store, me, d);
  }

  // ---- what a successful reconciliation leaves ----

  function At(store: Store, key: Key): Option<Object> {
    if key in store then Some(store[key]) else None
  }

  // What is left of an object when ours are deleted.
  function Unowned(o: Option<Object>, me: string): Option<Object> {
    if o.Some? && o.value.owner == me then None else o
  }

  function OrElse(o: Option<Object>, other: Object): Option<Object> {
    if o.Some? then o else Some(other)
  }

  // What an operation that succeeds does to the object under one key.
  function TrackOp(o: Option<Object>, me: string, key: Key, op: Op): Option<Object> {
    match op
    case Apply(k, body) => if k == key then Some(Object(me, body)) else o
    case EnsureCreated(k, body) => if k == key then OrElse(o, Object(me, body)) else o
    case Validate => o
    case DeleteOwned(k) => if k == key then Unowned(o, me) else o
  }

  function Track(o: Option<Object>, me: string, key: Key, ops: seq<Op>): Option<Object>
    decreases |ops|
  {
    if ops == [] then o else Track(TrackOp(o, me, key, ops[0]), me, key, ops[1..])
  }

  lemma ExecTracked(store: Store, me: string, op: Op, key: Key)
    ensures At(Exec(store, me, op).0, key) == TrackOp(At(store, key), me, key, op)
  {
  }

  lemma {:induction false} Tracked(store: Store, me: string, ops: seq<Op>, key: Key)
    requires AllOk(store, me, ops)
    ensures At(Perform(store, me, ops), key) == Track(At(store, key), me, key, ops)
    decreases |ops|
  {
    if ops != [] {
      ExecTracked(store, me, ops[0], key);
      Tracked(Exec(store, me, ops[0]).0, me, ops[1..], key);
    }
  }

  lemma TrackCons(o: Option<Object>, me: string, key: Key, op: Op, rest: seq<Op>)
    ensures Track(o, me, key, [op] + rest) == Track(TrackOp(o, me, key, op), me, key, rest)
  {
    assert ([op] + rest)[1..] == rest;
  }

  lemma {:induction false} TrackAppend(o: Option<Object>, me: string, key: Key, a: seq<Op>, b: seq<Op>)
    ensures Track(o, me, key, a + b) == Track(Track(o, me, key, a), me, key, b)
    decreases |a|
  {
    if a == [] {
      assert a + b == b;
    } else {
      assert a + b == [a[0]] + (a[1..] + b);
      TrackCons(o, me, key, a[0], a[1..] + b);
      TrackAppend(TrackOp(o, me, key, a[0]), me, key, a[1..], b);
    }
  }

  function IfMany(d: Desired, o: Option<Object>, me: string, body: Body): Option<Object> {
    if d.replicas > 1 then Some(Object(me, body)) else Unowned(o, me)
  }

  /** What should be stored under each key, given what was there before. */
  function Final(o: Option<Object>, me: string, key: Key, d: Desired): Option<Object> {
    match key
    case ScaledObject => Some(Object(me, Plain("")))
    case BackendDeployment => Some(Object(me, Plain("")))
    case BackendService => Some(Object(me, Plain("")))
    case GatewayService => Some(Object(me, Plain("")))
    case GatewayDeployment => Some(Object(me, Gateways(if d.replicas > 1 then d.replicas else 1)))
    case GatewayPDB => IfMany(d, o, me, Plain(""))
    case ScalerDeployment => IfMany(d, o, me, Plain(""))
    case ScalerService => Some(Object(me, Selects(if d.replicas > 1 then ScalerDeployment else GatewayDeployment)))
    case DemandSecret => if d.replicas > 1 then OrElse(o, Object(me, Token(d.token))) else Unowned(o, me)
    case CachePVC => if d.pvc.Some? then OrElse(o, Object(me, Plain(d.pvc.value))) else o
    case PrewarmJob => if d.job.Some? then OrElse(o, Object(me, Plain(d.job.value))) else o
  }

  lemma OnceTrack(o: Option<Object>, me: string, key: Key, d: Desired)
    ensures Track(o, me, key, CreateOnce(d)) ==
      if (key == DemandSecret && d.Many()) || key == CachePVC || key == PrewarmJob then Final(o, me, key, d) else o
  {
    var a, b, c := SecretPart(d), OncePart(CachePVC, d.pvc), OncePart(PrewarmJob, d.job);
    CreateOnceParts(d);
    TrackAppend(o, me, key, a, b + c);
    SecretTrack(o, me, key, d);
    var o1 := Track(o, me, key, a);
    TrackAppend(o1, me, key, b, c);
    PartTrack(o1, me, key, CachePVC, d.pvc);
    PartTrack(Track(o1, me, key, b), me, key, PrewarmJob, d.job);
  }

  lemma SecretTrack(o: Option<Object>, me: string, key: Key, d: Desired)
    ensures Track(o, me, key, SecretPart(d)) ==
      if key == DemandSecret && d.Many() then OrElse(o, Object(me, Token(d.token))) else o
  {
    if d.Many() {
      var e := EnsureCreated(DemandSecret, Token(d.token));
      assert SecretPart(d) == [e] + ([Validate] + []);
      TrackCons(o, me, key, e, [Validate] + []);
      TrackCons(TrackOp(o, me, key, e), me, key, Validate, []);
    }
  }

  lemma PartTrack(o: Option<Object>, me: string, key: Key, k: Key, hash: Option<string>)
    ensures Track(o, me, key, OncePart(k, hash)) ==
      if key == k && hash.Some? then OrElse(o, Object(me, Plain(hash.value))) else o
  {
    if hash.Some? {
      assert OncePart(k, hash) == [EnsureCreated(k, Plain(hash.value))] + [];
      TrackCons(o, me, key, EnsureCreated(k, Plain(hash.value)), []);
    }
  }

  predicate IsWorkload(key: Key) {
    || key == BackendDeployment || key == BackendService || key == GatewayDeployment || key == GatewayService
    || key == GatewayPDB
  }

  lemma WorkloadsTrack(o: Option<Object>, me: string, key: Key, d: Desired)
    ensures Track(o, me, key, Workloads(d)) == if IsWorkload(key) then Final(o, me, key, d) else o
  {
    var w := Workloads(d);
    var o1 := TrackOp(o, me, key, w[0]);
    var o2 := TrackOp(o1, me, key, w[1]);
    var o3 := TrackOp(o2, me, key, w[2]);
    var o4 := TrackOp(o3, me, key, w[3]);
    assert w == [w[0]] + ([w[1]] + ([w[2]] + ([w[3]] + ([w[4]] + []))));
    TrackCons(o, me, key, w[0], [w[1]] + ([w[2]] + ([w[3]] + ([w[4]] + []))));
    TrackCons(o1, me, key, w[1], [w[2]] + ([w[3]] + ([w[4]] + [])));
    TrackCons(o2, me, key, w[2], [w[3]] + ([w[4]] + []));
    TrackCons(o3, me, key, w[3], [w[4]] + []);
    TrackCons(o4, me, key, w[4], []);
  }

  lemma ScalerTrack(o: Option<Object>, me: string, key: Key, d: Desired)
    ensures Track(o, me, key, Scaler(d)) ==
      if key == ScalerDeployment || key == ScalerService || (key == DemandSecret && !d.Many()) then Final(o, me, key, d) else o
  {
    var c := Scaler(d);
    var o1 := TrackOp(o, me, key, c[0]);
    var o2 := TrackOp(o1, me, key, c[1]);
    if d.Many() {
      assert c == [c[0]] + ([c[1]] + []);
      TrackCons(o, me, key, c[0], [c[1]] + []);
      TrackCons(o1, me, key, c[1], []);
    } else {
      assert c == [c[0]] + ([c[1]] + ([c[2]] + []));
      TrackCons(o, me, key, c[0], [c[1]] + ([c[2]] + []));
      TrackCons(o1, me, key, c[1], [c[2]] + []);
      TrackCons(o2, me, key, c[2], []);
    }
  }

  lemma PlanTrack(o: Option<Object>, me: string, key: Key, d: Desired)
    ensures Track(o, me, key, Plan(d)) == Final(o, me, key, d)
  {
    var first, w, c := Apply(ScaledObject, Plain("")), Workloads(d), Scaler(d);
    TrackCons(o, me, key, first, CreateOnce(d) + (w + c));
    var o1 := TrackOp(o, me, key, first);
    TrackAppend(o1, me, key, CreateOnce(d), w + c);
    OnceTrack(o1, me, key, d);
    var o2 := Track(o1, me, key, CreateOnce(d));
    TrackAppend(o2, me, key, w, c);
    WorkloadsTrack(o2, me, key, d);
    ScalerTrack(Track(o2, me, key, w), me, key, d);
  }

  /** A reconciliation that gets through leaves under every key exactly what should be there: the
      workloads as wanted, the disruption budget, the aggregator and the Secret for several replicas and
      none of ours otherwise, and the create-once objects as they were first made. */
  lemma Outcome(store: Store, me: string, d: Desired, key: Key)
    requires AllOk(store, me, Plan(d))
    ensures At(Perform(store, me, Plan(d)), key) == Final(At(store, key), me, key, d)
  {
    Tracked(store, me, Plan(d), key);
    PlanTrack(At(store, key), me, key, d);
  }

  /** Reconciling again changes nothing. */
  lemma Idempotent(store: Store, me: string, d: Desired)
    requires AllOk(store, me, Plan(d))
    ensures AllOk(Perform(store, me, Plan(d)), me, Plan(d))
    ensures Perform(Perform(store, me, Plan(d)), me, Plan(d)) == Perform(store, me, Plan(d))
  {
    var t := Perform(store, me, Plan(d));
    SucceedsExactly(store, me, d);
    SucceedsExactly(t, me, d);
    Outcome(store, me, d, DemandSecret);
    Outcome(store, me, d, CachePVC);
    Outcome(store, me, d, PrewarmJob);
    var u := Perform(t, me, Plan(d));
    forall key ensures At(u, key) == At(t, key) {
      Outcome(store, me, d, key);
      Outcome(t, me, d, key);
    }
    SameStore(u, t);
  }

  lemma SameStore(s: Store, t: Store)
    requires forall key :: At(s, key) == At(t, key)
    ensures s == t
  {
    forall key ensures key in s <==> key in t { assert At(s, key) == At(t, key); }
    forall key | key in s ensures s[key] == t[key] { assert At(s, key) == At(t, key); }
  }
}
