/** The cluster store as the operator changes it. */
module Cluster {
  import opened Reconcile

  class ObjectStore {
    const me: string
    var objects: Store

    constructor (me: string, objects: Store)
      ensures this.me == me && this.objects == objects
    {
      this.me, this.objects := me, objects;
    }

    /** Server-side apply with forced ownership, taken as replacement. */
    method Apply(key: Key, body: Body)
      modifies this
      ensures objects == old(objects)[key := Object(me, body)]
    {
      objects := objects[key := Object(me, body)];
    }

    /** Creates an object, or accepts the one that is there if it is ours and was created from the same
        specification. What is there is never changed. */
    method EnsureCreated(key: Key, body: Body) returns (ok: bool)
      modifies this
      ensures (objects, ok) == Exec(old(objects), me, Reconcile.Op.EnsureCreated(key, body))
      ensures objects == if key in old(objects) then old(objects) else old(objects)[key := Object(me, body)]
      ensures ok <==> key !in old(objects) ||
                      (old(objects)[key].owner == me && (HashOf(body) == "" || HashOf(old(objects)[key].body) == HashOf(body)))
    {
      if key !in objects {
        objects := objects[key := Object(me, body)];
        return true;
      }
      if objects[key].owner != me {
        return false;
      }
      return HashOf(body) == "" || HashOf(objects[key].body) == HashOf(body);
    }

    /** Deletes an object that is ours and leaves anybody else's alone. */
    method DeleteOwned(key: Key)
      modifies this
      ensures (objects, true) == Exec(old(objects), me, Reconcile.Op.DeleteOwned(key))
      ensures key in objects ==> objects[key].owner != me
      ensures forall k :: k in old(objects) && (k != key || old(objects)[k].owner != me) ==>
                k in objects && objects[k] == old(objects)[k]
    {
      if key !in objects || objects[key].owner != me {
        return;
      }
      objects := objects - {key};
    }

    method Do(op: Op) returns (ok: bool)
      modifies this
      ensures (objects, ok) == Exec(old(objects), me, op)
    {
      match op
      case Apply(key, body) =>
        Apply(key, body);
        ok := true;
      case EnsureCreated(key, body) => ok := EnsureCreated(key, body);
      case Validate =>
        ok := DemandSecret in objects && objects[DemandSecret].body.Token? && UsableToken(objects[DemandSecret].body.text);
      case DeleteOwned(key) =>
        DeleteOwned(key);
        ok := true;
    }

    /** One reconciliation. It is cut short by an operation that fails, or after `calls` operations by
        an unreachable API server or a crash. */
    method ApplyDesired(d: Desired, calls: nat) returns (ok: bool)
      requires Safe(objects, me)
      modifies this
      ensures objects == Perform(old(objects), me, Take(Plan(d), calls))
      ensures Safe(objects, me)
      ensures ok <==> calls >= |Plan(d)| && AllOk(old(objects), me, Plan(d))
    {
      var ops := Take(Plan(d), calls);
      ghost var start := objects;
      var k := 0;
      PlanGuarded(objects, me, d);
      GuardedPrefixSafe(objects, me, Plan(d), calls);
      while k < |ops|
        invariant 0 <= k <= |ops| && Perform(objects, me, ops[k..]) == Perform(start, me, ops)
        invariant AllOk(objects, me, ops[k..]) <==> AllOk(start, me, ops)
      {
        var done := Do(ops[k]);
        assert ops[k..][0] == ops[k] && ops[k..][1..] == ops[k + 1..];
        if !done {
          FailsBeyond(start, me, Plan(d), calls);
          return false;
        }
        k := k + 1;
      }
      ok := calls >= |Plan(d)|;
    }
  }

  // What fails in a prefix fails in the whole.
  lemma {:induction false} FailsBeyond(store: Store, me: string, ops: seq<Op>, n: nat)
    ensures AllOk(store, me, ops) ==> AllOk(store, me, Take(ops, n))
    decreases |ops|
  {
    if ops != [] && n > 0 {
      assert Take(ops, n)[0] == ops[0] && Take(ops, n)[1..] == Take(ops[1..], n - 1);
      FailsBeyond(Exec(store, me, ops[0]).0, me, ops[1..], n - 1);
    }
  }
}
