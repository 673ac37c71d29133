/** Latest-value subscriptions: capacity-1 mailboxes overwritten by a publisher while their
    receivers drain them concurrently. */
module Mailboxes {
  import opened Common

  /** One subscriber's channel. `mail` is the buffered value and `got` everything its receiver has
      taken out. `seed` is the value it was created with, `base` the value published at that moment,
      and `moved` says whether the published value has changed since. */
  datatype Box = Box(mail: Option<int>, got: seq<int>, seed: int, base: int, moved: bool) {

    /** Everything the receiver has taken or can still take, in order. */
    function Flow(): seq<int> {
      if mail.Some? then got + [mail.value] else got
    }

    /** The receiver takes the buffered value, if there is one. */
    function Receive(): Box {
      if mail.Some? then this.(mail := None, got := got + [mail.value]) else this
    }

    /** The publisher replaces whatever is buffered. */
    function Deliver(demand: int): Box {
      this.(mail := Some(demand), moved := true)
    }
  }

  datatype Subs = Subs(last: int, boxes: map<nat, Box>, next: nat)

  const NoSubscriptions: Subs := Subs(0, map[], 0)

  function Publish(s: Subs, demand: int): Subs {
    if demand == s.last then s
    else s.(last := demand, boxes := map id | id in s.boxes :: s.boxes[id].Deliver(demand))
  }

  predicate Activates(s: Subs, demand: int) {
    s.last == 0 && demand > 0
  }

  function Subscribe(s: Subs, current: int): Subs {
    s.(boxes := s.boxes[s.next := Box(Some(current), [], current, s.last, false)], next := s.next + 1)
  }

  function Unsubscribe(s: Subs, id: nat): Subs {
    s.(boxes := s.boxes - {id})
  }

  function Receive(s: Subs, id: nat): Subs {
    if id in s.boxes then s.(boxes := s.boxes[id := s.boxes[id].Receive()]) else s
  }

  /** The newest value the receiver has seen or is about to see. */
  function Latest(b: Box): int {
    if b.Flow() == [] then b.seed else b.Flow()[|b.Flow()| - 1]
  }

  // A mailbox is never empty and untouched, and it lags the published value only while it still
  // shows its seed.
  ghost predicate BoxConsistent(b: Box, last: int) {
    && b.Flow() != []
    && (b.moved ==> Latest(b) == last)
    && (!b.moved ==> Latest(b) == b.seed && last == b.base)
  }

  ghost predicate Consistent(s: Subs) {
    && (forall id :: id in s.boxes ==> id < s.next)
    && (forall id :: id in s.boxes ==> BoxConsistent(s.boxes[id], s.last))
  }

  datatype Op = DoPublish(demand: int) | DoSubscribe(current: int) | DoUnsubscribe(id: nat) | DoReceive(id: nat)

  function Apply(s: Subs, op: Op): Subs {
    match op
    case DoPublish(d) => Publish(s, d)
    case DoSubscribe(c) => Subscribe(s, c)
    case DoUnsubscribe(id) => Unsubscribe(s, id)
    case DoReceive(id) => Receive(s, id)
  }

  function ApplyAll(s: Subs, ops: seq<Op>): Subs {
    if ops == [] then s else Apply(ApplyAll(s, ops[..|ops| - 1]), ops[|ops| - 1])
  }

  lemma StepConsistent(s: Subs, op: Op)
    requires Consistent(s)
    ensures Consistent(Apply(s, op))
  {
    var t := Apply(s, op);
    forall id | id in t.boxes ensures BoxConsistent(t.boxes[id], t.last) {
      if id in s.boxes {
        var b := s.boxes[id];
        assert b.mail.Some? ==> b.Flow()[|b.Flow()| - 1] == b.mail.value;
        assert b.Receive().Flow() == b.Flow();
        assert b.mail.None? ==> b.Flow() == b.got;
      }
    }
  }

  lemma {:induction false} RunConsistent(ops: seq<Op>)
    ensures Consistent(ApplyAll(NoSubscriptions, ops))
  {
    if ops != [] {
      RunConsistent(ops[..|ops| - 1]);
      StepConsistent(ApplyAll(NoSubscriptions, ops[..|ops| - 1]), ops[|ops| - 1]);
    }
  }

  /** After any history a subscriber agrees with the published value exactly when it was seeded with
      the value published at that moment or the published value has changed since. */
  lemma SubscriberAgreement(ops: seq<Op>, id: nat)
    requires id in ApplyAll(NoSubscriptions, ops).boxes
    ensures var s := ApplyAll(NoSubscriptions, ops);
            var b := s.boxes[id];
            Latest(b) == s.last <==> b.moved || b.seed == b.base
  {
    RunConsistent(ops);
  }

  // The results `true` returned by a sequence of Publish calls, and the rising edges of the values.
  function Activations(s: Subs, demands: seq<int>): nat
    decreases |demands|
  {
    if demands == [] then 0
    else (if Activates(s, demands[0]) then 1 else 0) + Activations(Publish(s, demands[0]), demands[1..])
  }

  function RisingEdges(values: seq<int>): nat {
    if |values| < 2 then 0
    else (if values[0] == 0 && values[1] > 0 then 1 else 0) + RisingEdges(values[1..])
  }

  /** Publish reports an activation once per edge from zero to a positive value. */
  lemma {:induction false} ActivationsAreRisingEdges(s: Subs, demands: seq<int>)
    ensures Activations(s, demands) == RisingEdges([s.last] + demands)
    decreases |demands|
  {
    if demands != [] {
      ActivationsAreRisingEdges(Publish(s, demands[0]), demands[1..]);
      assert ([s.last] + demands)[1..] == [demands[0]] + demands[1..];
    }
  }

  /** What a box may look like after a Publish during which its receiver ran: the publication took
      effect at one instant, with receptions possibly before and after it. */
  predicate Linearized(before: Box, after: Box, demand: int) {
    || after == before.Deliver(demand)
    || after == before.Deliver(demand).Receive()
    || after == before.Receive().Deliver(demand)
    || after == before.Receive().Deliver(demand).Receive()
  }

  // The receiver took the buffered value, or did nothing.
  predicate MayReceive(before: Box, after: Box) {
    after == before || after == before.Receive()
  }

  lemma Interleaved(a: Box, b: Box, c: Box, demand: int)
    ensures MayReceive(a, b) && MayReceive(b, c) ==> MayReceive(a, c)
    ensures MayReceive(a, b) && Linearized(b, c, demand) ==> Linearized(a, c, demand)
    ensures Linearized(a, b, demand) && MayReceive(b, c) ==> Linearized(a, c, demand)
  {
  }

  class Subscriptions {
    var subscribers: map<nat, Box>
    var nextSubscriber: nat
    var lastDemand: int

    ghost function View(): Subs
      reads this
    {
      Subs(lastDemand, subscribers, nextSubscriber)
    }

    constructor ()
      ensures View() == NoSubscriptions
    {
      subscribers, nextSubscriber, lastDemand := map[], 0, 0;
    }

    /** Any set of receivers takes what is buffered for it. Receivers do not hold the mutex, so this
        can happen between any two channel operations of the publisher. */
    method Interfere()
      modifies this`subscribers
      ensures subscribers.Keys == old(subscribers).Keys
      ensures forall id :: id in subscribers ==> MayReceive(old(subscribers)[id], subscribers[id])
    {
      var who: set<nat> := *;
      subscribers := map id | id in subscribers ::
        if id in who then subscribers[id].Receive() else subscribers[id];
    }

    /** Makes room in one channel by dropping what it holds, unless a receiver takes it first. */
    method Drop(id: nat)
      requires id in subscribers
      modifies this`subscribers
      ensures subscribers.Keys == old(subscribers).Keys
      ensures subscribers[id] == old(subscribers)[id].(mail := None) ||
              subscribers[id] == old(subscribers)[id].Receive()
      ensures forall other :: other in subscribers && other != id ==>
                MayReceive(old(subscribers)[other], subscribers[other])
    {
      Interfere();
      subscribers := subscribers[id := subscribers[id].(mail := None)];
      ghost var half := subscribers;
      Interfere();
      assert subscribers[id] == half[id];
    }

    /** Puts a value into an empty channel, where its receiver may find it at once. */
    method Send(id: nat, demand: int)
      requires id in subscribers && subscribers[id].mail.None?  // there is room: the send cannot block
      modifies this`subscribers
      ensures subscribers.Keys == old(subscribers).Keys
      ensures MayReceive(old(subscribers)[id].Deliver(demand), subscribers[id])
      ensures forall other :: other in subscribers && other != id ==>
                MayReceive(old(subscribers)[other], subscribers[other])
    {
      subscribers := subscribers[id := subscribers[id].Deliver(demand)];
      Interfere();
    }

    /** One iteration of the publishing loop: send, or else make room and send again. */
    method Offer(id: nat, demand: int)
      requires id in subscribers
      modifies this`subscribers
      ensures subscribers.Keys == old(subscribers).Keys
      ensures Linearized(old(subscribers)[id], subscribers[id], demand)
      ensures forall other :: other in subscribers && other != id ==>
                MayReceive(old(subscribers)[other], subscribers[other])
    {
      if subscribers[id].mail.Some? {
        Drop(id);
      }
      assert subscribers[id].Deliver(demand) == old(subscribers)[id].Deliver(demand) ||
             subscribers[id].Deliver(demand) == old(subscribers)[id].Receive().Deliver(demand);
      Send(id, demand);
    }

    method Publish(demand: int) returns (activated: bool)
      modifies this
      ensures activated == (old(lastDemand) == 0 && demand > 0)
      ensures lastDemand == demand && nextSubscriber == old(nextSubscriber)
      ensures subscribers.Keys == old(subscribers).Keys
      ensures demand == old(lastDemand) ==> subscribers == old(subscribers)
      ensures demand != old(lastDemand) ==> forall id :: id in subscribers ==>
                Linearized(old(subscribers)[id], subscribers[id], demand)
      ensures old(Consistent(View())) ==> Consistent(View())
    {
      if demand == lastDemand {
        return false;
      }
      activated := lastDemand == 0 && demand > 0;
      lastDemand := demand;
      ghost var start := subscribers;
      var todo := subscribers.Keys;
      Interfere();
      while todo != {}
        invariant lastDemand == demand && nextSubscriber == old(nextSubscriber)
        invariant subscribers.Keys == start.Keys && todo <= start.Keys
        invariant forall id :: id in todo ==> MayReceive(start[id], subscribers[id])
        invariant forall id :: id in start && id !in todo ==> Linearized(start[id], subscribers[id], demand)
        decreases todo
      {
        var id :| id in todo;
        ghost var prev := subscribers;
        Offer(id, demand);
        todo := todo - {id};
        forall other | other in start ensures
          if other in todo then MayReceive(start[other], subscribers[other])
          else Linearized(start[other], subscribers[other], demand)
        {
          Interleaved(start[other], prev[other], subscribers[other], demand);
        }
      }
      LinearizedConsistent(old(View()), View(), demand);
    }

    method Subscribe(current: int) returns (id: nat)
      modifies this
      ensures View() == Apply(old(View()), DoSubscribe(current)) && id == old(nextSubscriber)
      ensures subscribers == old(subscribers)[id := Box(Some(current), [], current, lastDemand, false)]
      ensures nextSubscriber == id + 1 && lastDemand == old(lastDemand)
      ensures old(Consistent(View())) ==> Consistent(View()) && id !in old(subscribers)
    {
      id := nextSubscriber;
      StepConsistentIf(View(), DoSubscribe(current));
      subscribers := subscribers[id := Box(Some(current), [], current, lastDemand, false)];
      nextSubscriber := nextSubscriber + 1;
    }

    method Unsubscribe(id: nat)
      modifies this`subscribers
      ensures View() == Apply(old(View()), DoUnsubscribe(id))
      ensures subscribers == old(subscribers) - {id} && lastDemand == old(lastDemand)
      ensures old(Consistent(View())) ==> Consistent(View())
    {
      StepConsistentIf(View(), DoUnsubscribe(id));
      subscribers := subscribers - {id};
    }
  }

  lemma StepConsistentIf(s: Subs, op: Op)
    ensures Consistent(s) ==> Consistent(Apply(s, op))
  {
  }

  /** An interleaved publication ends where an atomic one with some receptions around it ends, so
      every subscriber has the new value as its newest one. */
  lemma LinearizedConsistent(s: Subs, t: Subs, demand: int)
    requires demand != s.last && t.last == demand && t.next == s.next && t.boxes.Keys == s.boxes.Keys
    requires forall id :: id in t.boxes ==> Linearized(s.boxes[id], t.boxes[id], demand)
    ensures Consistent(s) ==> Consistent(t)
    ensures forall id :: id in t.boxes ==> t.boxes[id].moved && Latest(t.boxes[id]) == demand
  {
    forall id | id in t.boxes
      ensures t.boxes[id].moved && BoxConsistent(t.boxes[id], demand)
    {
      var b, c := s.boxes[id], t.boxes[id];
      assert c.Flow()[|c.Flow()| - 1] == demand;
    }
  }
}
