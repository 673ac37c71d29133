/** Runs that mark the limits of the gateway's guarantees. */
module GatewayRuns {
  import opened Common
  import opened Activation
  import opened GatewayMachine
  import opened GatewayInvariant
  import opened GatewayTheorems
  import opened GatewayReports
  import Mailboxes

  lemma Go(s: State, id: nat, choice: nat, t: State)
    requires Reachable(s) && id < |s.threads|
    requires var e := EffectOf(s, id, s.threads[id], choice);
      e.Goes? && t == e.shared.(threads := t.threads) && t.threads == Placed(s.threads, id, e.pc, e.spawn)
    ensures Reachable(t)
  {
    Reach(s, Thread(id, choice), t);
  }

  const Example: Config := Config(5, 300, 15)

  // A state without lease, at time 1, with the given admission, publication and goroutines.
  function At(slots: int, pending: int, notifier: Option<nat>, subs: Mailboxes.Subs, threads: seq<Pc>): State {
    State(Example, 1, slots, pending, NoLease, notifier, subs, false, [], threads)
  }

  lemma Start()
    ensures Reachable(At(0, 0, None, Mailboxes.NoSubscriptions, []))
  {
    InitialReachable(At(0, 0, None, Mailboxes.NoSubscriptions, []));
  }

  function Put(s: State, i: nat, pc: Pc): State
    requires i < |s.threads|
  {
    s.(threads := s.threads[i := pc])
  }

  /** notifyDemandChange runs undisturbed while requests are pending. */
  lemma NotifyPending(s: State, i: nat)
    requires Reachable(s) && i < |s.threads| && s.threads[i].Notify? && s.notifier.None? && s.pending > 0
    ensures Reachable(Put(s.(subs := Mailboxes.Publish(s.subs, s.pending)), i, Resumed(s.threads[i].after)))
  {
    var after := s.threads[i].after;
    var u := s.(notifier := Some(i));
    Go(s, i, 0, Put(u, i, Reading(after)));
    Onward(u, i, Reading(after), u, Publishing(after, s.pending));
    Onward(u, i, Publishing(after, s.pending), s.(subs := Mailboxes.Publish(s.subs, s.pending)), Resumed(after));
  }

  /** SubscribeDemand runs undisturbed while nothing is pending and the lease gives no floor. */
  lemma SubscribeIdle(s: State, i: nat)
    requires Reachable(s) && i < |s.threads| && s.threads[i] == SubWait(false) && s.notifier.None?
    requires s.pending == 0 && !Floor(s.lease, s.clock)
    ensures Reachable(Put(s.(subs := Mailboxes.Subscribe(s.subs, 0)), i, Streaming(s.subs.next)))
  {
    var u := s.(notifier := Some(i));
    Go(s, i, 0, Put(u, i, SubReading(false)));
    ReadIdle(u, i);
    Onward(u, i, SubSeeding(false, 0), s.(subs := Mailboxes.Subscribe(s.subs, 0)), Streaming(s.subs.next));
  }

  /** SubscribeDemand of the reporter runs undisturbed while requests are pending. */
  lemma SubscribePending(s: State, i: nat)
    requires Reachable(s) && i < |s.threads| && s.threads[i] == SubWait(true) && s.notifier.None? && s.pending > 0
    ensures Reachable(Put(s.(subs := Mailboxes.Subscribe(s.subs, s.pending)), i, Reporting(s.subs.next)))
  {
    var u := s.(notifier := Some(i));
    assert Put(s, i, SubWait(true)) == s;
    Onward(s, i, SubWait(true), u, SubReading(true));
    Onward(u, i, SubReading(true), u, SubSeeding(true, s.pending));
    Seeded(s, i, s.pending);
  }

  lemma Seeded(s: State, i: nat, demand: int)
    requires i < |s.threads| && s.notifier.None? && Reachable(Put(s.(notifier := Some(i)), i, SubSeeding(true, demand)))
    ensures Reachable(Put(s.(subs := Mailboxes.Subscribe(s.subs, demand)), i, Reporting(s.subs.next)))
  {
    Onward(s.(notifier := Some(i)), i, SubSeeding(true, demand),
           s.(subs := Mailboxes.Subscribe(s.subs, demand)), Reporting(s.subs.next));
  }

  lemma ReadIdle(u: State, i: nat)
    requires i < |u.threads| && Reachable(Put(u, i, SubReading(false)))
    requires u.pending == 0 && !Floor(u.lease, u.clock)
    ensures Reachable(Put(u, i, SubSeeding(false, 0)))
  {
    Onward(u, i, SubReading(false), u, SubSampling(false));
    Onward(u, i, SubSampling(false), u, SubChecking(false, u.clock));
    Onward(u, i, SubChecking(false, u.clock), u, SubSeeding(false, 0));
  }

  lemma Onward(u: State, i: nat, pc: Pc, v: State, pc': Pc)
    requires i < |u.threads| && v.threads == u.threads && Reachable(Put(u, i, pc))
    requires EffectOf(Put(u, i, pc), i, pc, 0) == Quiet(v.(threads := Put(u, i, pc).threads), pc')
    ensures Reachable(Put(v, i, pc'))
  {
    assert u.threads[i := pc][i := pc'] == u.threads[i := pc'];
    Go(Put(u, i, pc), i, 0, Put(v, i, pc'));
  }

  // The published demand is `last` and nobody has subscribed.
  function Bare(last: int): Mailboxes.Subs {
    Mailboxes.Subs(last, map[], 0)
  }

  // One stream has subscribed, was seeded with 0 while 1 was published, and has received `got`.
  function Stale(mail: Option<int>, got: seq<int>): Mailboxes.Subs {
    Mailboxes.Subs(1, map[0 := Mailboxes.Box(mail, got, 0, 1, false)], 1)
  }

  /** A request is admitted and published. */
  lemma PublishedOnce()
    ensures Reachable(At(1, 1, None, Bare(1), [Probing]))
  {
    Start();
    var s1 := At(1, 0, None, Bare(0), [Admitted]);
    assert s1.threads == [] + [Admitted];
    Reach(At(0, 0, None, Bare(0), []), Arrive, s1);
    var s2 := At(1, 1, None, Bare(0), [Notify(ToProbe)]);
    Go(s1, 0, 0, s2);
    NotifyPending(s2, 0);
    assert Mailboxes.Publish(Bare(0), 1) == Bare(1) && [Probing] == s2.threads[0 := Probing];
  }

  /** It is served and has just given back its pending unit. */
  lemma ServedOnce()
    ensures Reachable(At(1, 0, None, Bare(1), [Notify(ToRelease)]))
  {
    PublishedOnce();
    var s4 := At(1, 1, None, Bare(1), [Serving]);
    Go(At(1, 1, None, Bare(1), [Probing]), 0, 0, s4);
    var s5 := At(1, 1, None, Bare(1), [Leaving]);
    Go(s4, 0, 0, s5);
    Go(s5, 0, 0, At(1, 0, None, Bare(1), [Notify(ToRelease)]));
  }

  /** Before that is published, a stream subscribes and is seeded with the live demand, 0. */
  lemma SeededBehindPublication()
    ensures Reachable(At(1, 0, None, Stale(Some(0), []), [Notify(ToRelease), Streaming(0)]))
  {
    ServedOnce();
    var n := Notify(ToRelease);
    var s1 := At(1, 0, None, Bare(1), [n, SubWait(false)]);
    assert s1.threads == [n] + [SubWait(false)];
    Reach(At(1, 0, None, Bare(1), [n]), OpenStream, s1);
    SubscribeIdle(s1, 1);
    assert Mailboxes.Subscribe(Bare(1), 0) == Stale(Some(0), []);
    assert At(1, 0, None, Stale(Some(0), []), [n, Streaming(0)]).threads == s1.threads[1 := Streaming(0)];
  }

  /** The stream takes its seed. */
  lemma SeedTaken()
    ensures Reachable(At(1, 0, None, Stale(None, [0]), [Notify(ToRelease), Streaming(0)]))
  {
    SeededBehindPublication();
    var s := At(1, 0, None, Stale(Some(0), []), [Notify(ToRelease), Streaming(0)]);
    assert Mailboxes.Box(Some(0), [], 0, 1, false).Receive().got == [0];
    assert Mailboxes.Receive(Stale(Some(0), []), 0).boxes == Stale(None, [0]).boxes;
    Go(s, 1, 0, At(1, 0, None, Stale(None, [0]), [Notify(ToRelease), Streaming(0)]));
  }

  /** The next request then raises the demand back to the published value, which is therefore not
      sent again: all notifications have drained, demand is 1, and the stream's newest value is 0. */
  lemma MissedActivation() returns (s: State)
    ensures Reachable(s) && NoNotification(s)
    ensures s.pending == 1 && s.Demand() == 1 && s.subs.last == 1
    ensures Streaming(0) in s.threads && 0 in s.subs.boxes
    ensures s.subs.boxes[0].mail.None? && Mailboxes.Latest(s.subs.boxes[0]) == 0
  {
    SeedTaken();
    var b, n, r, p := Stale(None, [0]), Notify(ToRelease), Streaming(0), Notify(ToProbe);
    var s1 := At(2, 0, None, b, [n, r, Admitted]);
    assert s1.threads == [n, r] + [Admitted];
    Reach(At(1, 0, None, b, [n, r]), Arrive, s1);
    var s2 := At(2, 1, None, b, [n, r, p]);
    Go(s1, 2, 0, s2);
    NotifyPending(s2, 0);
    var s3 := At(2, 1, None, b, [Releasing, r, p]);
    assert s3.threads == s2.threads[0 := Releasing];
    NotifyPending(s3, 2);
    s := At(2, 1, None, b, [Releasing, r, Probing]);
    assert s.threads == s3.threads[2 := Probing] && s.threads[1] == r;
  }

  // ---- a heartbeat between two announcements ----

  // A state with a reporter that has sent `sent`. Its mailbox, seeded with the published 1, holds `mail`.
  function Rep(slots: int, pending: int, notifier: Option<nat>, mail: Option<int>, sent: seq<int>, threads: seq<Pc>): State {
    var got := if mail.None? then [1] else [];
    State(Example, 1, slots, pending, NoLease, notifier,
          Mailboxes.Subs(1, map[0 := Mailboxes.Box(mail, got, 1, 1, false)], 1), true, sent, threads)
  }

  /** While the first request is pending, a reporter subscribes, */
  lemma ReporterSubscribed()
    ensures Reachable(Rep(1, 1, None, Some(1), [], [Probing, Reporting(0)]))
  {
    PublishedOnce();
    var s0 := At(1, 1, None, Bare(1), [Probing]);
    var s1 := s0.(reporting := true, threads := [Probing, SubWait(true)]);
    assert s1.threads == [Probing] + [SubWait(true)];
    Reach(s0, StartReporter, s1);
    SubscribePending(s1, 1);
    var s4 := Rep(1, 1, None, Some(1), [], [Probing, Reporting(0)]);
    assert Mailboxes.Subscribe(Bare(1), 1) == s4.subs && s4.threads == s1.threads[1 := Reporting(0)];
  }

  /** takes the 1 it finds in its mailbox, */
  lemma OneTaken()
    ensures Reachable(Rep(1, 1, None, None, [], [Probing, Sending(0, 1, false)]))
  {
    ReporterSubscribed();
    var s := Rep(1, 1, None, Some(1), [], [Probing, Reporting(0)]);
    var t := Rep(1, 1, None, None, [], [Probing, Sending(0, 1, false)]);
    assert Mailboxes.Box(Some(1), [], 1, 1, false).Receive().got == [1];
    assert Mailboxes.Receive(s.subs, 0).boxes == t.subs.boxes;
    Go(s, 1, 2, t);
  }

  /** and reports it. */
  lemma OneReported()
    ensures Reachable(Rep(1, 1, None, None, [1], [Probing, Reporting(0)]))
  {
    OneTaken();
    var t := Rep(1, 1, None, None, [1], [Probing, Reporting(0)]);
    assert t.sent == [] + [1];
    Go(Rep(1, 1, None, None, [], [Probing, Sending(0, 1, false)]), 1, 0, t);
  }

  /** The request gives back its unit; before that is announced, the heartbeat reads 0. */
  lemma ZeroReported()
    ensures Reachable(Rep(1, 0, None, None, [1, 0], [Notify(ToRelease), Reporting(0)]))
  {
    OneReported();
    var s1 := Rep(1, 1, None, None, [1], [Probing, Reporting(0)]);
    var s2 := s1.(threads := [Serving, Reporting(0)]);
    Go(s1, 0, 0, s2);
    var s3 := s1.(threads := [Leaving, Reporting(0)]);
    Go(s2, 0, 0, s3);
    var n := Notify(ToRelease);
    var s4 := Rep(1, 0, None, None, [1], [n, Reporting(0)]);
    Go(s3, 0, 0, s4);
    BeatsZero(s4, 1, 0);
    assert [1] + [0] == [1, 0];
  }

  // The heartbeat of goroutine `i` finds nothing pending and no floor.
  lemma BeatsZero(s: State, i: nat, box: nat)
    requires Reachable(s) && i < |s.threads| && s.threads[i] == Reporting(box) && s.pending == 0 && !Floor(s.lease, s.clock)
    ensures Reachable(s.(sent := s.sent + [0]))
  {
    assert Put(s, i, Reporting(box)) == s;
    ReadsZero(s, i, box);
    var v := s.(sent := s.sent + [0]);
    Onward(s, i, Sending(box, 0, false), v, Reporting(box));
    assert Put(v, i, Reporting(box)) == v;
  }

  lemma ReadsZero(u: State, i: nat, box: nat)
    requires i < |u.threads| && Reachable(Put(u, i, Reporting(box))) && u.pending == 0 && !Floor(u.lease, u.clock)
    ensures Reachable(Put(u, i, Sending(box, 0, false)))
  {
    Onward(u, i, Reporting(box), u, Beating(box));
    Onward(u, i, Beating(box), u, BeatSampling(box));
    Onward(u, i, BeatSampling(box), u, BeatChecking(box, u.clock));
    Onward(u, i, BeatChecking(box, u.clock), u, Sending(box, 0, false));
  }

  /** The next request raises the demand back to the published value, which is therefore not sent again:
      all notifications have drained, demand and published demand are 1, the reporter is idle with an
      empty mailbox, and its last report is 0. */
  lemma StaleHeartbeat() returns (s: State)
    ensures Reachable(s) && NoNotification(s) && NoBackground(s) && IdleReporter(s, 1)
    ensures s.Demand() == 1 && s.subs.last == 1 && s.sent == [1, 0]
  {
    ZeroReported();
    var n, r, p := Notify(ToRelease), Reporting(0), Notify(ToProbe);
    var s1 := Rep(2, 0, None, None, [1, 0], [n, r, Admitted]);
    assert s1.threads == [n, r] + [Admitted];
    Reach(Rep(1, 0, None, None, [1, 0], [n, r]), Arrive, s1);
    var s2 := Rep(2, 1, None, None, [1, 0], [n, r, p]);
    Go(s1, 2, 0, s2);
    NotifyPending(s2, 0);
    var s3 := Rep(2, 1, None, None, [1, 0], [Releasing, r, p]);
    assert s3.threads == s2.threads[0 := Releasing];
    NotifyPending(s3, 2);
    s := Rep(2, 1, None, None, [1, 0], [Releasing, r, Probing]);
    assert s.threads == s3.threads[2 := Probing];
  }

  // ---- a renewal that stores an old clock sample ----

  // Two handlers under a lease; the clock reads `clock`.
  function Two(clock: int, lease: Lease, notifier: Option<nat>, a: Pc, b: Pc): State {
    State(Example, clock, 2, 2, lease, notifier, Bare(2), false, [], [a, b])
  }

  /** Both handlers have found the backend not ready. */
  lemma BothCold()
    ensures Reachable(Two(1, NoLease, None, Starting, Starting))
  {
    Start();
    var s1 := At(1, 0, None, Bare(0), [Admitted]);
    assert s1.threads == [] + [Admitted];
    Reach(At(0, 0, None, Bare(0), []), Arrive, s1);
    var s2 := At(2, 0, None, Bare(0), [Admitted, Admitted]);
    assert s2.threads == [Admitted] + [Admitted];
    Reach(s1, Arrive, s2);
    var n := Notify(ToProbe);
    var s3 := At(2, 1, None, Bare(0), [n, Admitted]);
    Go(s2, 0, 0, s3);
    var s4 := At(2, 2, None, Bare(0), [n, n]);
    Go(s3, 1, 0, s4);
    NotifyPending(s4, 0);
    var s5 := At(2, 2, None, Bare(2), [Probing, n]);
    assert Mailboxes.Publish(Bare(0), 2) == Bare(2) && s5.threads == s4.threads[0 := Probing];
    NotifyPending(s5, 1);
    var s6 := At(2, 2, None, Bare(2), [Probing, Probing]);
    assert s6.threads == s5.threads[1 := Probing];
    var s7 := At(2, 2, None, Bare(2), [Starting, Probing]);
    Go(s6, 0, 1, s7);
    Go(s7, 1, 1, Two(1, NoLease, None, Starting, Starting));
  }

  /** The deadline can move backward: a handler samples the clock at 1, another one renews the lease
      at 100, and then the first one stores its sample. The lease no longer gives the floor at 301,
      although 301 lies before 100 plus the timeout of 300. */
  lemma StaleRenewalShortensLease() returns (s: State, t: State)
    ensures Reachable(s) && s.lease.deadline == 100 + s.cfg.timeout && |s.threads| == 2 && s.threads[0] == Renewing(1)
    ensures Step(s, Thread(0, 0)) == Some(t) && Reachable(t)
    ensures t.lease.deadline < s.lease.deadline && Floor(s.lease, 301) && !Floor(t.lease, 301)
  {
    BothCold();
    var s1 := Two(1, NoLease, None, Renewing(1), Starting);
    Go(Two(1, NoLease, None, Starting, Starting), 0, 0, s1);
    var s2 := Two(100, NoLease, None, Renewing(1), Starting);
    Reach(s1, Tick(99), s2);
    var s3 := Two(100, NoLease, None, Renewing(1), Renewing(100));
    Go(s2, 1, 0, s3);
    s := Two(100, Renew(NoLease, 100, 300), None, Renewing(1), Notify(ToSpawn(true)));
    Go(s3, 1, 0, s);
    t := Two(100, Renew(s.lease, 1, 300), None, Notify(ToSpawn(false)), Notify(ToSpawn(true)));
    assert t.threads == s.threads[0 := Notify(ToSpawn(false))];
    Go(s, 0, 0, t);
  }
}
