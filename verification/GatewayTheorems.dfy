/** What holds in every run of a gateway, whatever the interleaving. */
module GatewayTheorems {
  import opened Common
  import opened Activation
  import opened GatewayMachine
  import opened GatewayInvariant
  import Mailboxes

  /** Some run ends in `s`. */
  ghost predicate Reachable(s: State) {
    exists states: seq<State>, actions: seq<Action> :: Run(states, actions) && states[|states| - 1] == s
  }

  lemma Reach(s: State, a: Action, t: State)
    requires Reachable(s) && Step(s, a) == Some(t)
    ensures Reachable(t)
  {
    var states: seq<State>, actions: seq<Action> :| Run(states, actions) && states[|states| - 1] == s;
    var states', actions' := states + [t], actions + [a];
    forall k | 0 <= k < |actions'| ensures Step(states'[k], actions'[k]) == Some(states'[k + 1]) {
      if k < |actions| { assert actions'[k] == actions[k]; }
    }
    assert Run(states', actions') && states'[|states'| - 1] == t;
  }

  lemma InitialReachable(s: State)
    requires Initial(s)
    ensures Reachable(s)
  {
    assert Run([s], []) && [s][|[s]| - 1] == s;
  }

  // Nobody waits for, or is in the middle of, a demand notification.
  predicate NoNotification(s: State) {
    forall i :: 0 <= i < |s.threads| ==> !IsNotifying(s.threads[i])
  }

  // The lease watcher and all grace timers have finished.
  predicate NoBackground(s: State) {
    forall i :: 0 <= i < |s.threads| ==>
      !IsWatcher(s.threads[i]) && !s.threads[i].Grace? && !s.threads[i].Arming?
  }

  lemma NoneCounted(threads: seq<Pc>, f: Pc -> bool)
    requires forall i :: 0 <= i < |threads| ==> !f(threads[i])
    ensures Count(threads, f) == 0
  {
    if Count(threads, f) > 0 {
      var i := CountFind(threads, f);
    }
  }

  /** No publication is lost. Once notifications have drained, the published demand is the demand,
      except that it may still show the floor of one after the clock has removed it; then the watcher
      or the grace timer that will withdraw it is there. In particular it is never too low. */
  lemma NoLostPublication(states: seq<State>, actions: seq<Action>, k: nat)
    requires Run(states, actions) && k < |states| && NoNotification(states[k])
    ensures var s := states[k];
      || s.subs.last == s.Demand()
      || (&& s.subs.last == 1 && s.Demand() == 0
          && exists i :: 0 <= i < |s.threads| && (IsWatcher(s.threads[i]) || s.threads[i].Grace? || s.threads[i].Arming?))
    ensures states[k].subs.last >= states[k].Demand()
    ensures NoBackground(states[k]) ==> states[k].subs.last == states[k].Demand()
  {
    RunInv(states, actions, k);
    var s := states[k];
    NoneCounted(s.threads, Owes);
    if s.subs.last != s.Demand() {
      if s.lease.active {
        var i := CountFind(s.threads, IsWatcher);
        assert IsWatcher(s.threads[i]);
      } else {
        var i := CountFind(s.threads, TimerFor(s.lease.graceUntil));
        assert s.threads[i].Grace? || s.threads[i].Arming?;
      }
    }
  }

  /** There is never more than one watcher, counting one about to be started, and there is one
      exactly while the lease is active. */
  lemma SingleWatcher(states: seq<State>, actions: seq<Action>, k: nat)
    requires Run(states, actions) && k < |states|
    ensures var s := states[k];
      && s.lease.active == s.lease.watcher
      && (s.lease.watcher <==> exists i :: 0 <= i < |s.threads| && IsWatcher(s.threads[i]))
      && (forall i, j :: 0 <= i < |s.threads| && 0 <= j < |s.threads| && IsWatcher(s.threads[i]) && IsWatcher(s.threads[j])
            ==> i == j)
  {
    RunInv(states, actions, k);
    var s := states[k];
    if s.lease.watcher { var i := CountFind(s.threads, IsWatcher); }
    forall i | 0 <= i < |s.threads| && IsWatcher(s.threads[i])
      ensures s.lease.watcher
      ensures forall j :: 0 <= j < |s.threads| && j != i ==> !IsWatcher(s.threads[j])
    {
      CountWitness(s.threads, i, IsWatcher);
    }
  }

  /** The pending count is the number of handlers that have been counted and not yet uncounted, and
      admission bounds it. */
  lemma AdmissionBound(states: seq<State>, actions: seq<Action>, k: nat)
    requires Run(states, actions) && k < |states|
    ensures states[k].pending == Count(states[k].threads, HoldsUnit)
    ensures states[k].slots == Count(states[k].threads, HoldsSlot)
    ensures 0 <= states[k].pending <= states[k].slots <= states[k].cfg.maxQueue
  {
    RunInv(states, actions, k);
    UnitsAreSlots(states[k]);
  }

  /** A request is admitted exactly if fewer than MaxQueue handlers occupy a place. */
  lemma AdmitsExactly(states: seq<State>, actions: seq<Action>, k: nat)
    requires Run(states, actions) && k < |states|
    ensures Step(states[k], Arrive).Some? <==> Count(states[k].threads, HoldsSlot) < states[k].cfg.maxQueue
  {
    AdmissionBound(states, actions, k);
  }

  lemma ConfigConstant(states: seq<State>, actions: seq<Action>, i: nat, j: nat)
    requires Run(states, actions) && i <= j < |states|
    ensures states[i].cfg == states[j].cfg && states[i].clock <= states[j].clock
    decreases j - i
  {
    if i < j {
      ConfigConstant(states, actions, i, j - 1);
      var s, a := states[j - 1], actions[j - 1];
      assert Step(s, a) == Some(states[j]);
      if a.Thread? { AdmissionEffect(s, a.id, s.threads[a.id], a.choice); }
    }
  }

  /** The end of the ready grace never moves backward. */
  lemma {:induction false} GraceNeverShrinks(states: seq<State>, actions: seq<Action>, i: nat, j: nat)
    requires Run(states, actions) && i <= j < |states|
    ensures states[i].lease.graceUntil <= states[j].lease.graceUntil
    decreases j - i
  {
    if i < j {
      GraceNeverShrinks(states, actions, i, j - 1);
      RunInv(states, actions, j - 1);
      var s, a := states[j - 1], actions[j - 1];
      assert Step(s, a) == Some(states[j]);
      if a.Thread? {
        assert ThreadOk(s, s.threads[a.id]);
        GraceEffect(s, a.id, s.threads[a.id], a.choice);
      }
    }
  }

  // ---- the lease keeps demand visible ----

  // Step `k` of the run stores a renewed lease whose clock sample is `now`.
  predicate RenewsAt(states: seq<State>, actions: seq<Action>, k: nat, now: int)
    requires Follows(states, actions) && k < |actions|
  {
    && actions[k].Thread? && actions[k].id < |states[k].threads|
    && states[k].threads[actions[k].id] == Renewing(now)
  }

  // Step `k` of the run ends the lease because readiness was observed, with clock sample `now`.
  predicate GraduatesAt(states: seq<State>, actions: seq<Action>, k: nat, now: int)
    requires Follows(states, actions) && k < |actions|
  {
    && actions[k].Thread? && actions[k].id < |states[k].threads|
    && states[k].threads[actions[k].id] == Graduating(now)
  }

  predicate Graduates(states: seq<State>, actions: seq<Action>, k: nat)
    requires Follows(states, actions) && k < |actions|
  {
    && actions[k].Thread? && actions[k].id < |states[k].threads|
    && states[k].threads[actions[k].id].Graduating?
  }

  lemma LeaseEffect(s: State, i: nat, pc: Pc, choice: nat)
    requires EffectOf(s, i, pc, choice).Goes?
    ensures var l := EffectOf(s, i, pc, choice).shared.lease;
      || l == s.lease
      || (pc.Renewing? && l == Renew(s.lease, pc.now, s.cfg.timeout))
      || (pc.Retiring? && s.lease.deadline <= pc.now && l == Retire(s.lease, false, pc.now, s.cfg.grace))
      || (pc.Graduating? && l == Retire(s.lease, true, pc.now, s.cfg.grace))
  {
  }

  /** When a step ends the lease without readiness, the deadline stored at that moment has passed, so
      no renewal is cancelled, and the demand does not change. */
  lemma TimeoutRetirement(states: seq<State>, actions: seq<Action>, k: nat)
    requires Run(states, actions) && k < |actions|
    requires states[k].lease.active && !states[k + 1].lease.active && !Graduates(states, actions, k)
    ensures states[k].lease.deadline <= states[k].clock
    ensures states[k + 1].Demand() == states[k].Demand()
  {
    RunInv(states, actions, k);
    var s, a := states[k], actions[k];
    assert Step(s, a) == Some(states[k + 1]);
    if a.Thread? {
      assert ThreadOk(s, s.threads[a.id]);
      LeaseEffect(s, a.id, s.threads[a.id], a.choice);
      AdmissionEffect(s, a.id, s.threads[a.id], a.choice);
      assert s.threads[a.id].Retiring?;
    }
  }

  /** When the watcher comes to retire the lease, it does so exactly if the deadline it finds then has been
      reached by its clock sample; it ends if it does and goes on to probe if it does not. */
  lemma RetiresExactly(states: seq<State>, actions: seq<Action>, k: nat, id: nat, choice: nat)
    requires Run(states, actions) && k < |actions| && actions[k] == Thread(id, choice) && id < |states[k].threads|
    requires states[k].threads[id].Retiring?
    ensures var s, t, now := states[k], states[k + 1], states[k].threads[id].now;
      && |t.threads| == |s.threads| && s.lease.active
      && (t.lease.active <==> now < s.lease.deadline)
      && t.threads[id] == (if now < s.lease.deadline then WatchProbe else Notify(ToEnd))
  {
    SingleWatcher(states, actions, k);
    assert IsWatcher(states[k].threads[id]);
    assert Step(states[k], actions[k]) == Some(states[k + 1]);
  }

  /** A watcher that finds the deadline reached and is left alone retires the lease, and then owes the
      notification. */
  lemma LoneWatcherRetires(s: State, i: nat, t: State)
    requires i < |s.threads| && s.threads[i] == WatchTop && s.lease.deadline <= s.clock
    requires t == s.(lease := s.lease.(active := false, watcher := false), threads := s.threads[i := Notify(ToEnd)])
    ensures Drives(s, i, [0, 0, 0, 0], t)
  {
    Drive(s, i, WatchTop, 0, [0, 0, 0], s, WatchTest(s.lease.deadline), t);
    Drive(s, i, WatchTest(s.lease.deadline), 0, [0, 0], s, Expiring, t);
    assert s.threads[i := WatchTop] == s.threads;
    Expires(s, i, t);
  }

  lemma Expires(s: State, i: nat, t: State)
    requires i < |s.threads| && s.lease.deadline <= s.clock
    requires t == s.(lease := s.lease.(active := false, watcher := false), threads := s.threads[i := Notify(ToEnd)])
    ensures Drives(s.(threads := s.threads[i := Expiring]), i, [0, 0], t)
  {
    var u := s.(lease := s.lease.(active := false, watcher := false));
    assert u.threads[i := Notify(ToEnd)] == t.threads;
    Drive(s, i, Expiring, 0, [0], s, Retiring(s.clock), t);
    Drive(s, i, Retiring(s.clock), 0, [], u, Notify(ToEnd), t);
  }

  /** A watcher before the deadline whose probe finds the backend ready ends the lease and begins the grace. */
  lemma LoneWatcherSucceeds(s: State, i: nat, t: State)
    requires i < |s.threads| && s.threads[i] == WatchTop && s.clock < s.lease.deadline
    requires var until := s.clock + s.cfg.grace;
      t == s.(lease := Lease(false, s.lease.deadline, until, false), threads := s.threads[i := Notify(ToArm(until))])
    ensures Drives(s, i, [0, 0, 0, 0, 0], t)
  {
    ReachProbe(s, i, [0, 0, 0], t);
    assert s.threads[i := WatchTop] == s.threads;
    Succeeds(s, i, t);
  }

  lemma ReachProbe(s: State, i: nat, rest: seq<nat>, t: State)
    requires i < |s.threads| && s.clock < s.lease.deadline
    ensures Drives(s.(threads := s.threads[i := WatchProbe]), i, rest, t) ==>
            Drives(s.(threads := s.threads[i := WatchTop]), i, [0, 0] + rest, t)
  {
    assert [0, 0] + rest == [0] + ([0] + rest);
    Drive(s, i, WatchTop, 0, [0] + rest, s, WatchTest(s.lease.deadline), t);
    Drive(s, i, WatchTest(s.lease.deadline), 0, rest, s, WatchProbe, t);
  }

  lemma Succeeds(s: State, i: nat, t: State)
    requires i < |s.threads|
    requires var until := s.clock + s.cfg.grace;
      t == s.(lease := Lease(false, s.lease.deadline, until, false), threads := s.threads[i := Notify(ToArm(until))])
    ensures Drives(s.(threads := s.threads[i := WatchProbe]), i, [0, 0, 0], t)
  {
    var u, until := s.(lease := Lease(false, s.lease.deadline, s.clock + s.cfg.grace, false)), s.clock + s.cfg.grace;
    assert u.threads[i := Notify(ToArm(until))] == t.threads;
    Drive(s, i, WatchProbe, 0, [0, 0], s, ReadySeen, t);
    Drive(s, i, ReadySeen, 0, [0], s, Graduating(s.clock), t);
    Drive(s, i, Graduating(s.clock), 0, [], u, Notify(ToArm(until)), t);
  }

  /** One whose probe does not find it ready starts over, with nothing changed. */
  lemma LoneWatcherStartsOver(s: State, i: nat)
    requires i < |s.threads| && s.threads[i] == WatchTop && s.clock < s.lease.deadline
    ensures Drives(s, i, [0, 0, 1], s)
  {
    assert s.threads[i := WatchTop] == s.threads;
    ReachProbe(s, i, [1], s);
    Drive(s, i, WatchProbe, 1, [], s, WatchTop, s);
  }

  /** Goroutine `i`, taking its steps alone with the given choices, leads from `s` to `t`. */
  predicate Drives(s: State, i: nat, choices: seq<nat>, t: State)
    decreases |choices|
  {
    i < |s.threads| &&
    (if choices == [] then s == t
     else var next := Advance(s, i, choices[0]); next.Some? && Drives(next.value, i, choices[1..], t))
  }

  // One step of goroutine `i` from `pc` to `pc'`, then the rest.
  lemma Drive(s: State, i: nat, pc: Pc, choice: nat, rest: seq<nat>, u: State, pc': Pc, t: State)
    requires i < |s.threads| && u.threads == s.threads
    requires EffectOf(s.(threads := s.threads[i := pc]), i, pc, choice) == Quiet(u.(threads := s.threads[i := pc]), pc')
    ensures Drives(u.(threads := u.threads[i := pc']), i, rest, t) ==>
            Drives(s.(threads := s.threads[i := pc]), i, [choice] + rest, t)
  {
    assert ([choice] + rest)[1..] == rest;
    assert s.threads[i := pc][i := pc'] == u.threads[i := pc'];
  }

  /** A handler forwards its request exactly if its readiness check, at once or while it waits, succeeds;
      one that finds the backend not ready renews the lease before it does anything else. */
  lemma ServesWhenReady(states: seq<State>, actions: seq<Action>, k: nat, id: nat, choice: nat)
    requires Run(states, actions) && k < |actions| && actions[k] == Thread(id, choice) && id < |states[k].threads|
    ensures id < |states[k + 1].threads|
    ensures var pc, pc' := states[k].threads[id], states[k + 1].threads[id];
      && (pc'.Serving? <==> (pc.Probing? || pc.Waiting?) && choice == 0)
      && (pc.Probing? && choice != 0 ==> pc'.Starting?) && (pc.Starting? ==> pc' == Renewing(states[k].clock))
  {
    assert Step(states[k], actions[k]) == Some(states[k + 1]);
    ServingEffect(states[k], id, states[k].threads[id], choice);
  }

  lemma ServingEffect(s: State, i: nat, pc: Pc, choice: nat)
    requires EffectOf(s, i, pc, choice).Goes?
    ensures var pc' := EffectOf(s, i, pc, choice).pc;
      && (pc'.Serving? <==> (pc.Probing? || pc.Waiting?) && choice == 0)
      && (pc.Probing? && choice != 0 ==> pc'.Starting?) && (pc.Starting? ==> pc' == Renewing(s.clock))
  {
  }

  lemma LeaseStep(states: seq<State>, actions: seq<Action>, k: nat, since: int)
    requires Run(states, actions) && k < |actions| && !Graduates(states, actions, k)
    requires forall now :: RenewsAt(states, actions, k, now) ==> since <= now
    requires states[k].lease.active ==> states[k].lease.deadline >= since + states[k].cfg.timeout
    requires states[k].clock < since + states[k].cfg.timeout ==> states[k].lease.active
    ensures states[k + 1].lease.active ==> states[k + 1].lease.deadline >= since + states[k].cfg.timeout
    ensures states[k + 1].clock < since + states[k].cfg.timeout ==> states[k + 1].lease.active
  {
    RunInv(states, actions, k);
    ConfigConstant(states, actions, k, k + 1);
    var s, a := states[k], actions[k];
    assert Step(s, a) == Some(states[k + 1]);
    if a.Thread? {
      var pc := s.threads[a.id];
      assert ThreadOk(s, pc);
      LeaseEffect(s, a.id, pc, a.choice);
      if pc.Renewing? { assert RenewsAt(states, actions, k, pc.now); }
    }
  }

  /** After a renewal, as long as no renewal stores a sample older than `since` and readiness has not
      been observed, demand is at least one until `since` plus the activation timeout. It does not
      matter whether the request that renewed the lease is still there. */
  lemma {:induction false} LeaseKeepsDemand(states: seq<State>, actions: seq<Action>, i: nat, j: nat, since: int)
    requires Run(states, actions) && i < j <= |actions|
    requires exists now :: RenewsAt(states, actions, i, now)
    requires forall k, now :: i <= k < j && RenewsAt(states, actions, k, now) ==> since <= now
    requires forall k :: i <= k < j ==> !Graduates(states, actions, k)
    ensures states[j].lease.active ==> states[j].lease.deadline >= since + states[j].cfg.timeout
    ensures states[j].clock < since + states[j].cfg.timeout ==> states[j].lease.active && states[j].Demand() >= 1
    decreases j - i
  {
    ConfigConstant(states, actions, j - 1, j);
    if j == i + 1 {
      var now :| RenewsAt(states, actions, i, now);
      RenewalStored(states, actions, i, now);
    } else {
      LeaseKeepsDemand(states, actions, i, j - 1, since);
      LeaseStep(states, actions, j - 1, since);
    }
    LeaseShows(states, actions, j);
  }

  lemma RenewalStored(states: seq<State>, actions: seq<Action>, i: nat, now: int)
    requires Run(states, actions) && i < |actions| && RenewsAt(states, actions, i, now)
    ensures states[i + 1].lease == Renew(states[i].lease, now, states[i].cfg.timeout)
  {
    assert Step(states[i], actions[i]) == Some(states[i + 1]);
  }

  lemma LeaseShows(states: seq<State>, actions: seq<Action>, j: nat)
    requires Run(states, actions) && j < |states|
    ensures Floor(states[j].lease, states[j].clock) ==> states[j].Demand() >= 1
  {
    RunInv(states, actions, j);
    UnitsAreSlots(states[j]);
  }

  // ---- when the stored deadline moves ----

  // Step `m` is the latest renewal before step `k`, and it stores the sample `now`.
  ghost predicate LatestRenewal(states: seq<State>, actions: seq<Action>, m: nat, k: nat, now: int)
    requires Follows(states, actions) && k <= |actions|
  {
    m < k && RenewsAt(states, actions, m, now) && forall j, n :: m < j < k ==> !RenewsAt(states, actions, j, n)
  }

  // Only a renewal moves the deadline, and it moves it to its own sample plus the timeout.
  lemma DeadlineStep(states: seq<State>, actions: seq<Action>, k: nat)
    requires Run(states, actions) && k < |actions|
    ensures (forall now :: !RenewsAt(states, actions, k, now)) ==> states[k + 1].lease.deadline == states[k].lease.deadline
    ensures forall now :: RenewsAt(states, actions, k, now) ==> states[k + 1].lease.deadline == now + states[k].cfg.timeout
  {
    var s, a := states[k], actions[k];
    assert Step(s, a) == Some(states[k + 1]);
    if a.Thread? {
      var pc := s.threads[a.id];
      LeaseEffect(s, a.id, pc, a.choice);
      if pc.Renewing? {
        RenewalStored(states, actions, k, pc.now);
        assert RenewsAt(states, actions, k, pc.now);
      }
    }
  }

  /** The stored deadline is the sample of the latest renewal plus the activation timeout. */
  lemma {:induction false} DeadlineIsLastSample(states: seq<State>, actions: seq<Action>, m: nat, k: nat, now: int)
    requires Run(states, actions) && k <= |actions| && LatestRenewal(states, actions, m, k, now)
    ensures states[k].lease.deadline == now + states[k].cfg.timeout
    decreases k - m
  {
    DeadlineStep(states, actions, k - 1);
    ConfigConstant(states, actions, k - 1, k);
    if m < k - 1 {
      DeadlineIsLastSample(states, actions, m, k - 1, now);
    }
  }

  /** Until readiness is observed, the latest renewal alone decides how long the lease lasts: the floor
      of one holds exactly before its sample plus the activation timeout. */
  lemma LeaseLastsExactly(states: seq<State>, actions: seq<Action>, m: nat, k: nat, now: int)
    requires Run(states, actions) && k <= |actions| && LatestRenewal(states, actions, m, k, now)
    requires forall j :: m <= j < k ==> !Graduates(states, actions, j)
    ensures var s := states[k];
      && (s.lease.active && s.clock < s.lease.deadline <==> s.clock < now + s.cfg.timeout)
      && (s.clock < now + s.cfg.timeout ==> s.Demand() >= 1)
  {
    DeadlineIsLastSample(states, actions, m, k, now);
    LeaseKeepsDemand(states, actions, m, k, now);
  }

  lemma {:induction false} NoDeadlineYet(states: seq<State>, actions: seq<Action>, k: nat)
    requires Run(states, actions) && k <= |actions|
    requires forall j, n :: 0 <= j < k ==> !RenewsAt(states, actions, j, n)
    ensures states[k].lease.deadline == 0
  {
    if k > 0 {
      NoDeadlineYet(states, actions, k - 1);
      DeadlineStep(states, actions, k - 1);
    }
  }

  lemma {:induction false} FindLatest(states: seq<State>, actions: seq<Action>, k: nat) returns (m: nat, now: int)
    requires Run(states, actions) && k <= |actions|
    ensures m < k ==> LatestRenewal(states, actions, m, k, now)
    ensures m >= k ==> forall j, n :: 0 <= j < k ==> !RenewsAt(states, actions, j, n)
  {
    if k == 0 {
      m, now := 0, 0;
    } else {
      var s, a := states[k - 1], actions[k - 1];
      if a.Thread? && a.id < |s.threads| && s.threads[a.id].Renewing? {
        m, now := k - 1, s.threads[a.id].now;
      } else {
        m, now := FindLatest(states, actions, k - 1);
        if m >= k - 1 { m := k; }
      }
    }
  }

  // The clock sample that a goroutine carries.
  function SampleOf(pc: Pc): Option<int> {
    match pc
    case Renewing(now) => Some(now)
    case Checking(_, now) => Some(now)
    case Retiring(now) => Some(now)
    case Graduating(now) => Some(now)
    case SubChecking(_, now) => Some(now)
    case BeatChecking(_, now) => Some(now)
    case _ => None
  }

  lemma SampleEffect(s: State, i: nat, pc: Pc, choice: nat)
    requires EffectOf(s, i, pc, choice).Goes?
    ensures var e := EffectOf(s, i, pc, choice);
      (SampleOf(e.pc).Some? ==> SampleOf(e.pc).value == s.clock) && (e.spawn.Some? ==> SampleOf(e.spawn.value).None?)
  {
  }

  /** Every clock sample that a goroutine carries is what the clock showed at a step of its own. */
  lemma {:induction false} SamplesAreReadings(states: seq<State>, actions: seq<Action>, k: nat, i: nat) returns (j: nat)
    requires Run(states, actions) && k < |states| && i < |states[k].threads| && SampleOf(states[k].threads[i]).Some?
    ensures j < k && actions[j].Thread? && actions[j].id == i && states[j].clock == SampleOf(states[k].threads[i]).value
  {
    var s, a := states[k - 1], actions[k - 1];
    assert Step(s, a) == Some(states[k]);
    if a.Thread? { SampleEffect(s, a.id, s.threads[a.id], a.choice); }
    if a.Thread? && a.id == i {
      j := k - 1;
    } else {
      assert i < |s.threads| && states[k].threads[i] == s.threads[i];
      j := SamplesAreReadings(states, actions, k - 1, i);
    }
  }

  // The clock shows a positive time, and so does every sample waiting to be stored.
  lemma {:induction false} SamplesArePositive(states: seq<State>, actions: seq<Action>, k: nat)
    requires Run(states, actions) && k < |states|
    ensures states[k].clock > 0
    ensures forall i :: 0 <= i < |states[k].threads| && states[k].threads[i].Renewing? ==> states[k].threads[i].now > 0
  {
    if k > 0 {
      SamplesArePositive(states, actions, k - 1);
      ConfigConstant(states, actions, k - 1, k);
      var s, a := states[k - 1], actions[k - 1];
      assert Step(s, a) == Some(states[k]);
      if a.Thread? { SampleEffect(s, a.id, s.threads[a.id], a.choice); }
    }
  }

  /** A step moves the stored deadline backward exactly if it is a renewal whose clock sample is older
      than the one stored by the latest renewal before it. */
  lemma DeadlineMovesBackExactly(states: seq<State>, actions: seq<Action>, k: nat)
    requires Run(states, actions) && k < |actions|
    ensures states[k + 1].lease.deadline < states[k].lease.deadline <==>
            exists m: nat, newer, older :: LatestRenewal(states, actions, m, k, newer) && RenewsAt(states, actions, k, older) && older < newer
  {
    DeadlineStep(states, actions, k);
    var m, newer := FindLatest(states, actions, k);
    if m < k {
      DeadlineIsLastSample(states, actions, m, k, newer);
    } else {
      NoDeadlineYet(states, actions, k);
      SamplesArePositive(states, actions, k);
      RunInv(states, actions, k);
    }
    forall m': nat, n' | LatestRenewal(states, actions, m', k, n') ensures m' == m && n' == newer {
      assert m' < k && RenewsAt(states, actions, m', n');
    }
  }

  /** Once readiness is observed, demand stays at least one for the whole grace. */
  lemma GraceKeepsDemand(states: seq<State>, actions: seq<Action>, i: nat, j: nat, now: int)
    requires Run(states, actions) && i < j <= |actions| && GraduatesAt(states, actions, i, now)
    ensures states[j].clock < now + states[j].cfg.grace ==> states[j].Demand() >= 1
  {
    assert Step(states[i], actions[i]) == Some(states[i + 1]);
    assert states[i + 1].lease.graceUntil == now + states[i].cfg.grace;
    ConfigConstant(states, actions, i, j);
    GraceNeverShrinks(states, actions, i + 1, j);
    LeaseShows(states, actions, j);
  }

  /** Every demand a gateway publishes, seeds or reports fits the queue it was admitted through. */
  lemma ReportsInRange(states: seq<State>, actions: seq<Action>, k: nat)
    requires Run(states, actions) && k < |states|
    ensures InRange(states[k].subs.last, states[k].cfg)
    ensures forall n :: 0 <= n < |states[k].sent| ==> InRange(states[k].sent[n], states[k].cfg)
  {
    RunInv(states, actions, k);
  }

  /** A demand stream agrees with the published demand exactly when it was seeded with it or the
      published demand has changed since it subscribed. */
  lemma StreamAgreement(states: seq<State>, actions: seq<Action>, k: nat, id: nat)
    requires Run(states, actions) && k < |states| && id in states[k].subs.boxes
    ensures var s := states[k];
            var b := s.subs.boxes[id];
            Mailboxes.Latest(b) == s.subs.last <==> b.moved || b.seed == b.base
  {
    RunInv(states, actions, k);
  }

  // ---- progress ----

  /** The only things a goroutine can wait for: the notification mutex, the end of the grace, and mail. */
  predicate Waits(s: State, pc: Pc) {
    match pc
    case Done => true
    case Notify(_) => s.notifier.Some?
    case SubWait(_) => s.notifier.Some?
    case Grace(until) => s.clock < until
    case Streaming(box) => !HasMail(s, box)
    case _ => false
  }

  lemma BlockedExactly(s: State, i: nat, pc: Pc)
    ensures EffectOf(s, i, pc, 0).Blocked? <==> Waits(s, pc)
  {
  }

  /** There is no deadlock: in every reachable state each goroutine can take its next step, or has ended, or
      waits for the clock, for mail, or for a mutex whose holder can take its next step. */
  lemma NoDeadlock(states: seq<State>, actions: seq<Action>, k: nat, i: nat)
    requires Run(states, actions) && k < |states| && i < |states[k].threads|
    ensures var s, pc := states[k], states[k].threads[i];
      || Advance(s, i, 0).Some?
      || pc.Done? || (pc.Grace? && s.clock < pc.until) || (pc.Streaming? && !HasMail(s, pc.box))
      || ((pc.Notify? || pc.SubWait?) && s.notifier.Some? && s.notifier.value < |s.threads| && Advance(s, s.notifier.value, 0).Some?)
  {
    RunInv(states, actions, k);
    var s := states[k];
    BlockedExactly(s, i, s.threads[i]);
    if s.notifier.Some? {
      BlockedExactly(s, s.notifier.value, s.threads[s.notifier.value]);
      assert HoldsMutex(s.threads[s.notifier.value]);
    }
  }

  /** Pending requests are counted one by one; without any there is a floor of one at most. */
  lemma DemandCounts(states: seq<State>, actions: seq<Action>, k: nat)
    requires Run(states, actions) && k < |states|
    ensures var s := states[k];
      && (s.pending > 0 ==> s.Demand() == s.pending == Count(s.threads, HoldsUnit))
      && (s.pending == 0 ==> 0 <= s.Demand() <= 1)
      && s.Demand() >= s.pending >= 0
  {
    AdmissionBound(states, actions, k);
  }
}
