/** What every step of the gateway machine keeps. */
module GatewayInvariant {
  import opened Common
  import opened Activation
  import opened GatewayMachine
  import Mailboxes

  // ---- roles of a goroutine, read off its program counter ----

  predicate WillResume(pc: Pc, after: Resume) {
    IsNotifying(pc) && pc.after == after
  }

  /** The goroutine is a handler whose unit of pending demand is counted. */
  predicate HoldsUnit(pc: Pc) {
    || pc.Probing? || pc.Starting? || pc.Renewing? || pc.Spawning? || pc.Waiting? || pc.Serving? || pc.Leaving?
    || (IsNotifying(pc) && (pc.after.ToProbe? || pc.after.ToSpawn?))
  }

  /** The goroutine is a handler that occupies a place in the admission semaphore. */
  predicate HoldsSlot(pc: Pc) {
    HoldsUnit(pc) || pc.Admitted? || pc.Releasing? || WillResume(pc, ToRelease)
  }

  /** The goroutine is the lease watcher before its retirement, or is about to start it. */
  predicate IsWatcher(pc: Pc) {
    || pc.WatchTop? || pc.WatchTest? || pc.Expiring? || pc.Retiring? || pc.WatchProbe?
    || pc.ReadySeen? || pc.Graduating?
    || pc == Spawning(true) || WillResume(pc, ToSpawn(true))
  }

  /** The goroutine owes a notification and has not read anything for it yet. */
  predicate Owes(pc: Pc) {
    pc.Notify?
  }

  /** The goroutine holds notifyMu. */
  predicate HoldsMutex(pc: Pc) {
    || pc.Reading? || pc.Sampling? || pc.Checking? || pc.Publishing?
    || pc.SubReading? || pc.SubSampling? || pc.SubChecking? || pc.SubSeeding?
  }

  /** The goroutine is, or is about to start, the timer for the grace that ends at `until`. */
  predicate CarriesTimer(pc: Pc, until: int) {
    pc == Arming(until) || pc == Grace(until) || WillResume(pc, ToArm(until))
  }

  ghost function TimerFor(until: int): Pc -> bool {
    pc => CarriesTimer(pc, until)
  }

  // ---- the invariant ----

  ghost predicate Admission(s: State) {
    && s.pending == Count(s.threads, HoldsUnit)
    && s.slots == Count(s.threads, HoldsSlot)
    && s.slots <= s.cfg.maxQueue
  }

  ghost predicate OneWatcher(s: State) {
    && s.lease.active == s.lease.watcher
    && Count(s.threads, IsWatcher) == (if s.lease.watcher then 1 else 0)
  }

  ghost predicate OneNotifier(s: State) {
    && Count(s.threads, HoldsMutex) == (if s.notifier.Some? then 1 else 0)
    && (s.notifier.Some? ==> s.notifier.value < |s.threads| && HoldsMutex(s.threads[s.notifier.value]))
  }

  predicate GraceBounded(s: State) {
    s.lease.graceUntil <= s.clock + s.cfg.grace
  }

  /** A grace that is still running has its timer. */
  ghost predicate GraceTimed(s: State) {
    && GraceBounded(s)
    && (s.clock < s.lease.graceUntil ==> Count(s.threads, TimerFor(s.lease.graceUntil)) > 0)
  }

  predicate InRange(demand: int, cfg: Config) {
    0 <= demand <= cfg.maxQueue
  }

  predicate ThreadOk(s: State, pc: Pc) {
    match pc
    case Renewing(now) => now <= s.clock
    case Checking(_, now) => now <= s.clock
    case Retiring(now) => now <= s.clock
    case Graduating(now) => now <= s.clock && s.lease.graceUntil <= now + s.cfg.grace
    case Publishing(_, demand) => InRange(demand, s.cfg)
    case SubSeeding(_, demand) => InRange(demand, s.cfg)
    case Sending(_, demand, _) => InRange(demand, s.cfg)
    case _ => true
  }

  ghost predicate ThreadsOk(s: State) {
    forall i :: 0 <= i < |s.threads| ==> ThreadOk(s, s.threads[i])
  }

  /** `demand` describes the gateway, or shows the floor of one that only the clock has removed and
      that the watcher or the grace timer will still withdraw. */
  ghost predicate Current(s: State, demand: int) {
    || demand == s.Demand()
    || (&& demand == 1 && s.Demand() == 0
        && (s.lease.active || Count(s.threads, TimerFor(s.lease.graceUntil)) > 0))
  }

  /** Unless some goroutine still owes a notification, what is published, or about to be, is current. */
  ghost predicate Published(s: State) {
    || Count(s.threads, Owes) > 0
    || (s.notifier.None? && Current(s, s.subs.last))
    || (&& s.notifier.Some? && s.notifier.value < |s.threads|
        && match s.threads[s.notifier.value]
           case Reading(_) => true
           case Sampling(_) => s.pending == 0
           case Checking(_, now) =>
             && s.pending == 0
             && (now < s.lease.graceUntil ==> Count(s.threads, TimerFor(s.lease.graceUntil)) > 0)
           case Publishing(_, demand) => Current(s, demand)
           case _ => Current(s, s.subs.last))
  }

  ghost predicate BoxInRange(b: Mailboxes.Box, cfg: Config) {
    forall v :: v in b.Flow() ==> InRange(v, cfg)
  }

  ghost predicate Reported(s: State) {
    && InRange(s.subs.last, s.cfg)
    && Mailboxes.Consistent(s.subs)
    && (forall id :: id in s.subs.boxes ==> BoxInRange(s.subs.boxes[id], s.cfg))
    && (forall k :: 0 <= k < |s.sent| ==> InRange(s.sent[k], s.cfg))
  }

  ghost predicate Inv(s: State) {
    && s.cfg.maxQueue >= 1 && s.cfg.timeout > 0 && s.cfg.grace > 0
    && Admission(s) && OneWatcher(s) && OneNotifier(s) && GraceTimed(s)
    && ThreadsOk(s) && Published(s) && Reported(s)
  }

  // ---- how a step changes the counts ----

  function Bit(b: bool): int { if b then 1 else 0 }

  function SpawnBit(spawn: Option<Pc>, f: Pc -> bool): int {
    if spawn.Some? then Bit(f(spawn.value)) else 0
  }

  lemma Recount(threads: seq<Pc>, i: nat, pc: Pc, spawn: Option<Pc>, f: Pc -> bool)
    requires i < |threads|
    ensures Count(Placed(threads, i, pc, spawn), f)
         == Count(threads, f) - Bit(f(threads[i])) + Bit(f(pc)) + SpawnBit(spawn, f)
  {
    CountUpdate(threads, i, pc, f);
    if spawn.Some? { CountAppend(threads[i := pc], spawn.value, f); }
  }

  // ---- what one step of a goroutine does to its own roles and to the shared state ----

  lemma AdmissionEffect(s: State, i: nat, pc: Pc, choice: nat)
    requires EffectOf(s, i, pc, choice).Goes?
    ensures var e := EffectOf(s, i, pc, choice);
      && e.shared.pending == s.pending - Bit(HoldsUnit(pc)) + Bit(HoldsUnit(e.pc)) + SpawnBit(e.spawn, HoldsUnit)
      && e.shared.slots == s.slots - Bit(HoldsSlot(pc)) + Bit(HoldsSlot(e.pc)) + SpawnBit(e.spawn, HoldsSlot)
      && e.shared.slots <= s.slots
      && e.shared.cfg == s.cfg && e.shared.clock == s.clock
  {
    if IsHandler(pc) {
    } else if IsNotifying(pc) {
    } else if IsWatching(pc) {
    } else if IsSubscribing(pc) {
    }
  }

  lemma WatcherFlags(s: State, i: nat, pc: Pc, choice: nat)
    requires EffectOf(s, i, pc, choice).Goes? && s.lease.active == s.lease.watcher
    ensures var l := EffectOf(s, i, pc, choice).shared.lease; l.active == l.watcher
  {
  }

  // The watcher flag follows the number of watchers.
  ghost predicate WatcherCounted(s: State, pc: Pc, e: Effect)
    requires e.Goes?
  {
    Bit(e.shared.lease.watcher)
      == Bit(s.lease.watcher) - Bit(IsWatcher(pc)) + Bit(IsWatcher(e.pc)) + SpawnBit(e.spawn, IsWatcher)
  }

  lemma HandlerCounted(s: State, i: nat, pc: Pc, choice: nat)
    requires EffectOf(s, i, pc, choice).Goes? && IsHandler(pc) && (IsWatcher(pc) ==> s.lease.watcher)
    ensures WatcherCounted(s, pc, EffectOf(s, i, pc, choice))
  {
  }

  lemma WatchingCounted(s: State, i: nat, pc: Pc, choice: nat)
    requires EffectOf(s, i, pc, choice).Goes? && IsWatching(pc) && (IsWatcher(pc) ==> s.lease.watcher)
    ensures WatcherCounted(s, pc, EffectOf(s, i, pc, choice))
  {
  }

  lemma OthersCounted(s: State, i: nat, pc: Pc, choice: nat)
    requires EffectOf(s, i, pc, choice).Goes? && !IsHandler(pc) && !IsWatching(pc) && (IsWatcher(pc) ==> s.lease.watcher)
    ensures WatcherCounted(s, pc, EffectOf(s, i, pc, choice))
  {
  }

  lemma NotifierEffect(s: State, i: nat, pc: Pc, choice: nat)
    requires EffectOf(s, i, pc, choice).Goes?
    requires HoldsMutex(pc) ==> s.notifier == Some(i)
    ensures var e := EffectOf(s, i, pc, choice);
      && e.shared.notifier == (if HoldsMutex(e.pc) then Some(i) else if HoldsMutex(pc) then None else s.notifier)
      && (HoldsMutex(e.pc) && !HoldsMutex(pc) ==> s.notifier.None?)
      && SpawnBit(e.spawn, HoldsMutex) == 0
  {
  }

  /** A grace only starts in a step that owes a notification and carries the timer. */
  lemma GraceEffect(s: State, i: nat, pc: Pc, choice: nat)
    requires EffectOf(s, i, pc, choice).Goes? && ThreadOk(s, pc)
    ensures var e := EffectOf(s, i, pc, choice);
      var until := s.lease.graceUntil;
      && until <= e.shared.lease.graceUntil
      && (e.shared.lease.graceUntil != until ==>
            && e.shared.lease.graceUntil <= s.clock + s.cfg.grace
            && Owes(e.pc) && CarriesTimer(e.pc, e.shared.lease.graceUntil))
  {
  }

  /** A timer stops only after its grace, and then owes a notification. */
  lemma TimerEffect(s: State, i: nat, pc: Pc, choice: nat, until: int)
    requires EffectOf(s, i, pc, choice).Goes?
    ensures var e := EffectOf(s, i, pc, choice);
      || Bit(CarriesTimer(pc, until)) <= Bit(CarriesTimer(e.pc, until)) + SpawnBit(e.spawn, TimerFor(until))
      || (Owes(e.pc) && until <= s.clock)
  {
    if CarriesTimer(pc, until) {
      assert IsNotifying(pc) || pc.Arming? || pc.Grace?;
    }
  }

  /** Whatever changes the demand owes a notification. */
  lemma SilentEffect(s: State, i: nat, pc: Pc, choice: nat)
    requires EffectOf(s, i, pc, choice).Goes?
    ensures var e := EffectOf(s, i, pc, choice);
      && SpawnBit(e.spawn, Owes) == 0
      && (!Owes(e.pc) ==> e.shared.pending == s.pending && e.shared.lease == s.lease)
      && (e.shared.subs.last != s.subs.last ==> pc.Publishing?)
      && (IsNotifying(e.pc) ==> IsNotifying(pc) || Owes(e.pc))
  {
    if IsHandler(pc) {
    } else if IsNotifying(pc) {
    } else if IsWatching(pc) {
    } else if IsSubscribing(pc) {
    }
  }

  lemma ThreadEffect(s: State, i: nat, pc: Pc, choice: nat)
    requires EffectOf(s, i, pc, choice).Goes? && ThreadOk(s, pc)
    requires 0 <= s.pending <= s.cfg.maxQueue && s.cfg.maxQueue >= 1
    requires GraceBounded(s) && Reported(s)
    ensures var e := EffectOf(s, i, pc, choice);
      && ThreadOk(e.shared, e.pc)
      && (e.spawn.Some? ==> ThreadOk(e.shared, e.spawn.value))
      && e.shared.cfg == s.cfg && e.shared.clock == s.clock
      && (e.shared.lease.graceUntil != s.lease.graceUntil ==> pc.Graduating?)
  {
    if pc.Reporting? && HasMail(s, pc.box) {
      var b := s.subs.boxes[pc.box];
      assert b.Flow()[|b.Flow()| - 1] == b.mail.value;
      assert BoxInRange(b, s.cfg);
    }
  }

  // ---- preservation by goroutine steps, one conjunct at a time ----

  ghost predicate Steps(s: State, i: nat, choice: nat, e: Effect, t: State) {
    && i < |s.threads| && Inv(s)
    && EffectOf(s, i, s.threads[i], choice) == e && e.Goes?
    && t == e.shared.(threads := Placed(s.threads, i, e.pc, e.spawn))
  }

  lemma UnitsAreSlots(s: State)
    requires Admission(s)
    ensures 0 <= s.pending <= s.slots <= s.cfg.maxQueue
  {
    CountMonotone(s.threads, HoldsUnit, HoldsSlot);
  }

  lemma AdmissionKept(s: State, i: nat, choice: nat, e: Effect, t: State)
    requires Steps(s, i, choice, e, t)
    ensures Admission(t)
  {
    AdmissionEffect(s, i, s.threads[i], choice);
    Recount(s.threads, i, e.pc, e.spawn, HoldsUnit);
    Recount(s.threads, i, e.pc, e.spawn, HoldsSlot);
  }

  lemma OneWatcherKept(s: State, i: nat, choice: nat, e: Effect, t: State)
    requires Steps(s, i, choice, e, t)
    ensures OneWatcher(t)
  {
    if IsWatcher(s.threads[i]) { CountWitness(s.threads, i, IsWatcher); }
    WatcherFlags(s, i, s.threads[i], choice);
    if IsHandler(s.threads[i]) {
      HandlerCounted(s, i, s.threads[i], choice);
    } else if IsWatching(s.threads[i]) {
      WatchingCounted(s, i, s.threads[i], choice);
    } else {
      OthersCounted(s, i, s.threads[i], choice);
    }
    Recount(s.threads, i, e.pc, e.spawn, IsWatcher);
  }

  lemma MutexHolder(s: State, i: nat)
    requires OneNotifier(s) && i < |s.threads| && HoldsMutex(s.threads[i])
    ensures s.notifier == Some(i)
  {
    CountWitness(s.threads, i, HoldsMutex);
  }

  lemma OneNotifierKept(s: State, i: nat, choice: nat, e: Effect, t: State)
    requires Steps(s, i, choice, e, t)
    ensures OneNotifier(t)
  {
    if HoldsMutex(s.threads[i]) { MutexHolder(s, i); }
    NotifierEffect(s, i, s.threads[i], choice);
    Recount(s.threads, i, e.pc, e.spawn, HoldsMutex);
  }

  lemma GraceTimedKept(s: State, i: nat, choice: nat, e: Effect, t: State)
    requires Steps(s, i, choice, e, t)
    ensures GraceTimed(t)
  {
    var until := t.lease.graceUntil;
    GraceEffect(s, i, s.threads[i], choice);
    TimerEffect(s, i, s.threads[i], choice, s.lease.graceUntil);
    AdmissionEffect(s, i, s.threads[i], choice);
    Recount(s.threads, i, e.pc, e.spawn, TimerFor(until));
    if TimerFor(until)(s.threads[i]) { CountWitness(s.threads, i, TimerFor(until)); }
  }

  lemma ThreadsOkKept(s: State, i: nat, choice: nat, e: Effect, t: State)
    requires Steps(s, i, choice, e, t)
    ensures ThreadsOk(t)
  {
    UnitsAreSlots(s);
    ThreadEffect(s, i, s.threads[i], choice);
    if s.threads[i].Graduating? { CountWitness(s.threads, i, IsWatcher); }
    forall j | 0 <= j < |t.threads| ensures ThreadOk(t, t.threads[j]) {
      if j < |s.threads| && j != i {
        assert t.threads[j] == s.threads[j] && ThreadOk(s, s.threads[j]);
      }
    }
  }

  lemma CurrentKept(s: State, i: nat, choice: nat, e: Effect, t: State, demand: int)
    requires Steps(s, i, choice, e, t) && !Owes(e.pc) && Current(s, demand)
    ensures Current(t, demand)
  {
    SilentEffect(s, i, s.threads[i], choice);
    GraceEffect(s, i, s.threads[i], choice);
    TimerEffect(s, i, s.threads[i], choice, s.lease.graceUntil);
    AdmissionEffect(s, i, s.threads[i], choice);
    Recount(s.threads, i, e.pc, e.spawn, TimerFor(s.lease.graceUntil));
  }

  /** The publisher reads the pending count, then the clock, then the lease. Unless somebody has
      come to owe a notification meanwhile, the value it ends up with is current. */
  lemma PublisherKept(s: State, i: nat, choice: nat, e: Effect, t: State)
    requires Steps(s, i, choice, e, t)
    requires s.notifier == Some(i) && IsNotifying(s.threads[i]) && Count(s.threads, Owes) == 0
    ensures Published(t)
  {
    var pc := s.threads[i];
    assert ThreadOk(s, pc);
    Recount(s.threads, i, e.pc, e.spawn, TimerFor(s.lease.graceUntil));
    match pc
    case Checking(_, now) => FloorExpires(s.lease, now, s.clock);
    case Publishing(_, demand) => CurrentKept(s, i, choice, e, t, demand);
    case _ =>
  }

  // A step of goroutine `i` that leaves the demand and everything published alone.
  ghost predicate LeavesDemand(s: State, i: nat, t: State) {
    && i < |s.threads| <= |t.threads|
    && t.pending == s.pending && t.lease == s.lease && t.clock == s.clock && t.subs.last == s.subs.last
    && Count(t.threads, TimerFor(s.lease.graceUntil)) >= Count(s.threads, TimerFor(s.lease.graceUntil))
    && (forall j :: 0 <= j < |s.threads| && j != i ==> t.threads[j] == s.threads[j])
  }

  lemma BystanderEffect(s: State, i: nat, e: Effect, t: State)
    requires i < |s.threads| && e.Goes? && t == e.shared.(threads := Placed(s.threads, i, e.pc, e.spawn))
    requires e.shared.pending == s.pending && e.shared.lease == s.lease && e.shared.clock == s.clock
    requires e.shared.subs.last == s.subs.last
    requires Bit(CarriesTimer(s.threads[i], s.lease.graceUntil))
          <= Bit(CarriesTimer(e.pc, s.lease.graceUntil)) + SpawnBit(e.spawn, TimerFor(s.lease.graceUntil))
    ensures LeavesDemand(s, i, t) && t.threads[i] == e.pc
  {
    Recount(s.threads, i, e.pc, e.spawn, TimerFor(s.lease.graceUntil));
  }

  lemma BystanderKept(s: State, i: nat, t: State)
    requires LeavesDemand(s, i, t) && OneNotifier(s) && Published(s) && Count(s.threads, Owes) == 0
    requires !IsNotifying(s.threads[i]) && !IsNotifying(t.threads[i])
    requires HoldsMutex(t.threads[i]) && !HoldsMutex(s.threads[i]) ==> s.notifier.None?
    requires t.notifier == (if HoldsMutex(t.threads[i]) then Some(i) else if HoldsMutex(s.threads[i]) then None else s.notifier)
    ensures Published(t)
  {
    assert forall d :: Current(s, d) ==> Current(t, d);
    if HoldsMutex(s.threads[i]) { MutexHolder(s, i); }
  }

  lemma PublishedKept(s: State, i: nat, choice: nat, e: Effect, t: State)
    requires Steps(s, i, choice, e, t)
    ensures Published(t)
  {
    var pc := s.threads[i];
    Recount(s.threads, i, e.pc, e.spawn, Owes);
    SilentEffect(s, i, pc, choice);
    if Owes(pc) {
      CountWitness(s.threads, i, Owes);
    } else if !Owes(e.pc) && Count(s.threads, Owes) == 0 {
      if HoldsMutex(pc) { MutexHolder(s, i); }
      if IsNotifying(pc) {
        PublisherKept(s, i, choice, e, t);
      } else {
        NotifierEffect(s, i, pc, choice);
        AdmissionEffect(s, i, pc, choice);
        GraceEffect(s, i, pc, choice);
        TimerEffect(s, i, pc, choice, s.lease.graceUntil);
        BystanderEffect(s, i, e, t);
        BystanderKept(s, i, t);
      }
    }
  }

  // What a step does to the subscriptions.
  function MailboxOp(pc: Pc): Mailboxes.Op {
    match pc
    case Publishing(_, d) => Mailboxes.DoPublish(d)
    case SubSeeding(_, d) => Mailboxes.DoSubscribe(d)
    case Streaming(box) => Mailboxes.DoReceive(box)
    case Reporting(box) => Mailboxes.DoReceive(box)
    case Sending(box, _, _) => Mailboxes.DoUnsubscribe(box)
    case _ => Mailboxes.DoReceive(0)
  }

  lemma MailboxEffect(s: State, i: nat, pc: Pc, choice: nat)
    requires EffectOf(s, i, pc, choice).Goes?
    ensures var e := EffectOf(s, i, pc, choice);
      && e.shared.subs in {s.subs, Mailboxes.Apply(s.subs, MailboxOp(pc))}
      && (e.shared.sent == s.sent || (pc.Sending? && e.shared.sent == s.sent + [pc.demand]))
      && e.shared.cfg == s.cfg
  {
    if IsHandler(pc) {
    } else if IsNotifying(pc) {
    } else if IsWatching(pc) {
    } else if IsSubscribing(pc) {
    }
  }

  lemma ReportedKept(s: State, i: nat, choice: nat, e: Effect, t: State)
    requires Steps(s, i, choice, e, t)
    ensures Reported(t)
  {
    assert ThreadOk(s, s.threads[i]);
    MailboxEffect(s, i, s.threads[i], choice);
    BoxesKept(s, MailboxOp(s.threads[i]));
  }

  lemma BoxesKept(s: State, op: Mailboxes.Op)
    requires Reported(s)
    requires op.DoPublish? ==> InRange(op.demand, s.cfg)
    requires op.DoSubscribe? ==> InRange(op.current, s.cfg)
    ensures var subs := Mailboxes.Apply(s.subs, op);
      && Mailboxes.Consistent(subs) && InRange(subs.last, s.cfg)
      && forall id :: id in subs.boxes ==> BoxInRange(subs.boxes[id], s.cfg)
  {
    Mailboxes.StepConsistent(s.subs, op);
    var subs := Mailboxes.Apply(s.subs, op);
    forall id | id in subs.boxes ensures BoxInRange(subs.boxes[id], s.cfg) {
      if id in s.subs.boxes {
        var b := s.subs.boxes[id];
        assert BoxInRange(b, s.cfg);
        assert b.Receive().Flow() == b.Flow();
        assert forall v :: v in b.got ==> v in b.Flow();
      }
    }
  }

  lemma ThreadInv(s: State, i: nat, choice: nat, t: State)
    requires Inv(s) && i < |s.threads| && Advance(s, i, choice) == Some(t)
    ensures Inv(t)
  {
    var e := EffectOf(s, i, s.threads[i], choice);
    AdmissionEffect(s, i, s.threads[i], choice);
    AdmissionKept(s, i, choice, e, t);
    OneWatcherKept(s, i, choice, e, t);
    OneNotifierKept(s, i, choice, e, t);
    GraceTimedKept(s, i, choice, e, t);
    ThreadsOkKept(s, i, choice, e, t);
    PublishedKept(s, i, choice, e, t);
    ReportedKept(s, i, choice, e, t);
  }

  // ---- preservation by the other actions, and runs ----

  lemma TickInv(s: State, elapsed: nat, t: State)
    requires Inv(s) && t == s.(clock := s.clock + elapsed)
    ensures Inv(t)
  {
    FloorExpires(s.lease, s.clock, t.clock);
    forall i | 0 <= i < |t.threads| ensures ThreadOk(t, t.threads[i]) {
      assert ThreadOk(s, s.threads[i]);
    }
    assert forall d :: Current(s, d) ==> Current(t, d);
  }

  /** A new goroutine that owns nothing but, for a request, the place just taken. */
  lemma SpawnInv(s: State, pc: Pc, t: State)
    requires Inv(s) && t.threads == s.threads + [pc]
    requires || (pc == Admitted && t == s.(slots := s.slots + 1, threads := t.threads) && t.slots <= s.cfg.maxQueue)
             || (pc.SubWait? && (t == s.(threads := t.threads) || t == s.(reporting := true, threads := t.threads)))
    ensures Inv(t)
  {
    assert Admission(t) && OneWatcher(t) && OneNotifier(t) by {
      CountAppend(s.threads, pc, HoldsUnit);
      CountAppend(s.threads, pc, HoldsSlot);
      CountAppend(s.threads, pc, IsWatcher);
      CountAppend(s.threads, pc, HoldsMutex);
    }
    CountAppend(s.threads, pc, TimerFor(s.lease.graceUntil));
    assert ThreadsOk(t) by {
      forall i | 0 <= i < |t.threads| ensures ThreadOk(t, t.threads[i]) {
        if i < |s.threads| { assert ThreadOk(s, s.threads[i]); }
      }
    }
    SpawnPublished(s, pc, t);
  }

  lemma SpawnPublished(s: State, pc: Pc, t: State)
    requires Published(s) && OneNotifier(s) && t.threads == s.threads + [pc] && !Owes(pc) && !HoldsMutex(pc)
    requires t.pending == s.pending && t.lease == s.lease && t.clock == s.clock && t.subs == s.subs
    requires t.notifier == s.notifier
    requires Count(t.threads, TimerFor(s.lease.graceUntil)) >= Count(s.threads, TimerFor(s.lease.graceUntil))
    ensures Published(t)
  {
    CountAppend(s.threads, pc, Owes);
    assert forall d :: Current(s, d) ==> Current(t, d);
  }

  lemma StepInv(s: State, a: Action, t: State)
    requires Inv(s) && Step(s, a) == Some(t)
    ensures Inv(t)
  {
    match a
    case Tick(elapsed) => TickInv(s, elapsed, t);
    case Arrive => SpawnInv(s, Admitted, t);
    case OpenStream => SpawnInv(s, SubWait(false), t);
    case StartReporter => SpawnInv(s, SubWait(true), t);
    case Thread(id, choice) => ThreadInv(s, id, choice, t);
  }

  lemma InitialInv(s: State)
    requires Initial(s)
    ensures Inv(s)
  {
  }

  lemma {:induction false} RunInv(states: seq<State>, actions: seq<Action>, k: nat)
    requires Run(states, actions) && k < |states|
    ensures Inv(states[k])
  {
    if k == 0 {
      InitialInv(states[0]);
    } else {
      RunInv(states, actions, k - 1);
      assert Step(states[k - 1], actions[k - 1]) == Some(states[k]);
      StepInv(states[k - 1], actions[k - 1], states[k]);
    }
  }
}
