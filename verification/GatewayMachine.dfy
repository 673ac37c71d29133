/** One gateway process as a machine of interleaved goroutines: request handlers, the lease watcher,
    grace timers, demand streams and the demand reporter. Every step is one section that holds a
    mutex, one atomic operation, one clock reading or one channel operation. */
module GatewayMachine {
  import opened Common
  import opened Activation
  import Mailboxes

  datatype Config = Config(maxQueue: int, timeout: int, grace: int)

  // What a goroutine does after notifyDemandChange returns.
  datatype Resume = ToProbe | ToSpawn(start: bool) | ToRelease | ToArm(until: int) | ToEnd

  datatype Pc =
    // request handler
    | Admitted | Probing | Starting | Renewing(now: int) | Spawning(start: bool)
    | Waiting | Serving | Leaving | Releasing
    // notifyDemandChange: waiting for the mutex, then the three reads of Demand, then Publish
    | Notify(after: Resume) | Reading(after: Resume) | Sampling(after: Resume)
    | Checking(after: Resume, now: int) | Publishing(after: Resume, demand: int)
    // lease watcher
    | WatchTop | WatchTest(deadline: int) | Expiring | Retiring(now: int)
    | WatchProbe | ReadySeen | Graduating(now: int)
    // grace timer: about to be started, then running
    | Arming(until: int) | Grace(until: int)
    // SubscribeDemand, on behalf of the reporter or of a demand stream
    | SubWait(reporter: bool) | SubReading(reporter: bool) | SubSampling(reporter: bool)
    | SubChecking(reporter: bool, now: int) | SubSeeding(reporter: bool, demand: int)
    // demand stream, and the loop of the demand reporter
    | Streaming(box: nat)
    | Reporting(box: nat) | Beating(box: nat) | BeatSampling(box: nat) | BeatChecking(box: nat, now: int)
    | Sending(box: nat, demand: int, final: bool)
    | Done

  datatype State = State(
    cfg: Config,
    clock: int,
    slots: int,              // occupied places of the admission semaphore
    pending: int,
    lease: Lease,
    notifier: Option<nat>,   // the goroutine holding notifyMu
    subs: Mailboxes.Subs,
    reporting: bool,
    sent: seq<int>,          // demands reported so far; report k carries sequence number k + 1
    threads: seq<Pc>)
  {
    function Demand(): int {
      DemandAt(pending, lease, clock)
    }
  }

  function FloorValue(l: Lease, now: int): int {
    if Floor(l, now) then 1 else 0
  }

  function Resumed(after: Resume): Pc {
    match after
    case ToProbe => Probing
    case ToSpawn(start) => Spawning(start)
    case ToRelease => Releasing
    case ToArm(until) => Arming(until)
    case ToEnd => Done
  }

  predicate Initial(s: State) {
    && s.cfg.maxQueue >= 1 && s.cfg.timeout > 0 && s.cfg.grace > 0
    && s.clock > 0
    && s.slots == 0 && s.pending == 0 && s.lease == NoLease && s.notifier == None
    && s.subs == Mailboxes.NoSubscriptions && !s.reporting && s.sent == [] && s.threads == []
  }

  // The effect of one step: the shared state after it, where the goroutine goes, and the goroutine
  // it starts. Blocked means that the step is not enabled.
  datatype Effect = Blocked | Goes(shared: State, pc: Pc, spawn: Option<Pc>)

  function Quiet(s: State, pc: Pc): Effect {
    Goes(s, pc, None)
  }

  // In each of the following, `choice` resolves what the code leaves open: the outcome of a
  // readiness probe, and which ready case a select takes.

  function HandlerStep(s: State, pc: Pc, choice: nat): Effect {
    match pc
    case Admitted => Quiet(s.(pending := s.pending + 1), Notify(ToProbe))
    case Probing => Quiet(s, if choice == 0 then Serving else Starting)
    case Starting => Quiet(s, Renewing(s.clock))
    case Renewing(now) =>
      Quiet(s.(lease := Renew(s.lease, now, s.cfg.timeout)), Notify(ToSpawn(!s.lease.watcher)))
    case Spawning(start) => Goes(s, Waiting, if start then Some(WatchTop) else None)
    case Waiting => Quiet(s, if choice == 0 then Serving else Leaving)
    case Serving => Quiet(s, Leaving)
    case Leaving => Quiet(s.(pending := s.pending - 1), Notify(ToRelease))
    case Releasing => Quiet(s.(slots := s.slots - 1), Done)
    case _ => Blocked
  }

  function NotifyStep(s: State, i: nat, pc: Pc): Effect {
    match pc
    case Notify(after) =>
      if s.notifier.None? then Quiet(s.(notifier := Some(i)), Reading(after)) else Blocked
    case Reading(after) => Quiet(s, if s.pending > 0 then Publishing(after, s.pending) else Sampling(after))
    case Sampling(after) => Quiet(s, Checking(after, s.clock))
    case Checking(after, now) => Quiet(s, Publishing(after, FloorValue(s.lease, now)))
    case Publishing(after, demand) =>
      Quiet(s.(subs := Mailboxes.Publish(s.subs, demand), notifier := None), Resumed(after))
    case _ => Blocked
  }

  function WatcherStep(s: State, pc: Pc, choice: nat): Effect {
    match pc
    case WatchTop => Quiet(s, WatchTest(s.lease.deadline))
    case WatchTest(deadline) => Quiet(s, if deadline <= s.clock then Expiring else WatchProbe)
    case Expiring => Quiet(s, Retiring(s.clock))
    case Retiring(now) =>
      if Retires(s.lease, false, now)
      then Quiet(s.(lease := Retire(s.lease, false, now, s.cfg.grace)), Notify(ToEnd))
      else Quiet(s, WatchProbe)
    case WatchProbe => Quiet(s, if choice == 0 then ReadySeen else WatchTop)
    case ReadySeen => Quiet(s, Graduating(s.clock))
    case Graduating(now) =>
      var l := Retire(s.lease, true, now, s.cfg.grace);
      Quiet(s.(lease := l), Notify(ToArm(l.graceUntil)))
    case Arming(until) => Goes(s, Done, Some(Grace(until)))
    case Grace(until) => if until <= s.clock then Quiet(s, Notify(ToEnd)) else Blocked
    case _ => Blocked
  }

  function SubscribeStep(s: State, i: nat, pc: Pc): Effect {
    match pc
    case SubWait(r) => if s.notifier.None? then Quiet(s.(notifier := Some(i)), SubReading(r)) else Blocked
    case SubReading(r) => Quiet(s, if s.pending > 0 then SubSeeding(r, s.pending) else SubSampling(r))
    case SubSampling(r) => Quiet(s, SubChecking(r, s.clock))
    case SubChecking(r, now) => Quiet(s, SubSeeding(r, FloorValue(s.lease, now)))
    case SubSeeding(r, demand) =>
      Quiet(s.(subs := Mailboxes.Subscribe(s.subs, demand), notifier := None),
            if r then Reporting(s.subs.next) else Streaming(s.subs.next))
    case _ => Blocked
  }

  predicate HasMail(s: State, box: nat) {
    box in s.subs.boxes && s.subs.boxes[box].mail.Some?
  }

  function ReceiverStep(s: State, pc: Pc, choice: nat): Effect {
    match pc
    case Streaming(box) =>
      if HasMail(s, box) then Quiet(s.(subs := Mailboxes.Receive(s.subs, box)), pc) else Blocked
    case Reporting(box) =>
      if choice == 0 then Quiet(s, Beating(box))
      else if choice == 1 then Quiet(s, Sending(box, 0, true))
      else if HasMail(s, box) then
        Quiet(s.(subs := Mailboxes.Receive(s.subs, box)), Sending(box, s.subs.boxes[box].mail.value, false))
      else Blocked
    case Beating(box) =>
      Quiet(s, if s.pending > 0 then Sending(box, s.pending, false) else BeatSampling(box))
    case BeatSampling(box) => Quiet(s, BeatChecking(box, s.clock))
    case BeatChecking(box, now) => Quiet(s, Sending(box, FloorValue(s.lease, now), false))
    case Sending(box, demand, final) =>
      var u := s.(sent := s.sent + [demand]);
      if final then Quiet(u.(subs := Mailboxes.Unsubscribe(s.subs, box)), Done)
      else Quiet(u, Reporting(box))
    case _ => Blocked
  }

  predicate IsHandler(pc: Pc) {
    || pc.Admitted? || pc.Probing? || pc.Starting? || pc.Renewing? || pc.Spawning?
    || pc.Waiting? || pc.Serving? || pc.Leaving? || pc.Releasing?
  }

  predicate IsNotifying(pc: Pc) {
    pc.Notify? || pc.Reading? || pc.Sampling? || pc.Checking? || pc.Publishing?
  }

  predicate IsWatching(pc: Pc) {
    || pc.WatchTop? || pc.WatchTest? || pc.Expiring? || pc.Retiring? || pc.WatchProbe?
    || pc.ReadySeen? || pc.Graduating? || pc.Arming? || pc.Grace?
  }

  predicate IsSubscribing(pc: Pc) {
    pc.SubWait? || pc.SubReading? || pc.SubSampling? || pc.SubChecking? || pc.SubSeeding?
  }

  function EffectOf(s: State, i: nat, pc: Pc, choice: nat): Effect {
    if IsHandler(pc) then HandlerStep(s, pc, choice)
    else if IsNotifying(pc) then NotifyStep(s, i, pc)
    else if IsWatching(pc) then WatcherStep(s, pc, choice)
    else if IsSubscribing(pc) then SubscribeStep(s, i, pc)
    else ReceiverStep(s, pc, choice)
  }

  function Placed(threads: seq<Pc>, i: nat, pc: Pc, spawn: Option<Pc>): seq<Pc>
    requires i < |threads|
  {
    if spawn.Some? then threads[i := pc] + [spawn.value] else threads[i := pc]
  }

  /** The next step of goroutine `i`; None if it is blocked. */
  function Advance(s: State, i: nat, choice: nat): Option<State>
    requires i < |s.threads|
  {
    match EffectOf(s, i, s.threads[i], choice)
    case Blocked => None
    case Goes(u, pc, spawn) => Some(u.(threads := Placed(s.threads, i, pc, spawn)))
  }

  datatype Action =
    | Tick(elapsed: nat)
    | Arrive                  // a request finds a free place in the semaphore
    | OpenStream
    | StartReporter
    | Thread(id: nat, choice: nat)

  function Step(s: State, a: Action): Option<State> {
    match a
    case Tick(elapsed) => Some(s.(clock := s.clock + elapsed))
    case Arrive => if s.slots < s.cfg.maxQueue then Some(s.(slots := s.slots + 1, threads := s.threads + [Admitted])) else None
    case OpenStream => Some(s.(threads := s.threads + [SubWait(false)]))
    case StartReporter => if s.reporting then None else Some(s.(reporting := true, threads := s.threads + [SubWait(true)]))
    case Thread(id, choice) => if id < |s.threads| then Advance(s, id, choice) else None
  }

  /** `states` is the run that `actions` produces from its first state. */
  predicate Follows(states: seq<State>, actions: seq<Action>) {
    && |states| == |actions| + 1
    && forall k {:trigger actions[k]} :: 0 <= k < |actions| ==> Step(states[k], actions[k]) == Some(states[k + 1])
  }

  predicate Run(states: seq<State>, actions: seq<Action>) {
    Follows(states, actions) && Initial(states[0])
  }
}
