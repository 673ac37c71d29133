/** What the demand reporter has told the aggregator, compared with what the gateway shows. */
module GatewayReports {
  import opened Common
  import opened Activation
  import opened GatewayMachine
  import opened GatewayInvariant
  import opened GatewayTheorems
  import Mailboxes

  // ---- who reports, and who reads which mailbox ----

  predicate IsReporter(pc: Pc) {
    || pc == SubWait(true) || pc == SubReading(true) || pc == SubSampling(true)
    || (pc.SubChecking? && pc.reporter) || (pc.SubSeeding? && pc.reporter)
    || pc.Reporting? || pc.Beating? || pc.BeatSampling? || pc.BeatChecking? || pc.Sending?
  }

  function BoxOf(pc: Pc): Option<nat> {
    match pc
    case Streaming(box) => Some(box)
    case Reporting(box) => Some(box)
    case Beating(box) => Some(box)
    case BeatSampling(box) => Some(box)
    case BeatChecking(box, _) => Some(box)
    case Sending(box, _, _) => Some(box)
    case _ => None
  }

  predicate OneReporter(s: State) {
    && (!s.reporting ==> s.sent == [] && forall i :: 0 <= i < |s.threads| ==> !IsReporter(s.threads[i]))
    && (forall i, j :: 0 <= i < j < |s.threads| ==> !(IsReporter(s.threads[i]) && IsReporter(s.threads[j])))
  }

  /** Every mailbox that is read exists and has one reader. */
  predicate OwnBoxes(s: State) {
    && (forall i :: 0 <= i < |s.threads| && BoxOf(s.threads[i]).Some? ==> BoxOf(s.threads[i]).value in s.subs.boxes)
    && (forall i, j :: 0 <= i < j < |s.threads| && BoxOf(s.threads[i]).Some? ==> BoxOf(s.threads[i]) != BoxOf(s.threads[j]))
  }

  lemma RoleEffect(s: State, i: nat, pc: Pc, choice: nat)
    requires EffectOf(s, i, pc, choice).Goes?
    ensures var e := EffectOf(s, i, pc, choice);
      && e.shared.reporting == s.reporting
      && (IsReporter(e.pc) ==> IsReporter(pc))
  {
  }

  lemma SpawnEffect(s: State, i: nat, pc: Pc, choice: nat)
    requires EffectOf(s, i, pc, choice).Goes?
    ensures var e := EffectOf(s, i, pc, choice);
      e.spawn.Some? ==> e.spawn.value.WatchTop? || e.spawn.value.Grace?
  {
  }

  lemma SendEffect(s: State, i: nat, pc: Pc, choice: nat)
    requires EffectOf(s, i, pc, choice).Goes? && !pc.Sending?
    ensures EffectOf(s, i, pc, choice).shared.sent == s.sent
  {
  }

  // A step keeps its mailbox, takes a new one, or gives it up.
  predicate BoxChange(s: State, pc: Pc, subs: Mailboxes.Subs, pc': Pc) {
    || (BoxOf(pc') == BoxOf(pc) && subs.boxes.Keys >= s.subs.boxes.Keys)
    || (BoxOf(pc') == Some(s.subs.next) && subs.boxes.Keys == s.subs.boxes.Keys + {s.subs.next})
    || (BoxOf(pc).Some? && BoxOf(pc').None? && subs.boxes.Keys == s.subs.boxes.Keys - {BoxOf(pc).value})
  }

  lemma BoxlessChange(s: State, i: nat, pc: Pc, choice: nat)
    requires EffectOf(s, i, pc, choice).Goes? && (IsHandler(pc) || IsNotifying(pc) || IsWatching(pc))
    ensures var e := EffectOf(s, i, pc, choice);
      BoxOf(pc).None? && BoxOf(e.pc).None? && e.shared.subs.boxes.Keys == s.subs.boxes.Keys
  {
  }

  lemma BoxRoleEffect(s: State, i: nat, pc: Pc, choice: nat)
    requires EffectOf(s, i, pc, choice).Goes?
    ensures var e := EffectOf(s, i, pc, choice); BoxChange(s, pc, e.shared.subs, e.pc)
  {
    if IsHandler(pc) || IsNotifying(pc) || IsWatching(pc) {
      BoxlessChange(s, i, pc, choice);
    }
  }

  // What a step does to a mailbox that belongs to somebody else.
  lemma BoxEffect(s: State, i: nat, pc: Pc, choice: nat, box: nat)
    requires EffectOf(s, i, pc, choice).Goes? && box in s.subs.boxes && box < s.subs.next && BoxOf(pc) != Some(box)
    ensures var subs := EffectOf(s, i, pc, choice).shared.subs;
      && box in subs.boxes
      && (subs.last == s.subs.last ==> subs.boxes[box] == s.subs.boxes[box])
      && (subs.last != s.subs.last ==> subs.boxes[box] == s.subs.boxes[box].Deliver(subs.last))
  {
    if IsHandler(pc) {
    } else if IsNotifying(pc) {
    } else if IsWatching(pc) {
    } else if IsSubscribing(pc) {
    }
  }

  lemma OneReporterKept(s: State, i: nat, choice: nat, t: State)
    requires OneReporter(s) && i < |s.threads| && Advance(s, i, choice) == Some(t)
    ensures OneReporter(t)
  {
    RoleEffect(s, i, s.threads[i], choice);
    SpawnEffect(s, i, s.threads[i], choice);
    if !s.reporting { SendEffect(s, i, s.threads[i], choice); }
  }

  lemma OwnBoxesKept(s: State, i: nat, e: Effect, t: State)
    requires OwnBoxes(s) && i < |s.threads| && (forall b :: b in s.subs.boxes ==> b < s.subs.next)
    requires e.Goes? && t.subs == e.shared.subs && t.threads == Placed(s.threads, i, e.pc, e.spawn)
    requires e.spawn.Some? ==> BoxOf(e.spawn.value).None?
    requires BoxChange(s, s.threads[i], e.shared.subs, e.pc)
    ensures OwnBoxes(t)
  {
  }

  ghost predicate Roles(s: State) {
    OneReporter(s) && OwnBoxes(s)
  }

  lemma ThreadRoles(s: State, i: nat, choice: nat, t: State)
    requires Roles(s) && Mailboxes.Consistent(s.subs) && i < |s.threads| && Advance(s, i, choice) == Some(t)
    ensures Roles(t)
  {
    var pc := s.threads[i];
    OneReporterKept(s, i, choice, t);
    SpawnEffect(s, i, pc, choice);
    BoxRoleEffect(s, i, pc, choice);
    OwnBoxesKept(s, i, EffectOf(s, i, pc, choice), t);
  }

  // A new goroutine reads no mailbox, and it is the reporter only if there has been none.
  lemma AddedRoles(s: State, pc: Pc, t: State)
    requires Roles(s) && t.subs == s.subs && t.sent == s.sent && t.threads == s.threads + [pc] && BoxOf(pc).None?
    requires if IsReporter(pc) then !s.reporting && t.reporting else t.reporting == s.reporting
    ensures Roles(t)
  {
  }

  lemma RolesStep(s: State, a: Action, t: State)
    requires Roles(s) && Mailboxes.Consistent(s.subs) && Step(s, a) == Some(t)
    ensures Roles(t)
  {
    match a
    case Tick(_) =>
    case Arrive => AddedRoles(s, Admitted, t);
    case OpenStream => AddedRoles(s, SubWait(false), t);
    case StartReporter => AddedRoles(s, SubWait(true), t);
    case Thread(id, choice) => ThreadRoles(s, id, choice, t);
  }

  lemma {:induction false} RunRoles(states: seq<State>, actions: seq<Action>, k: nat)
    requires Run(states, actions) && k < |states|
    ensures Inv(states[k]) && Roles(states[k])
  {
    RunInv(states, actions, k);
    if k > 0 {
      RunRoles(states, actions, k - 1);
      assert Step(states[k - 1], actions[k - 1]) == Some(states[k]);
      RolesStep(states[k - 1], actions[k - 1], states[k]);
    }
  }

  // ---- what woke the reporter last ----

  /** The last thing that woke the reporter: nothing yet, a value in its mailbox, the heartbeat, or the
      request to stop. A heartbeat remembers what was published when it went off, and what it read. */
  datatype Wake = Unwoken | ByMail | ByBeat(published: int, read: Option<int>) | Stopping
  {
    function Reads(demand: int): Wake {
      if ByBeat? then this.(read := Some(demand)) else this
    }
  }

  function Woken(wake: Wake, s: State, a: Action, i: nat): Wake {
    if !a.Thread? || a.id != i || i >= |s.threads| then wake
    else
      match s.threads[i]
      case Reporting(_) => if a.choice == 0 then ByBeat(s.subs.last, None) else if a.choice == 1 then Stopping else ByMail
      case Beating(_) => if s.pending > 0 then wake.Reads(s.pending) else wake
      case BeatChecking(_, now) => wake.Reads(FloorValue(s.lease, now))
      case _ => wake
  }

  /** What woke goroutine `i` last before state `k` of a run. */
  function LastWake(states: seq<State>, actions: seq<Action>, i: nat, k: nat): Wake
    requires k < |states| && |states| == |actions| + 1
  {
    if k == 0 then Unwoken else Woken(LastWake(states, actions, i, k - 1), states[k - 1], actions[k - 1], i)
  }

  // Nothing new has been published since the heartbeat went off, or it waits in the mailbox.
  predicate Unmoved(s: State, b: Mailboxes.Box, published: int) {
    b.mail.Some? || s.subs.last == published
  }

  // The reporter, about to send `demand` or having sent it last, got it from what woke it.
  predicate Comes(s: State, b: Mailboxes.Box, wake: Wake, demand: int) {
    match wake
    case ByMail => b.got != [] && demand == b.got[|b.got| - 1]
    case ByBeat(published, read) => read == Some(demand) && Unmoved(s, b, published)
    case _ => false
  }

  predicate View(s: State, wake: Wake, pc: Pc) {
    match pc
    case Reporting(box) =>
      box in s.subs.boxes &&
      (if wake == Unwoken then s.sent == [] && s.subs.boxes[box].got == []
       else s.sent != [] && Comes(s, s.subs.boxes[box], wake, s.sent[|s.sent| - 1]))
    case Sending(box, demand, final) => box in s.subs.boxes && (!final ==> Comes(s, s.subs.boxes[box], wake, demand))
    case _ =>
      if IsReporter(pc) && BoxOf(pc).Some? then
        BoxOf(pc).value in s.subs.boxes && wake.ByBeat? && Unmoved(s, s.subs.boxes[BoxOf(pc).value], wake.published)
      else IsReporter(pc) ==> s.sent == [] && wake == Unwoken
  }

  // The view of goroutine `i`, which may not exist yet.
  predicate ViewOf(s: State, wake: Wake, i: nat) {
    if i < |s.threads| then View(s, wake, s.threads[i]) else wake == Unwoken
  }

  // The reporter's own step.
  lemma OwnStep(s: State, i: nat, pc: Pc, choice: nat, wake: Wake)
    requires View(s, wake, pc) && IsReporter(pc) && !IsSubscribing(pc) && ReceiverStep(s, pc, choice).Goes?
    requires i < |s.threads| && s.threads[i] == pc
    ensures var e := ReceiverStep(s, pc, choice);
      View(e.shared, Woken(wake, s, Thread(i, choice), i), e.pc)
  {
  }

  lemma OwnSubscription(s: State, i: nat, pc: Pc, choice: nat, wake: Wake)
    requires View(s, wake, pc) && IsReporter(pc) && IsSubscribing(pc) && SubscribeStep(s, i, pc).Goes?
    requires i < |s.threads| && s.threads[i] == pc
    ensures var e := SubscribeStep(s, i, pc);
      View(e.shared, Woken(wake, s, Thread(i, choice), i), e.pc)
  {
  }

  // A step of somebody else.
  lemma OtherStep(s: State, t: State, wake: Wake, pc: Pc)
    requires View(s, wake, pc) && IsReporter(pc) && t.sent == s.sent
    requires BoxOf(pc).Some? ==>
      var box := BoxOf(pc).value;
      && box in s.subs.boxes && box in t.subs.boxes
      && (t.subs.last == s.subs.last ==> t.subs.boxes[box] == s.subs.boxes[box])
      && (t.subs.last != s.subs.last ==> t.subs.boxes[box] == s.subs.boxes[box].Deliver(t.subs.last))
    ensures View(t, wake, pc)
  {
  }

  lemma ReporterView(s: State, i: nat, choice: nat, t: State, wake: Wake)
    requires i < |s.threads| && Advance(s, i, choice) == Some(t) && View(s, wake, s.threads[i]) && IsReporter(s.threads[i])
    ensures View(t, Woken(wake, s, Thread(i, choice), i), t.threads[i])
  {
    var pc := s.threads[i];
    var e := EffectOf(s, i, pc, choice);
    if IsSubscribing(pc) {
      OwnSubscription(s, i, pc, choice, wake);
    } else {
      OwnStep(s, i, pc, choice, wake);
    }
    assert t.threads[i] == e.pc;
  }

  lemma BystanderView(s: State, i: nat, choice: nat, t: State, wake: Wake, r: nat)
    requires Roles(s) && Mailboxes.Consistent(s.subs) && i < |s.threads| && Advance(s, i, choice) == Some(t)
    requires r < |s.threads| && r != i && IsReporter(s.threads[r]) && View(s, wake, s.threads[r])
    ensures View(t, wake, s.threads[r])
  {
    var pc := s.threads[r];
    assert !IsReporter(s.threads[i]);
    SendEffect(s, i, s.threads[i], choice);
    if BoxOf(pc).Some? { BoxEffect(s, i, s.threads[i], choice, BoxOf(pc).value); }
    OtherStep(s, t, wake, pc);
  }

  lemma ThreadView(s: State, i: nat, choice: nat, t: State, wake: Wake, r: nat)
    requires Roles(s) && Mailboxes.Consistent(s.subs) && i < |s.threads| && Advance(s, i, choice) == Some(t)
    requires r < |s.threads| && View(s, wake, s.threads[r])
    ensures View(t, Woken(wake, s, Thread(i, choice), r), t.threads[r])
  {
    if !IsReporter(s.threads[r]) {
      RoleEffect(s, i, s.threads[i], choice);
    } else if i == r {
      ReporterView(s, i, choice, t, wake);
    } else {
      BystanderView(s, i, choice, t, wake, r);
    }
  }

  // Goroutines are only added, and a reporter is added only while there is none.
  lemma AddedView(s: State, t: State, wake: Wake, r: nat)
    requires Roles(s) && ViewOf(s, wake, r) && t.subs == s.subs && t.sent == s.sent && s.threads <= t.threads
    requires |t.threads| <= |s.threads| + 1
    requires |t.threads| == |s.threads| + 1 && IsReporter(t.threads[|s.threads|]) ==> t.threads[|s.threads|] == SubWait(true) && !s.reporting
    ensures ViewOf(t, wake, r)
  {
    if r < |s.threads| && IsReporter(s.threads[r]) {
      OtherStep(s, t, wake, s.threads[r]);
    }
  }

  lemma SpawnedView(s: State, i: nat, choice: nat, t: State, r: nat)
    requires i < |s.threads| <= r && Advance(s, i, choice) == Some(t)
    ensures ViewOf(t, Unwoken, r)
  {
    SpawnEffect(s, i, s.threads[i], choice);
  }

  lemma ViewStep(s: State, a: Action, t: State, wake: Wake, r: nat)
    requires Roles(s) && Mailboxes.Consistent(s.subs) && Step(s, a) == Some(t) && ViewOf(s, wake, r)
    ensures ViewOf(t, Woken(wake, s, a, r), r)
  {
    if !a.Thread? {
      AddedView(s, t, wake, r);
    } else if r < |s.threads| {
      ThreadView(s, a.id, a.choice, t, wake, r);
      assert r < |t.threads|;
    } else {
      SpawnedView(s, a.id, a.choice, t, r);
    }
  }

  lemma {:induction false} RunView(states: seq<State>, actions: seq<Action>, k: nat, r: nat)
    requires Run(states, actions) && k < |states|
    ensures ViewOf(states[k], LastWake(states, actions, r, k), r)
  {
    if k > 0 {
      RunView(states, actions, k - 1, r);
      RunRoles(states, actions, k - 1);
      assert Step(states[k - 1], actions[k - 1]) == Some(states[k]);
      ViewStep(states[k - 1], actions[k - 1], states[k], LastWake(states, actions, r, k - 1), r);
    }
  }

  // ---- what the last report says ----

  // Goroutine `r` is the reporter, in its select, with nothing in its mailbox.
  predicate IdleReporter(s: State, r: nat) {
    && r < |s.threads| && s.threads[r].Reporting?
    && s.threads[r].box in s.subs.boxes && s.subs.boxes[s.threads[r].box].mail.None?
  }

  lemma BoxesConsistent(states: seq<State>, actions: seq<Action>, k: nat, box: nat)
    requires Run(states, actions) && k < |states| && box in states[k].subs.boxes
    ensures Mailboxes.BoxConsistent(states[k].subs.boxes[box], states[k].subs.last)
  {
    RunInv(states, actions, k);
  }

  lemma IdleKnows(s: State, wake: Wake, box: nat, pc: Pc)
    requires pc == Reporting(box) && View(s, wake, pc) && s.subs.boxes[box].mail.None?
    requires Mailboxes.BoxConsistent(s.subs.boxes[box], s.subs.last)
    ensures s.sent != [] && Comes(s, s.subs.boxes[box], wake, s.sent[|s.sent| - 1])
    ensures s.subs.boxes[box].got != [] && Mailboxes.Latest(s.subs.boxes[box]) == s.subs.boxes[box].got[|s.subs.boxes[box].got| - 1]
  {
  }

  /** An idle reporter with an empty mailbox has reported something. Its last report is the newest value
      of its mailbox if that woke it last, and what the heartbeat read if that did; since that heartbeat
      the published demand has not moved. */
  lemma LastReport(states: seq<State>, actions: seq<Action>, k: nat, r: nat)
    requires Run(states, actions) && k < |states| && IdleReporter(states[k], r)
    ensures var s, wake := states[k], LastWake(states, actions, r, k);
      && s.sent != []
      && (wake.ByMail? || wake.ByBeat?)
      && (wake.ByMail? ==> s.sent[|s.sent| - 1] == Mailboxes.Latest(s.subs.boxes[s.threads[r].box]))
      && (wake.ByBeat? ==> wake.read == Some(s.sent[|s.sent| - 1]) && wake.published == s.subs.last)
  {
    RunView(states, actions, k, r);
    BoxesConsistent(states, actions, k, states[k].threads[r].box);
    IdleKnows(states[k], LastWake(states, actions, r, k), states[k].threads[r].box, states[k].threads[r]);
  }

  // The last wake left a wrong impression: a heartbeat read another demand than the one published at
  // that moment, or the mailbox still shows a seed that was not the published value.
  predicate Misled(wake: Wake, b: Mailboxes.Box) {
    || (wake.ByBeat? && wake.read != Some(wake.published))
    || (wake.ByMail? && !b.moved && b.seed != b.base)
  }

  /** The last report of an idle reporter differs from the published demand exactly if its last wake
      misled it. */
  lemma ReportDiffersExactly(states: seq<State>, actions: seq<Action>, k: nat, r: nat)
    requires Run(states, actions) && k < |states| && IdleReporter(states[k], r)
    ensures var s, wake := states[k], LastWake(states, actions, r, k);
      s.sent != [] &&
      (s.sent[|s.sent| - 1] != s.subs.last <==> Misled(wake, s.subs.boxes[s.threads[r].box]))
  {
    LastReport(states, actions, k, r);
    StreamAgreement(states, actions, k, states[k].threads[r].box);
  }

  /** From request to report: once notifications have drained and neither watcher nor timer is left, an
      idle reporter has last reported the gateway's demand exactly if its last wake did not mislead it. */
  lemma ReportShowsDemandExactly(states: seq<State>, actions: seq<Action>, k: nat, r: nat)
    requires Run(states, actions) && k < |states| && IdleReporter(states[k], r)
    requires NoNotification(states[k]) && NoBackground(states[k])
    ensures var s, wake := states[k], LastWake(states, actions, r, k);
      s.sent != [] &&
      (s.sent[|s.sent| - 1] == s.Demand() <==> !Misled(wake, s.subs.boxes[s.threads[r].box]))
  {
    ReportDiffersExactly(states, actions, k, r);
    NoLostPublication(states, actions, k);
  }

  // ---- a heartbeat in a quiet gateway ----

  predicate QuietState(s: State) {
    NoNotification(s) && NoBackground(s)
  }

  // What a quiet state lacks: a lease, a running grace, and any difference between demand and publication.
  lemma QuietHas(states: seq<State>, actions: seq<Action>, k: nat)
    requires Run(states, actions) && k < |states| && QuietState(states[k])
    ensures var s := states[k];
      !s.lease.active && s.lease.graceUntil <= s.clock && s.pending >= 0 && s.subs.last == s.Demand() == s.pending
  {
    NoLostPublication(states, actions, k);
    AdmissionBound(states, actions, k);
    RunInv(states, actions, k);
    var s := states[k];
    NoneCounted(s.threads, IsWatcher);
    NoneCounted(s.threads, TimerFor(s.lease.graceUntil));
  }

  // How far a heartbeat that went off while `published` was published has come, in quiet states only.
  predicate BeatHonest(s: State, pc: Pc, wake: Wake)
    requires wake.ByBeat?
  {
    match pc
    case BeatSampling(_) => wake.published == 0
    case BeatChecking(_, now) => wake.published == 0 && s.lease.graceUntil <= now
    case Sending(_, _, _) => wake.read == Some(wake.published)
    case Reporting(_) => wake.read == Some(wake.published)
    case _ => true
  }

  predicate HasNews(s: State, pc: Pc) {
    BoxOf(pc).Some? && BoxOf(pc).value in s.subs.boxes && s.subs.boxes[BoxOf(pc).value].mail.Some?
  }

  // Goroutine `r` is on its way from a heartbeat, which has not misled it, or it has news to read.
  predicate Honest(s: State, r: nat, wake: Wake) {
    r < |s.threads| && HonestAt(s, s.threads[r], wake)
  }

  predicate HonestAt(s: State, pc: Pc, wake: Wake) {
    IsReporter(pc) && wake.ByBeat? && !(pc.Sending? && pc.final) && (HasNews(s, pc) || BeatHonest(s, pc, wake))
  }

  lemma HonestOwnStep(s: State, r: nat, choice: nat, wake: Wake)
    requires r < |s.threads| && Honest(s, r, wake) && View(s, wake, s.threads[r])
    requires !s.threads[r].Reporting? && !IsSubscribing(s.threads[r]) && ReceiverStep(s, s.threads[r], choice).Goes?
    requires !s.lease.active && s.lease.graceUntil <= s.clock && s.subs.last == s.pending >= 0
    ensures var e, w := ReceiverStep(s, s.threads[r], choice), Woken(wake, s, Thread(r, choice), r);
      HonestAt(e.shared, e.pc, w)
  {
  }

  lemma HonestOtherStep(s: State, t: State, r: nat, wake: Wake)
    requires Honest(s, r, wake) && r < |t.threads| && t.threads[r] == s.threads[r]
    requires t.lease.graceUntil == s.lease.graceUntil
    requires HasNews(s, s.threads[r]) ==> HasNews(t, s.threads[r])
    ensures Honest(t, r, wake)
  {
  }

  lemma NewsStays(s: State, i: nat, choice: nat, t: State, r: nat)
    requires Roles(s) && Mailboxes.Consistent(s.subs) && i < |s.threads| && Advance(s, i, choice) == Some(t)
    requires r < |s.threads| && r != i && HasNews(s, s.threads[r])
    ensures HasNews(t, s.threads[r])
  {
    BoxEffect(s, i, s.threads[i], choice, BoxOf(s.threads[r]).value);
  }

  lemma GraceUntouched(s: State, i: nat, choice: nat, t: State)
    requires i < |s.threads| && Advance(s, i, choice) == Some(t) && ThreadOk(s, s.threads[i]) && NoNotification(t)
    ensures t.lease.graceUntil == s.lease.graceUntil
  {
    GraceEffect(s, i, s.threads[i], choice);
    var e := EffectOf(s, i, s.threads[i], choice);
    assert t.threads[i] == e.pc;
  }

  // Step `w` of the run is a heartbeat of goroutine `r`.
  predicate BeatsAt(states: seq<State>, actions: seq<Action>, w: nat, r: nat)
    requires w < |actions| < |states|
  {
    actions[w] == Thread(r, 0) && r < |states[w].threads| && states[w].threads[r].Reporting?
  }

  // Goroutine `r` is not woken again by step `j`.
  predicate SleepsAt(states: seq<State>, actions: seq<Action>, j: nat, r: nat)
    requires j < |actions| < |states|
  {
    actions[j].Thread? && actions[j].id == r && r < |states[j].threads| ==> !states[j].threads[r].Reporting?
  }

  lemma HonestReporter(s: State, r: nat, choice: nat, t: State, wake: Wake)
    requires r < |s.threads| && Advance(s, r, choice) == Some(t) && Honest(s, r, wake) && View(s, wake, s.threads[r])
    requires !s.threads[r].Reporting? && !s.lease.active && s.lease.graceUntil <= s.clock && s.subs.last == s.pending >= 0
    ensures Honest(t, r, Woken(wake, s, Thread(r, choice), r))
  {
    assert !IsSubscribing(s.threads[r]);
    HonestOwnStep(s, r, choice, wake);
    assert t.threads[r] == EffectOf(s, r, s.threads[r], choice).pc;
  }

  lemma HonestBystander(s: State, i: nat, choice: nat, t: State, r: nat, wake: Wake)
    requires Inv(s) && Roles(s) && i < |s.threads| && Advance(s, i, choice) == Some(t) && NoNotification(t)
    requires i != r && Honest(s, r, wake)
    ensures Honest(t, r, wake)
  {
    assert ThreadOk(s, s.threads[i]);
    GraceUntouched(s, i, choice, t);
    if HasNews(s, s.threads[r]) { NewsStays(s, i, choice, t, r); }
    HonestOtherStep(s, t, r, wake);
  }

  ghost predicate HonestIn(states: seq<State>, actions: seq<Action>, r: nat, k: nat)
    requires k < |states| == |actions| + 1
  {
    Honest(states[k], r, LastWake(states, actions, r, k))
  }

  lemma HonestStep(states: seq<State>, actions: seq<Action>, j: nat, r: nat)
    requires Run(states, actions) && j < |actions| && QuietState(states[j]) && QuietState(states[j + 1])
    requires SleepsAt(states, actions, j, r) && HonestIn(states, actions, r, j)
    ensures HonestIn(states, actions, r, j + 1)
  {
    var s, a, t, wake := states[j], actions[j], states[j + 1], LastWake(states, actions, r, j);
    assert Step(s, a) == Some(t);
    if !a.Thread? {
      HonestOtherStep(s, t, r, wake);
    } else if a.id == r {
      QuietHas(states, actions, j);
      RunView(states, actions, j, r);
      HonestReporter(s, r, a.choice, t, wake);
    } else {
      RunRoles(states, actions, j);
      HonestBystander(s, a.id, a.choice, t, r, wake);
    }
  }

  lemma BeatBegins(states: seq<State>, actions: seq<Action>, w: nat, r: nat)
    requires Run(states, actions) && w < |actions| && BeatsAt(states, actions, w, r)
    ensures HonestIn(states, actions, r, w + 1)
  {
    assert Step(states[w], actions[w]) == Some(states[w + 1]);
    assert states[w + 1].threads[r] == EffectOf(states[w], r, states[w].threads[r], 0).pc;
  }

  /** From the heartbeat at step `w` to state `k` the gateway is quiet and the reporter not woken again. */
  ghost predicate QuietBeat(states: seq<State>, actions: seq<Action>, w: nat, k: nat, r: nat)
    requires w < k <= |actions| < |states|
  {
    && BeatsAt(states, actions, w, r)
    && (forall j {:trigger QuietState(states[j])} :: w <= j <= k ==> QuietState(states[j]))
    && (forall j {:trigger SleepsAt(states, actions, j, r)} :: w < j < k ==> SleepsAt(states, actions, j, r))
  }

  lemma HonestAlong(states: seq<State>, actions: seq<Action>, w: nat, k: nat, r: nat)
    requires Run(states, actions) && w < k <= |actions| && QuietBeat(states, actions, w, k, r)
    ensures HonestIn(states, actions, r, k)
  {
    ghost var bits := seq(|states|, j requires 0 <= j < |states| => HonestIn(states, actions, r, j));
    BeatBegins(states, actions, w, r);
    forall j | w + 1 <= j < k ensures Carries(bits, j) {
      if HonestIn(states, actions, r, j) {
        assert QuietState(states[j]) && QuietState(states[j + 1]) && SleepsAt(states, actions, j, r);
        HonestStep(states, actions, j, r);
      }
    }
    Carried(bits, w + 1, k);
  }

  /** A heartbeat that goes off in a quiet gateway, and finds it quiet until the reporter is idle again,
      does not mislead: the report it sends is the demand. */
  lemma QuietHeartbeatIsTruthful(states: seq<State>, actions: seq<Action>, w: nat, k: nat, r: nat)
    requires Run(states, actions) && w < k <= |actions| && QuietBeat(states, actions, w, k, r) && IdleReporter(states[k], r)
    ensures var s := states[k];
      && !Misled(LastWake(states, actions, r, k), s.subs.boxes[s.threads[r].box])
      && s.sent != [] && s.sent[|s.sent| - 1] == s.Demand()
  {
    assert QuietState(states[k]);
    HonestAlong(states, actions, w, k, r);
    ReportShowsDemandExactly(states, actions, k, r);
  }

  // ---- the withdrawal ----

  lemma FinalEffect(s: State, i: nat, pc: Pc, choice: nat)
    requires EffectOf(s, i, pc, choice).Goes?
    ensures var e := EffectOf(s, i, pc, choice);
      && (e.pc.Sending? && e.pc.final ==> e.pc.demand == 0)
      && (pc.Sending? ==> e.shared.sent == s.sent + [pc.demand] && (pc.final ==> e.pc == Done))
  {
  }

  lemma {:induction false} FinalIsZero(states: seq<State>, actions: seq<Action>, k: nat)
    requires Run(states, actions) && k < |states|
    ensures forall i :: 0 <= i < |states[k].threads| && states[k].threads[i].Sending? && states[k].threads[i].final ==>
              states[k].threads[i].demand == 0
  {
    if k > 0 {
      FinalIsZero(states, actions, k - 1);
      var s, a := states[k - 1], actions[k - 1];
      assert Step(s, a) == Some(states[k]);
      if a.Thread? {
        FinalEffect(s, a.id, s.threads[a.id], a.choice);
        SpawnEffect(s, a.id, s.threads[a.id], a.choice);
      }
    }
  }

  // The reporter has come and gone, and `sent` is all it has sent.
  predicate Retired(s: State, sent: seq<int>) {
    s.reporting && s.sent == sent && forall i :: 0 <= i < |s.threads| ==> !IsReporter(s.threads[i])
  }

  lemma RetiredStep(s: State, a: Action, t: State, sent: seq<int>)
    requires Retired(s, sent) && Step(s, a) == Some(t)
    ensures Retired(t, sent)
  {
    if a.Thread? {
      RoleEffect(s, a.id, s.threads[a.id], a.choice);
      SpawnEffect(s, a.id, s.threads[a.id], a.choice);
      SendEffect(s, a.id, s.threads[a.id], a.choice);
    }
  }

  lemma {:induction false} StaysRetired(states: seq<State>, actions: seq<Action>, k: nat, n: nat, sent: seq<int>)
    requires Run(states, actions) && k <= n < |states| && Retired(states[k], sent)
    ensures Retired(states[n], sent)
    decreases n - k
  {
    if k < n {
      StaysRetired(states, actions, k, n - 1, sent);
      assert Step(states[n - 1], actions[n - 1]) == Some(states[n]);
      RetiredStep(states[n - 1], actions[n - 1], states[n], sent);
    }
  }

  lemma StopStep(s: State, id: nat, choice: nat, t: State)
    requires Roles(s) && id < |s.threads| && s.threads[id].Sending? && s.threads[id].final && Advance(s, id, choice) == Some(t)
    ensures Retired(t, s.sent + [s.threads[id].demand])
  {
    FinalEffect(s, id, s.threads[id], choice);
    RoleEffect(s, id, s.threads[id], choice);
    SpawnEffect(s, id, s.threads[id], choice);
    forall i | 0 <= i < |t.threads| ensures !IsReporter(t.threads[i]) {
      if i < |s.threads| && i != id { assert t.threads[i] == s.threads[i]; }
    }
  }

  /** A reporter that is asked to stop withdraws its demand with its last report, after which no other is
      ever sent. */
  lemma WithdrawsLast(states: seq<State>, actions: seq<Action>, k: nat, n: nat, id: nat, choice: nat)
    requires Run(states, actions) && k < n < |states| && actions[k] == Thread(id, choice) && id < |states[k].threads|
    requires states[k].threads[id].Sending? && states[k].threads[id].final
    ensures states[n].sent == states[k].sent + [0]
  {
    RunRoles(states, actions, k);
    FinalIsZero(states, actions, k);
    assert Step(states[k], actions[k]) == Some(states[k + 1]);
    StopStep(states[k], id, choice, states[k + 1]);
    StaysRetired(states, actions, k + 1, n, states[k].sent + [0]);
  }
}
