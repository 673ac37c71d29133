/** The status the operator computes for a service. */
module ServiceStatus {
  import opened Common
  import opened BackendObservation

  datatype Phase = NoPhase | Pending | Loading | Ready | ScaledToZero | Degraded

  datatype Kind = AutoscalingReady | IsReady | IsDegraded

  // A fixed sentence, by its name, or a text made up from Pod names and errors.
  datatype Message =
    | Configured | ServingReady | AtZero | AwaitingDeployment | NoFailureAtZero | NoFailure | ProgressingWell
    | Spoken(text: string)

  // `since` is the time of the last transition between true and false.
  datatype Entry = Entry(holds: bool, reason: string, message: Message, generation: int, since: int)

  datatype Status = Status(phase: Phase, runtime: string, replicas: int, endpoint: string, conditions: map<Kind, Entry>)

  datatype Service = Service(name: string, namespace: string, generation: int, minReplicas: int)

  const NoStatus: Status := Status(NoPhase, "", 0, "", map[])

  datatype Content = Content(holds: bool, reason: string, message: Message, generation: int)

  function Stamped(c: Content, since: int): Entry {
    Entry(c.holds, c.reason, c.message, c.generation, since)
  }

  /** Sets one condition; the transition time moves only if the truth value does. */
  function SetCondition(cs: map<Kind, Entry>, k: Kind, c: Content, now: int): map<Kind, Entry> {
    cs[k := Stamped(c, if k in cs && cs[k].holds == c.holds then cs[k].since else now)]
  }

  function SetAll(cs: map<Kind, Entry>, a: Content, b: Content, c: Content, now: int): map<Kind, Entry> {
    SetCondition(SetCondition(SetCondition(cs, AutoscalingReady, a, now), IsReady, b, now), IsDegraded, c, now)
  }

  function Label(r: Reason): string {
    match r
    case ImagePullFailed => "ImagePullFailed"
    case OOMKilled => "OOMKilled"
    case CrashLoopBackOff => "CrashLoopBackOff"
    case ContainerRestarting => "ContainerRestarting"
    case SchedulingDelayed => "SchedulingDelayed"
    case ModelLoading => "ModelLoading"
    case Starting => "Starting"
    case ProgressDeadlineExceeded => "ProgressDeadlineExceeded"
    case Activating => "Activating"
  }

  function PhaseOf(svc: Service, d: Deployment, active: bool, o: Observation): Phase {
    if d.readyReplicas > 0 then Ready
    else if o.degraded then Degraded
    else if d.replicas > 0 || active then Loading
    else if svc.minReplicas == 0 then ScaledToZero
    else Pending
  }

  function ReadyContent(p: Phase, o: Observation, generation: int): Content {
    match p
    case Ready => Content(true, "Available", ServingReady, generation)
    case ScaledToZero => Content(false, "ScaledToZero", AtZero, generation)
    case Loading => Content(false, Label(o.reason), Spoken(o.message), generation)
    case Degraded => Content(false, Label(o.reason), Spoken(o.message), generation)
    case _ => Content(false, "Pending", AwaitingDeployment, generation)
  }

  function DegradedContent(p: Phase, o: Observation, generation: int): Content {
    if o.degraded then Content(true, Label(o.reason), Spoken(o.message), generation)
    else if p == ScaledToZero then
      Content(false, "Inactive", NoFailureAtZero, generation)
    else if p == Ready then
      Content(false, "Healthy", NoFailure, generation)
    else
      Content(false, "Progressing", ProgressingWell, generation)
  }

  function Applied(generation: int): Content {
    Content(true, "ScaledObjectApplied", Configured, generation)
  }

  /** The status after an observation `o`, starting from the status the reconciler holds. */
  function Refreshed(base: Status, svc: Service, runtime: string, d: Deployment, active: bool, o: Observation, now: int): Status {
    var p := PhaseOf(svc, d, active, o);
    var g := svc.generation;
    Status(p, runtime, d.readyReplicas, "http://" + svc.name + "." + svc.namespace + ".svc/v1",
           SetAll(base.conditions, Applied(g), ReadyContent(p, o, g), DegradedContent(p, o, g), now))
  }

  /** The status after a failed reconcile: runtime, replicas and endpoint stay as they were. */
  function Failed(base: Status, svc: Service, reason: string, message: string, autoscaled: bool, now: int): Status {
    var not, yes := Content(false, reason, Spoken(message), svc.generation), Content(true, reason, Spoken(message), svc.generation);
    base.(phase := Degraded,
          conditions := SetAll(base.conditions, if autoscaled then Applied(svc.generation) else not, not, yes, now))
  }

  /** Phase and conditions tell one story. */
  predicate Coherent(s: Status) {
    && AutoscalingReady in s.conditions && IsReady in s.conditions && IsDegraded in s.conditions
    && var ready, degraded := s.conditions[IsReady], s.conditions[IsDegraded];
    && (s.phase == Ready <==> ready.holds)
    && (s.phase == Degraded <==> degraded.holds && !ready.holds)
    && (s.phase == Degraded ==> ready.reason == degraded.reason && ready.message == degraded.message)
    && s.phase != NoPhase
  }

  lemma RefreshedCoherent(base: Status, svc: Service, runtime: string, d: Deployment, active: bool, o: Observation, now: int)
    ensures var s := Refreshed(base, svc, runtime, d, active, o, now);
      && Coherent(s) && s.phase == PhaseOf(svc, d, active, o)
      && s.conditions[IsDegraded].holds == o.degraded && s.conditions[AutoscalingReady].holds
  {
    var p, g := PhaseOf(svc, d, active, o), svc.generation;
    SetAllHas(base.conditions, Applied(g), ReadyContent(p, o, g), DegradedContent(p, o, g), now);
  }

  // A condition keeps its transition time exactly as long as its truth value.
  predicate SinceKept(base: map<Kind, Entry>, cs: map<Kind, Entry>, k: Kind, now: int) {
    k in cs && cs[k].since == if k in base && base[k].holds == cs[k].holds then base[k].since else now
  }

  /** The rest of a refreshed status: the ready replicas, the address, and for both conditions the reason
      and message that go with the phase. */
  lemma RefreshedContents(base: Status, svc: Service, runtime: string, d: Deployment, active: bool, o: Observation, now: int)
    ensures var s := Refreshed(base, svc, runtime, d, active, o, now);
      && s.replicas == d.readyReplicas && s.runtime == runtime && s.endpoint == "http://" + svc.name + "." + svc.namespace + ".svc/v1"
      && (forall k: Kind :: SinceKept(base.conditions, s.conditions, k, now) && s.conditions[k].generation == svc.generation)
      && var scaling, ready, degraded := s.conditions[AutoscalingReady], s.conditions[IsReady], s.conditions[IsDegraded];
      && scaling.holds && scaling.reason == "ScaledObjectApplied" && scaling.message == Configured
      && (s.phase == Ready ==> ready.reason == "Available" && ready.message == ServingReady)
      && (s.phase == ScaledToZero ==> ready.reason == "ScaledToZero" && ready.message == AtZero)
      && (s.phase == Pending ==> ready.reason == "Pending" && ready.message == AwaitingDeployment)
      && (s.phase == Loading || s.phase == Degraded ==> ready.reason == Label(o.reason) && ready.message == Spoken(o.message))
      && (degraded.holds ==> degraded.reason == Label(o.reason) && degraded.message == Spoken(o.message))
      && (!degraded.holds && s.phase == ScaledToZero ==> degraded.reason == "Inactive" && degraded.message == NoFailureAtZero)
      && (!degraded.holds && s.phase == Ready ==> degraded.reason == "Healthy" && degraded.message == NoFailure)
      && (!degraded.holds && s.phase != ScaledToZero && s.phase != Ready ==>
            degraded.reason == "Progressing" && degraded.message == ProgressingWell)
  {
    var p, g := PhaseOf(svc, d, active, o), svc.generation;
    SetAllHas(base.conditions, Applied(g), ReadyContent(p, o, g), DegradedContent(p, o, g), now);
    SetAllSince(base.conditions, Applied(g), ReadyContent(p, o, g), DegradedContent(p, o, g), now);
    var cs := Refreshed(base, svc, runtime, d, active, o, now).conditions;
    forall k: Kind ensures SinceKept(base.conditions, cs, k, now) && cs[k].generation == g {
      assert k == AutoscalingReady || k == IsReady || k == IsDegraded;
    }
  }

  lemma SetAllSince(cs: map<Kind, Entry>, a: Content, b: Content, c: Content, now: int)
    ensures var r := SetAll(cs, a, b, c, now);
      && (forall k: Kind :: SinceKept(cs, r, k, now))
      && r[AutoscalingReady] == Stamped(a, r[AutoscalingReady].since)
  {
    var r := SetAll(cs, a, b, c, now);
    assert SinceKept(cs, r, AutoscalingReady, now) && SinceKept(cs, r, IsReady, now) && SinceKept(cs, r, IsDegraded, now);
    forall k: Kind ensures SinceKept(cs, r, k, now) {
      assert k == AutoscalingReady || k == IsReady || k == IsDegraded;
    }
  }

  lemma FailedCoherent(base: Status, svc: Service, reason: string, message: string, autoscaled: bool, now: int)
    ensures var s := Failed(base, svc, reason, message, autoscaled, now);
      && Coherent(s) && s.phase == Degraded && s.conditions[IsDegraded].reason == reason
      && s.conditions[IsReady].message == s.conditions[IsDegraded].message == Spoken(message)
      && s.conditions[AutoscalingReady].holds == autoscaled
      && s.conditions[AutoscalingReady].reason == (if autoscaled then "ScaledObjectApplied" else reason)
      && s.runtime == base.runtime && s.replicas == base.replicas && s.endpoint == base.endpoint
  {
    var not, yes := Content(false, reason, Spoken(message), svc.generation), Content(true, reason, Spoken(message), svc.generation);
    SetAllHas(base.conditions, if autoscaled then Applied(svc.generation) else not, not, yes, now);
    SetAllSince(base.conditions, if autoscaled then Applied(svc.generation) else not, not, yes, now);
  }

  lemma SetAllHas(cs: map<Kind, Entry>, a: Content, b: Content, c: Content, now: int)
    ensures var r := SetAll(cs, a, b, c, now);
      && AutoscalingReady in r && IsReady in r && IsDegraded in r
      && r[AutoscalingReady].holds == a.holds
      && r[IsReady] == Stamped(b, r[IsReady].since) && r[IsDegraded] == Stamped(c, r[IsDegraded].since)
  {
  }

  /** What each phase says about the backend, for every observation the operator can report. */
  lemma PhaseMeaning(svc: Service, d: Deployment, pods: seq<Pod>, o: Observation)
    requires Reports(d, pods, o)
    ensures var phase := PhaseOf(svc, d, AnyActive(pods), o);
      var failing := DeadlineApplies(d, pods) || exists p :: p in pods && Active(p) && Failing(p);
      var empty := d.replicas <= 0 && d.readyReplicas <= 0 && !AnyActive(pods);
      && (phase == Ready <==> d.readyReplicas > 0)
      && (phase == Degraded <==> failing && d.readyReplicas <= 0)
      && (phase == Loading <==> !failing && d.readyReplicas <= 0 && !empty)
      && (phase == ScaledToZero <==> empty && svc.minReplicas == 0)
      && (phase == Pending <==> empty && svc.minReplicas != 0)
  {
    DegradedExactly(d, pods, o);
  }

  /** A second look at an unchanged backend changes nothing, so it writes nothing. */
  lemma RefreshIsStable(base: Status, svc: Service, runtime: string, d: Deployment, active: bool, o: Observation, now: int, later: int)
    ensures var s := Refreshed(base, svc, runtime, d, active, o, now);
      Refreshed(s, svc, runtime, d, active, o, later) == s
  {
  }
}

/** Concurrent status writers, each retrying on a version conflict, and the events they announce. */
module StatusWrites {
  import opened Common
  import opened BackendObservation
  import opened ServiceStatus

  const Attempts: nat := 5

  datatype Job =
    | Refresh(base: Status, svc: Service, runtime: string, d: Deployment, pods: seq<Pod>, o: Observation, now: int)
    | Failure(base: Status, svc: Service, reason: string, message: string, autoscaled: bool, now: int)
  {
    function Desired(): Status {
      match this
      case Refresh(base, svc, runtime, d, pods, o, now) => Refreshed(base, svc, runtime, d, AnyActive(pods), o, now)
      case Failure(base, svc, reason, message, autoscaled, now) => Failed(base, svc, reason, message, autoscaled, now)
    }

    ghost predicate Genuine() {
      Refresh? ==> Reports(d, pods, o)
    }
  }

  datatype Writer =
    | Idle
    | Reading(job: Job, attempt: nat)
    | Writing(job: Job, attempt: nat, version: nat, previous: Status)
    | Announcing(job: Job, version: nat, previous: Status)

  datatype Event = Event(version: nat, warning: bool, reason: string)

  // history[v] is the stored status at version v; None while the object does not exist.
  datatype State = State(history: seq<Option<Status>>, writers: seq<Writer>, events: seq<Event>)

  /** The class of the failure a status shows, if any. */
  function FailureClass(s: Status): Option<string> {
    if IsDegraded in s.conditions && s.conditions[IsDegraded].holds then Some(s.conditions[IsDegraded].reason) else None
  }

  /** The event that a committed change of status calls for. */
  function Announcement(previous: Status, current: Status, version: nat): seq<Event> {
    var before, after := FailureClass(previous), FailureClass(current);
    if after.Some? && before != after then [Event(version, true, after.value)]
    else if before.Some? && after.None? then [Event(version, false, "BackendRecovered")]
    else []
  }

  datatype Action =
    | Begin(id: nat, job: Job)
    | Get(id: nat)
    | Put(id: nat, lost: bool)      // `lost`: the write is stored but its answer never arrives
    | Announce(id: nat)
    | Abort(id: nat)                // any other error, or a crash
    | Elsewhere(stored: Option<Status>)  // somebody else creates, edits or deletes the object

  predicate Enabled(s: State, a: Action) {
    match a
    case Begin(id, _) => id < |s.writers| && s.writers[id].Idle?
    case Get(id) => id < |s.writers| && s.writers[id].Reading?
    case Put(id, _) => id < |s.writers| && s.writers[id].Writing?
    case Announce(id) => id < |s.writers| && s.writers[id].Announcing?
    case Abort(id) => id < |s.writers|
    case Elsewhere(stored) => |s.history| > 0 && Foreign(s.history[|s.history| - 1], stored)
  }

  // The others never write a status: an edit keeps it, and a new object has none.
  predicate Foreign(before: Option<Status>, after: Option<Status>) {
    after.None? || after == before || (before.None? && after == Some(NoStatus))
  }

  function AfterGet(latest: Option<Status>, version: nat, w: Writer): Writer
    requires w.Reading?
  {
    if latest.None? || latest.value == w.job.Desired() then Idle
    else Writing(w.job, w.attempt, version, latest.value)
  }

  function AfterPut(s: State, w: Writer, lost: bool): Writer
    requires w.Writing? && |s.history| > 0
  {
    if w.version == |s.history| - 1 then
      (if lost || w.job.Failure? then Idle else Announcing(w.job, |s.history|, w.previous))
    else if s.history[|s.history| - 1].None? || w.attempt >= Attempts then Idle
    else Reading(w.job, w.attempt + 1)
  }

  function Step(s: State, a: Action): State
    requires Enabled(s, a) && |s.history| > 0
  {
    var top := |s.history| - 1;
    match a
    case Begin(id, job) => s.(writers := s.writers[id := Reading(job, 1)])
    case Get(id) => s.(writers := s.writers[id := AfterGet(s.history[top], top, s.writers[id])])
    case Put(id, lost) =>
      var w := s.writers[id];
      s.(history := if w.version == top then s.history + [Some(w.job.Desired())] else s.history,
         writers := s.writers[id := AfterPut(s, w, lost)])
    case Announce(id) =>
      var w := s.writers[id];
      s.(events := s.events + Announcement(w.previous, w.job.Desired(), w.version), writers := s.writers[id := Idle])
    case Abort(id) => s.(writers := s.writers[id := Idle])
    case Elsewhere(stored) => s.(history := s.history + [stored])
  }

  ghost predicate Initial(s: State) {
    && s.history == [None] && s.events == []
    && forall i :: 0 <= i < |s.writers| ==> s.writers[i] == Idle
  }

  ghost predicate Run(states: seq<State>, actions: seq<Action>) {
    && |states| == |actions| + 1 && Initial(states[0])
    && forall k {:trigger actions[k]} :: 0 <= k < |actions| ==>
         && |states[k].history| > 0 && Enabled(states[k], actions[k])
         && (actions[k].Begin? ==> actions[k].job.Genuine())
         && states[k + 1] == Step(states[k], actions[k])
  }

  // ---- the invariant ----

  /** Version `v` came from writing `current` over `previous` and over nothing else. */
  predicate Committed(history: seq<Option<Status>>, v: nat, previous: Status, current: Status) {
    1 <= v < |history| && history[v - 1] == Some(previous) && history[v] == Some(current)
  }

  predicate WriterOk(history: seq<Option<Status>>, w: Writer) {
    match w
    case Idle => true
    case Reading(_, attempt) => 1 <= attempt <= Attempts
    case Writing(_, attempt, version, previous) =>
      1 <= attempt <= Attempts && version < |history| && history[version] == Some(previous)
    case Announcing(job, version, previous) => Committed(history, version, previous, job.Desired())
  }

  // The event tells what changed between version - 1 and version.
  predicate EventOk(history: seq<Option<Status>>, e: Event) {
    && 1 <= e.version < |history| && history[e.version - 1].Some? && history[e.version].Some?
    && var before, after := FailureClass(history[e.version - 1].value), FailureClass(history[e.version].value);
    if e.warning then after == Some(e.reason) && before != after else before.Some? && after.None?
  }

  predicate Announced(events: seq<Event>, v: nat) {
    exists k :: 0 <= k < |events| && events[k].version == v
  }

  predicate Inv(s: State) {
    && |s.history| > 0
    && (forall v :: 0 <= v < |s.history| && s.history[v].Some? ==> s.history[v].value == NoStatus || Coherent(s.history[v].value))
    && (forall i :: 0 <= i < |s.writers| ==> WriterOk(s.history, s.writers[i]))
    && (forall k :: 0 <= k < |s.events| ==> EventOk(s.history, s.events[k]))
    && (forall j, k :: 0 <= j < k < |s.events| ==> s.events[j].version != s.events[k].version)
    && (forall i :: 0 <= i < |s.writers| && s.writers[i].Announcing? ==> !Announced(s.events, s.writers[i].version))
    && (forall i, j :: 0 <= i < j < |s.writers| && s.writers[i].Announcing? && s.writers[j].Announcing? ==>
          s.writers[i].version != s.writers[j].version)
  }

  lemma DesiredCoherent(job: Job)
    ensures Coherent(job.Desired())
  {
    match job
    case Refresh(base, svc, runtime, d, pods, o, now) => RefreshedCoherent(base, svc, runtime, d, AnyActive(pods), o, now);
    case Failure(base, svc, reason, message, autoscaled, now) => FailedCoherent(base, svc, reason, message, autoscaled, now);
  }

  // Appending a version keeps what is known about the older ones.
  lemma Grown(s: State, stored: Option<Status>)
    requires Inv(s) && (stored.Some? ==> stored.value == NoStatus || Coherent(stored.value))
    ensures Inv(s.(history := s.history + [stored]))
  {
  }

  // A writer that does not announce can be replaced by any other such writer.
  lemma Replaced(s: State, id: nat, w: Writer)
    requires Inv(s) && id < |s.writers| && WriterOk(s.history, w)
    requires w.Announcing? ==>
      !Announced(s.events, w.version) &&
      forall j :: 0 <= j < |s.writers| && s.writers[j].Announcing? ==> s.writers[j].version != w.version
    ensures Inv(s.(writers := s.writers[id := w]))
  {
  }

  lemma AnnouncementOk(history: seq<Option<Status>>, v: nat, previous: Status, current: Status)
    requires Committed(history, v, previous, current)
    ensures var es := Announcement(previous, current, v);
      |es| <= 1 && forall k :: 0 <= k < |es| ==> EventOk(history, es[k]) && es[k].version == v
  {
  }

  lemma AnnounceKept(s: State, id: nat)
    requires Inv(s) && Enabled(s, Announce(id))
    ensures Inv(Step(s, Announce(id)))
  {
    var w := s.writers[id];
    AnnouncementOk(s.history, w.version, w.previous, w.job.Desired());
    var es := Announcement(w.previous, w.job.Desired(), w.version);
    var quiet := s.(writers := s.writers[id := Idle]);
    Replaced(s, id, Idle);
    if |es| == 1 {
      assert es == [es[0]];
      Appended(quiet, es[0]);
    } else {
      assert s.events + es == s.events;
    }
  }

  lemma Appended(s: State, e: Event)
    requires Inv(s) && EventOk(s.history, e) && !Announced(s.events, e.version)
    requires forall i :: 0 <= i < |s.writers| && s.writers[i].Announcing? ==> s.writers[i].version != e.version
    ensures Inv(s.(events := s.events + [e]))
  {
    var es := s.events + [e];
    forall i | 0 <= i < |s.writers| && s.writers[i].Announcing? ensures !Announced(es, s.writers[i].version) {
      assert !Announced(s.events, s.writers[i].version);
      assert forall k :: 0 <= k < |s.events| ==> es[k] == s.events[k];
    }
  }

  // One more version, and at most one writer that owes its announcement.
  lemma CommitKept(s: State, id: nat, stored: Status, w: Writer)
    requires Inv(s) && id < |s.writers| && Coherent(stored)
    requires w.Idle? || (w.Announcing? && w.version == |s.history| && WriterOk(s.history + [Some(stored)], w))
    ensures Inv(s.(history := s.history + [Some(stored)], writers := s.writers[id := w]))
  {
    Grown(s, Some(stored));
    forall j | 0 <= j < |s.writers| && s.writers[j].Announcing? ensures s.writers[j].version < |s.history| {
      assert WriterOk(s.history, s.writers[j]);
    }
    assert !Announced(s.events, |s.history|) by {
      forall k | 0 <= k < |s.events| ensures s.events[k].version < |s.history| {
        assert EventOk(s.history, s.events[k]);
      }
    }
    Replaced(s.(history := s.history + [Some(stored)]), id, w);
  }

  lemma PutKept(s: State, id: nat, lost: bool)
    requires Inv(s) && Enabled(s, Put(id, lost))
    ensures Inv(Step(s, Put(id, lost)))
  {
    var w := s.writers[id];
    assert WriterOk(s.history, w);
    if w.version == |s.history| - 1 {
      DesiredCoherent(w.job);
      CommitKept(s, id, w.job.Desired(), AfterPut(s, w, lost));
    } else {
      Replaced(s, id, AfterPut(s, w, lost));
    }
  }

  lemma GetKept(s: State, id: nat)
    requires Inv(s) && Enabled(s, Get(id))
    ensures Inv(Step(s, Get(id)))
  {
    var w := AfterGet(s.history[|s.history| - 1], |s.history| - 1, s.writers[id]);
    assert WriterOk(s.history, w) && !w.Announcing? by {
      assert WriterOk(s.history, s.writers[id]);
    }
    Replaced(s, id, w);
  }

  lemma StepKept(s: State, a: Action)
    requires Inv(s) && Enabled(s, a)
    ensures Inv(Step(s, a))
  {
    match a
    case Begin(id, job) => Replaced(s, id, Reading(job, 1));
    case Get(id) => GetKept(s, id);
    case Put(id, lost) => PutKept(s, id, lost);
    case Announce(id) => AnnounceKept(s, id);
    case Abort(id) => Replaced(s, id, Idle);
    case Elsewhere(stored) => Grown(s, stored);
  }

  lemma {:induction false} RunKept(states: seq<State>, actions: seq<Action>, k: nat)
    requires Run(states, actions) && k < |states|
    ensures Inv(states[k])
  {
    if k > 0 {
      RunKept(states, actions, k - 1);
      StepKept(states[k - 1], actions[k - 1]);
    }
  }

  // ---- theorems ----

  /** Whatever the writers, crashes and other clients do, no stored status contradicts itself. */
  lemma StoredStatusCoherent(states: seq<State>, actions: seq<Action>, k: nat, v: nat)
    requires Run(states, actions) && k < |states| && v < |states[k].history|
    requires states[k].history[v].Some? && states[k].history[v].value != NoStatus
    ensures Coherent(states[k].history[v].value)
  {
    RunKept(states, actions, k);
  }

  /** A write replaces exactly the status its writer has read and compared; there are at most five attempts. */
  lemma WriteReplacesRead(states: seq<State>, actions: seq<Action>, k: nat)
    requires Run(states, actions) && k < |actions| && actions[k].Put?
    ensures var w, h, h' := states[k].writers[actions[k].id], states[k].history, states[k + 1].history;
      && 1 <= w.attempt <= Attempts
      && (h' == h || (h' == h + [Some(w.job.Desired())] && h[|h| - 1] == Some(w.previous)))
      && (h' == h <==> w.version != |h| - 1)
  {
    RunKept(states, actions, k);
    assert Enabled(states[k], actions[k]);
    assert states[k + 1] == Step(states[k], actions[k]);
    assert WriterOk(states[k].history, states[k].writers[actions[k].id]);
  }

  /** Every event names a real change between two adjacent versions, and no version has two events. */
  lemma EventsAreTransitions(states: seq<State>, actions: seq<Action>, k: nat, e: nat)
    requires Run(states, actions) && k < |states| && e < |states[k].events|
    ensures EventOk(states[k].history, states[k].events[e])
    ensures forall f :: 0 <= f < |states[k].events| && f != e ==> states[k].events[f].version != states[k].events[e].version
  {
    RunKept(states, actions, k);
  }

  /** Two warnings for the same failure class have a stored status between them that did not show
      that class: a warning for an unchanged failure is never repeated. */
  lemma WarningNeverRepeated(states: seq<State>, actions: seq<Action>, k: nat, e: nat, f: nat) returns (u: nat)
    requires Run(states, actions) && k < |states| && e < |states[k].events| && f < |states[k].events| && e != f
    requires var a, b := states[k].events[e], states[k].events[f];
      a.warning && b.warning && a.reason == b.reason && a.version <= b.version
    ensures states[k].events[e].version < u < states[k].events[f].version < |states[k].history|
    ensures states[k].history[u].Some? && FailureClass(states[k].history[u].value) != Some(states[k].events[e].reason)
  {
    EventsAreTransitions(states, actions, k, e);
    EventsAreTransitions(states, actions, k, f);
    u := states[k].events[f].version - 1;
  }

  // ---- no event is missing ----

  // The Degraded condition holds, and with which reason.
  predicate Fails(s: Status) {
    IsDegraded in s.conditions && s.conditions[IsDegraded].holds
  }

  predicate FailsFor(s: Status, reason: string) {
    Fails(s) && s.conditions[IsDegraded].reason == reason
  }

  /** The new status is degraded, and the old one was not, or for another reason. */
  predicate CallsForWarning(previous: Status, current: Status) {
    Fails(current) && !FailsFor(previous, current.conditions[IsDegraded].reason)
  }

  /** The old status was degraded, and the new one is not. */
  predicate CallsForRecovery(previous: Status, current: Status) {
    Fails(previous) && !Fails(current)
  }

  /** Exactly the events `es` are due for a change from `previous` to `current`. */
  predicate Due(es: seq<Event>, previous: Status, current: Status, version: nat) {
    && (CallsForWarning(previous, current) ==> es == [Event(version, true, current.conditions[IsDegraded].reason)])
    && (CallsForRecovery(previous, current) ==> es == [Event(version, false, "BackendRecovered")])
    && (!CallsForWarning(previous, current) && !CallsForRecovery(previous, current) ==> es == [])
  }

  lemma AnnouncementIsDue(previous: Status, current: Status, version: nat)
    ensures Due(Announcement(previous, current, version), previous, current, version)
  {
  }

  function About(events: seq<Event>, v: nat): seq<Event> {
    if events == [] then []
    else
      var e := events[|events| - 1];
      About(events[..|events| - 1], v) + (if e.version == v then [e] else [])
  }

  lemma AboutAppend(events: seq<Event>, more: seq<Event>, v: nat)
    requires |more| <= 1
    ensures About(events + more, v) == About(events, v) + About(more, v)
  {
    if more == [] {
      assert events + more == events;
    } else {
      assert (events + more)[..|events|] == events && more[..0] == [];
    }
  }

  lemma {:induction false} NoneAbout(events: seq<Event>, v: nat)
    requires !Announced(events, v)
    ensures About(events, v) == []
  {
    if events != [] {
      var p := events[..|events| - 1];
      forall k | 0 <= k < |p| ensures p[k].version != v { assert p[k] == events[k]; }
      NoneAbout(p, v);
    }
  }

  // Version `v` exists and nobody is going to announce it.
  predicate SettledVersion(s: State, v: nat) {
    v < |s.history| && forall i :: 0 <= i < |s.writers| && s.writers[i].Announcing? ==> s.writers[i].version != v
  }

  lemma SettledStep(s: State, a: Action, v: nat)
    requires Inv(s) && Enabled(s, a) && SettledVersion(s, v)
    ensures SettledVersion(Step(s, a), v) && About(Step(s, a).events, v) == About(s.events, v)
  {
    if a.Announce? {
      var w := s.writers[a.id];
      var es := Announcement(w.previous, w.job.Desired(), w.version);
      AnnouncementOk(s.history, w.version, w.previous, w.job.Desired());
      AboutAppend(s.events, es, v);
      if |es| == 1 { assert es[..0] == []; }
    }
  }

  lemma {:induction false} SettledForGood(states: seq<State>, actions: seq<Action>, k: nat, n: nat, v: nat)
    requires Run(states, actions) && k <= n < |states| && SettledVersion(states[k], v)
    ensures SettledVersion(states[n], v) && About(states[n].events, v) == About(states[k].events, v)
    decreases n - k
  {
    if k < n {
      SettledForGood(states, actions, k, n - 1, v);
      RunKept(states, actions, n - 1);
      assert Enabled(states[n - 1], actions[n - 1]) && states[n] == Step(states[n - 1], actions[n - 1]);
      SettledStep(states[n - 1], actions[n - 1], v);
    }
  }

  lemma AnnouncesOwn(s: State, id: nat)
    requires Inv(s) && Enabled(s, Announce(id))
    ensures var w, t := s.writers[id], Step(s, Announce(id));
      SettledVersion(t, w.version) && About(t.events, w.version) == Announcement(w.previous, w.job.Desired(), w.version)
  {
    var w := s.writers[id];
    var es := Announcement(w.previous, w.job.Desired(), w.version);
    AnnouncementOk(s.history, w.version, w.previous, w.job.Desired());
    NoneAbout(s.events, w.version);
    AboutAppend(s.events, es, w.version);
    if |es| == 1 { assert es[..0] == [] && es == [es[0]]; }
    assert WriterOk(s.history, w);
  }

  // `w` wrote its desired status over the one it had read, and exactly the events `es` are due for that.
  predicate RightlyAnnounced(history: seq<Option<Status>>, w: Writer, es: seq<Event>) {
    && w.Announcing? && Committed(history, w.version, w.previous, w.job.Desired())
    && Due(es, w.previous, w.job.Desired(), w.version)
  }

  /** Once its writer has announced a version, the events about it are, for ever, exactly those that the
      change of the Degraded condition calls for: one warning with the new reason, one recovery, or none. */
  lemma AnnouncedExactly(states: seq<State>, actions: seq<Action>, k: nat, n: nat, id: nat)
    requires Run(states, actions) && k < n < |states| && actions[k] == Announce(id)
    ensures id < |states[k].writers| && states[k].writers[id].Announcing?
    ensures var w := states[k].writers[id];
      RightlyAnnounced(states[k].history, w, About(states[n].events, w.version))
  {
    AnnouncedAt(states, actions, k, id);
    SettledForGood(states, actions, k + 1, n, states[k].writers[id].version);
  }

  lemma AnnouncedAt(states: seq<State>, actions: seq<Action>, k: nat, id: nat)
    requires Run(states, actions) && k < |actions| && actions[k] == Announce(id)
    ensures id < |states[k].writers| && states[k].writers[id].Announcing?
    ensures var w, t := states[k].writers[id], states[k + 1];
      SettledVersion(t, w.version) && RightlyAnnounced(states[k].history, w, About(t.events, w.version))
  {
    RunKept(states, actions, k);
    assert Enabled(states[k], actions[k]) && states[k + 1] == Step(states[k], actions[k]);
    AnnouncesDue(states[k], id);
  }

  lemma AnnouncesDue(s: State, id: nat)
    requires Inv(s) && Enabled(s, Announce(id))
    ensures var w, t := s.writers[id], Step(s, Announce(id));
      SettledVersion(t, w.version) && RightlyAnnounced(s.history, w, About(t.events, w.version))
  {
    var w := s.writers[id];
    assert WriterOk(s.history, w);
    AnnouncesOwn(s, id);
    AnnouncementIsDue(w.previous, w.job.Desired(), w.version);
  }

  /** What becomes of a writer that sends its write: it owes the announcement exactly if it refreshes, met
      the version it had read, and got the answer; on a conflict it reads again, up to five times. */
  lemma PutExactly(states: seq<State>, actions: seq<Action>, k: nat, id: nat, lost: bool)
    requires Run(states, actions) && k < |actions| && actions[k] == Put(id, lost)
    ensures id < |states[k].writers| && states[k].writers[id].Writing? && |states[k + 1].writers| == |states[k].writers|
    ensures var w, h, w' := states[k].writers[id], states[k].history, states[k + 1].writers[id];
      && (w'.Announcing? <==> w.version == |h| - 1 && w.job.Refresh? && !lost)
      && (w'.Announcing? ==> w' == Announcing(w.job, |h|, w.previous))
      && (w'.Reading? <==> w.version != |h| - 1 && h[|h| - 1].Some? && w.attempt < 5)
      && (w'.Reading? ==> w' == Reading(w.job, w.attempt + 1))
      && !w'.Writing?
  {
    RunKept(states, actions, k);
    assert Enabled(states[k], actions[k]) && states[k + 1] == Step(states[k], actions[k]);
  }

  /** What becomes of a writer that reads: it goes on to write, over exactly the version and status it has
      read, unless the object is gone or shows the desired status already. */
  lemma GetExactly(states: seq<State>, actions: seq<Action>, k: nat, id: nat)
    requires Run(states, actions) && k < |actions| && actions[k] == Get(id)
    ensures id < |states[k].writers| && states[k].writers[id].Reading? && |states[k + 1].writers| == |states[k].writers|
    ensures var w, h, w' := states[k].writers[id], states[k].history, states[k + 1].writers[id];
      && |h| > 0 && states[k + 1].history == h
      && (w'.Idle? <==> h[|h| - 1].None? || h[|h| - 1] == Some(w.job.Desired()))
      && (!w'.Idle? ==> w'.Writing? && w'.version == |h| - 1 && Some(w'.previous) == h[|h| - 1] && w'.job == w.job && w'.attempt == w.attempt)
  {
    assert Enabled(states[k], actions[k]) && states[k + 1] == Step(states[k], actions[k]);
  }

  // ---- the code ----

  datatype Fault = NotFound | Conflict | Unavailable

  /** What surrounds one attempt: the versions others store before the read and between read and write,
      whether the server cannot be reached, and whether the answer to the write is lost. */
  datatype Attempt = Attempt(before: seq<Option<Status>>, down: bool, between: seq<Option<Status>>, lost: bool)

  /** The operator's client: the versions the API server has stored, and the events recorded. */
  class Client {
    var history: seq<Option<Status>>
    var events: seq<Event>

    constructor (stored: Option<Status>)
      ensures history == [stored] && events == []
    {
      history, events := [stored], [];
    }

    /** Reads, compares and writes until the write meets the version that was read. `at` is the
        version that settled the call, which the caller's object takes over. */
    method UpdateStatusWithRetry(desired: Status, world: nat -> Attempt)
      returns (previous: Option<Status>, changed: bool, fault: Option<Fault>, at: nat, attempts: nat)
      requires |history| > 0
      modifies this`history
      ensures old(history) <= history && 1 <= attempts <= 5
      // a change: the status it overwrote, at adjacent versions
      ensures changed ==> fault.None? && previous.Some? && previous.value != desired
      ensures changed ==> |old(history)| <= at && Committed(history, at, previous.value, desired)
      // no change and no error: what is desired was stored already
      ensures !changed && fault.None? ==> previous == Some(desired)
      ensures !changed && fault.None? ==> |old(history)| - 1 <= at < |history| && history[at] == Some(desired)
      // an error only for its own reason, and a conflict only after five of them
      ensures fault == Some(Unavailable) ==> world(attempts - 1).down || world(attempts - 1).lost
      ensures fault == Some(NotFound) ==> history[|history| - 1].None?
      ensures fault == Some(Conflict) ==> attempts == 5
      ensures forall n :: 0 <= n < attempts - 1 ==> !world(n).down && world(n).between != []
      ensures fault == Some(Conflict) ==> world(attempts - 1).between != []
    {
      previous, changed, fault, at, attempts := None, false, Some(Conflict), 0, 0;
      while attempts < Attempts && fault == Some(Conflict)
        invariant old(history) <= history && !changed && fault.Some? && attempts <= 5 && fault != Some(Unavailable)
        invariant fault != Some(Conflict) ==> attempts >= 1
        invariant fault == Some(NotFound) ==> history[|history| - 1].None?
        invariant forall n :: 0 <= n < attempts ==> !world(n).down && world(n).between != []
        decreases Attempts - attempts
      {
        var try := world(attempts);
        attempts := attempts + 1;
        history := history + try.before;
        var version := |history| - 1;
        if try.down || history[version].None? {
          return previous, false, Some(if try.down then Unavailable else NotFound), at, attempts;
        }
        previous, at := history[version], version;
        if previous.value == desired {
          return previous, false, None, at, attempts;
        }
        history := history + try.between;
        if |history| - 1 == version {
          history, at := history + [Some(desired)], version + 1;
          return previous, !try.lost, if try.lost then Some(Unavailable) else None, at, attempts;
        }
        fault := Some(if history[|history| - 1].None? then NotFound else Conflict);
      }
    }

    /** One status refresh. A committed write is announced with exactly the events that the change of the
        Degraded condition calls for, and nothing else is announced. */
    method UpdateStatus(base: Status, svc: Service, runtime: string, d: Deployment, pods: seq<Pod>, now: int, world: nat -> Attempt)
      returns (desired: Status, changed: bool, fault: Option<Fault>)
      requires |history| > 0
      modifies this
      ensures Coherent(desired) && old(history) <= history
      ensures fault.None? ==> exists v :: |old(history)| - 1 <= v < |history| && history[v] == Some(desired)
      ensures old(events) <= events
      ensures !changed ==> events == old(events)
      ensures changed ==> fault.None? && exists v: nat, previous {:trigger Committed(history, v, previous, desired)} ::
                |old(history)| <= v && Committed(history, v, previous, desired) &&
                Due(events[|old(events)|..], previous, desired, v)
      ensures desired.phase == Ready <==> d.readyReplicas > 0
      ensures Fails(desired) <==> DeadlineApplies(d, pods) || exists p :: p in pods && Active(p) && Failing(p)
    {
      var o := ObserveBackend(d, pods);
      desired := Refreshed(base, svc, runtime, d, AnyActive(pods), o, now);
      RefreshedCoherent(base, svc, runtime, d, AnyActive(pods), o, now);
      var previous, at, attempts;
      previous, changed, fault, at, attempts := UpdateStatusWithRetry(desired, world);
      if changed {
        AnnouncementIsDue(previous.value, desired, at);
        events := events + Announcement(previous.value, desired, at);
        assert events[|old(events)|..] == Announcement(previous.value, desired, at);
      }
    }
  }
}
