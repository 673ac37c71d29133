/** What the operator concludes about a backend from its Deployment and its Pods. */
module BackendObservation {
  import opened Common

  datatype Condition = Condition(kind: string, status: string, reason: string)

  datatype Container = Container(
    name: string,
    waiting: Option<string>,        // the reason it waits
    running: bool,
    terminated: Option<string>,     // the reason it terminated
    lastTerminated: Option<string>,
    restarts: int,
    ready: bool)

  datatype Pod = Pod(name: string, deleting: bool, phase: string, containers: seq<Container>, conditions: seq<Condition>)

  datatype Deployment = Deployment(replicas: int, readyReplicas: int, conditions: seq<Condition>)

  datatype Reason =
    | ImagePullFailed | OOMKilled | CrashLoopBackOff | ContainerRestarting
    | SchedulingDelayed | ModelLoading | Starting
    | ProgressDeadlineExceeded | Activating

  datatype Observation = Observation(reason: Reason, message: string, degraded: bool)

  const RepeatedRestartThreshold := 2

  const DeadlineFinding :=
    Observation(ProgressDeadlineExceeded, "Backend Deployment exceeded its progress deadline; inspect its Pods and events", true)

  const NoPodFinding :=
    Observation(Activating, "Waiting for the backend Deployment to create a serving Pod", false)

  // ---- classification of one Pod ----

  predicate Active(p: Pod) {
    !p.deleting && p.phase != "Succeeded" && p.phase != "Failed"
  }

  /** The first container status with the serving container's name. */
  function ServingContainer(cs: seq<Container>): (r: Option<Container>)
    ensures r.None? <==> forall i :: 0 <= i < |cs| ==> cs[i].name != "serving"
    ensures r.Some? ==> exists i :: 0 <= i < |cs| && cs[i] == r.value && cs[i].name == "serving" &&
                                    forall j :: 0 <= j < i ==> cs[j].name != "serving"
  {
    if cs == [] then None
    else if cs[0].name == "serving" then Some(cs[0])
    else
      var r := ServingContainer(cs[1..]);
      assert forall i :: 0 < i < |cs| ==> cs[i] == cs[1..][i - 1];
      assert forall i :: 0 <= i < |cs| - 1 ==> cs[1..][i] == cs[i + 1];
      r
  }

  predicate PullFailed(c: Container) {
    || c.waiting == Some("ErrImagePull") || c.waiting == Some("ImagePullBackOff")
    || c.waiting == Some("InvalidImageName") || c.waiting == Some("RegistryUnavailable")
  }

  predicate TerminatedByOOM(c: Container) {
    c.terminated == Some("OOMKilled") || c.lastTerminated == Some("OOMKilled")
  }

  predicate CrashLooping(c: Container) {
    c.waiting == Some("CrashLoopBackOff")
  }

  predicate Unschedulable(p: Pod) {
    Condition("PodScheduled", "False", "Unschedulable") in p.conditions
  }

  predicate DeadlineExceeded(d: Deployment) {
    Condition("Progressing", "False", "ProgressDeadlineExceeded") in d.conditions
  }

  function Classify(p: Pod): Reason {
    var c := ServingContainer(p.containers);
    if c.Some? && PullFailed(c.value) then ImagePullFailed
    else if c.Some? && TerminatedByOOM(c.value) then OOMKilled
    else if c.Some? && CrashLooping(c.value) then CrashLoopBackOff
    else if c.Some? && c.value.restarts >= RepeatedRestartThreshold then ContainerRestarting
    else if Unschedulable(p) then SchedulingDelayed
    else if c.Some? && c.value.running && !c.value.ready then ModelLoading
    else Starting
  }

  function Advice(r: Reason): string {
    match r
    case ImagePullFailed => " cannot pull its serving image; check the image and imagePullSecrets"
    case OOMKilled => " was OOMKilled; inspect its memory limit and model runtime requirements"
    case CrashLoopBackOff => " is in CrashLoopBackOff; inspect its serving-container logs and configuration"
    case ContainerRestarting => " repeatedly restarted; inspect its serving-container logs and exit reason"
    case SchedulingDelayed => " is unschedulable; inspect accelerator capacity, selectors, tolerations, and scheduler events"
    case ModelLoading => " is running while the model loads and readiness checks complete"
    case _ => " is starting"
  }

  predicate Degrades(r: Reason) {
    r == ImagePullFailed || r == OOMKilled || r == CrashLoopBackOff || r == ContainerRestarting
  }

  // A Pod name holds no character that quoting would escape.
  function Told(r: Reason, name: string): Observation {
    Observation(r, "Backend Pod \"" + name + "\"" + Advice(r), Degrades(r))
  }

  function ObservePod(p: Pod): Observation {
    Told(Classify(p), p.name)
  }

  /** A Pod whose serving container fails in any of the four ways the operator knows. */
  predicate Failing(p: Pod) {
    var c := ServingContainer(p.containers);
    && c.Some?
    && (PullFailed(c.value) || TerminatedByOOM(c.value) || CrashLooping(c.value) || c.value.restarts >= RepeatedRestartThreshold)
  }

  // ---- the order of observations ----

  function Priority(r: Reason): int {
    match r
    case ImagePullFailed => 0
    case OOMKilled => 1
    case CrashLoopBackOff => 2
    case ContainerRestarting => 3
    case SchedulingDelayed => 4
    case ModelLoading => 5
    case _ => 6
  }

  predicate TextBefore(a: string, b: string) {
    && |b| > 0
    && (|a| == 0 || a[0] < b[0] || (a[0] == b[0] && TextBefore(a[1..], b[1..])))
  }

  lemma {:induction false} TextTotal(a: string, b: string)
    ensures TextBefore(a, b) || TextBefore(b, a) || a == b
    ensures !(TextBefore(a, b) && TextBefore(b, a)) && !TextBefore(a, a)
  {
    if |a| > 0 { TextIrreflexive(a); }
    if |a| > 0 && |b| > 0 && a[0] == b[0] {
      TextTotal(a[1..], b[1..]);
      assert a == [a[0]] + a[1..] && b == [b[0]] + b[1..];
    }
  }

  lemma {:induction false} TextIrreflexive(a: string)
    ensures !TextBefore(a, a)
  {
    if |a| > 0 { TextIrreflexive(a[1..]); }
  }

  lemma {:induction false} TextTransitive(a: string, b: string, c: string)
    requires TextBefore(a, b) && TextBefore(b, c)
    ensures TextBefore(a, c)
  {
    if |a| > 0 && a[0] == b[0] == c[0] {
      TextTransitive(a[1..], b[1..], c[1..]);
    }
  }

  function Compare(a: Observation, b: Observation): int {
    var d := Priority(a.reason) - Priority(b.reason);
    if d != 0 then d
    else if TextBefore(a.message, b.message) then -1
    else if TextBefore(b.message, a.message) then 1
    else 0
  }

  lemma CompareTotal(a: Observation, b: Observation)
    ensures Compare(a, b) <= 0 || Compare(b, a) <= 0
    ensures Compare(a, b) <= 0 && Compare(b, a) <= 0 ==> Priority(a.reason) == Priority(b.reason) && a.message == b.message
  {
    TextTotal(a.message, b.message);
  }

  lemma CompareTransitive(a: Observation, b: Observation, c: Observation)
    requires Compare(a, b) <= 0 && Compare(b, c) <= 0
    ensures Compare(a, c) <= 0
  {
    TextTotal(a.message, b.message);
    TextTotal(b.message, c.message);
    TextTotal(a.message, c.message);
    if Priority(a.reason) == Priority(b.reason) == Priority(c.reason) &&
       TextBefore(a.message, b.message) && TextBefore(b.message, c.message) {
      TextTransitive(a.message, b.message, c.message);
    }
  }

  predicate Sorted(os: seq<Observation>) {
    forall i, j :: 0 <= i < j < |os| ==> Compare(os[i], os[j]) <= 0
  }

  lemma InsertSorted(os: seq<Observation>, o: Observation, k: nat)
    requires Sorted(os) && k <= |os|
    requires forall i :: 0 <= i < k ==> Compare(os[i], o) <= 0
    requires k < |os| ==> Compare(o, os[k]) <= 0
    ensures Sorted(os[..k] + [o] + os[k..])
  {
    forall j | k <= j < |os| ensures Compare(o, os[j]) <= 0 {
      if k < j { CompareTransitive(o, os[k], os[j]); }
    }
    var r := os[..k] + [o] + os[k..];
    forall i, j | 0 <= i < j < |r| ensures Compare(r[i], r[j]) <= 0 {
      var x := if i < k then i else i - 1;
      var y := if j < k then j else j - 1;
      assert i != k ==> r[i] == os[x];
      assert j != k ==> r[j] == os[y];
    }
  }

  method Insert(os: seq<Observation>, o: Observation) returns (r: seq<Observation>)
    requires Sorted(os)
    ensures Sorted(r) && multiset(r) == multiset(os) + multiset{o}
  {
    var k := 0;
    while k < |os| && Compare(os[k], o) <= 0
      invariant 0 <= k <= |os| && forall i :: 0 <= i < k ==> Compare(os[i], o) <= 0
    {
      k := k + 1;
    }
    r := os[..k] + [o] + os[k..];
    assert os == os[..k] + os[k..];
    if k < |os| { CompareTotal(os[k], o); }
    InsertSorted(os, o, k);
  }

  method Sort(os: seq<Observation>) returns (r: seq<Observation>)
    ensures Sorted(r) && multiset(r) == multiset(os)
  {
    r := [];
    for i := 0 to |os|
      invariant Sorted(r) && multiset(r) == multiset(os[..i])
    {
      assert os[..i + 1] == os[..i] + [os[i]];
      r := Insert(r, os[i]);
    }
    assert os[..|os|] == os;
  }

  // ---- the whole backend ----

  predicate AnyActive(pods: seq<Pod>) {
    exists p :: p in pods && Active(p)
  }

  predicate DeadlineApplies(d: Deployment, pods: seq<Pod>) {
    (d.replicas > 0 || d.readyReplicas > 0 || AnyActive(pods)) && DeadlineExceeded(d)
  }

  // `o` is the gravest observation of an active Pod.
  ghost predicate Gravest(pods: seq<Pod>, o: Observation) {
    && (exists p :: p in pods && Active(p) && o == ObservePod(p))
    && (forall p :: p in pods && Active(p) ==> Compare(o, ObservePod(p)) <= 0)
  }

  /** What is reported: an exceeded deadline first, then the gravest Pod, then that there is none. */
  ghost predicate Reports(d: Deployment, pods: seq<Pod>, o: Observation) {
    if DeadlineApplies(d, pods) then o == DeadlineFinding
    else if AnyActive(pods) then Gravest(pods, o)
    else o == NoPodFinding
  }

  // The observations of the active Pods, in the order of the list.
  function Observed(pods: seq<Pod>): seq<Observation> {
    if pods == [] then []
    else
      var p := pods[|pods| - 1];
      Observed(pods[..|pods| - 1]) + (if Active(p) then [ObservePod(p)] else [])
  }

  lemma ObservedMembers(pods: seq<Pod>)
    ensures forall o :: o in Observed(pods) ==> exists p :: p in pods && Active(p) && o == ObservePod(p)
    ensures forall p :: p in pods && Active(p) ==> ObservePod(p) in Observed(pods)
    ensures |Observed(pods)| > 0 <==> AnyActive(pods)
  {
  }

  method ActiveObservations(pods: seq<Pod>) returns (os: seq<Observation>)
    ensures os == Observed(pods)
  {
    os := [];
    for i := 0 to |pods|
      invariant os == Observed(pods[..i])
    {
      assert pods[..i + 1][..i] == pods[..i];
      if Active(pods[i]) {
        os := os + [ObservePod(pods[i])];
      }
    }
    assert pods[..|pods|] == pods;
  }

  method ObserveBackend(d: Deployment, pods: seq<Pod>) returns (o: Observation)
    ensures Reports(d, pods, o)
    ensures o.degraded <==> DeadlineApplies(d, pods) || exists p :: p in pods && Active(p) && Failing(p)
  {
    var observations := ActiveObservations(pods);
    ObservedMembers(pods);
    if (d.replicas > 0 || d.readyReplicas > 0 || |observations| > 0) && DeadlineExceeded(d) {
      o := DeadlineFinding;
    } else {
      var sorted := Sort(observations);
      HeadIsLeast(observations, sorted);
      o := if |sorted| > 0 then sorted[0] else NoPodFinding;
    }
    DegradedExactly(d, pods, o);
  }

  lemma HeadIsLeast(os: seq<Observation>, sorted: seq<Observation>)
    requires Sorted(sorted) && multiset(sorted) == multiset(os)
    ensures |sorted| == |os|
    ensures |os| > 0 ==> sorted[0] in os && forall o :: o in os ==> Compare(sorted[0], o) <= 0
  {
    assert |multiset(sorted)| == |multiset(os)|;
    if |os| > 0 {
      assert sorted[0] in multiset(os);
      forall o | o in os ensures Compare(sorted[0], o) <= 0 {
        assert o in multiset(sorted);
        var k :| 0 <= k < |sorted| && sorted[k] == o;
        TextTotal(o.message, o.message);
      }
    }
  }

  predicate OfPod(o: Observation) {
    o.degraded == Degrades(o.reason) && !o.reason.ProgressDeadlineExceeded? && !o.reason.Activating?
  }

  // The grave end of the order is the degraded one.
  lemma GraverDegrades(a: Observation, b: Observation)
    requires OfPod(a) && OfPod(b) && Compare(a, b) <= 0 && b.degraded
    ensures a.degraded
  {
  }

  lemma ClassifyKinds(p: Pod)
    ensures Degrades(Classify(p)) <==> Failing(p)
    ensures !Classify(p).ProgressDeadlineExceeded? && !Classify(p).Activating?
  {
  }

  lemma PodDegraded(p: Pod)
    ensures ObservePod(p).degraded <==> Failing(p)
    ensures OfPod(ObservePod(p))
  {
    ClassifyKinds(p);
  }

  // The cause `r` applies to Pod `p`, whatever else does.
  predicate Applies(p: Pod, r: Reason) {
    var c := ServingContainer(p.containers);
    match r
    case ImagePullFailed => c.Some? && PullFailed(c.value)
    case OOMKilled => c.Some? && TerminatedByOOM(c.value)
    case CrashLoopBackOff => c.Some? && CrashLooping(c.value)
    case ContainerRestarting => c.Some? && c.value.restarts >= RepeatedRestartThreshold
    case SchedulingDelayed => Unschedulable(p)
    case ModelLoading => c.Some? && c.value.running && !c.value.ready
    case Starting => true
    case _ => false
  }

  /** The branches that classify a Pod and the table that ranks the classes agree: a Pod is reported
      with the gravest cause that applies to it. */
  lemma GravestCause(p: Pod)
    ensures Applies(p, Classify(p))
    ensures forall r :: Applies(p, r) ==> Priority(Classify(p)) <= Priority(r)
  {
  }

  /** No active Pod has a graver cause than the one that is reported. */
  lemma NothingGraver(d: Deployment, pods: seq<Pod>, o: Observation, p: Pod, r: Reason)
    requires Reports(d, pods, o) && !DeadlineApplies(d, pods)
    requires p in pods && Active(p) && Applies(p, r)
    ensures Priority(o.reason) <= Priority(r)
  {
    GravestCause(p);
    assert Compare(o, ObservePod(p)) <= 0;
  }

  // ---- what the classes stand for ----

  /** The four ways to fail, in the words of the container status: the image cannot be pulled for one of
      four reasons, it was killed for memory now or before, it is backing off from crashes, or it has
      restarted more than once. */
  lemma FailingMeans(p: Pod, c: Container)
    requires ServingContainer(p.containers) == Some(c)
    ensures Failing(p) <==>
      || (c.waiting.Some? && c.waiting.value in
            {"ErrImagePull", "ImagePullBackOff", "InvalidImageName", "RegistryUnavailable", "CrashLoopBackOff"})
      || (c.terminated.Some? && c.terminated.value == "OOMKilled")
      || (c.lastTerminated.Some? && c.lastTerminated.value == "OOMKilled")
      || c.restarts > 1
  {
  }

  lemma WaitingMeans(p: Pod, c: Container)
    requires ServingContainer(p.containers) == Some(c) && !Failing(p)
    ensures Classify(p) == SchedulingDelayed <==> Condition("PodScheduled", "False", "Unschedulable") in p.conditions
    ensures Classify(p) == ModelLoading <==>
      c.running && !c.ready && Condition("PodScheduled", "False", "Unschedulable") !in p.conditions
  {
  }

  lemma DeadlineMeans(d: Deployment)
    ensures DeadlineExceeded(d) <==> exists i :: 0 <= i < |d.conditions| && SaysDeadline(d.conditions[i])
  {
    if i :| 0 <= i < |d.conditions| && SaysDeadline(d.conditions[i]) {
      assert d.conditions[i] == Condition("Progressing", "False", "ProgressDeadlineExceeded");
    }
  }

  predicate SaysDeadline(c: Condition) {
    c.kind == "Progressing" && c.status == "False" && c.reason == "ProgressDeadlineExceeded"
  }

  /** From the gravest to the least grave. */
  lemma PriorityOrder()
    ensures Priority(ImagePullFailed) < Priority(OOMKilled) < Priority(CrashLoopBackOff) < Priority(ContainerRestarting)
    ensures Priority(ContainerRestarting) < Priority(SchedulingDelayed) < Priority(ModelLoading) < Priority(Starting)
  {
  }

  /** The message names the Pod it is about. */
  lemma MessageNamesPod(p: Pod)
    ensures exists i, j :: 0 <= i <= j <= |ObservePod(p).message| && ObservePod(p).message[i..j] == "\"" + p.name + "\""
  {
    var quoted, tail := "\"" + p.name + "\"", Advice(Classify(p));
    assert "Backend Pod \"" + p.name + "\"" == "Backend Pod " + quoted;
    Infix("Backend Pod ", quoted, tail);
    var m, i := ObservePod(p).message, |"Backend Pod "|;
    assert m == "Backend Pod " + quoted + tail;
    assert m[i..i + |quoted|] == quoted;
  }

  lemma Infix(head: string, part: string, tail: string)
    ensures |head| + |part| <= |head + part + tail| && (head + part + tail)[|head|..|head| + |part|] == part
  {
  }

  // The Pod is on its way out or done.
  predicate Finished(p: Pod) {
    p.deleting || p.phase == "Succeeded" || p.phase == "Failed"
  }

  lemma ActiveUnlessFinished(p: Pod)
    ensures Active(p) <==> !Finished(p)
  {
  }

  /** A finished Pod makes no difference to what is reported. */
  lemma FinishedPodsIgnored(d: Deployment, pods: seq<Pod>, p: Pod, o: Observation)
    requires Finished(p)
    ensures Reports(d, pods + [p], o) <==> Reports(d, pods, o)
  {
    var more := pods + [p];
    assert forall q :: q in more && Active(q) <==> q in pods && Active(q);
    assert AnyActive(more) == AnyActive(pods);
    assert Gravest(more, o) <==> Gravest(pods, o);
  }

  /** Text order is the order of dictionaries: at the first difference the smaller character comes first,
      and a beginning comes before the whole. */
  lemma {:induction false} TextBeforeMeans(a: string, b: string)
    ensures TextBefore(a, b) <==>
      exists i :: 0 <= i <= |a| && i < |b| && a[..i] == b[..i] && (i == |a| || a[i] < b[i])
  {
    if |a| == 0 && |b| > 0 {
      assert a[..0] == b[..0];
    } else if |a| > 0 && |b| > 0 {
      if a[0] < b[0] { assert a[..0] == b[..0]; }
      if a[0] == b[0] {
        TextBeforeMeans(a[1..], b[1..]);
        if i :| 0 <= i <= |a[1..]| && i < |b[1..]| && a[1..][..i] == b[1..][..i] && (i == |a[1..]| || a[1..][i] < b[1..][i]) {
          assert a[..i + 1] == [a[0]] + a[1..][..i] && b[..i + 1] == [b[0]] + b[1..][..i];
        }
        if i :| 0 <= i <= |a| && i < |b| && a[..i] == b[..i] && (i == |a| || a[i] < b[i]) {
          assert i > 0;
          assert a[1..][..i - 1] == a[..i][1..] && b[1..][..i - 1] == b[..i][1..];
        }
      } else {
        forall i | 1 <= i <= |a| && i < |b| ensures a[..i] != b[..i] {
          assert a[..i][0] == a[0] && b[..i][0] == b[0];
        }
      }
    }
  }

  /** Among Pods with the same cause the report names the one whose message comes first. */
  lemma FirstMessageNamed(d: Deployment, pods: seq<Pod>, o: Observation, p: Pod)
    requires Reports(d, pods, o) && !DeadlineApplies(d, pods) && p in pods && Active(p) && Classify(p) == o.reason
    ensures ObservePod(p).message == o.message || TextBefore(o.message, ObservePod(p).message)
  {
    EarlierMessage(o, ObservePod(p));
  }

  lemma EarlierMessage(a: Observation, b: Observation)
    requires Compare(a, b) <= 0 && a.reason == b.reason
    ensures b.message == a.message || TextBefore(a.message, b.message)
  {
    TextTotal(a.message, b.message);
  }

  /** Degraded is reported exactly if the deadline passed or some active Pod fails, whichever Pod
      the report names. */
  lemma DegradedExactly(d: Deployment, pods: seq<Pod>, o: Observation)
    requires Reports(d, pods, o)
    ensures o.degraded <==> DeadlineApplies(d, pods) || exists p :: p in pods && Active(p) && Failing(p)
  {
    if !DeadlineApplies(d, pods) && AnyActive(pods) {
      var shown :| shown in pods && Active(shown) && o == ObservePod(shown);
      PodDegraded(shown);
      forall p | p in pods && Active(p) && Failing(p) ensures o.degraded {
        PodDegraded(p);
        GraverDegrades(o, ObservePod(p));
      }
    }
  }

  // No two different observations of Pods rank equal.
  lemma RankDetermines(a: Observation, b: Observation)
    requires Compare(a, b) <= 0 && Compare(b, a) <= 0
    requires OfPod(a) && OfPod(b)
    ensures a == b
  {
    CompareTotal(a, b);
    assert Priority(a.reason) == Priority(b.reason);
  }

  lemma GravestUnique(pods: seq<Pod>, o: Observation, o': Observation)
    requires Gravest(pods, o) && Gravest(pods, o')
    ensures o == o'
  {
    var p :| p in pods && Active(p) && o == ObservePod(p);
    var q :| q in pods && Active(q) && o' == ObservePod(q);
    PodDegraded(p);
    PodDegraded(q);
    RankDetermines(o, o');
  }

  lemma SameMembers(pods: seq<Pod>, pods': seq<Pod>)
    requires multiset(pods) == multiset(pods')
    ensures forall p :: p in pods <==> p in pods'
  {
    forall p ensures p in pods <==> p in pods' {
      assert p in pods <==> p in multiset(pods);
      assert p in pods' <==> p in multiset(pods');
    }
  }

  /** The order in which the Pods are listed does not matter, and two readings of the same Pods
      report the same. */
  lemma PodOrderIrrelevant(d: Deployment, pods: seq<Pod>, pods': seq<Pod>, o: Observation, o': Observation)
    requires multiset(pods) == multiset(pods')
    requires Reports(d, pods, o) && Reports(d, pods', o')
    ensures o == o'
  {
    SameMembers(pods, pods');
    assert AnyActive(pods) == AnyActive(pods');
    if !DeadlineApplies(d, pods) && AnyActive(pods) {
      assert Gravest(pods, o');
      GravestUnique(pods, o, o');
    }
  }
}
