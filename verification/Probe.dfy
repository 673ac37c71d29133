/** The shared readiness probe: at most one in flight, its result reused for a retry interval. */
module Probe {
  import opened Common

  // A caller of backendReady.
  datatype Pc =
    | Enter                     // about to read the clock
    | Sampled(now: int)         // about to enter the first critical section
    | Awaiting(probe: nat)      // waiting for another caller's probe to finish
    | Probing(probe: nat)       // running the probe, then the second critical section
    | Returned(ready: bool)

  // `starts` and `ends` are the times at which probes were begun and completed, `results` what they
  // found. A probe's number is its place in `starts`.
  datatype State = State(
    retry: int,
    clock: int,
    at: Option<int>,
    ready: bool,
    done: Option<nat>,
    closed: set<nat>,
    starts: seq<int>,
    ends: seq<int>,
    results: seq<bool>,
    threads: seq<Pc>)
  {
    function Move(i: nat, pc: Pc): State
      requires i < |threads|
    {
      this.(threads := threads[i := pc])
    }
  }

  predicate Initial(s: State) {
    && s.retry > 0 && s.at == None && !s.ready && s.done == None && s.closed == {}
    && s.starts == [] && s.ends == [] && s.results == [] && s.threads == []
  }

  /** The cached result is used while the sample is less than a retry interval past the last probe. */
  predicate Cached(s: State, now: int) {
    s.at.Some? && now - s.at.value < s.retry
  }

  datatype Action = Tick(elapsed: nat) | Call | Thread(id: nat, choice: nat)

  function Advance(s: State, i: nat, choice: nat): Option<State>
    requires i < |s.threads|
  {
    match s.threads[i]
    case Enter => Some(s.Move(i, Sampled(s.clock)))
    case Sampled(now) =>
      if Cached(s, now) then Some(s.Move(i, Returned(s.ready)))
      else if s.done.Some? then Some(s.Move(i, Awaiting(s.done.value)))
      else
        var probe := |s.starts|;
        Some(s.(done := Some(probe), starts := s.starts + [s.clock]).Move(i, Probing(probe)))
    case Awaiting(probe) =>
      if choice == 0 then Some(s.Move(i, Returned(false)))   // the caller's context ended
      else if probe in s.closed then Some(s.Move(i, Enter))
      else None
    case Probing(probe) =>
      var ready := choice == 0;
      Some(s.(at := Some(s.clock), ready := ready, done := None, closed := s.closed + {probe},
              ends := s.ends + [s.clock], results := s.results + [ready]).Move(i, Returned(ready)))
    case Returned(_) => None
  }

  function Step(s: State, a: Action): Option<State> {
    match a
    case Tick(elapsed) => Some(s.(clock := s.clock + elapsed))
    case Call => Some(s.(threads := s.threads + [Enter]))
    case Thread(id, choice) => if id < |s.threads| then Advance(s, id, choice) else None
  }

  predicate Run(states: seq<State>, actions: seq<Action>) {
    && |states| == |actions| + 1 && Initial(states[0])
    && forall k {:trigger actions[k]} :: 0 <= k < |actions| ==> Step(states[k], actions[k]) == Some(states[k + 1])
  }

  // ---- the invariant ----

  predicate InFlight(pc: Pc) { pc.Probing? }

  /** Exactly while `done` is set, one caller is probing, and it is the one that will close it. */
  ghost predicate OneProber(s: State) {
    && Count(s.threads, InFlight) == (if s.done.Some? then 1 else 0)
    && |s.starts| == |s.ends| + (if s.done.Some? then 1 else 0)
    && (s.done.Some? ==> s.done.value == |s.ends|)
    && (forall i :: 0 <= i < |s.threads| && s.threads[i].Probing? ==> s.done == Some(s.threads[i].probe))
  }

  ghost predicate Bookkeeping(s: State) {
    && (forall p :: p in s.closed <==> 0 <= p < |s.ends|)
    && |s.results| == |s.ends|
    && (if s.ends == [] then s.at.None?
        else s.at == Some(s.ends[|s.ends| - 1]) && s.ready == s.results[|s.ends| - 1])
  }

  predicate CallerOk(s: State, pc: Pc) {
    && (pc.Awaiting? ==> pc.probe < |s.starts|)
    && (pc.Sampled? ==> pc.now <= s.clock)
  }

  ghost predicate CallersOk(s: State) {
    forall i :: 0 <= i < |s.threads| ==> CallerOk(s, s.threads[i])
  }

  // Probe `k` starts a retry interval after the one before it has ended.
  predicate Rests(s: State, k: nat)
    requires 0 < k < |s.starts| && |s.starts| <= |s.ends| + 1
  {
    s.ends[k - 1] + s.retry <= s.starts[k]
  }

  ghost predicate Spaced(s: State) {
    && |s.ends| <= |s.starts| <= |s.ends| + 1
    && (forall k :: 0 <= k < |s.starts| ==> s.starts[k] <= s.clock)
    && (forall k :: 0 <= k < |s.ends| ==> s.starts[k] <= s.ends[k] <= s.clock)
    && (forall k :: 0 < k < |s.starts| ==> Rests(s, k))
  }

  ghost predicate Inv(s: State) {
    s.retry > 0 && OneProber(s) && Bookkeeping(s) && CallersOk(s) && Spaced(s)
  }

  lemma OneProberKept(s: State, i: nat, choice: nat, t: State)
    requires Inv(s) && i < |s.threads| && Advance(s, i, choice) == Some(t)
    ensures OneProber(t)
  {
    CountUpdate(s.threads, i, t.threads[i], InFlight);
    if s.threads[i].Probing? { CountWitness(s.threads, i, InFlight); }
    forall j | 0 <= j < |t.threads| && t.threads[j].Probing? ensures t.done == Some(t.threads[j].probe) {
      if j != i {
        assert t.threads[j] == s.threads[j];
        CountWitness(s.threads, j, InFlight);
      }
    }
  }

  lemma BookkeepingKept(s: State, i: nat, choice: nat, t: State)
    requires OneProber(s) && Bookkeeping(s) && i < |s.threads| && Advance(s, i, choice) == Some(t)
    ensures Bookkeeping(t)
  {
    if s.threads[i].Probing? {
      FinishBooked(s, s.threads[i].probe, t);
    }
  }

  lemma FinishBooked(s: State, probe: nat, t: State)
    requires Bookkeeping(s) && probe == |s.ends|
    requires t.closed == s.closed + {probe} && |t.results| == |s.results| + 1
    requires t.ends == s.ends + [s.clock] && t.at == Some(s.clock) && t.ready == t.results[|s.results|]
    ensures Bookkeeping(t)
  {
  }

  lemma CallersOkKept(s: State, i: nat, choice: nat, t: State)
    requires Inv(s) && i < |s.threads| && Advance(s, i, choice) == Some(t)
    ensures CallersOk(t)
  {
    forall j | 0 <= j < |t.threads| ensures CallerOk(t, t.threads[j]) {
      if j != i { assert t.threads[j] == s.threads[j] && CallerOk(s, s.threads[j]); }
    }
  }

  // A step starts a probe, finishes one, or does neither.
  predicate Starts(s: State, i: nat, t: State)
    requires i < |s.threads|
  {
    && s.threads[i].Sampled? && !Cached(s, s.threads[i].now) && s.done.None?
    && t.starts == s.starts + [s.clock] && t.ends == s.ends
  }

  predicate Finishes(s: State, i: nat, t: State)
    requires i < |s.threads|
  {
    s.threads[i].Probing? && t.starts == s.starts && t.ends == s.ends + [s.clock]
  }

  lemma TimesEffect(s: State, i: nat, choice: nat, t: State)
    requires i < |s.threads| && Advance(s, i, choice) == Some(t)
    ensures t.clock == s.clock && t.retry == s.retry
    ensures Starts(s, i, t) || Finishes(s, i, t) || (t.starts == s.starts && t.ends == s.ends)
  {
  }

  lemma SpacedKept(s: State, i: nat, t: State)
    requires OneProber(s) && Bookkeeping(s) && CallersOk(s) && Spaced(s) && i < |s.threads|
    requires t.clock == s.clock && t.retry == s.retry
    requires Starts(s, i, t) || Finishes(s, i, t) || (t.starts == s.starts && t.ends == s.ends)
    ensures Spaced(t)
  {
    assert CallerOk(s, s.threads[i]);
    if Starts(s, i, t) {
      StartSpaced(s, t);
    } else if Finishes(s, i, t) {
      FinishSpaced(s, t);
    } else {
      SameSpaced(s, t);
    }
  }

  lemma SameSpaced(s: State, t: State)
    requires Spaced(s) && t.starts == s.starts && t.ends == s.ends && t.clock >= s.clock && t.retry == s.retry
    ensures Spaced(t)
  {
    forall k | 0 < k < |t.starts| ensures Rests(t, k) { assert Rests(s, k); }
  }

  lemma StartSpaced(s: State, t: State)
    requires Spaced(s) && |s.starts| == |s.ends| && (s.ends != [] ==> s.ends[|s.ends| - 1] + s.retry <= s.clock)
    requires t.starts == s.starts + [s.clock] && t.ends == s.ends && t.clock == s.clock && t.retry == s.retry
    ensures Spaced(t)
  {
    forall k | 0 < k < |t.starts| ensures Rests(t, k) {
      if k < |s.starts| { assert Rests(s, k); }
    }
  }

  lemma FinishSpaced(s: State, t: State)
    requires Spaced(s) && |s.starts| == |s.ends| + 1
    requires t.ends == s.ends + [s.clock] && t.starts == s.starts && t.clock == s.clock && t.retry == s.retry
    ensures Spaced(t)
  {
    forall k | 0 < k < |t.starts| ensures Rests(t, k) { assert Rests(s, k); }
  }

  lemma TickKept(s: State, elapsed: nat)
    requires Inv(s)
    ensures Inv(s.(clock := s.clock + elapsed))
  {
    SameSpaced(s, s.(clock := s.clock + elapsed));
  }

  lemma CallOneProber(s: State, t: State)
    requires OneProber(s) && t.threads == s.threads + [Enter]
    requires t.done == s.done && t.starts == s.starts && t.ends == s.ends
    ensures OneProber(t)
  {
    CountAppend(s.threads, Enter, InFlight);
  }

  lemma CallCallersOk(s: State, t: State)
    requires CallersOk(s) && t.threads == s.threads + [Enter] && t.starts == s.starts && t.clock == s.clock
    ensures CallersOk(t)
  {
    forall j | 0 <= j < |t.threads| ensures CallerOk(t, t.threads[j]) {
      if j < |s.threads| { assert t.threads[j] == s.threads[j] && CallerOk(s, s.threads[j]); }
    }
  }

  lemma CallKept(s: State)
    requires Inv(s)
    ensures Inv(s.(threads := s.threads + [Enter]))
  {
    CallOneProber(s, s.(threads := s.threads + [Enter]));
    CallCallersOk(s, s.(threads := s.threads + [Enter]));
    SameSpaced(s, s.(threads := s.threads + [Enter]));
  }

  lemma ThreadKept(s: State, i: nat, choice: nat, t: State)
    requires Inv(s) && i < |s.threads| && Advance(s, i, choice) == Some(t)
    ensures Inv(t)
  {
    OneProberKept(s, i, choice, t);
    BookkeepingKept(s, i, choice, t);
    CallersOkKept(s, i, choice, t);
    TimesEffect(s, i, choice, t);
    SpacedKept(s, i, t);
  }

  lemma StepInv(s: State, a: Action, t: State)
    requires Inv(s) && Step(s, a) == Some(t)
    ensures Inv(t)
  {
    match a
    case Tick(elapsed) => TickKept(s, elapsed);
    case Call => CallKept(s);
    case Thread(id, choice) => ThreadKept(s, id, choice, t);
  }

  lemma {:induction false} RunInv(states: seq<State>, actions: seq<Action>, k: nat)
    requires Run(states, actions) && k < |states|
    ensures Inv(states[k])
  {
    if k == 0 {
      assert Count(states[0].threads, InFlight) == 0;
    } else {
      RunInv(states, actions, k - 1);
      assert Step(states[k - 1], actions[k - 1]) == Some(states[k]);
      StepInv(states[k - 1], actions[k - 1], states[k]);
    }
  }

  // ---- what holds in every run ----

  /** At most one probe is in flight, and whoever waits for a probe that is not finished waits for the
      one that some caller is running. */
  lemma SingleFlight(states: seq<State>, actions: seq<Action>, k: nat)
    requires Run(states, actions) && k < |states|
    ensures var s := states[k];
      && (forall i, j :: 0 <= i < |s.threads| && 0 <= j < |s.threads| && s.threads[i].Probing? && s.threads[j].Probing?
            ==> i == j)
      && (s.done.Some? <==> exists i :: 0 <= i < |s.threads| && s.threads[i].Probing?)
      && (forall i :: 0 <= i < |s.threads| && s.threads[i].Awaiting? && s.threads[i].probe !in s.closed ==>
            s.done == Some(s.threads[i].probe))
  {
    RunInv(states, actions, k);
    var s := states[k];
    if s.done.Some? { var i := CountFind(s.threads, InFlight); }
    forall i | 0 <= i < |s.threads| && s.threads[i].Awaiting? && s.threads[i].probe !in s.closed
      ensures s.done == Some(s.threads[i].probe)
    {
      assert CallerOk(s, s.threads[i]);
    }
    forall i | 0 <= i < |s.threads| && s.threads[i].Probing?
      ensures s.done.Some?
      ensures forall j :: 0 <= j < |s.threads| && j != i ==> !s.threads[j].Probing?
    {
      CountWitness(s.threads, i, InFlight);
    }
  }

  lemma {:induction false} StartsSpread(s: State, i: nat, n: nat)
    requires Spaced(s) && s.retry > 0 && i + n < |s.starts|
    ensures s.starts[i + n] - s.starts[i] >= n * s.retry
  {
    if n > 0 {
      StartsSpread(s, i, n - 1);
      OneMore(n - 1, s.retry);
      assert s.starts[i + n - 1] <= s.ends[i + n - 1] && Rests(s, i + n);
    }
  }

  lemma OneMore(n: int, d: int)
    ensures (n + 1) * d == n * d + d
  {
  }

  /** However stale the callers' clock samples are, probes begun within a window of length `window`
      number at most one more than the retry intervals that fit into it. */
  lemma ProbeRate(states: seq<State>, actions: seq<Action>, k: nat, i: nat, j: nat, window: nat)
    requires Run(states, actions) && k < |states| && i <= j < |states[k].starts|
    requires states[k].starts[j] - states[k].starts[i] <= window
    ensures states[k].retry > 0
    ensures j - i + 1 <= 1 + window / states[k].retry
  {
    RunInv(states, actions, k);
    var s := states[k];
    StartsSpread(s, i, j - i);
    if j - i > window / s.retry { QuotientBelow(window, s.retry, j - i); }
  }

  /** A caller answered from the cache gets the result of the latest completed probe, which ended less
      than a retry interval before the caller read the clock. */
  lemma CachedAnswer(states: seq<State>, actions: seq<Action>, k: nat, id: nat, choice: nat)
    requires Run(states, actions) && k < |actions| && actions[k] == Thread(id, choice) && id < |states[k].threads|
    requires states[k].threads[id].Sampled? && states[k + 1].threads[id].Returned?
    ensures var s := states[k];
      && s.ends != [] && |s.results| == |s.ends|
      && states[k + 1].threads[id].ready == s.results[|s.results| - 1]
      && s.threads[id].now < s.ends[|s.ends| - 1] + s.retry
  {
    RunInv(states, actions, k);
    assert Step(states[k], actions[k]) == Some(states[k + 1]);
  }

  /** The caller that ran the probe answers what the probe found, and exactly that is remembered. */
  lemma ProberAnswer(states: seq<State>, actions: seq<Action>, k: nat, id: nat, choice: nat)
    requires Run(states, actions) && k < |actions| && actions[k] == Thread(id, choice) && id < |states[k].threads|
    requires states[k].threads[id].Probing?
    ensures var s, t := states[k], states[k + 1];
      && |t.threads| == |s.threads| && t.threads[id] == Returned(choice == 0)
      && t.results == s.results + [choice == 0] && t.ends == s.ends + [s.clock]
      && t.at == Some(s.clock) && t.ready == (choice == 0) && t.done.None?
  {
    assert Step(states[k], actions[k]) == Some(states[k + 1]);
  }

  /** Whoever waits for another caller's probe never answers for itself except that its own request has
      ended; once that probe has finished it starts over. */
  lemma WaiterAnswer(states: seq<State>, actions: seq<Action>, k: nat, id: nat, choice: nat)
    requires Run(states, actions) && k < |actions| && actions[k] == Thread(id, choice) && id < |states[k].threads|
    requires states[k].threads[id].Awaiting?
    ensures var s, t := states[k], states[k + 1];
      && |t.threads| == |s.threads| && t.results == s.results
      && (t.threads[id] == Returned(false) || (t.threads[id] == Enter && s.threads[id].probe in s.closed))
      && (t.threads[id].Returned? <==> choice == 0)
  {
    assert Step(states[k], actions[k]) == Some(states[k + 1]);
  }

  /** A caller begins a probe exactly if the last one ended at least a retry interval before its clock
      sample, or there was none, and no probe is in flight; if one is, it waits for it. */
  lemma ProbesWhenStale(states: seq<State>, actions: seq<Action>, k: nat, id: nat, choice: nat)
    requires Run(states, actions) && k < |actions| && actions[k] == Thread(id, choice) && id < |states[k].threads|
    requires states[k].threads[id].Sampled?
    ensures var s, t := states[k], states[k + 1];
      var stale := s.ends == [] || s.ends[|s.ends| - 1] + s.retry <= s.threads[id].now;
      var busy := exists i :: 0 <= i < |s.threads| && s.threads[i].Probing?;
      && |t.threads| == |s.threads|
      && (t.threads[id].Probing? <==> stale && !busy) && (t.threads[id].Awaiting? <==> stale && busy)
      && (t.threads[id].Returned? <==> !stale)
      && t.starts == (if stale && !busy then s.starts + [s.clock] else s.starts)
  {
    RunInv(states, actions, k);
    SingleFlight(states, actions, k);
    assert Step(states[k], actions[k]) == Some(states[k + 1]);
  }

  // Where the answers come from: every answer `true` was found by a probe.
  predicate AnswersFound(s: State) {
    forall i :: 0 <= i < |s.threads| && s.threads[i] == Returned(true) ==> true in s.results
  }

  lemma AnswersStep(s: State, a: Action, t: State)
    requires Bookkeeping(s) && AnswersFound(s) && Step(s, a) == Some(t)
    ensures AnswersFound(t)
  {
    if a.Thread? {
      match s.threads[a.id]
      case Sampled(now) =>
        if Cached(s, now) && s.ready { assert s.results[|s.results| - 1] in s.results; }
      case Probing(_) =>
        assert forall b :: b in s.results ==> b in t.results;
        assert t.results[|s.results|] in t.results;
      case _ =>
    }
  }

  /** Nobody is told that the backend is ready unless a probe has found it ready. */
  lemma {:induction false} ReadyWasProbed(states: seq<State>, actions: seq<Action>, k: nat)
    requires Run(states, actions) && k < |states|
    ensures forall i :: 0 <= i < |states[k].threads| && states[k].threads[i] == Returned(true) ==> true in states[k].results
  {
    if k > 0 {
      ReadyWasProbed(states, actions, k - 1);
      RunInv(states, actions, k - 1);
      assert Step(states[k - 1], actions[k - 1]) == Some(states[k]);
      AnswersStep(states[k - 1], actions[k - 1], states[k]);
    }
  }

  /** A clock sample is a reading that the same caller made earlier in this call. */
  lemma {:induction false} SampleIsOwn(states: seq<State>, actions: seq<Action>, k: nat, id: nat) returns (j: nat)
    requires Run(states, actions) && k < |states| && id < |states[k].threads| && states[k].threads[id].Sampled?
    ensures j < k && id < |states[j].threads| && states[j].threads[id] == Enter && states[j + 1].threads == states[j].threads[id := states[k].threads[id]]
    ensures states[j].clock == states[k].threads[id].now
  {
    assert Step(states[k - 1], actions[k - 1]) == Some(states[k]);
    if actions[k - 1].Thread? && actions[k - 1].id == id {
      j := k - 1;
    } else {
      j := SampleIsOwn(states, actions, k - 1, id);
    }
  }
}
