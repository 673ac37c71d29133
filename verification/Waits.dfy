/** The bounded loops in which a cold request waits for its backend. */
module Waits {
  import opened Common

  datatype Result = BackendReady | TimedOut | ClientClosed

  /** What the surroundings do during one round of a loop: whether the client is gone when the round
      begins, what the readiness check answers, the three clock readings in their order, whether a
      heartbeat can be written, and whether the client leaves while the round sleeps. */
  datatype Round = Round(gone: bool, ready: bool, test: int, beat: int, beaten: int, writable: bool, leaves: bool)

  /** The clock never runs backward, and every sleep takes at least the retry interval. */
  ghost predicate Timed(world: nat -> Round, start: int, retry: int) {
    && start <= world(0).test
    && forall k: nat :: world(k).test <= world(k).beat <= world(k).beaten && world(k).beaten + retry <= world(k + 1).test
  }

  // Time passes by at least one retry interval a round.
  lemma {:induction false} Elapsed(world: nat -> Round, start: int, retry: int, k: nat)
    requires Timed(world, start, retry)
    ensures world(k).test >= start + k * retry
  {
    if k > 0 {
      Elapsed(world, start, retry, k - 1);
      assert world(k - 1).beaten + retry <= world(k - 1 + 1).test;
      assert k * retry == (k - 1) * retry + retry;
    }
  }

  // After the round that lies past the deadline there is no other.
  lemma RoundsBounded(world: nat -> Round, start: int, retry: int, timeout: int, k: nat)
    requires Timed(world, start, retry) && retry > 0 && timeout >= 0
    requires world(k).test <= start + timeout
    ensures k <= timeout / retry
  {
    Elapsed(world, start, retry, k);
    if k > timeout / retry {
      QuotientBelow(timeout, retry, k);
    }
  }

  /** Waits without writing anything. `rounds` counts the rounds begun; only the last one decides. */
  method WaitForBackend(world: nat -> Round, start: int, timeout: int, retry: int) returns (result: Result, rounds: nat)
    requires Timed(world, start, retry) && retry > 0 && timeout > 0
    ensures 1 <= rounds <= timeout / retry + 2
    ensures forall k :: 0 <= k < rounds - 1 ==> !world(k).ready && !world(k).gone && !world(k).leaves && world(k).test <= start + timeout
    ensures var last := world(rounds - 1);
      && (result == BackendReady <==> last.ready && !last.gone)
      && (result == TimedOut <==> !last.ready && !last.gone && last.test > start + timeout)
      && (result == ClientClosed <==> last.gone || (!last.ready && last.test <= start + timeout && last.leaves))
  {
    var deadline := start + timeout;
    rounds := 0;
    while true
      invariant rounds <= timeout / retry + 1
      invariant forall k :: 0 <= k < rounds ==> !world(k).ready && !world(k).gone && !world(k).leaves && world(k).test <= deadline
      decreases timeout / retry + 2 - rounds
    {
      var r := world(rounds);
      rounds := rounds + 1;
      if r.gone { return ClientClosed, rounds; }
      if r.ready { return BackendReady, rounds; }
      if r.test > deadline { return TimedOut, rounds; }
      RoundsBounded(world, start, retry, timeout, rounds - 1);
      if r.leaves { return ClientClosed, rounds; }
    }
  }

  // ---- responses ----

  datatype Piece = Heartbeat | StreamError | ErrorText | Upstream

  class Response {
    var status: Option<int>
    var headerWrites: nat          // calls of WriteHeader that reached the connection
    var retryAfter: Option<int>
    var body: seq<Piece>

    constructor ()
      ensures status == None && headerWrites == 0 && retryAfter == None && body == []
    {
      status, headerWrites, retryAfter, body := None, 0, None, [];
    }

    /** Only the first status counts; a later one is dropped by the server. */
    method WriteHeader(code: int)
      modifies this`status, this`headerWrites
      ensures status == (if old(status).None? then Some(code) else old(status))
      ensures headerWrites == old(headerWrites) + 1
    {
      headerWrites := headerWrites + 1;
      if status.None? { status := Some(code); }
    }

    /** Writing before any status commits 200. */
    method Write(piece: Piece)
      modifies this`status, this`body
      ensures status == (if old(status).None? then Some(200) else old(status))
      ensures body == old(body) + [piece]
    {
      if status.None? { status := Some(200); }
      body := body + [piece];
    }
  }

  /** Wraps a response that has been committed while its request was held: the status the backend
      answers with is dropped. */
  class CommittedWriter {
    const inner: Response

    constructor (inner: Response)
      ensures this.inner == inner
    {
      this.inner := inner;
    }

    method WriteHeader(code: int)
      ensures inner.status == old(inner.status) && inner.headerWrites == old(inner.headerWrites)
    {
    }
  }

  /** Wraps a response to remember the status that is written. */
  class StatusRecorder {
    const inner: Response
    var status: int

    constructor (inner: Response)
      ensures this.inner == inner && status == 200
    {
      this.inner := inner;
      status := 200;
    }

    /** What is recorded is what is committed, unless something was committed before. */
    method WriteHeader(code: int)
      modifies this`status, inner`status, inner`headerWrites
      ensures status == code && inner.headerWrites == old(inner.headerWrites) + 1
      ensures old(inner.status).None? ==> inner.status == Some(status)
      ensures old(inner.status).Some? ==> inner.status == old(inner.status)
    {
      status := code;
      inner.WriteHeader(code);
    }
  }

  // ---- heartbeats ----

  /** The time of the last heartbeat, or of the opening of the stream, when round `k` begins. */
  function LastBeat(world: nat -> Round, since: int, interval: int, k: nat): int
    decreases k, 0
  {
    if k == 0 then since
    else if Beats(world, since, interval, k - 1) then world(k - 1).beaten
    else LastBeat(world, since, interval, k - 1)
  }

  // Whether round `k` sends a heartbeat, if it gets that far.
  predicate Beats(world: nat -> Round, since: int, interval: int, k: nat)
    decreases k, 1
  {
    world(k).beat - LastBeat(world, since, interval, k) >= interval
  }

  function Heartbeats(world: nat -> Round, since: int, interval: int, k: nat): seq<Piece> {
    if k == 0 then []
    else Heartbeats(world, since, interval, k - 1) + (if Beats(world, since, interval, k - 1) then [Heartbeat] else [])
  }

  lemma {:induction false} LastBeatGrows(world: nat -> Round, since: int, interval: int, start: int, retry: int, j: nat, k: nat)
    requires Timed(world, start, retry) && retry > 0 && interval > 0
    requires j < k && Beats(world, since, interval, j)
    ensures world(j).beaten <= LastBeat(world, since, interval, k) <= world(k - 1).beaten
    decreases k
  {
    if j < k - 1 {
      LastBeatGrows(world, since, interval, start, retry, j, k - 1);
      assert world(k - 2).beaten + retry <= world(k - 2 + 1).test <= world(k - 1).beaten;
    }
  }

  /** Heartbeats are at least an interval apart. */
  lemma HeartbeatSpacing(world: nat -> Round, since: int, interval: int, start: int, retry: int, j: nat, k: nat)
    requires Timed(world, start, retry) && retry > 0 && interval > 0 && j < k
    requires Beats(world, since, interval, j) && Beats(world, since, interval, k)
    ensures world(k).beat - world(j).beaten >= interval
  {
    LastBeatGrows(world, since, interval, start, retry, j, k);
  }

  /** No round falls asleep with a heartbeat overdue. */
  lemma NeverOverdue(world: nat -> Round, since: int, interval: int, start: int, retry: int, k: nat)
    requires Timed(world, start, retry) && interval > 0
    ensures world(k).beat - LastBeat(world, since, interval, k + 1) < interval
  {
    assert world(k).beat <= world(k).beaten;
  }

  // In round `k` a heartbeat is due and cannot be written.
  predicate BeatFails(world: nat -> Round, since: int, interval: int, k: nat) {
    Beats(world, since, interval, k) && !world(k).writable
  }

  /** Commits an event stream if the connection can flush, then waits like WaitForBackend, with heartbeats. */
  method HoldWithHeartbeat(w: Response, goneAlready: bool, flushable: bool,
                           world: nat -> Round, start: int, timeout: int, retry: int, since: int, interval: int)
    returns (result: Result, committed: bool, rounds: nat)
    requires Timed(world, start, retry) && retry > 0 && timeout > 0 && interval > 0
    modifies w
    ensures w.retryAfter == old(w.retryAfter)
    ensures committed == (!goneAlready && flushable)
    ensures goneAlready ==> result == ClientClosed && rounds == 0
    ensures !goneAlready ==> 1 <= rounds <= timeout / retry + 2
    // only the last round decides
    ensures forall k :: 0 <= k < rounds - 1 ==> !world(k).ready && !world(k).leaves && world(k).test <= start + timeout
    ensures !goneAlready ==>
      var last := world(rounds - 1);
      && (result == BackendReady <==> last.ready && (committed || !last.gone))
      && (result == TimedOut <==> !last.ready && last.test > start + timeout && (committed || !last.gone))
    ensures committed ==> forall k :: 0 <= k < rounds - 1 ==> !BeatFails(world, since, interval, k)
    ensures committed ==>
      var last := world(rounds - 1);
      result == ClientClosed <==> !last.ready && last.test <= start + timeout && (BeatFails(world, since, interval, rounds - 1) || last.leaves)
    // what the client is sent
    ensures !committed ==> w.status == old(w.status) && w.headerWrites == old(w.headerWrites) && w.body == old(w.body)
    ensures committed ==> w.status == (if old(w.status).None? then Some(200) else old(w.status)) && w.headerWrites == old(w.headerWrites) + 1
    ensures committed ==>
      var asleep := result == ClientClosed && !BeatFails(world, since, interval, rounds - 1);
      w.body == old(w.body) + Heartbeats(world, since, interval, if asleep then rounds else rounds - 1)
  {
    rounds := 0;
    if goneAlready { return ClientClosed, false, 0; }
    if !flushable {
      result, rounds := WaitForBackend(world, start, timeout, retry);
      return result, false, rounds;
    }
    w.WriteHeader(200);
    var deadline := start + timeout;
    var lastBeat := since;
    ghost var before := w.body;
    while true
      invariant rounds <= timeout / retry + 1
      invariant forall k :: 0 <= k < rounds ==> !world(k).ready && !world(k).leaves && world(k).test <= deadline
      invariant forall k :: 0 <= k < rounds ==> !BeatFails(world, since, interval, k)
      invariant lastBeat == LastBeat(world, since, interval, rounds)
      invariant w.body == before + Heartbeats(world, since, interval, rounds)
      invariant w.status == (if old(w.status).None? then Some(200) else old(w.status))
      invariant w.headerWrites == old(w.headerWrites) + 1 && w.retryAfter == old(w.retryAfter)
      decreases timeout / retry + 2 - rounds
    {
      var r := world(rounds);
      rounds := rounds + 1;
      if r.ready { return BackendReady, true, rounds; }
      if r.test > deadline { return TimedOut, true, rounds; }
      if r.beat - lastBeat >= interval {
        if !r.writable { return ClientClosed, true, rounds; }
        w.Write(Heartbeat);
        lastBeat := r.beaten;
      }
      RoundsBounded(world, start, retry, timeout, rounds - 1);
      if r.leaves { return ClientClosed, true, rounds; }
    }
  }
}
