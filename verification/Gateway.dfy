/** The gateway object: its defaults, its locked sections and the path of one request through it.
    The interleaving of many requests is the subject of GatewayMachine; the methods here are what one
    goroutine executes, with every clock reading passed in. */
module GatewayProcess {
  import opened Common
  import opened Activation
  import opened Waits
  import Mailboxes

  // Times are in milliseconds.
  datatype Settings = Settings(maxQueue: int, timeout: int, retry: int, heartbeat: int, grace: int, rejectsCold: bool)

  predicate Usable(c: Settings) {
    c.maxQueue > 0 && c.timeout > 0 && c.retry > 0 && c.heartbeat > 0 && c.grace > 0
  }

  /** What one request meets on its way. The clock is read when the pending count has changed, when the
      lease is renewed and announced, when the wait and the stream begin, and when the request leaves. */
  datatype Visit = Visit(
    warm: bool, stream: bool, goneAlready: bool, flushable: bool, upstream: int, world: nat -> Round,
    counted: int, sampled: int, renewed: int, start: int, since: int, left: int)

  // The request is held in an event stream that has been opened.
  predicate Held(v: Visit) {
    !v.warm && v.stream && v.flushable && !v.goneAlready
  }

  /** A wait of `rounds` rounds ended rightly with `outcome`: nothing happened before its last round, and
      ready, timed out and client closed each are what that round shows. */
  ghost predicate Waited(v: Visit, c: Settings, outcome: Result, rounds: nat)
    requires Usable(c)
  {
    if v.stream && v.goneAlready then outcome == ClientClosed && rounds == 0
    else
      && 1 <= rounds <= c.timeout / c.retry + 2
      && (forall k :: 0 <= k < rounds - 1 ==> !v.world(k).ready && !v.world(k).leaves && v.world(k).test <= v.start + c.timeout)
      && var last := v.world(rounds - 1);
      var here := (v.stream && v.flushable) || !last.gone;
      && (outcome == BackendReady <==> last.ready && here)
      && (outcome == TimedOut <==> !last.ready && last.test > v.start + c.timeout && here)
  }

  /** The heartbeats that a request is sent while it is held for `rounds` rounds with the given result. */
  ghost function BeatsSent(v: Visit, interval: int, rounds: nat, result: Option<Result>): seq<Piece> {
    if !Held(v) || rounds == 0 then []
    else
      var asleep := result == Some(ClientClosed) && !BeatFails(v.world, v.since, interval, rounds - 1);
      Heartbeats(v.world, v.since, interval, if asleep then rounds else rounds - 1)
  }

  class Gateway {
    const cfg: Settings
    const demands: Mailboxes.Subscriptions
    var slots: nat               // occupied places of the semaphore
    var pending: int
    var leaseActive: bool
    var leaseDeadline: int
    var readyGraceUntil: int
    var leaseWatcher: bool
    var recorded: seq<int>       // response codes counted so far
    var rejections: nat

    ghost function TheLease(): Lease
      reads this
    {
      Lease(leaseActive, leaseDeadline, readyGraceUntil, leaseWatcher)
    }

    /** Every setting that is not positive is replaced by its default, and no other. */
    constructor (config: Settings)
      ensures Usable(cfg)
      ensures Usable(config) ==> cfg == config
      ensures cfg.maxQueue == (if config.maxQueue <= 0 then 100 else config.maxQueue)
      ensures cfg.timeout == (if config.timeout <= 0 then 300_000 else config.timeout)
      ensures cfg.retry == (if config.retry <= 0 then 500 else config.retry)
      ensures cfg.heartbeat == (if config.heartbeat <= 0 then 10_000 else config.heartbeat)
      ensures cfg.grace == (if config.grace <= 0 then 15_000 else config.grace)
      ensures cfg.rejectsCold == config.rejectsCold
      ensures slots == 0 && pending == 0 && TheLease() == NoLease && recorded == [] && rejections == 0
      ensures fresh(demands) && demands.View() == Mailboxes.NoSubscriptions
    {
      var c := config;
      if c.maxQueue <= 0 { c := c.(maxQueue := 100); }
      if c.timeout <= 0 { c := c.(timeout := 300_000); }
      if c.retry <= 0 { c := c.(retry := 500); }
      if c.heartbeat <= 0 { c := c.(heartbeat := 10_000); }
      if c.grace <= 0 { c := c.(grace := 15_000); }
      cfg := c;
      demands := new Mailboxes.Subscriptions();
      slots, pending, recorded, rejections := 0, 0, [], 0;
      leaseActive, leaseDeadline, readyGraceUntil, leaseWatcher := false, 0, 0, false;
    }

    method Demand(now: int) returns (demand: int)
      ensures demand == DemandAt(pending, TheLease(), now)
      ensures pending > 0 ==> demand == pending
      ensures pending <= 0 ==> demand == if (leaseActive && now < leaseDeadline) || now < readyGraceUntil then 1 else 0
    {
      if pending > 0 { return pending; }
      var active := (leaseActive && now < leaseDeadline) || now < readyGraceUntil;
      demand := if active then 1 else 0;
    }

    method NotifyDemandChange(now: int)
      modifies demands
      ensures demands.lastDemand == DemandAt(pending, TheLease(), now)
      ensures old(Mailboxes.Consistent(demands.View())) ==> Mailboxes.Consistent(demands.View())
    {
      var demand := Demand(now);
      var activated := demands.Publish(demand);
    }

    method ChangePending(delta: int, now: int)
      modifies this`pending, demands
      ensures pending == old(pending) + delta
      ensures demands.lastDemand == DemandAt(pending, TheLease(), now)
      ensures old(Mailboxes.Consistent(demands.View())) ==> Mailboxes.Consistent(demands.View())
    {
      pending := pending + delta;
      NotifyDemandChange(now);
    }

    /** The new subscriber starts with a live reading of the demand, not with the published value. */
    method SubscribeDemand(now: int) returns (id: nat)
      modifies demands
      ensures demands.View() == Mailboxes.Subscribe(old(demands.View()), DemandAt(pending, TheLease(), now))
      ensures id == old(demands.nextSubscriber)
    {
      var demand := Demand(now);
      id := demands.Subscribe(demand);
    }

    method BeginActivation(sample: int, now: int) returns (startWatcher: bool)
      modifies this`leaseActive, this`leaseDeadline, this`leaseWatcher, demands
      ensures TheLease() == Renew(old(TheLease()), sample, cfg.timeout)
      ensures leaseActive && leaseWatcher && leaseDeadline == sample + cfg.timeout
      ensures startWatcher == !old(leaseWatcher)
      ensures demands.lastDemand == DemandAt(pending, TheLease(), now)
      ensures now < sample + cfg.timeout ==> demands.lastDemand >= 1
      ensures old(Mailboxes.Consistent(demands.View())) ==> Mailboxes.Consistent(demands.View())
    {
      leaseActive := true;
      leaseDeadline := sample + cfg.timeout;
      startWatcher := !leaseWatcher;
      if startWatcher { leaseWatcher := true; }
      NotifyDemandChange(now);
    }

    /** `timer` is the deadline of the grace timer that is started. */
    method FinishActivation(ready: bool, sample: int, now: int) returns (retired: bool, timer: Option<int>)
      modifies this`leaseActive, this`leaseWatcher, this`readyGraceUntil, demands
      ensures retired == Retires(old(TheLease()), ready, sample)
      ensures retired <==> ready || old(leaseDeadline) <= sample
      ensures leaseActive == (old(leaseActive) && !retired) && leaseWatcher == (old(leaseWatcher) && !retired)
      ensures readyGraceUntil == if ready then sample + cfg.grace else old(readyGraceUntil)
      ensures TheLease() == Retire(old(TheLease()), ready, sample, cfg.grace)
      ensures timer == if ready then Some(sample + cfg.grace) else None
      ensures retired ==> demands.lastDemand == DemandAt(pending, TheLease(), now)
      ensures !retired ==> demands.lastDemand == old(demands.lastDemand)
      ensures ready && now < sample + cfg.grace ==> demands.lastDemand >= 1
    {
      if !ready && sample < leaseDeadline { return false, None; }
      leaseActive, leaseWatcher := false, false;
      if ready { readyGraceUntil := sample + cfg.grace; }
      var until := readyGraceUntil;
      NotifyDemandChange(now);
      return true, if ready then Some(until) else None;
    }

    method Reject(w: Response)
      modifies this`recorded, this`rejections, w
      ensures recorded == old(recorded) + [503] && rejections == old(rejections) + 1
      ensures w.status == (if old(w.status).None? then Some(503) else old(w.status))
      ensures w.headerWrites == old(w.headerWrites) + 1 && w.retryAfter == Some(10) && w.body == old(w.body) + [ErrorText]
    {
      rejections := rejections + 1;
      recorded := recorded + [503];
      w.retryAfter := Some(10);
      w.WriteHeader(503);
      w.Write(ErrorText);
    }

    /** One request from arrival to the end of its handler. */
    method Serve(w: Response, v: Visit) returns (forwarded: bool, renewed: bool, result: Option<Result>, rounds: nat)
      requires Usable(cfg) && slots <= cfg.maxQueue
      requires w.status.None? && w.headerWrites == 0 && w.retryAfter.None? && w.body == []
      requires Timed(v.world, v.start, cfg.retry)
      modifies this`slots, this`pending, this`leaseActive, this`leaseDeadline, this`leaseWatcher, this`recorded, this`rejections, demands, w
      // it frees exactly its own place and its own pending unit
      ensures slots == old(slots) && pending == old(pending)
      // a status is committed at most once, and exactly the committed one is counted
      ensures w.headerWrites <= 1
      ensures recorded == old(recorded) + (if w.status.Some? then [w.status.value] else [])
      // without an answer only because the client left before one was committed
      ensures w.status.None? <==> result == Some(ClientClosed) && !(v.stream && v.flushable && !v.goneAlready)
      // a full queue answers 429 and touches nothing else
      ensures old(slots) == cfg.maxQueue ==>
        w.status == Some(429) && w.retryAfter == Some(5) && !forwarded && !renewed && demands.lastDemand == old(demands.lastDemand)
      // every cold admitted request renews the lease, even if it is rejected
      ensures renewed <==> old(slots) < cfg.maxQueue && !v.warm
      ensures TheLease() == if renewed then Renew(old(TheLease()), v.sampled, cfg.timeout) else old(TheLease())
      // forwarded only after this handler saw the backend ready
      ensures forwarded <==> old(slots) < cfg.maxQueue && (v.warm || result == Some(BackendReady))
      ensures result.Some? <==> renewed && !cfg.rejectsCold
      ensures result.Some? ==> Waited(v, cfg, result.value, rounds)
      // the retry hints and the counter of rejections
      ensures w.retryAfter == Some(10) <==> renewed && !forwarded && w.status == Some(503)
      ensures rejections == old(rejections) + (if old(slots) == cfg.maxQueue || (renewed && (cfg.rejectsCold || result == Some(TimedOut))) then 1 else 0)
      // an answer after a committed stream keeps the status 200
      ensures forwarded ==> w.status == Some(if renewed && v.stream && v.flushable then 200 else v.upstream)
      // what the client is sent
      ensures old(slots) == cfg.maxQueue ==> w.body == [ErrorText]
      ensures forwarded ==> w.body == BeatsSent(v, cfg.heartbeat, rounds, result) + [Upstream]
      ensures renewed && cfg.rejectsCold ==> w.body == [ErrorText]
      ensures result == Some(TimedOut) ==> w.body == if Held(v) then BeatsSent(v, cfg.heartbeat, rounds, result) + [StreamError] else [ErrorText]
      ensures result == Some(ClientClosed) ==> w.body == BeatsSent(v, cfg.heartbeat, rounds, result)
      // what is published last is the demand when the request left
      ensures old(slots) < cfg.maxQueue ==> demands.lastDemand == DemandAt(pending, TheLease(), v.left)
    {
      forwarded, renewed, result, rounds := false, false, None, 0;
      if slots == cfg.maxQueue {
        rejections, recorded := rejections + 1, recorded + [429];
        w.retryAfter := Some(5);
        w.WriteHeader(429);
        w.Write(ErrorText);
        return;
      }
      slots := slots + 1;
      ChangePending(1, v.counted);
      forwarded, renewed, result, rounds := Admitted(w, v);
      ChangePending(-1, v.left);
      slots := slots - 1;
    }

    /** The handler between admission and release. */
    method Admitted(w: Response, v: Visit) returns (forwarded: bool, renewed: bool, result: Option<Result>, rounds: nat)
      requires Usable(cfg)
      requires w.status.None? && w.headerWrites == 0 && w.retryAfter.None? && w.body == []
      requires Timed(v.world, v.start, cfg.retry)
      modifies this`leaseActive, this`leaseDeadline, this`leaseWatcher, this`recorded, this`rejections, demands, w
      ensures w.headerWrites <= 1
      ensures recorded == old(recorded) + (if w.status.Some? then [w.status.value] else [])
      ensures w.status.None? <==> result == Some(ClientClosed) && !(v.stream && v.flushable && !v.goneAlready)
      ensures renewed == !v.warm
      ensures TheLease() == if renewed then Renew(old(TheLease()), v.sampled, cfg.timeout) else old(TheLease())
      ensures forwarded <==> v.warm || result == Some(BackendReady)
      ensures result.Some? <==> renewed && !cfg.rejectsCold
      ensures result.Some? ==> Waited(v, cfg, result.value, rounds)
      ensures w.retryAfter == (if renewed && !forwarded && w.status == Some(503) then Some(10) else None)
      ensures rejections == old(rejections) + (if renewed && (cfg.rejectsCold || result == Some(TimedOut)) then 1 else 0)
      ensures forwarded ==> w.status == Some(if renewed && v.stream && v.flushable then 200 else v.upstream)
      ensures forwarded ==> w.body == BeatsSent(v, cfg.heartbeat, rounds, result) + [Upstream]
      ensures renewed && cfg.rejectsCold ==> w.body == [ErrorText]
      ensures result == Some(TimedOut) ==> w.body == if Held(v) then BeatsSent(v, cfg.heartbeat, rounds, result) + [StreamError] else [ErrorText]
      ensures result == Some(ClientClosed) ==> w.body == BeatsSent(v, cfg.heartbeat, rounds, result)
    {
      forwarded, renewed, result, rounds := false, false, None, 0;
      var committed := false;
      if !v.warm {
        renewed := true;
        var startWatcher := BeginActivation(v.sampled, v.renewed);
        if cfg.rejectsCold {
          Reject(w);
          return;
        }
        var outcome;
        outcome, committed, rounds := Await(w, v);
        result := Some(outcome);
        if outcome != BackendReady {
          GiveUp(w, outcome == TimedOut, committed);
          return;
        }
      }
      forwarded := true;
      Forward(w, v.upstream, committed);
    }

    /** Waits for the backend, in an event stream if the request asked for one. */
    method Await(w: Response, v: Visit) returns (outcome: Result, committed: bool, rounds: nat)
      requires Usable(cfg) && !v.warm && Timed(v.world, v.start, cfg.retry)
      requires w.status.None? && w.headerWrites == 0 && w.retryAfter.None? && w.body == []
      modifies w
      ensures Waited(v, cfg, outcome, rounds) && committed == Held(v)
      ensures w.status == (if committed then Some(200) else None) && w.headerWrites == (if committed then 1 else 0)
      ensures w.retryAfter.None? && w.body == BeatsSent(v, cfg.heartbeat, rounds, Some(outcome))
    {
      if v.stream {
        outcome, committed, rounds :=
          HoldWithHeartbeat(w, v.goneAlready, v.flushable, v.world, v.start, cfg.timeout, cfg.retry, v.since, cfg.heartbeat);
      } else {
        committed := false;
        outcome, rounds := WaitForBackend(v.world, v.start, cfg.timeout, cfg.retry);
      }
    }

    /** Ends a wait in which the backend did not become ready, by a timeout or because the client left. */
    method GiveUp(w: Response, timedOut: bool, committed: bool)
      requires if committed then w.status == Some(200) && w.retryAfter.None? else w.status.None? && w.retryAfter.None?
      modifies this`recorded, this`rejections, w
      ensures recorded == old(recorded) + (if w.status.Some? then [w.status.value] else [])
      ensures w.status == if committed then Some(200) else if timedOut then Some(503) else None
      ensures w.headerWrites == old(w.headerWrites) + (if timedOut && !committed then 1 else 0)
      ensures w.retryAfter == if timedOut && !committed then Some(10) else None
      ensures w.body == old(w.body) + (if !timedOut then [] else if committed then [StreamError] else [ErrorText])
      ensures rejections == old(rejections) + (if timedOut then 1 else 0)
    {
      if committed { recorded := recorded + [200]; }
      if !timedOut { return; }
      if !committed {
        Reject(w);
        return;
      }
      rejections := rejections + 1;
      w.Write(StreamError);
    }

    /** Hands the request to the backend and records the status that counts. */
    method Forward(w: Response, upstream: int, committed: bool)
      requires committed ==> w.status == Some(200)
      requires !committed ==> w.status.None?
      modifies this`recorded, w`status, w`headerWrites, w`body
      ensures w.status == Some(if committed then 200 else upstream) && recorded == old(recorded) + [w.status.value]
      ensures w.headerWrites == old(w.headerWrites) + (if committed then 0 else 1)
      ensures w.body == old(w.body) + [Upstream]
    {
      if committed {
        var writer := new CommittedWriter(w);
        writer.WriteHeader(upstream);
        w.Write(Upstream);
        recorded := recorded + [200];
        return;
      }
      var recorder := new StatusRecorder(w);
      recorder.WriteHeader(upstream);
      w.Write(Upstream);
      recorded := recorded + [recorder.status];
    }
  }
}
