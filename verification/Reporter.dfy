/** The demand reporter of one gateway process. */
module Reporter {
  import opened Aggregator

  // What wakes the reporter's loop: a value in its mailbox, or the heartbeat, which reads the demand anew.
  datatype Signal = Changed(demand: int) | Beat(demand: int)

  class DemandReporter {
    const memberId: string
    var sequence: nat
    var sent: seq<Report>    // every report handed to the network, delivered or not

    /** Sequence numbers count the sends, so none is zero and none is used twice. */
    predicate Valid()
      reads this
    {
      |sent| == sequence && forall k :: 0 <= k < |sent| ==> sent[k].id == memberId && sent[k].sequence == k + 1
    }

    constructor (id: string)
      ensures Valid() && sent == [] && memberId == id
    {
      memberId, sequence, sent := id, 0, [];
    }

    method Send(demand: int)
      requires Valid()
      modifies this`sequence, this`sent
      ensures Valid() && sent == old(sent) + [Report(memberId, old(sequence) + 1, demand)]
    {
      sequence := sequence + 1;
      sent := sent + [Report(memberId, sequence, demand)];
    }

    /** Sends on every signal and, when the process is asked to stop, withdraws its demand last. */
    method Run(signals: seq<Signal>)
      requires Valid()
      modifies this`sequence, this`sent
      ensures Valid() && |sent| == |old(sent)| + |signals| + 1 && old(sent) <= sent
      ensures forall k :: 0 <= k < |signals| ==> sent[|old(sent)| + k].demand == signals[k].demand
      ensures sent[|sent| - 1].demand == 0
      ensures forall k :: 0 <= k < |sent| - 1 ==> sent[k].sequence < sent[|sent| - 1].sequence
    {
      var n := 0;
      while n < |signals|
        invariant 0 <= n <= |signals| && Valid() && |sent| == |old(sent)| + n && old(sent) <= sent
        invariant forall k :: 0 <= k < n ==> sent[|old(sent)| + k].demand == signals[k].demand
      {
        Send(signals[n].demand);
        n := n + 1;
      }
      Send(0);
    }
  }
}
