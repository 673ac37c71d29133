/** The activity bits a KEDA stream is sent, computed from the demands it receives. */
module ActivityStream {

  /** The activity of the values, with consecutive repeats removed. */
  function Bits(values: seq<int>): seq<bool> {
    if values == [] then []
    else
      var before, active := Bits(values[..|values| - 1]), values[|values| - 1] > 0;
      if before != [] && before[|before| - 1] == active then before else before + [active]
  }

  predicate Alternating(bits: seq<bool>) {
    forall i :: 0 < i < |bits| ==> bits[i] != bits[i - 1]
  }

  /** Edges between activity and inactivity. */
  function Edges(values: seq<int>): nat {
    if |values| < 2 then 0
    else Edges(values[..|values| - 1])
         + (if (values[|values| - 2] > 0) != (values[|values| - 1] > 0) then 1 else 0)
  }

  /** The bits strictly alternate, one for each edge after the first, and end with the activity of
      the newest value. */
  lemma {:induction false} BitsFollowActivity(values: seq<int>)
    ensures Alternating(Bits(values))
    ensures values == [] ==> Bits(values) == []
    ensures values != [] ==>
      && |Bits(values)| == 1 + Edges(values)
      && Bits(values)[|Bits(values)| - 1] == (values[|values| - 1] > 0)
      && Bits(values)[0] == (values[0] > 0)
  {
    if values != [] {
      var p := values[..|values| - 1];
      BitsFollowActivity(p);
      if p != [] { assert p[|p| - 1] == values[|values| - 2]; }
    }
  }

  lemma {:induction false} BitsGrow(values: seq<int>, n: nat)
    requires n <= |values|
    ensures Bits(values[..n]) <= Bits(values)
    decreases |values| - n
  {
    if n == |values| {
      assert values[..n] == values;
    } else {
      assert values[..n + 1][..n] == values[..n];
      BitsGrow(values, n + 1);
    }
  }

  lemma NextBit(values: seq<int>, n: nat)
    requires n < |values|
    ensures var bits, active := Bits(values[..n]), values[n] > 0;
      Bits(values[..n + 1]) == if bits != [] && bits[|bits| - 1] == active then bits else bits + [active]
  {
    assert values[..n + 1][..n] == values[..n];
  }

  // The next bit cannot be sent: what was sent is a beginning of what should have been.
  lemma Broken(values: seq<int>, n: nat)
    requires n < |values| && |Bits(values[..n + 1])| > |Bits(values[..n])|
    ensures Bits(values[..n]) <= Bits(values) && |Bits(values)| > |Bits(values[..n])|
  {
    BitsGrow(values, n);
    BitsGrow(values, n + 1);
  }

  /** The sending loop over the values it takes from its mailbox. The stream breaks when a send after
      the first `room` fails; what was sent until then is a beginning of what should have been. */
  method StreamIsActive(values: seq<int>, room: nat) returns (bits: seq<bool>, ok: bool)
    ensures bits <= Bits(values) && Alternating(bits)
    ensures ok <==> |Bits(values)| <= room
    ensures ok ==> bits == Bits(values) && (values != [] ==> bits != [] && bits[|bits| - 1] == (values[|values| - 1] > 0))
    ensures !ok ==> |bits| == room
  {
    bits, ok := [], true;
    var sent, lastActive := false, false;
    var n := 0;
    while n < |values|
      invariant 0 <= n <= |values| && bits == Bits(values[..n]) && |bits| <= room
      invariant sent <==> bits != []
      invariant sent ==> lastActive == bits[|bits| - 1]
    {
      var active := values[n] > 0;
      NextBit(values, n);
      if !sent || active != lastActive {
        if |bits| == room {
          Broken(values, n);
          BitsFollowActivity(values[..n]);
          return bits, false;
        }
        bits := bits + [active];
        sent, lastActive := true, active;
      }
      n := n + 1;
    }
    assert values[..n] == values;
    BitsFollowActivity(values);
  }
}
