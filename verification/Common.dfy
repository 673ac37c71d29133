/** Vocabulary shared by the models: optional values, counting over sequences, and one fact of arithmetic. */
module Common {

  datatype Option<+T> = None | Some(value: T)

  /** How many elements of `xs` satisfy `f`. */
  ghost function Count<T>(xs: seq<T>, f: T -> bool): nat {
    if xs == [] then 0
    else Count(xs[..|xs| - 1], f) + (if f(xs[|xs| - 1]) then 1 else 0)
  }

  lemma CountAppend<T>(xs: seq<T>, x: T, f: T -> bool)
    ensures Count(xs + [x], f) == Count(xs, f) + (if f(x) then 1 else 0)
  {
  }

  lemma {:induction false} CountUpdate<T>(xs: seq<T>, i: nat, x: T, f: T -> bool)
    requires i < |xs|
    ensures Count(xs[i := x], f)
         == Count(xs, f) - (if f(xs[i]) then 1 else 0) + (if f(x) then 1 else 0)
  {
    var n := |xs| - 1;
    if i == n {
      assert xs[i := x][..n] == xs[..n];
    } else {
      assert xs[i := x][..n] == xs[..n][i := x];
      CountUpdate(xs[..n], i, x, f);
    }
  }

  lemma {:induction false} CountMonotone<T(!new)>(xs: seq<T>, f: T -> bool, g: T -> bool)
    requires forall x :: f(x) ==> g(x)
    ensures Count(xs, f) <= Count(xs, g)
  {
    if xs != [] { CountMonotone(xs[..|xs| - 1], f, g); }
  }

  /** A member satisfying `f` is counted, and two of them count twice. */
  lemma {:induction false} CountWitness<T>(xs: seq<T>, i: nat, f: T -> bool)
    requires i < |xs| && f(xs[i])
    ensures Count(xs, f) >= 1
    ensures forall j :: 0 <= j < |xs| && j != i && f(xs[j]) ==> Count(xs, f) >= 2
  {
    var n := |xs| - 1;
    if i < n {
      CountWitness(xs[..n], i, f);
      assert forall j :: 0 <= j < n ==> xs[..n][j] == xs[j];
    } else {
      forall j | 0 <= j < n && f(xs[j]) ensures Count(xs[..n], f) >= 1 {
        assert xs[..n][j] == xs[j];
        CountWitness(xs[..n], j, f);
      }
    }
  }

  lemma {:induction false} CountFind<T>(xs: seq<T>, f: T -> bool) returns (i: nat)
    requires Count(xs, f) > 0
    ensures i < |xs| && f(xs[i])
  {
    var n := |xs| - 1;
    if f(xs[n]) {
      i := n;
    } else {
      i := CountFind(xs[..n], f);
    }
  }

  // ---- induction along a sequence ----

  predicate Carries(bits: seq<bool>, j: nat)
    requires j < |bits| - 1
  {
    bits[j] ==> bits[j + 1]
  }

  lemma {:induction false} Carried(bits: seq<bool>, i: nat, k: nat)
    requires i <= k < |bits| && bits[i] && forall j :: i <= j < k ==> Carries(bits, j)
    ensures bits[k]
    decreases k - i
  {
    if i < k {
      Carried(bits, i, k - 1);
      assert Carries(bits, k - 1);
    }
  }

  // ---- arithmetic ----

  /** More than `n / d` pieces of length `d` do not fit into `n`. */
  lemma QuotientBelow(n: int, d: int, k: int)
    requires n >= 0 && d > 0 && k > n / d
    ensures k * d > n
  {
    var q := n / d;
    assert n == q * d + n % d;
    ProductNonNegative(k - q - 1, d);
    assert (k - q - 1) * d == k * d - q * d - d;
  }

  lemma ProductNonNegative(a: int, d: int)
    requires a >= 0 && d > 0
    ensures a * d >= 0
  {
  }
}
