/**
 * The smoothing window kept per anchor: a bounded history of the most recent
 * RSSI samples, and its rolling average. The Python estimator trims with a
 * slice (`Newest`), the C++ estimators with a single conditional erase of the
 * front element (`Push`); both keep at most `Capacity` samples.
 */
module Window {

  /** Number of samples a history keeps. */
  const Capacity: nat := 5

  /** The newest `Capacity` samples of `s`, oldest first (Python's `s[-5:]`). */
  function Newest(s: seq<int>): (w: seq<int>)
    ensures |w| == if |s| <= Capacity then |s| else Capacity
  {
    if |s| <= Capacity then s else s[|s| - Capacity..]
  }

  /** The window is the suffix of the stream: its last `min(|s|, Capacity)` samples, in order. */
  lemma NewestIsSuffix(s: seq<int>)
    ensures Newest(s) == s[|s| - |Newest(s)|..]
    ensures forall k | 0 <= k < |Newest(s)| :: Newest(s)[k] == s[|s| - |Newest(s)| + k]
  {
  }

  /**
   * C++ `push_back(x)` followed by `if (size() > 5) erase(begin())`.
   * Only one element is ever erased, so the result is the newest window of
   * `h + [x]` only when `h` itself was within capacity.
   */
  function Push(h: seq<int>, x: int): (w: seq<int>)
    ensures |w| == if |h| < Capacity then |h| + 1 else |h|
    ensures w[|w| - 1] == x
    ensures |h| <= Capacity ==> w == Newest(h + [x])
  {
    var grown := h + [x];
    if |grown| > Capacity then grown[1..] else grown
  }

  /** A history that already exceeds the capacity stays over it after a push. */
  lemma PushNeedsBound()
    ensures |Push([1, 2, 3, 4, 5, 6], 7)| == 6 > Capacity
  {
  }

  /** Trimming twice is trimming once: a window of a window is the window of the whole stream. */
  lemma NewestOfNewest(s: seq<int>, x: int)
    ensures Newest(Newest(s) + [x]) == Newest(s + [x])
  {
    if |s| > Capacity {
      var t := s + [x];
      assert Newest(s) + [x] == t[|t| - Capacity - 1..];
    }
  }

  /** Sum of the samples (the `sum(...)` / `accumulate(...)` fold). */
  function Sum(s: seq<int>): int
  {
    if s == [] then 0 else Sum(s[..|s| - 1]) + s[|s| - 1]
  }

  /** Arithmetic mean of a non-empty history: sum divided by length. */
  function Average(s: seq<int>): (a: real)
    requires |s| > 0
    ensures a * |s| as real == Sum(s) as real
  {
    Sum(s) as real / |s| as real
  }

  /** Bounds on the samples bound their sum. */
  lemma {:induction false} SumBounds(s: seq<int>, lo: int, hi: int)
    requires forall i | 0 <= i < |s| :: lo <= s[i] <= hi
    ensures lo * |s| <= Sum(s) <= hi * |s|
  {
    if s != [] {
      SumBounds(s[..|s| - 1], lo, hi);
      assert lo * |s| == lo * (|s| - 1) + lo;
      assert hi * |s| == hi * (|s| - 1) + hi;
    }
  }

  /** The rolling average lies between the smallest and the largest sample of the window. */
  lemma {:induction false} AverageBounds(s: seq<int>, lo: int, hi: int)
    requires |s| > 0
    requires forall i | 0 <= i < |s| :: lo <= s[i] <= hi
    ensures lo as real <= Average(s) <= hi as real
  {
    SumBounds(s, lo, hi);
    CastProduct(lo, |s|);
    CastProduct(hi, |s|);
    Between(lo as real, hi as real, Average(s), |s| as real, Sum(s) as real);
  }

  /** A quotient `t / n` by a positive `n` lies between any bounds whose multiples by `n` enclose `t`. */
  lemma Between(lo: real, hi: real, a: real, n: real, t: real)
    requires n > 0.0 && a * n == t && lo * n <= t <= hi * n
    ensures lo <= a <= hi
  {
    ScaleCancel(lo, a, n);
    ScaleCancel(a, hi, n);
  }

  /** Converting to a real commutes with multiplication. */
  lemma CastProduct(p: int, q: int)
    ensures (p * q) as real == p as real * q as real
  {
  }

  /** Multiplying by a positive factor preserves order, and so does cancelling it. */
  lemma ScaleCancel(p: real, q: real, n: real)
    requires n > 0.0 && p * n <= q * n
    ensures p <= q
  {
  }

  /** A single-sample window averages to that sample. */
  lemma AverageOfOne(x: int)
    ensures Average([x]) == x as real
  {
    assert [x][..0] == [];
    assert Sum([x]) == x;
  }
}
