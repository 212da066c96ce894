/** The sliding window of energy changes (`LastN`, src/udev/provider_udev.cpp). */
module UdevWindow {
  import opened Values

  function Sum(s: seq<int>): int {
    if s == [] then 0 else s[0] + Sum(s[1..])
  }

  /** The last `n` elements, or all of them if there are fewer. */
  function Tail(s: seq<int>, n: nat): seq<int> {
    if |s| <= n then s else s[|s| - n..]
  }

  /** The mean, truncated towards zero; an empty window has mean zero. */
  function Mean(s: seq<int>): int {
    if s == [] then 0 else CDiv(Sum(s), |s|)
  }

  lemma {:induction false} SumAppend(s: seq<int>, v: int)
    ensures Sum(s + [v]) == Sum(s) + v
    decreases |s|
  {
    if s == [] {
      assert [v][1..] == [];
    } else {
      assert (s + [v])[1..] == s[1..] + [v];
      SumAppend(s[1..], v);
    }
  }

  /** Appending to a window and dropping its front when it is too long keeps it the tail
      of the whole history. */
  lemma PushKeepsTail(history: seq<int>, n: nat, v: int)
    ensures var grown := Tail(history, n) + [v];
      Tail(history + [v], n) == if |grown| > n then grown[1..] else grown
  {
  }

  lemma ProductOrder(n: int, x: int, y: int)
    requires n > 0
    ensures n * x < n * y <==> x < y
  {
    if x < y {
      assert n * (y - x) > 0;
    } else {
      assert n * (x - y) >= 0;
    }
  }

  /** A quotient is determined by the interval of its remainder. */
  lemma QuotientUnique(a: int, n: int, k: int)
    requires n > 0 && n * k <= a < n * k + n
    ensures a / n == k
  {
    var d := a / n;
    assert a == n * d + a % n;
    assert n * (k + 1) == n * k + n && n * (d + 1) == n * d + n;
    ProductOrder(n, d, k + 1);
    ProductOrder(n, k, d + 1);
  }

  lemma Distribute(n: int, k: int, r: int, p: int)
    ensures (n * k + r) * p == n * (p * k) + p * r
  {
    assert (n * k + r) * p == n * k * p + r * p;
    assert n * k * p == n * (k * p);
    assert k * p == p * k;
  }

  lemma QuotientSign(a: nat, n: int)
    requires n > 0
    ensures a / n >= 0
  {
  }

  lemma ScaledDivision(a: nat, n: int, p: int)
    requires n > 0 && p > 0
    ensures a * p / n / p == a / n && a * p >= 0 && a * p / n >= 0
  {
    var k, r := a / n, a % n;
    Distribute(n, k, r, p);
    ProductOrder(p, r, n);
    ProductOrder(p, -1, r);
    var b, low, rest := a * p, p * k, p * r;
    assert b == n * low + rest && 0 <= rest < p * n;
    DivideScaled(b, n, p, k, rest);
    QuotientSign(b, n);
  }

  lemma DivideScaled(b: nat, n: int, p: int, k: int, rest: int)
    requires n > 0 && p > 0 && b == n * (p * k) + rest && 0 <= rest < p * n
    ensures b / n / p == k
  {
    var q := b / n;
    assert b == n * q + b % n;
    assert n * (p * k + p) == n * (p * k) + p * n && n * (q + 1) == n * q + n;
    ProductOrder(n, q, p * k + p);
    ProductOrder(n, p * k, q + 1);
    QuotientUnique(q, p, k);
  }

  /** Scaling up before dividing and down after it changes nothing. */
  lemma PrecisionCancels(a: int, n: int, p: int)
    requires n > 0 && p > 0
    ensures CDiv(CDiv(a * p, n), p) == CDiv(a, n)
  {
    ScaledDivision(Abs(a), n, p);
    var q := Abs(a) * p / n;
    CDivSign(a, n);
    assert a * p == if a >= 0 then Abs(a) * p else -(Abs(a) * p);
    assert Abs(a) * p >= 0;
    CDivSign(a * p, n);
    assert CDiv(a * p, n) == q || CDiv(a * p, n) == -q;
    CDivSign(CDiv(a * p, n), p);
  }

  /** Truncation works on magnitudes. */
  lemma CDivSign(a: int, n: int)
    requires n > 0
    ensures CDiv(a, n) == if a >= 0 then Abs(a) / n else -(Abs(a) / n)
    ensures Abs(a) / n >= 0
  {
    QuotientSign(Abs(a), n);
  }

  /** The mean lies between any bounds of the window. */
  lemma MeanBounds(s: seq<int>, lo: int, hi: int)
    requires s != [] && forall i | 0 <= i < |s| :: lo <= s[i] <= hi
    ensures lo <= Mean(s) <= hi
  {
    SumBounds(s, lo, hi);
    QuotientBounds(Sum(s), |s|, lo, hi);
  }

  lemma QuotientBounds(a: int, n: int, lo: int, hi: int)
    requires n > 0 && n * lo <= a <= n * hi
    ensures lo <= CDiv(a, n) <= hi
  {
    var q := CDiv(a, n);
    CDivTruncates(a, n);
    assert n * (q + 1) == n * q + n && n * (q - 1) == n * q - n;
    ProductOrder(n, lo, q + 1);
    ProductOrder(n, q - 1, hi);
  }

  lemma {:induction false} SumBounds(s: seq<int>, lo: int, hi: int)
    requires forall i | 0 <= i < |s| :: lo <= s[i] <= hi
    ensures |s| * lo <= Sum(s) <= |s| * hi
    decreases |s|
  {
    if s != [] {
      SumBounds(s[1..], lo, hi);
      assert |s| * lo == |s[1..]| * lo + lo && |s| * hi == |s[1..]| * hi + hi;
    }
  }

  /** The mean is zero exactly when the sum is smaller than the window is long. */
  lemma MeanIsZeroIff(s: seq<int>)
    ensures Mean(s) == 0 <==> s == [] || Abs(Sum(s)) < |s|
  {
    if s != [] {
      CDivSign(Sum(s), |s|);
      var a, n := Abs(Sum(s)), |s|;
      assert a == n * (a / n) + a % n;
      ProductOrder(n, a / n, 1);
    }
  }

  class LastN {
    const maxSize: nat
    const precision: int
    var sum: int
    var values: seq<int>
    /** Everything pushed since the last clear. */
    ghost var history: seq<int>

    ghost predicate Valid()
      reads this
    {
      values == Tail(history, maxSize) && sum == Sum(values) && precision > 0
    }

    constructor (maxSize: nat, precision: int)
      requires precision > 0
      ensures Valid() && history == [] && this.maxSize == maxSize && this.precision == precision
    {
      this.maxSize, this.precision := maxSize, precision;
      sum, values, history := 0, [], [];
    }

    method Clear()
      modifies this
      requires Valid()
      ensures Valid() && history == []
    {
      values := [];
      sum := 0;
      history := [];
    }

    method Push(v: int)
      requires Valid()
      modifies this
      ensures Valid() && history == old(history) + [v]
    {
      PushKeepsTail(history, maxSize, v);
      SumAppend(values, v);
      values := values + [v];
      if |values| > maxSize {
        sum := sum - values[0];
        values := values[1..];
      }
      sum := sum + v;
      history := history + [v];
    }

    method Average() returns (mean: int)
      requires Valid()
      ensures mean == Mean(Tail(history, maxSize))
    {
      var size := |values|;
      if size == 0 {
        return 0;
      }
      PrecisionCancels(sum, size, precision);
      mean := CDiv(CDiv(sum * precision, size), precision);
    }
  }
}
