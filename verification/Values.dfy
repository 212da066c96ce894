/** Values shared by the provider models: optional values, D-Bus variants, decimal
    text, C++ integer division and the order of path strings. */
module Values {

  datatype Option<+T> = None | Some(value: T)

  type UInt32 = n: int | 0 <= n < 0x1_0000_0000

  /** A QVariant, seen through the conversions the providers apply to it. The text
      published for it (`valueEncode`) is not part of this model, so it is a field. */
  datatype Variant = Variant(
    toBool: bool,
    toUInt: UInt32,
    toString: string,
    toStringList: seq<string>,
    encoded: string)

  /** The invalid QVariant that looking up an absent key yields. */
  const NULL_VARIANT := Variant(false, 0, "", [], "")

  /** Decimal text of a natural number. */
  function Dec(n: nat): string {
    if n < 10 then [Digit(n)] else Dec(n / 10) + [Digit(n % 10)]
  }

  function Digit(d: nat): char
    requires d < 10
  {
    '0' + d as char
  }

  /** The number a decimal text denotes: the inverse of `Dec`. */
  function Parse(s: string): int {
    if s == [] then 0 else 10 * Parse(s[..|s| - 1]) + (s[|s| - 1] as int - '0' as int)
  }

  lemma {:induction false} DecParses(n: nat)
    ensures Parse(Dec(n)) == n
  {
    var d := Dec(n);
    if n < 10 {
      assert d[..|d| - 1] == [];
    } else {
      assert d[..|d| - 1] == Dec(n / 10);
      DecParses(n / 10);
    }
  }

  function Flag(b: bool): string {
    if b then "1" else "0"
  }

  function Abs(a: int): int {
    if a < 0 then -a else a
  }

  function Max(a: int, b: int): int {
    if a < b then b else a
  }

  /** C++ integer division: the quotient is truncated towards zero. */
  function CDiv(a: int, b: int): int
    requires b != 0
  {
    if a >= 0 then (if b > 0 then a / b else -(a / -b))
    else if b > 0 then -(-a / b)
    else -a / -b
  }

  /** `CDiv` is the quotient nearest to zero side: the remainder has the sign of the
      dividend and is smaller than the divisor. */
  lemma CDivTruncates(a: int, b: int)
    requires b != 0
    ensures a >= 0 ==> 0 <= a - b * CDiv(a, b) < Abs(b)
    ensures a <= 0 ==> -Abs(b) < a - b * CDiv(a, b) <= 0
  {
    var m, n, d := Abs(a) / Abs(b), Abs(a), Abs(b);
    assert n == d * m + n % d;
    var q := CDiv(a, b);
    assert q == m || q == -m;
    SignedProduct(b, q, d, m);
  }

  lemma SignedProduct(b: int, q: int, d: int, m: int)
    requires b == d || b == -d
    requires q == m || q == -m
    ensures (b == d) == (q == m) ==> b * q == d * m
    ensures (b == d) != (q == m) ==> b * q == -(d * m)
  {
    assert -d * -m == d * m;
    assert -d * m == -(d * m);
    assert d * -m == -(d * m);
  }

  /** The order in which a map keyed by strings is walked: code unit by code unit. */
  predicate LexLe(a: string, b: string) {
    a == [] || (b != [] && (a[0] < b[0] || (a[0] == b[0] && LexLe(a[1..], b[1..]))))
  }

  /** `b` continues `a`, or the first place where they differ decides. */
  predicate InOrder(a: string, b: string, n: nat) {
    && n <= |a| && n <= |b| && a[..n] == b[..n]
    && (n == |a| || (n < |a| && n < |b| && a[n] < b[n]))
  }

  lemma {:induction false} LexMeans(a: string, b: string)
    ensures LexLe(a, b) <==> exists n: nat :: InOrder(a, b, n)
  {
    if a == [] {
      assert InOrder(a, b, 0);
    } else if b != [] && a[0] == b[0] {
      LexMeans(a[1..], b[1..]);
      if n: nat :| InOrder(a[1..], b[1..], n) {
        assert a[..n + 1] == [a[0]] + a[1..][..n] && b[..n + 1] == [b[0]] + b[1..][..n];
        assert InOrder(a, b, n + 1);
      }
      if n: nat :| InOrder(a, b, n) {
        assert n > 0;
        assert a[1..][..n - 1] == a[..n][1..] && b[1..][..n - 1] == b[..n][1..];
        assert InOrder(a[1..], b[1..], n - 1);
      }
    } else if b != [] && a[0] < b[0] {
      assert InOrder(a, b, 0);
    } else if n: nat :| InOrder(a, b, n) {
      assert n > 0 ==> a[..n][0] == b[..n][0];
    }
  }

  lemma {:induction false} LexTotal(a: string, b: string)
    ensures LexLe(a, b) || LexLe(b, a)
    ensures LexLe(a, b) && LexLe(b, a) ==> a == b
  {
    if a != [] && b != [] && a[0] == b[0] {
      LexTotal(a[1..], b[1..]);
      assert a == [a[0]] + a[1..] && b == [b[0]] + b[1..];
    }
  }

  lemma {:induction false} LexTransitive(a: string, b: string, c: string)
    requires LexLe(a, b) && LexLe(b, c)
    ensures LexLe(a, c)
  {
    if a != [] && a[0] == b[0] == c[0] {
      LexTransitive(a[1..], b[1..], c[1..]);
    }
  }

  ghost predicate IsLeast(k: string, s: set<string>) {
    k in s && forall j | j in s :: LexLe(k, j)
  }

  /** Every non-empty set of strings has a first element. */
  lemma {:induction false} LeastExists(s: set<string>)
    requires s != {}
    ensures exists k :: IsLeast(k, s)
    decreases |s|
  {
    var x :| x in s;
    var rest := s - {x};
    LexTotal(x, x);
    if rest == {} {
      assert s == rest + {x};
      assert IsLeast(x, s);
    } else {
      LeastExists(rest);
      var k :| IsLeast(k, rest);
      LexTotal(k, x);
      var m := if LexLe(k, x) then k else x;
      forall j | j in s ensures LexLe(m, j) {
        if j != x && m == x {
          LexTransitive(x, k, j);
        }
      }
      assert IsLeast(m, s);
    }
  }
}
