/** Values and helpers shared by every model: optional values, exact-real arithmetic, sorted strike ladders. */
module Common {

  datatype Option<+T> = None | Some(value: T)

  function RMax(a: real, b: real): real { if a >= b then a else b }

  function RMin(a: real, b: real): real { if a <= b then a else b }

  function RAbs(a: real): real { if a < 0.0 then -a else a }

  function Clamp01(v: real): real { RMax(0.0, RMin(1.0, v)) }

  // Products and quotients by name, so that nonlinear facts are stated and used about the same terms.
  function Times(a: real, b: real): real { a * b }

  function Pow(b: real, n: nat): real
  {
    if n == 0 then 1.0 else Times(Pow(b, n - 1), b)
  }

  function Ratio(x: real, y: real): real
    requires y > 0.0
  {
    x / y
  }

  lemma ScaleLe(a: real, b: real, k: real)
    requires a <= b && k >= 0.0
    ensures a * k <= b * k && k * a <= k * b
    ensures Times(a, k) <= Times(b, k) && Times(k, a) <= Times(k, b)
  {
  }

  lemma TimesMonotone(a1: real, a2: real, b1: real, b2: real)
    requires 0.0 <= a1 <= a2 && 0.0 <= b1 <= b2
    ensures 0.0 <= Times(a1, b1) <= Times(a2, b2)
  {
    ScaleLe(a1, a2, b1);
    ScaleLe(b1, b2, a2);
  }

  lemma TimesAtMost(x: real, fraction: real)
    requires x >= 0.0 && fraction <= 1.0
    ensures Times(x, fraction) <= x
    ensures fraction >= 0.0 ==> Times(x, fraction) >= 0.0
  {
    assert x * (1.0 - fraction) >= 0.0;
  }

  lemma RatioTimes(x: real, y: real)
    requires y > 0.0
    ensures Times(Ratio(x, y), y) == x
  {
  }

  lemma RatioMonotone(x1: real, x2: real, y: real)
    requires x1 <= x2 && y > 0.0
    ensures Ratio(x1, y) <= Ratio(x2, y)
  {
    assert Ratio(x1, y) * y == x1 && Ratio(x2, y) * y == x2;
    assert (Ratio(x2, y) - Ratio(x1, y)) * y >= 0.0;
  }

  lemma RatioNonNegative(x: real, y: real)
    requires x >= 0.0 && y > 0.0
    ensures Ratio(x, y) >= 0.0
  {
    assert Ratio(x, y) * y == x;
  }

  lemma RatioAgainst(x: real, y: real, k: real)
    requires y > 0.0
    ensures Ratio(x, y) < k <==> x < Times(k, y)
    ensures Ratio(x, y) > k <==> x > Times(k, y)
  {
    var r := Ratio(x, y);
    assert r * y == x;
    assert r < k ==> (k - r) * y > 0.0;
    assert r > k ==> (r - k) * y > 0.0;
  }

  // Sums are peeled from the right so that a forward loop extends them by one element.
  function Sum(s: seq<real>): real
  {
    if |s| == 0 then 0.0 else Sum(s[..|s| - 1]) + s[|s| - 1]
  }

  function Mean(s: seq<real>): real
    requires |s| > 0
  {
    Sum(s) / |s| as real
  }

  ghost predicate StrictlySorted(s: seq<real>)
  {
    forall i, j :: 0 <= i < j < |s| ==> s[i] < s[j]
  }

  function InsertSorted(s: seq<real>, x: real): (r: seq<real>)
    requires StrictlySorted(s)
    ensures StrictlySorted(r)
    ensures forall y :: y in r <==> y in s || y == x
  {
    if |s| == 0 then [x]
    else if x < s[0] then [x] + s
    else if x == s[0] then s
    else
      var rest := InsertSorted(s[1..], x);
      assert forall y :: y in s <==> y == s[0] || y in s[1..];
      assert forall k :: 0 <= k < |rest| ==> s[0] < rest[k] by {
        forall k | 0 <= k < |rest| ensures s[0] < rest[k] { assert rest[k] in rest; }
      }
      [s[0]] + rest
  }

  // sorted(set(xs))
  function SortedDistinct(xs: seq<real>): (r: seq<real>)
    ensures StrictlySorted(r)
    ensures forall y :: y in r <==> y in xs
  {
    if |xs| == 0 then []
    else
      assert forall y :: y in xs <==> y in xs[..|xs| - 1] || y == xs[|xs| - 1];
      InsertSorted(SortedDistinct(xs[..|xs| - 1]), xs[|xs| - 1])
  }

  // The cell of a sorted ladder that holds a point between its first and last element.
  lemma {:induction false} FindCell(s: seq<real>, x: real) returns (i: nat)
    requires StrictlySorted(s) && |s| > 0 && s[0] <= x < s[|s| - 1]
    ensures i + 1 < |s| && s[i] <= x < s[i + 1]
  {
    i := 0;
    while s[i + 1] <= x
      invariant i + 1 < |s| && s[i] <= x
      decreases |s| - i
    {
      i := i + 1;
    }
  }
}
