/**
 Integer facts shared by the protocol models: how a two-level index is packed into one
 integer and recovered by division, and sums over sequences.
 */
module Arith {

  lemma SmallMod(a: nat, n: nat)
    requires a < n
    ensures a % n == a
  { }

  /** Packing `q * m + r` with a remainder in range is undone by `/` and `%`. */
  lemma DivMod(q: int, m: int, r: int)
    requires 0 <= r < m
    ensures (q * m + r) / m == q && (q * m + r) % m == r
  {
    var v := q * m + r;
    var d, e := v / m, v % m;
    assert v == d * m + e && 0 <= e < m;
    var diff := q - d;
    assert diff * m == e - r by { Distribute(q, d, m); }
    if diff >= 1 {
      MulAtLeast(diff, m);
    } else if diff <= -1 {
      MulLe(diff, -1, m);
    }
  }

  lemma Distribute(a: int, b: int, m: int)
    ensures (a - b) * m == a * m - b * m
  { }

  lemma MulAtLeast(a: int, m: int)
    requires a >= 1 && m >= 0
    ensures a * m >= m
  { }

  lemma MulLe(a: int, b: int, m: int)
    requires a <= b && m >= 0
    ensures a * m <= b * m
  { }

  /** Every non-negative integer is its quotient and remainder put back together. */
  lemma Recompose(v: int, m: int)
    requires v >= 0 && m > 0
    ensures v == (v / m) * m + v % m && 0 <= v % m < m && v / m >= 0
  { }

  lemma PackIff(v: int, m: int, q: int, r: int)
    requires v >= 0 && 0 <= r < m
    ensures v == q * m + r <==> (v / m == q && v % m == r)
    ensures v / m >= 0
  {
    DivMod(q, m, r);
    Recompose(v, m);
  }

  lemma SameDivMod(v: int, w: int, m: int)
    requires v >= 0 && w >= 0 && m > 0 && v / m == w / m && v % m == w % m
    ensures v == w
  {
    Recompose(v, m);
    Recompose(w, m);
  }

  /** Counting up by one moves to the next remainder or wraps to the next quotient. */
  lemma ModStep(v: int, m: int)
    requires v >= 0 && m > 0
    ensures if (v + 1) % m == 0 then v % m == m - 1 && (v + 1) / m == v / m + 1
            else (v + 1) % m == v % m + 1 && (v + 1) / m == v / m
  {
    var q, r := v / m, v % m;
    Recompose(v, m);
    if r == m - 1 {
      assert (q + 1) * m == q * m + m;
      DivMod(q + 1, m, 0);
      assert v + 1 == (q + 1) * m + 0;
    } else {
      DivMod(q, m, r + 1);
      assert v + 1 == q * m + (r + 1);
    }
  }

  /** A packed index stays below the product of the two ranges. */
  lemma PackBound(q: int, m: int, r: int, rows: int)
    requires 0 <= q < rows && 0 <= r < m
    ensures 0 <= q * m + r < rows * m
  {
    MulLe(q + 1, rows, m);
    Distribute(q + 1, q, m);
    MulLe(0, q, m);
  }

  /** The quotient of an index below `rows * m` is below `rows`. */
  lemma UnpackBound(v: int, m: int, rows: int)
    requires 0 <= v < rows * m && m > 0
    ensures 0 <= v / m < rows && 0 <= v % m < m
  {
    Recompose(v, m);
    if v / m >= rows {
      MulLe(rows, v / m, m);
    }
  }

  function Sum(s: seq<int>): int
  {
    if s == [] then 0 else Sum(s[..|s| - 1]) + s[|s| - 1]
  }

  lemma {:induction false} SumUpdate(s: seq<int>, i: nat, v: int)
    requires i < |s|
    ensures Sum(s[i := v]) == Sum(s) - s[i] + v
  {
    var t := s[i := v];
    if i == |s| - 1 {
      assert t[..|s| - 1] == s[..|s| - 1];
    } else {
      assert t[..|s| - 1] == s[..|s| - 1][i := v];
      SumUpdate(s[..|s| - 1], i, v);
    }
  }

  lemma {:induction false} SumNonNegative(s: seq<int>)
    requires forall i :: 0 <= i < |s| ==> s[i] >= 0
    ensures Sum(s) >= 0
  {
    if s != [] {
      SumNonNegative(s[..|s| - 1]);
    }
  }
}
