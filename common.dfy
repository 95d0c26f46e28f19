/** Shared value types and numeric helpers used by every component of the model. */
module Common {

  /** A value that may be undefined: pandas' NaN in a rolling column, a missing label. */
  datatype Option<T> = None | Some(value: T)

  function Abs(x: real): (r: real)
    ensures r >= 0.0 && (r == x || r == -x)
  {
    if x < 0.0 then -x else x
  }

  function Min(a: real, b: real): (r: real)
    ensures r <= a && r <= b && (r == a || r == b)
  {
    if a <= b then a else b
  }

  function Max(a: real, b: real): (r: real)
    ensures r >= a && r >= b && (r == a || r == b)
  {
    if a >= b then a else b
  }

  /** numpy's clip(x, lo, hi): min(max(x, lo), hi). */
  function Clip(x: real, lo: real, hi: real): (r: real)
    requires lo <= hi
    ensures lo <= r <= hi
    ensures lo <= x <= hi ==> r == x
    ensures x < lo ==> r == lo
    ensures x > hi ==> r == hi
  {
    Min(Max(x, lo), hi)
  }

  /** Python's int() on a float: truncation toward zero. */
  function Trunc(x: real): (r: int)
    ensures x >= 0.0 ==> r as real <= x < r as real + 1.0
    ensures x < 0.0 ==> r as real - 1.0 < x <= r as real
  {
    if x >= 0.0 then x.Floor else -((-x).Floor)
  }

  /** round(x, 2) and round(x, 4) use these scales. */
  const Cents: real := 100.0
  const FourPlaces: real := 10000.0

  /** Rounding to the grid 1/scale, half-way cases rounded up. */
  function Round(x: real, scale: real): real
    requires scale > 0.0
  {
    (x * scale + 0.5).Floor as real / scale
  }

  lemma DivMonotone(a: real, b: real, d: real)
    requires a <= b && d > 0.0
    ensures a / d <= b / d
  {
    assert b / d - a / d == (b - a) / d;
  }

  lemma RoundMonotone(x: real, y: real, scale: real)
    requires x <= y && scale > 0.0
    ensures Round(x, scale) <= Round(y, scale)
  {
    assert x * scale <= y * scale;
    var fx := (x * scale + 0.5).Floor;
    var fy := (y * scale + 0.5).Floor;
    assert fx <= fy;
    DivMonotone(fx as real, fy as real, scale);
  }

  /** A value already on the grid is left as it is. */
  lemma RoundExact(x: real, k: int, scale: real)
    requires scale > 0.0 && x * scale == k as real
    ensures Round(x, scale) == x
  {
    assert (x * scale + 0.5).Floor == k;
    assert k as real / scale == x;
  }

  /** Rounding to whole-number grids keeps a value inside [-1, 1]. */
  lemma RoundUnitInterval(x: real, scale: real)
    requires -1.0 <= x <= 1.0 && scale >= 1.0 && scale.Floor as real == scale
    ensures -1.0 <= Round(x, scale) <= 1.0
  {
    var s := scale.Floor;
    RoundMonotone(-1.0, x, scale);
    RoundMonotone(x, 1.0, scale);
    RoundExact(-1.0, -s, scale);
    RoundExact(1.0, s, scale);
  }

  function Sum(s: seq<real>): real
  {
    if |s| == 0 then 0.0 else Sum(s[..|s| - 1]) + s[|s| - 1]
  }

  function SumInt(s: seq<int>): int
  {
    if |s| == 0 then 0 else SumInt(s[..|s| - 1]) + s[|s| - 1]
  }

  lemma {:induction false} SumBounds(s: seq<real>, lo: real, hi: real)
    requires forall i :: 0 <= i < |s| ==> lo <= s[i] <= hi
    ensures |s| as real * lo <= Sum(s) <= |s| as real * hi
  {
    if |s| > 0 {
      SumBounds(s[..|s| - 1], lo, hi);
    }
  }

  lemma {:induction false} SumAppend(s: seq<real>, t: seq<real>)
    ensures Sum(s + t) == Sum(s) + Sum(t)
  {
    if |t| == 0 {
      assert s + t == s;
    } else {
      assert (s + t)[..|s + t| - 1] == s + t[..|t| - 1];
      SumAppend(s, t[..|t| - 1]);
    }
  }

  /** pandas' rolling(k).mean() at row i: undefined until k rows exist. */
  function TrailingMean(s: seq<real>, k: nat, i: nat): (r: Option<real>)
    requires k > 0 && i < |s|
    ensures r.None? <==> i < k - 1
  {
    if i < k - 1 then None else Some(Sum(s[i + 1 - k..i + 1]) / k as real)
  }

  lemma MeanOfBounded(total: real, k: nat, lo: real, hi: real)
    requires k > 0
    requires k as real * lo <= total <= k as real * hi
    ensures lo <= total / k as real <= hi
  {
    DivMonotone(k as real * lo, total, k as real);
    DivMonotone(total, k as real * hi, k as real);
    assert k as real * lo / k as real == lo;
    assert k as real * hi / k as real == hi;
  }

  lemma TrailingMeanBounds(s: seq<real>, k: nat, i: nat, lo: real, hi: real)
    requires k > 0 && i < |s| && i >= k - 1
    requires forall j :: 0 <= j < |s| ==> lo <= s[j] <= hi
    ensures lo <= TrailingMean(s, k, i).value <= hi
  {
    var w := s[i + 1 - k..i + 1];
    assert |w| == k;
    SumBounds(w, lo, hi);
    MeanOfBounded(Sum(w), k, lo, hi);
  }

  function DigitChar(d: nat): (c: char)
    requires d < 10
    ensures '0' <= c <= '9'
  {
    ['0', '1', '2', '3', '4', '5', '6', '7', '8', '9'][d]
  }

  /** Decimal rendering of a natural number, as Python's str() / f-string gives it. */
  function NatToString(n: nat): (s: string)
    ensures |s| > 0
    ensures forall i :: 0 <= i < |s| ==> '0' <= s[i] <= '9'
    decreases n
  {
    if n < 10 then [DigitChar(n)] else NatToString(n / 10) + [DigitChar(n % 10)]
  }

  function DigitValue(c: char): nat
  {
    if '0' <= c <= '9' then (c as int - '0' as int) as nat else 0
  }

  function ParseNat(s: string): nat
  {
    if |s| == 0 then 0 else 10 * ParseNat(s[..|s| - 1]) + DigitValue(s[|s| - 1])
  }

  lemma DigitRoundTrip(d: nat)
    requires d < 10
    ensures DigitValue(DigitChar(d)) == d
  {
  }

  /** The decimal rendering is faithful: reading it back gives the number. */
  lemma {:induction false} NatToStringRoundTrip(n: nat)
    ensures ParseNat(NatToString(n)) == n
    decreases n
  {
    if n < 10 {
      DigitRoundTrip(n);
      assert ParseNat([DigitChar(n)]) == 10 * ParseNat([]) + DigitValue(DigitChar(n));
    } else {
      var s := NatToString(n / 10) + [DigitChar(n % 10)];
      assert s[..|s| - 1] == NatToString(n / 10);
      NatToStringRoundTrip(n / 10);
      DigitRoundTrip(n % 10);
    }
  }

  /** The rendering is injective, so distinct counters give distinct strings. */
  lemma NatToStringInjective(m: nat, n: nat)
    requires NatToString(m) == NatToString(n)
    ensures m == n
  {
    NatToStringRoundTrip(m);
    NatToStringRoundTrip(n);
  }

  /** `t` occurs in `s` starting at position i. */
  predicate OccursAt(s: string, t: string, i: int)
  {
    0 <= i <= |s| - |t| && s[i..i + |t|] == t
  }

  /** `t` occurs in `s` as a contiguous substring: Python's `t in s` on strings. */
  predicate Contains(s: string, t: string)
  {
    exists i :: 0 <= i <= |s| - |t| && OccursAt(s, t, i)
  }

  /** Concatenation of a sequence of blocks, in order (pd.concat, or appending in a nested loop). */
  function Flatten<T>(blocks: seq<seq<T>>): seq<T>
  {
    if |blocks| == 0 then [] else Flatten(blocks[..|blocks| - 1]) + blocks[|blocks| - 1]
  }

  lemma FlattenStep<T>(blocks: seq<seq<T>>, k: nat)
    requires k < |blocks|
    ensures Flatten(blocks[..k + 1]) == Flatten(blocks[..k]) + blocks[k]
  {
    assert blocks[..k + 1][..k] == blocks[..k];
  }

  /** Concatenating m blocks of n elements each: element k * n + i is element i of block k. */
  lemma {:induction false} FlattenBlock<T>(blocks: seq<seq<T>>, n: nat, k: nat, i: nat)
    requires forall j :: 0 <= j < |blocks| ==> |blocks[j]| == n
    requires k < |blocks| && i < n
    ensures |Flatten(blocks)| == |blocks| * n
    ensures 0 <= k * n + i < |Flatten(blocks)| && Flatten(blocks)[k * n + i] == blocks[k][i]
    decreases |blocks|
  {
    var m := |blocks| - 1;
    var front := blocks[..m];
    var p := Flatten(front);
    if k < m {
      FlattenBlock(front, n, k, i);
      assert |p| == m * n;
      assert (m + 1) * n == m * n + n;
      BlockIndexInRange(k, m, i, n);
      assert (p + blocks[m])[k * n + i] == p[k * n + i];
    } else {
      FlattenLength(front, n);
      assert (m + 1) * n == m * n + n;
    }
  }

  lemma {:induction false} FlattenLength<T>(blocks: seq<seq<T>>, n: nat)
    requires forall j :: 0 <= j < |blocks| ==> |blocks[j]| == n
    ensures |Flatten(blocks)| == |blocks| * n
    decreases |blocks|
  {
    if |blocks| > 0 {
      var m := |blocks| - 1;
      FlattenLength(blocks[..m], n);
      assert (m + 1) * n == m * n + n;
    }
  }

  lemma BlockIndexInRange(k: nat, m: nat, i: nat, n: nat)
    requires k < m && i < n
    ensures k * n + i < m * n
  {
    assert (k + 1) * n <= m * n;
  }

  /** Every element of the concatenation comes from one of the blocks. */
  lemma {:induction false} FlattenContains<T>(blocks: seq<seq<T>>, x: T)
    requires x in Flatten(blocks)
    ensures exists k :: 0 <= k < |blocks| && x in blocks[k]
  {
    var m := |blocks| - 1;
    if x in blocks[m] {
    } else {
      FlattenContains(blocks[..m], x);
      var k :| 0 <= k < m && x in blocks[..m][k];
      assert blocks[..m][k] == blocks[k];
    }
  }
}
