/**
 * Per-instrument technical indicators (main.py, _calculate_technical_indicators
 * and _calculate_rsi), restricted to the columns that are rational functions of
 * the series: moving averages, RSI-14, liquidity, volume ratio and percentage
 * change. A row that pandas fills with NaN is None here.
 */
module Indicators {
  import opened Common

  datatype IndicatorRow = IndicatorRow(
    ma5: Option<real>, ma20: Option<real>, ma50: Option<real>, ma200: Option<real>,
    rsi: Option<real>,
    liquidityScore: real, volumeMa20: Option<real>, volumeRatio: Option<real>,
    priceChange1d: Option<real>, priceChange5d: Option<real>, priceChange20d: Option<real>)

  /** Close.rolling(k).mean() at row i. */
  function MovingAverage(closes: seq<real>, k: nat, i: nat): (r: Option<real>)
    requires k > 0 && i < |closes|
    ensures r.None? <==> i < k - 1
  {
    TrailingMean(closes, k, i)
  }

  /**
   * Close.pct_change(k) at row i. A zero reference close, which pandas turns
   * into an infinity, is undefined here too.
   */
  function PctChange(closes: seq<real>, k: nat, i: nat): (r: Option<real>)
    requires i < |closes|
    ensures r.None? <==> i < k || closes[i - k] == 0.0
    ensures r.Some? ==> r.value * closes[i - k] == closes[i] - closes[i - k]
  {
    if i < k || closes[i - k] == 0.0 then None
    else Some((closes[i] - closes[i - k]) / closes[i - k])
  }

  /** The up-move of the close into row j; the first row's NaN difference counts as 0. */
  function Gain(closes: seq<real>, j: nat): (g: real)
    requires j < |closes|
    ensures g >= 0.0
  {
    if j == 0 then 0.0 else Max(closes[j] - closes[j - 1], 0.0)
  }

  /** The down-move of the close into row j, as a non-negative number. */
  function Loss(closes: seq<real>, j: nat): (l: real)
    requires j < |closes|
    ensures l >= 0.0
  {
    if j == 0 then 0.0 else Max(closes[j - 1] - closes[j], 0.0)
  }

  function Gains(closes: seq<real>): (r: seq<real>)
    ensures |r| == |closes|
  {
    seq(|closes|, j requires 0 <= j < |closes| => Gain(closes, j))
  }

  function Losses(closes: seq<real>): (r: seq<real>)
    ensures |r| == |closes|
  {
    seq(|closes|, j requires 0 <= j < |closes| => Loss(closes, j))
  }

  const RsiWindow: nat := 14

  /**
   * RSI-14 at row i: 100 - 100 / (1 + gain / loss) over the 14-row means.
   * A zero mean loss makes the ratio infinite, which gives 100 when the mean
   * gain is positive and NaN when it is zero too.
   */
  function Rsi(closes: seq<real>, i: nat): (r: Option<real>)
    requires i < |closes|
    ensures r.Some? ==> 0.0 <= r.value <= 100.0
  {
    if i < RsiWindow - 1 then None
    else
      var gain := TrailingMean(Gains(closes), RsiWindow, i).value;
      var loss := TrailingMean(Losses(closes), RsiWindow, i).value;
      TrailingMeanBounds(Gains(closes), RsiWindow, i, 0.0, MaxOf(Gains(closes)));
      TrailingMeanBounds(Losses(closes), RsiWindow, i, 0.0, MaxOf(Losses(closes)));
      if loss == 0.0 then (if gain > 0.0 then Some(100.0) else None)
      else
        var rs := gain / loss;
        assert rs >= 0.0;
        assert 0.0 < 100.0 / (1.0 + rs) <= 100.0;
        Some(100.0 - 100.0 / (1.0 + rs))
  }

  function AsReals(s: seq<int>): (r: seq<real>)
    ensures |r| == |s| && forall i :: 0 <= i < |s| ==> r[i] == s[i] as real
  {
    seq(|s|, i requires 0 <= i < |s| => s[i] as real)
  }

  /** Volume / Volume.rolling(20).mean(); a zero mean volume is undefined. */
  function VolumeRatio(volumes: seq<int>, i: nat): (r: Option<real>)
    requires i < |volumes|
    ensures r.None? <==> i < 19 || TrailingMean(AsReals(volumes), 20, i).value == 0.0
    ensures r.Some? ==> r.value * TrailingMean(AsReals(volumes), 20, i).value == volumes[i] as real
  {
    var m := TrailingMean(AsReals(volumes), 20, i);
    if m.None? || m.value == 0.0 then None else Some(volumes[i] as real / m.value)
  }

  function IndicatorsAt(closes: seq<real>, volumes: seq<int>, i: nat): IndicatorRow
    requires |closes| == |volumes| && i < |closes|
  {
    IndicatorRow(
      MovingAverage(closes, 5, i), MovingAverage(closes, 20, i),
      MovingAverage(closes, 50, i), MovingAverage(closes, 200, i),
      Rsi(closes, i),
      closes[i] * volumes[i] as real,
      TrailingMean(AsReals(volumes), 20, i), VolumeRatio(volumes, i),
      PctChange(closes, 1, i), PctChange(closes, 5, i), PctChange(closes, 20, i))
  }

  /** The indicator columns of one instrument's frame, row by row. */
  function TechnicalIndicators(closes: seq<real>, volumes: seq<int>): (r: seq<IndicatorRow>)
    requires |closes| == |volumes|
    ensures |r| == |closes|
    ensures forall i :: 0 <= i < |r| ==>
      (r[i].ma5.None? <==> i < 4) && (r[i].ma20.None? <==> i < 19) &&
      (r[i].ma50.None? <==> i < 49) && (r[i].ma200.None? <==> i < 199) &&
      (i < 13 ==> r[i].rsi.None?) && (i < 19 ==> r[i].volumeRatio.None?) &&
      (i < 1 ==> r[i].priceChange1d.None?) && (i < 5 ==> r[i].priceChange5d.None?) &&
      (i < 20 ==> r[i].priceChange20d.None?) &&
      r[i].liquidityScore == closes[i] * volumes[i] as real
  {
    seq(|closes|, i requires 0 <= i < |closes| => IndicatorsAt(closes, volumes, i))
  }

  // ---------------------------------------------------------------------------
  // RSI properties

  /**
   * RSI is defined exactly from row 13 on when its window moved at all (some
   * gain or some loss), and every defined value lies in [0, 100].
   */
  lemma RsiBounds(closes: seq<real>, i: nat)
    requires i < |closes|
    ensures Rsi(closes, i).Some? <==>
      i >= RsiWindow - 1
      && (TrailingMean(Gains(closes), RsiWindow, i).value > 0.0 || TrailingMean(Losses(closes), RsiWindow, i).value > 0.0)
    ensures Rsi(closes, i).Some? ==> 0.0 <= Rsi(closes, i).value <= 100.0
  {
    if i >= RsiWindow - 1 {
      TrailingMeanBounds(Gains(closes), RsiWindow, i, 0.0, MaxOf(Gains(closes)));
      TrailingMeanBounds(Losses(closes), RsiWindow, i, 0.0, MaxOf(Losses(closes)));
    }
  }

  function MaxOf(s: seq<real>): (m: real)
    ensures forall i :: 0 <= i < |s| ==> s[i] <= m
  {
    if |s| == 0 then 0.0 else Max(MaxOf(s[..|s| - 1]), s[|s| - 1])
  }

  /** An RSI of exactly 100 means no down-move in the window and some up-move. */
  lemma RsiHundredIffNoLoss(closes: seq<real>, i: nat)
    requires 13 <= i < |closes|
    ensures Rsi(closes, i) == Some(100.0) <==>
      (TrailingMean(Losses(closes), RsiWindow, i).value == 0.0 &&
       TrailingMean(Gains(closes), RsiWindow, i).value > 0.0)
  {
    var gain := TrailingMean(Gains(closes), RsiWindow, i).value;
    var loss := TrailingMean(Losses(closes), RsiWindow, i).value;
    TrailingMeanBounds(Gains(closes), RsiWindow, i, 0.0, MaxOf(Gains(closes)));
    if loss != 0.0 {
      TrailingMeanBounds(Losses(closes), RsiWindow, i, 0.0, MaxOf(Losses(closes)));
      var rs := gain / loss;
      assert rs >= 0.0;
      assert 100.0 / (1.0 + rs) > 0.0;
    }
  }

  /** A flat window (no up-move and no down-move) leaves RSI undefined, the NaN of 0/0. */
  lemma RsiUndefinedWhenFlat(closes: seq<real>, i: nat)
    requires 13 <= i < |closes|
    requires forall j :: i - 13 <= j <= i && j > 0 ==> closes[j] == closes[j - 1]
    ensures Rsi(closes, i).None?
  {
    var w := Gains(closes)[i + 1 - RsiWindow..i + 1];
    var v := Losses(closes)[i + 1 - RsiWindow..i + 1];
    forall j | 0 <= j < |w| ensures w[j] == 0.0 && v[j] == 0.0 {
      assert w[j] == Gain(closes, i + 1 - RsiWindow + j);
      assert v[j] == Loss(closes, i + 1 - RsiWindow + j);
    }
    SumBounds(w, 0.0, 0.0);
    SumBounds(v, 0.0, 0.0);
  }

  /** Strictly rising closes give the "maximally overbought" RSI of 100 from row 13 on. */
  lemma RsiOfIncreasingSeries(closes: seq<real>, i: nat)
    requires 13 <= i < |closes|
    requires forall j :: 0 < j < |closes| ==> closes[j - 1] < closes[j]
    ensures Rsi(closes, i) == Some(100.0)
  {
    var w := Gains(closes)[i + 1 - RsiWindow..i + 1];
    var v := Losses(closes)[i + 1 - RsiWindow..i + 1];
    forall j | 0 <= j < |v| ensures v[j] == 0.0 {
      assert v[j] == Loss(closes, i + 1 - RsiWindow + j);
    }
    SumBounds(v, 0.0, 0.0);
    WindowGainPositive(closes, i);
  }

  /** Over a window ending in an up-move, the gains add up to a positive total. */
  lemma WindowGainPositive(closes: seq<real>, i: nat)
    requires 13 <= i < |closes| && closes[i - 1] < closes[i]
    ensures Sum(Gains(closes)[i + 1 - RsiWindow..i + 1]) > 0.0
  {
    var w := Gains(closes)[i + 1 - RsiWindow..i + 1];
    // the last up-move alone makes the total positive
    var last := w[|w| - 1];
    assert last == Gain(closes, i) && last > 0.0;
    SumBounds(w[..|w| - 1], 0.0, MaxOf(Gains(closes)));
    assert w[..|w| - 1] + [last] == w;
    SumAppend(w[..|w| - 1], [last]);
    assert Sum([last]) == last by {
      assert [last][..0] == [];
    }
    assert Sum(w) > 0.0;
  }

  // ---------------------------------------------------------------------------
  // Causality: row i depends only on rows 0..i

  lemma TrailingMeanCausal(s: seq<real>, t: seq<real>, k: nat, i: nat)
    requires k > 0 && i < |s| && i < |t| && s[..i + 1] == t[..i + 1]
    ensures TrailingMean(s, k, i) == TrailingMean(t, k, i)
  {
    if i >= k - 1 {
      assert s[i + 1 - k..i + 1] == s[..i + 1][i + 1 - k..];
      assert t[i + 1 - k..i + 1] == t[..i + 1][i + 1 - k..];
    }
  }

  lemma GainsLossesCausal(s: seq<real>, t: seq<real>, i: nat)
    requires i < |s| && i < |t| && s[..i + 1] == t[..i + 1]
    ensures Gains(s)[..i + 1] == Gains(t)[..i + 1]
    ensures Losses(s)[..i + 1] == Losses(t)[..i + 1]
  {
    forall j | 0 <= j <= i ensures Gains(s)[j] == Gains(t)[j] && Losses(s)[j] == Losses(t)[j] {
      assert s[j] == s[..i + 1][j] == t[..i + 1][j] == t[j];
      if j > 0 {
        assert s[j - 1] == s[..i + 1][j - 1] == t[..i + 1][j - 1] == t[j - 1];
      }
    }
  }

  /**
   * No look-ahead: two series that agree up to row i (closes and volumes) have
   * the same indicator row i, whatever follows.
   */
  lemma IndicatorsCausal(closes: seq<real>, volumes: seq<int>, closes': seq<real>, volumes': seq<int>, i: nat)
    requires |closes| == |volumes| && |closes'| == |volumes'|
    requires i < |closes| && i < |closes'|
    requires closes[..i + 1] == closes'[..i + 1] && volumes[..i + 1] == volumes'[..i + 1]
    ensures IndicatorsAt(closes, volumes, i) == IndicatorsAt(closes', volumes', i)
  {
    assert closes[i] == closes[..i + 1][i];
    assert closes'[i] == closes'[..i + 1][i];
    assert volumes[i] == volumes[..i + 1][i];
    assert volumes'[i] == volumes'[..i + 1][i];
    forall j | 0 <= j <= i ensures closes[j] == closes'[j] {
      assert closes[j] == closes[..i + 1][j];
      assert closes'[j] == closes'[..i + 1][j];
    }
    TrailingMeanCausal(closes, closes', 5, i);
    TrailingMeanCausal(closes, closes', 20, i);
    TrailingMeanCausal(closes, closes', 50, i);
    TrailingMeanCausal(closes, closes', 200, i);
    GainsLossesCausal(closes, closes', i);
    TrailingMeanCausal(Gains(closes), Gains(closes'), RsiWindow, i);
    TrailingMeanCausal(Losses(closes), Losses(closes'), RsiWindow, i);
    assert AsReals(volumes)[..i + 1] == AsReals(volumes')[..i + 1];
    TrailingMeanCausal(AsReals(volumes), AsReals(volumes'), 20, i);
  }

  /** Recomputing on the prefix that ends at row i reproduces row i of the full pass. */
  lemma TechnicalIndicatorsPrefix(closes: seq<real>, volumes: seq<int>, i: nat)
    requires |closes| == |volumes| && i < |closes|
    ensures TechnicalIndicators(closes[..i + 1], volumes[..i + 1])[i] == TechnicalIndicators(closes, volumes)[i]
  {
    assert closes[..i + 1][..i + 1] == closes[..i + 1];
    assert volumes[..i + 1][..i + 1] == volumes[..i + 1];
    IndicatorsCausal(closes[..i + 1], volumes[..i + 1], closes, volumes, i);
  }
}
