/**
 * The synthetic single-instrument price generator (main.py,
 * _generate_single_stock_data, _add_market_events and
 * _generate_full_scale_stock_data). Every random draw is an input: normal
 * draws are standard-normal values z, turned into loc + scale * z as numpy
 * does, and uniform draws are unit values u in [0, 1), turned into
 * low + (high - low) * u.
 */
module Prices {
  import opened Common
  import opened Calendar
  import opened Sectors
  import opened Indicators

  function Normal(loc: real, scale: real, z: real): real
  {
    loc + scale * z
  }

  function Uniform(low: real, high: real, u: real): (r: real)
    ensures low <= high && 0.0 <= u < 1.0 ==> low <= r <= high
  {
    var span := high - low;
    ScaleBelow(span, u);
    low + span * u
  }

  lemma ScaleBelow(a: real, u: real)
    ensures a >= 0.0 && 0.0 <= u < 1.0 ==> 0.0 <= a * u <= a
  {
    if a >= 0.0 && 0.0 <= u < 1.0 {
      assert a * (1.0 - u) >= 0.0;
    }
  }

  predicate AllUnit(s: seq<real>)
  {
    forall i :: 0 <= i < |s| ==> 0.0 <= s[i] < 1.0
  }

  // ---------------------------------------------------------------------------
  // Event overlay

  /** The number of dates in [lo, hi]: how many draws numpy makes for that mask. */
  function WindowCount(dates: seq<Date>, lo: Date, hi: Date): nat
  {
    if |dates| == 0 then 0
    else WindowCount(dates[..|dates| - 1], lo, hi) + (if lo <= dates[|dates| - 1] <= hi then 1 else 0)
  }

  lemma WindowCountStep(dates: seq<Date>, i: nat, lo: Date, hi: Date)
    requires i < |dates|
    ensures WindowCount(dates[..i + 1], lo, hi) == WindowCount(dates[..i], lo, hi) + (if lo <= dates[i] <= hi then 1 else 0)
  {
    assert dates[..i + 1][..i] == dates[..i];
  }

  lemma {:induction false} WindowCountPrefix(dates: seq<Date>, i: nat, lo: Date, hi: Date)
    requires i <= |dates|
    ensures WindowCount(dates[..i], lo, hi) <= WindowCount(dates, lo, hi)
    decreases |dates| - i
  {
    if i == |dates| {
      assert dates[..i] == dates;
    } else {
      WindowCountStep(dates, i, lo, hi);
      WindowCountPrefix(dates, i + 1, lo, hi);
    }
  }

  /** A date inside the window has a draw of its own: its rank among the window's dates. */
  lemma WindowRankInRange(dates: seq<Date>, i: nat, lo: Date, hi: Date)
    requires i < |dates| && lo <= dates[i] <= hi
    ensures WindowCount(dates[..i], lo, hi) < WindowCount(dates, lo, hi)
  {
    WindowCountStep(dates, i, lo, hi);
    WindowCountPrefix(dates, i + 1, lo, hi);
  }

  /** The shock added to day i: the next unused draw when the day lies in the window. */
  function WindowShock(dates: seq<Date>, i: nat, lo: Date, hi: Date, loc: real, scale: real, z: seq<real>): real
    requires i < |dates| && |z| == WindowCount(dates, lo, hi)
  {
    if lo <= dates[i] <= hi then
      WindowRankInRange(dates, i, lo, hi);
      Normal(loc, scale, z[WindowCount(dates[..i], lo, hi)])
    else 0.0
  }

  function CovidShock(dates: seq<Date>, i: nat, z: seq<real>): real
    requires i < |dates| && |z| == WindowCount(dates, CovidStart, CovidEnd)
  {
    WindowShock(dates, i, CovidStart, CovidEnd, -0.02, 0.05, z)
  }

  function InflationShock(dates: seq<Date>, i: nat, z: seq<real>): real
    requires i < |dates| && |z| == WindowCount(dates, InflationStart, InflationEnd)
  {
    WindowShock(dates, i, InflationStart, InflationEnd, -0.005, 0.02, z)
  }

  predicate EventDrawsFit(dates: seq<Date>, covidZ: seq<real>, inflationZ: seq<real>)
  {
    |covidZ| == WindowCount(dates, CovidStart, CovidEnd) &&
    |inflationZ| == WindowCount(dates, InflationStart, InflationEnd)
  }

  /**
   * The returns after the two stress overlays: the COVID window adds N(-0.02, 0.05)
   * draws, the 2022 window N(-0.005, 0.02) draws, one per day of the window, in
   * date order. Days outside both windows keep their return.
   */
  function EventOverlay(rets: seq<real>, dates: seq<Date>, covidZ: seq<real>, inflationZ: seq<real>): (r: seq<real>)
    requires |rets| == |dates| && EventDrawsFit(dates, covidZ, inflationZ)
    ensures |r| == |rets|
    ensures forall i :: 0 <= i < |r| && !InCovidWindow(dates[i]) && !InInflationWindow(dates[i]) ==> r[i] == rets[i]
  {
    seq(|rets|, i requires 0 <= i < |rets| =>
      rets[i] + CovidShock(dates, i, covidZ) + InflationShock(dates, i, inflationZ))
  }

  /** The windows are disjoint, so each day gets at most one of the two shocks. */
  lemma OverlayAtMostOneShock(rets: seq<real>, dates: seq<Date>, covidZ: seq<real>, inflationZ: seq<real>, i: nat)
    requires |rets| == |dates| && EventDrawsFit(dates, covidZ, inflationZ) && i < |dates|
    ensures InCovidWindow(dates[i]) ==>
      WindowCount(dates[..i], CovidStart, CovidEnd) < |covidZ| &&
      EventOverlay(rets, dates, covidZ, inflationZ)[i] == rets[i] + Normal(-0.02, 0.05, covidZ[WindowCount(dates[..i], CovidStart, CovidEnd)])
    ensures InInflationWindow(dates[i]) ==>
      WindowCount(dates[..i], InflationStart, InflationEnd) < |inflationZ| &&
      EventOverlay(rets, dates, covidZ, inflationZ)[i] == rets[i] + Normal(-0.005, 0.02, inflationZ[WindowCount(dates[..i], InflationStart, InflationEnd)])
  {
    WindowsDisjoint(dates[i]);
    if InCovidWindow(dates[i]) {
      WindowRankInRange(dates, i, CovidStart, CovidEnd);
    }
    if InInflationWindow(dates[i]) {
      WindowRankInRange(dates, i, InflationStart, InflationEnd);
    }
  }

  /**
   * `returns_copy[mask] += np.random.normal(loc, scale, mask.sum())`: the i-th
   * draw goes to the i-th day of the window, in date order.
   */
  method ApplyWindow(a: array<real>, dates: seq<Date>, lo: Date, hi: Date, loc: real, scale: real, z: seq<real>)
    requires a.Length == |dates| && |z| == WindowCount(dates, lo, hi)
    modifies a
    ensures forall j :: 0 <= j < a.Length ==> a[j] == old(a[j]) + WindowShock(dates, j, lo, hi, loc, scale, z)
  {
    var k := 0;
    for i := 0 to a.Length
      invariant k == WindowCount(dates[..i], lo, hi)
      invariant forall j :: 0 <= j < i ==> a[j] == old(a[j]) + WindowShock(dates, j, lo, hi, loc, scale, z)
      invariant forall j :: i <= j < a.Length ==> a[j] == old(a[j])
    {
      WindowCountStep(dates, i, lo, hi);
      if lo <= dates[i] <= hi {
        WindowRankInRange(dates, i, lo, hi);
        a[i] := a[i] + Normal(loc, scale, z[k]);
        k := k + 1;
      }
    }
  }

  /**
   * _add_market_events: a copy of the returns, updated in place under the two
   * masks. The input sequence is a value and cannot change.
   */
  method AddMarketEvents(rets: seq<real>, dates: seq<Date>, covidZ: seq<real>, inflationZ: seq<real>) returns (adjusted: seq<real>)
    requires |rets| == |dates| && EventDrawsFit(dates, covidZ, inflationZ)
    ensures adjusted == EventOverlay(rets, dates, covidZ, inflationZ)
  {
    var n := |rets|;
    var copy := new real[n](i requires 0 <= i < n => rets[i]);
    ApplyWindow(copy, dates, CovidStart, CovidEnd, -0.02, 0.05, covidZ);
    ApplyWindow(copy, dates, InflationStart, InflationEnd, -0.005, 0.02, inflationZ);
    adjusted := copy[..];
  }

  // ---------------------------------------------------------------------------
  // Price path and OHLCV rows

  /**
   * The list `prices` of the source before its first element is dropped:
   * the initial price followed by the price after each return.
   */
  function PricePath(initial: real, rets: seq<real>): (r: seq<real>)
    ensures |r| == |rets| + 1 && r[0] == initial
  {
    if |rets| == 0 then [initial]
    else
      var q := PricePath(initial, rets[..|rets| - 1]);
      q + [Compound(q[|q| - 1], rets[|rets| - 1])]
  }

  /** A price after one day's simple return. */
  function Compound(price: real, ret: real): real
  {
    price * (1.0 + ret)
  }

  lemma CompoundPositive(price: real, ret: real)
    requires price > 0.0 && ret > -1.0
    ensures Compound(price, ret) > 0.0
  {
  }

  /** Each price is the previous one compounded by that day's return. */
  lemma {:induction false} PricePathStep(initial: real, rets: seq<real>, i: nat)
    requires i < |rets|
    ensures PricePath(initial, rets)[i + 1] == Compound(PricePath(initial, rets)[i], rets[i])
    ensures PricePath(initial, rets[..i + 1]) == PricePath(initial, rets)[..i + 2]
    decreases |rets|
  {
    var n := |rets|;
    if i < n - 1 {
      var front := rets[..n - 1];
      PricePathStep(initial, front, i);
      assert front[..i + 1] == rets[..i + 1];
      assert front[i] == rets[i];
      assert PricePath(initial, rets)[..n] == PricePath(initial, front);
    } else {
      assert rets[..i + 1] == rets;
    }
  }

  /** Returns above -100% keep every price positive. */
  lemma {:induction false} PricePathPositive(initial: real, rets: seq<real>)
    requires initial > 0.0
    requires forall i :: 0 <= i < |rets| ==> rets[i] > -1.0
    ensures forall i :: 0 <= i < |PricePath(initial, rets)| ==> PricePath(initial, rets)[i] > 0.0
  {
    if |rets| > 0 {
      var front := rets[..|rets| - 1];
      PricePathPositive(initial, front);
      var q := PricePath(initial, front);
      var last := Compound(q[|q| - 1], rets[|rets| - 1]);
      CompoundPositive(q[|q| - 1], rets[|rets| - 1]);
      assert PricePath(initial, rets) == q + [last];
      forall i | 0 <= i < |q| + 1 ensures (q + [last])[i] > 0.0 {
        if i < |q| {
          assert (q + [last])[i] == q[i];
        }
      }
    }
  }

  datatype PriceRow = PriceRow(
    date: Date, symbol: string,
    open: real, high: real, low: real, close: real,
    volume: int, ret: real)

  /** One day's draws for the OHLCV synthesis. */
  datatype DayDraws = DayDraws(rangeU: real, highU: real, lowU: real, volumeU: real)

  /** close * uniform(0.005, 0.04): the day's high-low half-range. */
  function DailyRange(close: real, u: real): (r: real)
    ensures close >= 0.0 && 0.0 <= u < 1.0 ==> r >= 0.0
  {
    var f := Uniform(0.005, 0.04, u);
    if close >= 0.0 && 0.0 <= u < 1.0 then
      assert f >= 0.0;
      assert close * f >= 0.0 * f;
      close * f
    else close * f
  }

  /** int(avg_volume * (1 + |return| * 10) * uniform(0.5, 2.0)). */
  function DayVolume(baseVolume: int, ret: real, u: real): int
  {
    Trunc(baseVolume as real * (1.0 + Abs(ret) * 10.0) * Uniform(0.5, 2.0, u))
  }

  /**
   * Row i of the frame, from the closes (the path without its initial price):
   * a 0.5%-4% range around the close, high above and low below it, the open is
   * the previous close (that day's close on the first day) and the volume grows
   * with the size of the move.
   */
  function DayRow(symbol: string, date: Date, closes: seq<real>, i: nat, ret: real, baseVolume: int, u: DayDraws): (row: PriceRow)
    requires i < |closes|
    ensures row.date == date && row.symbol == symbol && row.ret == ret
    ensures closes[i] >= 0.0 && DayDrawsFit(u) ==> row.low <= row.close <= row.high
  {
    var close := closes[i];
    var dailyRange := DailyRange(close, u.rangeU);
    var high := close + Uniform(0.0, dailyRange, u.highU);
    var low := close - Uniform(0.0, dailyRange, u.lowU);
    var openPrice := if i > 0 then closes[i - 1] else close;
    var row := PriceRow(date, symbol, Round(openPrice, Cents), Round(high, Cents), Round(low, Cents), Round(close, Cents),
                        DayVolume(baseVolume, ret, u.volumeU), ret);
    if close >= 0.0 && DayDrawsFit(u) then
      assert low <= close <= high;
      RoundMonotone(low, close, Cents);
      RoundMonotone(close, high, Cents);
      row
    else row
  }

  /** All draws of one instrument, in the order numpy makes them per kind. */
  datatype StockDraws = StockDraws(
    initialU: real,        // uniform(50, 500)
    marketZ: seq<real>,    // normal(0, 0.01, n)
    idioZ: seq<real>,      // normal(daily_drift, daily_vol, n)
    covidZ: seq<real>,     // normal(-0.02, 0.05, #COVID days)
    inflationZ: seq<real>, // normal(-0.005, 0.02, #2022 days)
    days: seq<DayDraws>)   // per day: range, high, low, volume

  predicate DayDrawsFit(u: DayDraws)
  {
    0.0 <= u.rangeU < 1.0 && 0.0 <= u.highU < 1.0 && 0.0 <= u.lowU < 1.0 && 0.0 <= u.volumeU < 1.0
  }

  predicate DrawsFit(d: StockDraws, dates: seq<Date>)
  {
    0.0 <= d.initialU < 1.0 &&
    |d.marketZ| == |dates| && |d.idioZ| == |dates| && |d.days| == |dates| &&
    EventDrawsFit(dates, d.covidZ, d.inflationZ) &&
    forall i :: 0 <= i < |d.days| ==> DayDrawsFit(d.days[i])
  }

  /** sqrt(252), the annual-to-daily volatility scale, as a characterised input. */
  predicate IsSqrt252(s: real)
  {
    s > 0.0 && s * s == 252.0
  }

  function InitialPrice(d: StockDraws): real
  {
    Uniform(50.0, 500.0, d.initialU)
  }

  /** beta * market shock + idiosyncratic shock, before the overlays. */
  function BaseReturns(p: SectorProfile, d: StockDraws, sqrt252: real): (r: seq<real>)
    requires |d.marketZ| == |d.idioZ| && sqrt252 > 0.0
    ensures |r| == |d.marketZ|
  {
    seq(|d.marketZ|, i requires 0 <= i < |d.marketZ| =>
      p.beta * Normal(0.0, 0.01, d.marketZ[i]) + Normal(p.drift / 252.0, p.volatility / sqrt252, d.idioZ[i]))
  }

  function TotalReturns(symbol: string, dates: seq<Date>, d: StockDraws, sqrt252: real): (r: seq<real>)
    requires DrawsFit(d, dates) && sqrt252 > 0.0
    ensures |r| == |dates|
  {
    EventOverlay(BaseReturns(GetSectorParameters(symbol), d, sqrt252), dates, d.covidZ, d.inflationZ)
  }

  function Closes(symbol: string, dates: seq<Date>, d: StockDraws, sqrt252: real): (r: seq<real>)
    requires DrawsFit(d, dates) && sqrt252 > 0.0
    ensures |r| == |dates|
  {
    PricePath(InitialPrice(d), TotalReturns(symbol, dates, d, sqrt252))[1..]
  }

  /** Every open after the first is the previous row's close. */
  predicate OpensAtPreviousClose(rows: seq<PriceRow>)
  {
    forall i :: 0 < i < |rows| ==> rows[i].open == rows[i - 1].close
  }

  /**
   * The frame of one instrument: one row per calendar day, dated by the
   * calendar, each open equal to the previous close and the first open equal
   * to the first close.
   */
  function StockRows(symbol: string, dates: seq<Date>, d: StockDraws, sqrt252: real): (r: seq<PriceRow>)
    requires DrawsFit(d, dates) && sqrt252 > 0.0
    ensures |r| == |dates|
    ensures forall i :: 0 <= i < |r| ==> r[i].date == dates[i] && r[i].symbol == symbol
    ensures |r| > 0 ==> r[0].open == r[0].close
    ensures OpensAtPreviousClose(r)
  {
    var rs := TotalReturns(symbol, dates, d, sqrt252);
    var closes := Closes(symbol, dates, d, sqrt252);
    var base := GetSectorParameters(symbol).avgVolume;
    seq(|dates|, i requires 0 <= i < |dates| => DayRow(symbol, dates[i], closes, i, rs[i], base, d.days[i]))
  }

  /** The first close is the initial price after one day's return, not the initial price. */
  lemma FirstClose(symbol: string, dates: seq<Date>, d: StockDraws, sqrt252: real)
    requires DrawsFit(d, dates) && sqrt252 > 0.0 && |dates| > 0
    ensures StockRows(symbol, dates, d, sqrt252)[0].close ==
      Round(Compound(InitialPrice(d), TotalReturns(symbol, dates, d, sqrt252)[0]), Cents)
  {
    PricePathStep(InitialPrice(d), TotalReturns(symbol, dates, d, sqrt252), 0);
  }

  /** Every volume is positive: the multiplier is at least 0.5 and each base volume at least 2. */
  lemma StockVolumesPositive(symbol: string, dates: seq<Date>, d: StockDraws, sqrt252: real)
    requires DrawsFit(d, dates) && sqrt252 > 0.0
    ensures forall i :: 0 <= i < |dates| ==> StockRows(symbol, dates, d, sqrt252)[i].volume > 0
  {
    var rs := TotalReturns(symbol, dates, d, sqrt252);
    var base := GetSectorParameters(symbol).avgVolume;
    forall i | 0 <= i < |dates| ensures StockRows(symbol, dates, d, sqrt252)[i].volume > 0 {
      VolumeAtLeastOne(base, rs[i], d.days[i].volumeU);
    }
  }

  lemma VolumeAtLeastOne(base: int, ret: real, u: real)
    requires base >= 2 && 0.0 <= u < 1.0
    ensures DayVolume(base, ret, u) >= 1
  {
    var m := 1.0 + Abs(ret) * 10.0;
    var v := Uniform(0.5, 2.0, u);
    assert m >= 1.0 && v >= 0.5;
    assert base as real * m >= base as real;
    assert base as real * m * v >= base as real * m * 0.5;
    assert base as real * m * v >= 1.0;
  }

  /** Given returns above -100%, every row satisfies Low <= Close <= High. */
  lemma StockRowsOrdered(symbol: string, dates: seq<Date>, d: StockDraws, sqrt252: real)
    requires DrawsFit(d, dates) && sqrt252 > 0.0
    requires forall i :: 0 <= i < |dates| ==> TotalReturns(symbol, dates, d, sqrt252)[i] > -1.0
    ensures forall i :: 0 <= i < |dates| ==>
      StockRows(symbol, dates, d, sqrt252)[i].low <= StockRows(symbol, dates, d, sqrt252)[i].close <= StockRows(symbol, dates, d, sqrt252)[i].high
  {
    var rs := TotalReturns(symbol, dates, d, sqrt252);
    var closes := Closes(symbol, dates, d, sqrt252);
    var base := GetSectorParameters(symbol).avgVolume;
    assert InitialPrice(d) >= 50.0;
    PricePathPositive(InitialPrice(d), rs);
    forall i | 0 <= i < |dates|
      ensures StockRows(symbol, dates, d, sqrt252)[i].low <= StockRows(symbol, dates, d, sqrt252)[i].close <= StockRows(symbol, dates, d, sqrt252)[i].high
    {
      assert closes[i] == PricePath(InitialPrice(d), rs)[i + 1];
      assert StockRows(symbol, dates, d, sqrt252)[i] == DayRow(symbol, dates[i], closes, i, rs[i], base, d.days[i]);
    }
  }

  function ClosesOf(rows: seq<PriceRow>): (r: seq<real>)
    ensures |r| == |rows| && forall i :: 0 <= i < |rows| ==> r[i] == rows[i].close
  {
    seq(|rows|, i requires 0 <= i < |rows| => rows[i].close)
  }

  function VolumesOf(rows: seq<PriceRow>): (r: seq<int>)
    ensures |r| == |rows| && forall i :: 0 <= i < |rows| ==> r[i] == rows[i].volume
  {
    seq(|rows|, i requires 0 <= i < |rows| => rows[i].volume)
  }

  /** The compounding loop: `prices` grows by one price per return, then loses its initial price. */
  method CompoundPrices(initialPrice: real, totalReturns: seq<real>) returns (prices: seq<real>)
    ensures prices == PricePath(initialPrice, totalReturns)[1..]
  {
    prices := [initialPrice];
    for i := 0 to |totalReturns|
      invariant prices == PricePath(initialPrice, totalReturns[..i])
    {
      PricePathStep(initialPrice, totalReturns[..i + 1], i);
      assert totalReturns[..i + 1][..i] == totalReturns[..i];
      prices := prices + [Compound(prices[|prices| - 1], totalReturns[i])];
    }
    assert totalReturns[..|totalReturns|] == totalReturns;
    prices := prices[1..];
  }

  /** The row-building loop over the calendar. */
  method BuildRows(symbol: string, dates: seq<Date>, prices: seq<real>, totalReturns: seq<real>, avgVolume: int, days: seq<DayDraws>)
    returns (rows: seq<PriceRow>)
    requires |prices| == |dates| && |totalReturns| == |dates| && |days| == |dates|
    ensures |rows| == |dates|
    ensures forall j :: 0 <= j < |dates| ==> rows[j] == DayRow(symbol, dates[j], prices, j, totalReturns[j], avgVolume, days[j])
  {
    rows := [];
    for i := 0 to |dates|
      invariant |rows| == i
      invariant forall j :: 0 <= j < i ==> rows[j] == DayRow(symbol, dates[j], prices, j, totalReturns[j], avgVolume, days[j])
    {
      var close := prices[i];
      var dailyRange := DailyRange(close, days[i].rangeU);
      var high := close + Uniform(0.0, dailyRange, days[i].highU);
      var low := close - Uniform(0.0, dailyRange, days[i].lowU);
      var openPrice := if i > 0 then prices[i - 1] else close;
      var volume := DayVolume(avgVolume, totalReturns[i], days[i].volumeU);
      rows := rows + [PriceRow(dates[i], symbol, Round(openPrice, Cents), Round(high, Cents), Round(low, Cents),
                               Round(close, Cents), volume, totalReturns[i])];
    }
  }

  /**
   * _generate_single_stock_data: the returns, the compounding loop, the
   * row-building loop, then the indicator columns computed on the rounded
   * closes and the volumes.
   */
  method GenerateSingleStockData(symbol: string, dates: seq<Date>, d: StockDraws, sqrt252: real)
    returns (rows: seq<PriceRow>, indicators: seq<IndicatorRow>)
    requires DrawsFit(d, dates) && IsSqrt252(sqrt252)
    ensures rows == StockRows(symbol, dates, d, sqrt252)
    ensures indicators == TechnicalIndicators(ClosesOf(rows), VolumesOf(rows))
  {
    var profile := GetSectorParameters(symbol);
    var initialPrice := Uniform(50.0, 500.0, d.initialU);
    var totalReturns := BaseReturns(profile, d, sqrt252);
    totalReturns := AddMarketEvents(totalReturns, dates, d.covidZ, d.inflationZ);
    var prices := CompoundPrices(initialPrice, totalReturns);
    rows := BuildRows(symbol, dates, prices, totalReturns, profile.avgVolume, d.days);
    indicators := TechnicalIndicators(ClosesOf(rows), VolumesOf(rows));
  }

  // ---------------------------------------------------------------------------
  // The full panel

  /** One draw record per instrument, each fitting the calendar. */
  predicate PanelDrawsFit(symbols: seq<string>, draws: seq<StockDraws>, dates: seq<Date>)
  {
    |draws| == |symbols| && forall k :: 0 <= k < |draws| ==> DrawsFit(draws[k], dates)
  }

  /** The instruments' frames, in symbol order. */
  function StockFrames(symbols: seq<string>, dates: seq<Date>, draws: seq<StockDraws>, sqrt252: real): (r: seq<seq<PriceRow>>)
    requires PanelDrawsFit(symbols, draws, dates) && sqrt252 > 0.0
    ensures |r| == |symbols| && forall k :: 0 <= k < |r| ==> |r[k]| == |dates|
  {
    seq(|symbols|, k requires 0 <= k < |symbols| => StockRows(symbols[k], dates, draws[k], sqrt252))
  }

  /** The instruments' indicator columns: computed per frame, never across two instruments. */
  function IndicatorFrames(frames: seq<seq<PriceRow>>): (r: seq<seq<IndicatorRow>>)
    ensures |r| == |frames| && forall k :: 0 <= k < |r| ==> |r[k]| == |frames[k]|
  {
    seq(|frames|, k requires 0 <= k < |frames| => TechnicalIndicators(ClosesOf(frames[k]), VolumesOf(frames[k])))
  }

  /** The indicators of row k * n + i are those of day i computed on instrument k alone. */
  lemma PanelIndicatorsBlock(frames: seq<seq<PriceRow>>, n: nat, k: nat, i: nat)
    requires forall j :: 0 <= j < |frames| ==> |frames[j]| == n
    requires k < |frames| && i < n
    ensures |Flatten(IndicatorFrames(frames))| == |frames| * n
    ensures 0 <= k * n + i < |Flatten(IndicatorFrames(frames))|
    ensures Flatten(IndicatorFrames(frames))[k * n + i] == TechnicalIndicators(ClosesOf(frames[k]), VolumesOf(frames[k]))[i]
  {
    FlattenBlock(IndicatorFrames(frames), n, k, i);
  }

  /** The loop over the instruments: each frame generated on the same calendar, then concatenated. */
  method GeneratePanel(symbols: seq<string>, dates: seq<Date>, draws: seq<StockDraws>, sqrt252: real)
    returns (panel: seq<PriceRow>, panelIndicators: seq<IndicatorRow>)
    requires PanelDrawsFit(symbols, draws, dates) && IsSqrt252(sqrt252)
    ensures panel == Flatten(StockFrames(symbols, dates, draws, sqrt252))
    ensures panelIndicators == Flatten(IndicatorFrames(StockFrames(symbols, dates, draws, sqrt252)))
  {
    ghost var frames := StockFrames(symbols, dates, draws, sqrt252);
    ghost var indicatorFrames := IndicatorFrames(frames);
    panel := [];
    panelIndicators := [];
    for k := 0 to |symbols|
      invariant panel == Flatten(frames[..k])
      invariant panelIndicators == Flatten(indicatorFrames[..k])
    {
      var rows, indicators := GenerateSingleStockData(symbols[k], dates, draws[k], sqrt252);
      FlattenStep(frames, k);
      FlattenStep(indicatorFrames, k);
      panel := panel + rows;
      panelIndicators := panelIndicators + indicators;
    }
    assert frames[..|symbols|] == frames && indicatorFrames[..|symbols|] == indicatorFrames;
  }

  /**
   * _generate_full_scale_stock_data: the trading calendar, then one frame per
   * instrument in symbol order, each consuming its own draws, concatenated.
   */
  method GenerateFullScaleStockData(symbols: seq<string>, draws: seq<StockDraws>, sqrt252: real)
    returns (panel: seq<PriceRow>, panelIndicators: seq<IndicatorRow>)
    requires PanelDrawsFit(symbols, draws, StudyCalendar()) && IsSqrt252(sqrt252)
    ensures panel == Flatten(StockFrames(symbols, StudyCalendar(), draws, sqrt252))
    ensures panelIndicators == Flatten(IndicatorFrames(StockFrames(symbols, StudyCalendar(), draws, sqrt252)))
  {
    var businessDays := BusinessDays(StartDate, EndDate);
    if |businessDays| > ExpectedTradingDays {
      businessDays := businessDays[..ExpectedTradingDays];
    }
    assert businessDays == StudyCalendar();
    panel, panelIndicators := GeneratePanel(symbols, businessDays, draws, sqrt252);
  }
}
