/**
 * The quarterly fundamentals generator (main.py, collect_fundamental_data,
 * _get_fundamental_multiplier, _get_base_fundamental_value). Each ratio of
 * each (quarter, instrument) record is its base value scaled by a sector
 * multiplier, plus a normal draw with a tenth of the base value as standard
 * deviation, floored at 0.01.
 */
module Fundamentals {
  import opened Common
  import opened Calendar
  import opened Prices

  /** Config.FUNDAMENTAL_INDICATORS. */
  datatype Ratio =
    | MarketCap | PeRatio | PbRatio | PsRatio | EvEbitda
    | Roe | Roa | Roi | GrossMargin | OperatingMargin
    | NetMargin | DebtToEquity | CurrentRatio | QuickRatio | AssetTurnover

  /** The ratios in the configured order, which is also the order of the draws. */
  const FundamentalIndicators: seq<Ratio> := [
    MarketCap, PeRatio, PbRatio, PsRatio, EvEbitda,
    Roe, Roa, Roi, GrossMargin, OperatingMargin,
    NetMargin, DebtToEquity, CurrentRatio, QuickRatio, AssetTurnover]

  /** Every ratio appears exactly once in the configured list. */
  lemma IndicatorsListed(r: Ratio)
    ensures |FundamentalIndicators| == 15
    ensures r in FundamentalIndicators
    ensures forall i, j :: 0 <= i < j < |FundamentalIndicators| ==> FundamentalIndicators[i] != FundamentalIndicators[j]
  {
  }

  /** The position of a ratio in the configured list, which is which of a record's draws it gets. */
  function Position(r: Ratio): (k: nat)
    ensures k < |FundamentalIndicators| && FundamentalIndicators[k] == r
  {
    match r
    case MarketCap => 0
    case PeRatio => 1
    case PbRatio => 2
    case PsRatio => 3
    case EvEbitda => 4
    case Roe => 5
    case Roa => 6
    case Roi => 7
    case GrossMargin => 8
    case OperatingMargin => 9
    case NetMargin => 10
    case DebtToEquity => 11
    case CurrentRatio => 12
    case QuickRatio => 13
    case AssetTurnover => 14
  }

  const MultiplierTechStocks: seq<string> := ["AAPL", "MSFT", "GOOGL", "NVDA", "META", "TSLA"]
  const MultiplierFinanceStocks: seq<string> := ["JPM", "BAC", "WFC", "GS", "AXP"]

  const TechMultipliers: map<Ratio, real> := map[
    PeRatio := 1.5, PbRatio := 1.3, PsRatio := 1.8, EvEbitda := 1.4,
    Roe := 1.2, Roa := 1.1, Roi := 1.2, GrossMargin := 1.3,
    OperatingMargin := 1.2, NetMargin := 1.1]

  const FinanceMultipliers: map<Ratio, real> := map[
    PeRatio := 0.7, PbRatio := 0.8, DebtToEquity := 2.0,
    Roe := 0.9, CurrentRatio := 0.5, QuickRatio := 0.5]

  /** The default table: 1.0 for every configured ratio. */
  function DefaultMultipliers(): (m: map<Ratio, real>)
    ensures forall r :: r in FundamentalIndicators ==> r in m && m[r] == 1.0
  {
    map r | r in FundamentalIndicators :: 1.0
  }

  /** _get_fundamental_multiplier: a partial table for six tech and five finance names, else all ones. */
  function GetFundamentalMultiplier(symbol: string): (m: map<Ratio, real>)
    ensures forall r :: r in m ==> 0.5 <= m[r] <= 2.0
    ensures symbol !in MultiplierTechStocks && symbol !in MultiplierFinanceStocks ==>
      forall r :: r in m ==> m[r] == 1.0
  {
    if symbol in MultiplierTechStocks then TechMultipliers
    else if symbol in MultiplierFinanceStocks then FinanceMultipliers
    else DefaultMultipliers()
  }

  /** `sector_multiplier.get(indicator, 1.0)`. */
  function MultiplierOf(symbol: string, r: Ratio): real
  {
    var m := GetFundamentalMultiplier(symbol);
    if r in m then m[r] else 1.0
  }

  /** A ratio left out of the instrument's table is not scaled. */
  lemma MissingMultiplierIsOne(symbol: string, r: Ratio)
    requires r !in GetFundamentalMultiplier(symbol)
    ensures MultiplierOf(symbol, r) == 1.0
  {
  }

  /** The tech table leaves Market_Cap and the balance-sheet ratios unscaled. */
  lemma TechUnscaledRatios(symbol: string)
    requires symbol in MultiplierTechStocks
    ensures MultiplierOf(symbol, MarketCap) == 1.0 && MultiplierOf(symbol, DebtToEquity) == 1.0
    ensures MultiplierOf(symbol, CurrentRatio) == 1.0 && MultiplierOf(symbol, QuickRatio) == 1.0
    ensures MultiplierOf(symbol, AssetTurnover) == 1.0
  {
  }

  /** The finance table leaves Market_Cap and the sales, return and margin ratios unscaled. */
  lemma FinanceUnscaledRatios(symbol: string)
    requires symbol !in MultiplierTechStocks && symbol in MultiplierFinanceStocks
    ensures MultiplierOf(symbol, MarketCap) == 1.0 && MultiplierOf(symbol, PsRatio) == 1.0
    ensures MultiplierOf(symbol, EvEbitda) == 1.0 && MultiplierOf(symbol, Roa) == 1.0
    ensures MultiplierOf(symbol, Roi) == 1.0 && MultiplierOf(symbol, GrossMargin) == 1.0
    ensures MultiplierOf(symbol, OperatingMargin) == 1.0 && MultiplierOf(symbol, NetMargin) == 1.0
    ensures MultiplierOf(symbol, AssetTurnover) == 1.0
  {
  }

  /** Every other instrument is not scaled at all. */
  lemma DefaultUnscaledRatios(symbol: string, r: Ratio)
    requires symbol !in MultiplierTechStocks && symbol !in MultiplierFinanceStocks
    ensures MultiplierOf(symbol, r) == 1.0
  {
  }

  /** _get_base_fundamental_value: every configured ratio has a positive base value. */
  function BaseFundamentalValue(r: Ratio): (v: real)
    ensures v > 0.0
  {
    match r
    case MarketCap => 50000.0
    case PeRatio => 18.0
    case PbRatio => 2.5
    case PsRatio => 3.0
    case EvEbitda => 12.0
    case Roe => 0.15
    case Roa => 0.08
    case Roi => 0.12
    case GrossMargin => 0.35
    case OperatingMargin => 0.15
    case NetMargin => 0.10
    case DebtToEquity => 0.60
    case CurrentRatio => 1.5
    case QuickRatio => 1.2
    case AssetTurnover => 0.8
  }

  /** max(0.01, base * multiplier + N(0, base * 0.1)). */
  function RatioValue(symbol: string, r: Ratio, z: real): (v: real)
    ensures v >= 0.01
  {
    var baseValue := BaseFundamentalValue(r);
    var sectorAdj := baseValue * MultiplierOf(symbol, r);
    var noise := Normal(0.0, baseValue * 0.1, z);
    Max(0.01, sectorAdj + noise)
  }

  /** A quarter end of pd.date_range(freq='Q'): its date, year and quarter number. */
  datatype QuarterEnd = QuarterEnd(date: Date, year: nat, quarter: nat)

  predicate ValidQuarter(q: QuarterEnd)
  {
    1 <= q.quarter <= 4
  }

  /** f"{quarter.year}Q{quarter.quarter}". */
  function QuarterLabel(q: QuarterEnd): string
  {
    NatToString(q.year) + "Q" + NatToString(q.quarter)
  }

  /** Distinct quarters get distinct labels: the label holds the year and the quarter digit. */
  lemma QuarterLabelInjective(p: QuarterEnd, q: QuarterEnd)
    requires ValidQuarter(p) && ValidQuarter(q)
    requires QuarterLabel(p) == QuarterLabel(q)
    ensures p.year == q.year && p.quarter == q.quarter
  {
    var lp, lq := QuarterLabel(p), QuarterLabel(q);
    assert |NatToString(p.quarter)| == 1 && |NatToString(q.quarter)| == 1;
    assert lp[|lp| - 1..] == NatToString(p.quarter);
    assert lq[|lq| - 1..] == NatToString(q.quarter);
    NatToStringInjective(p.quarter, q.quarter);
    assert lp[..|lp| - 2] == NatToString(p.year);
    assert lq[..|lq| - 2] == NatToString(q.year);
    NatToStringInjective(p.year, q.year);
  }

  /** One row of the fundamentals frame; `ratios` holds the 15 columns in configured order. */
  datatype FundamentalRecord = FundamentalRecord(date: Date, symbol: string, quarter: string, ratios: seq<real>)

  /** The column of a ratio. */
  function RatioOf(rec: FundamentalRecord, r: Ratio): real
    requires |rec.ratios| == 15
  {
    rec.ratios[Position(r)]
  }

  /** The record of one (quarter, instrument) pair, from its 15 draws in configured order. */
  function Record(q: QuarterEnd, symbol: string, z: seq<real>): (rec: FundamentalRecord)
    requires |z| == 15
    ensures rec.date == q.date && rec.symbol == symbol && rec.quarter == QuarterLabel(q)
    ensures |rec.ratios| == 15 && forall k :: 0 <= k < 15 ==> rec.ratios[k] >= 0.01
  {
    FundamentalRecord(q.date, symbol, QuarterLabel(q),
      seq(15, k requires 0 <= k < 15 => RatioValue(symbol, FundamentalIndicators[k], z[k])))
  }

  /** The draws fit: one block per quarter, one row per instrument, 15 values per row. */
  predicate NoiseFits(quarters: seq<QuarterEnd>, symbols: seq<string>, z: seq<seq<seq<real>>>)
  {
    |z| == |quarters| &&
    forall qi :: 0 <= qi < |z| ==> |z[qi]| == |symbols| && forall si :: 0 <= si < |symbols| ==> |z[qi][si]| == 15
  }

  /** The records of one quarter, in symbol order. */
  function QuarterBlock(q: QuarterEnd, symbols: seq<string>, z: seq<seq<real>>): (b: seq<FundamentalRecord>)
    requires |z| == |symbols| && forall si :: 0 <= si < |symbols| ==> |z[si]| == 15
    ensures |b| == |symbols|
  {
    seq(|symbols|, si requires 0 <= si < |symbols| => Record(q, symbols[si], z[si]))
  }

  /** The whole frame: quarter by quarter, and inside a quarter symbol by symbol. */
  function FundamentalFrame(quarters: seq<QuarterEnd>, symbols: seq<string>, z: seq<seq<seq<real>>>): seq<FundamentalRecord>
    requires NoiseFits(quarters, symbols, z)
  {
    Flatten(seq(|quarters|, qi requires 0 <= qi < |quarters| => QuarterBlock(quarters[qi], symbols, z[qi])))
  }

  /** Exactly one record per (quarter, instrument) pair, found at index qi * |symbols| + si. */
  lemma OneRecordPerPair(quarters: seq<QuarterEnd>, symbols: seq<string>, z: seq<seq<seq<real>>>, qi: nat, si: nat)
    requires NoiseFits(quarters, symbols, z)
    requires qi < |quarters| && si < |symbols|
    ensures |FundamentalFrame(quarters, symbols, z)| == |quarters| * |symbols|
    ensures 0 <= qi * |symbols| + si < |FundamentalFrame(quarters, symbols, z)|
    ensures var rec := FundamentalFrame(quarters, symbols, z)[qi * |symbols| + si];
      rec.date == quarters[qi].date && rec.symbol == symbols[si] && rec.quarter == QuarterLabel(quarters[qi])
  {
    var blocks := seq(|quarters|, qi requires 0 <= qi < |quarters| => QuarterBlock(quarters[qi], symbols, z[qi]));
    FlattenBlock(blocks, |symbols|, qi, si);
    assert blocks[qi][si] == Record(quarters[qi], symbols[si], z[qi][si]);
  }

  /** Every ratio of every record is at least 0.01, whatever the draws. */
  lemma FundamentalFloor(quarters: seq<QuarterEnd>, symbols: seq<string>, z: seq<seq<seq<real>>>, rec: FundamentalRecord)
    requires NoiseFits(quarters, symbols, z)
    requires rec in FundamentalFrame(quarters, symbols, z)
    ensures |rec.ratios| == 15 && forall r :: RatioOf(rec, r) >= 0.01
  {
    var blocks := seq(|quarters|, qi requires 0 <= qi < |quarters| => QuarterBlock(quarters[qi], symbols, z[qi]));
    FlattenContains(blocks, rec);
    var qi :| 0 <= qi < |blocks| && rec in blocks[qi];
    var si :| 0 <= si < |blocks[qi]| && blocks[qi][si] == rec;
    assert rec == Record(quarters[qi], symbols[si], z[qi][si]);
  }

  /** The innermost loop of collect_fundamental_data: one value per configured ratio, in order. */
  method GenerateRatios(symbol: string, z: seq<real>) returns (ratios: seq<real>)
    requires |z| == 15
    ensures |ratios| == 15
    ensures forall k :: 0 <= k < 15 ==> ratios[k] == RatioValue(symbol, FundamentalIndicators[k], z[k])
  {
    ratios := [];
    for k := 0 to 15
      invariant |ratios| == k
      invariant forall j :: 0 <= j < k ==> ratios[j] == RatioValue(symbol, FundamentalIndicators[j], z[j])
    {
      ratios := ratios + [RatioValue(symbol, FundamentalIndicators[k], z[k])];
    }
  }

  /** collect_fundamental_data: nested loops over quarters and symbols, appending one record each. */
  method CollectFundamentalData(quarters: seq<QuarterEnd>, symbols: seq<string>, z: seq<seq<seq<real>>>)
    returns (records: seq<FundamentalRecord>)
    requires NoiseFits(quarters, symbols, z)
    ensures records == FundamentalFrame(quarters, symbols, z)
  {
    ghost var blocks := seq(|quarters|, qi requires 0 <= qi < |quarters| => QuarterBlock(quarters[qi], symbols, z[qi]));
    records := [];
    for qi := 0 to |quarters|
      invariant records == Flatten(blocks[..qi])
    {
      FlattenStep(blocks, qi);
      ghost var before := records;
      for si := 0 to |symbols|
        invariant records == before + blocks[qi][..si]
      {
        var ratios := GenerateRatios(symbols[si], z[qi][si]);
        var rec := FundamentalRecord(quarters[qi].date, symbols[si], QuarterLabel(quarters[qi]), ratios);
        assert rec == Record(quarters[qi], symbols[si], z[qi][si]);
        assert blocks[qi][..si + 1] == blocks[qi][..si] + [rec];
        records := records + [rec];
      }
      assert blocks[qi][..|symbols|] == blocks[qi];
    }
    assert blocks[..|quarters|] == blocks;
  }
}
