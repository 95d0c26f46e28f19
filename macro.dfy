/**
 * The monthly macro-economic state machine (main.py, collect_macro_economic_data
 * and _update_macro_values). A state holds the eight indicators of
 * Config.MACRO_INDICATORS. One step copies the state, adds a normal shock to
 * every indicator, applies the COVID and rate-hike adjustments when the month
 * lies in their windows, and clips every indicator to its range.
 */
module Macro {
  import opened Common
  import opened Calendar
  import opened Prices

  /** The eight indicators, declared in the order of Config.MACRO_INDICATORS. */
  datatype MacroState = MacroState(
    gdpGrowth: real,
    inflationRate: real,
    unemploymentRate: real,
    federalFundsRate: real,
    vixIndex: real,
    dollarIndex: real,
    oilPrice: real,
    tenYearTreasury: real)

  /** The starting values of the generator. */
  const InitialMacroValues := MacroState(2.5, 2.0, 5.0, 1.5, 18.0, 95.0, 70.0, 2.5)

  /** Every indicator lies in the range the final clip enforces. */
  predicate InRange(v: MacroState)
  {
    && -5.0 <= v.gdpGrowth <= 8.0
    && -1.0 <= v.inflationRate <= 10.0
    && 2.0 <= v.unemploymentRate <= 15.0
    && 0.0 <= v.federalFundsRate <= 6.0
    && 10.0 <= v.vixIndex <= 80.0
    && 80.0 <= v.dollarIndex <= 120.0
    && 20.0 <= v.oilPrice <= 150.0
    && 0.5 <= v.tenYearTreasury <= 6.0
  }

  lemma InitialInRange()
    ensures InRange(InitialMacroValues)
  {
  }

  /** One month's eight standard-normal draws, in the order they are drawn (configured order). */
  datatype MacroShocks = MacroShocks(
    gdpZ: real, inflationZ: real, unemploymentZ: real, fedFundsZ: real,
    vixZ: real, dollarZ: real, oilZ: real, tenYearZ: real)

  /** One N(0, volatility) shock per indicator. */
  function Shocked(v: MacroState, z: MacroShocks): MacroState
  {
    MacroState(
      v.gdpGrowth + Normal(0.0, 0.3, z.gdpZ),
      v.inflationRate + Normal(0.0, 0.4, z.inflationZ),
      v.unemploymentRate + Normal(0.0, 0.2, z.unemploymentZ),
      v.federalFundsRate + Normal(0.0, 0.25, z.fedFundsZ),
      v.vixIndex + Normal(0.0, 3.0, z.vixZ),
      v.dollarIndex + Normal(0.0, 2.0, z.dollarZ),
      v.oilPrice + Normal(0.0, 8.0, z.oilZ),
      v.tenYearTreasury + Normal(0.0, 0.3, z.tenYearZ))
  }

  /**
   * The COVID adjustment: unemployment rises by the decaying bump, growth
   * falls by 1.5, the VIX rises by 10 and the policy rate is cut by 0.5 but
   * not below 0.1. The other indicators are untouched.
   */
  function CovidAdjusted(v: MacroState, unemploymentBump: real): (r: MacroState)
    ensures r.federalFundsRate >= 0.1
    ensures r.inflationRate == v.inflationRate && r.dollarIndex == v.dollarIndex
    ensures r.oilPrice == v.oilPrice && r.tenYearTreasury == v.tenYearTreasury
  {
    v.(unemploymentRate := v.unemploymentRate + unemploymentBump,
       gdpGrowth := v.gdpGrowth - 1.5,
       vixIndex := v.vixIndex + 10.0,
       federalFundsRate := Max(0.1, v.federalFundsRate - 0.5))
  }

  /**
   * The 2022-2023 adjustment: inflation, the policy rate and the ten-year yield
   * each rise, capped at 9, 5.5 and 5. The other indicators are untouched.
   */
  function HikeAdjusted(v: MacroState): (r: MacroState)
    ensures r.inflationRate <= 9.0 && r.federalFundsRate <= 5.5 && r.tenYearTreasury <= 5.0
    ensures r.gdpGrowth == v.gdpGrowth && r.unemploymentRate == v.unemploymentRate
    ensures r.vixIndex == v.vixIndex && r.dollarIndex == v.dollarIndex && r.oilPrice == v.oilPrice
  {
    v.(inflationRate := Min(9.0, v.inflationRate + 0.3),
       federalFundsRate := Min(5.5, v.federalFundsRate + 0.2),
       tenYearTreasury := Min(5.0, v.tenYearTreasury + 0.15))
  }

  /** The final np.clip of every indicator. */
  function Clipped(v: MacroState): (r: MacroState)
    ensures InRange(r)
    ensures InRange(v) ==> r == v
  {
    MacroState(
      Clip(v.gdpGrowth, -5.0, 8.0),
      Clip(v.inflationRate, -1.0, 10.0),
      Clip(v.unemploymentRate, 2.0, 15.0),
      Clip(v.federalFundsRate, 0.0, 6.0),
      Clip(v.vixIndex, 10.0, 80.0),
      Clip(v.dollarIndex, 80.0, 120.0),
      Clip(v.oilPrice, 20.0, 150.0),
      Clip(v.tenYearTreasury, 0.5, 6.0))
  }

  /** The state after the shocks and the adjustments of the windows the month lies in, before the clip. */
  function Adjusted(v: MacroState, date: Date, unemploymentBump: real, shocks: MacroShocks): MacroState
  {
    var s := Shocked(v, shocks);
    var c := if InMacroCovidWindow(date) then CovidAdjusted(s, unemploymentBump) else s;
    if InRateHikeWindow(date) then HikeAdjusted(c) else c
  }

  /** _update_macro_values as a function of the old state: a fresh, clipped state. */
  function MacroStep(v: MacroState, date: Date, unemploymentBump: real, shocks: MacroShocks): (r: MacroState)
    ensures InRange(r)
  {
    Clipped(Adjusted(v, date, unemploymentBump, shocks))
  }

  /** After every step each indicator lies in its clip range, whatever the old state and the draws. */
  lemma StepInRange(v: MacroState, date: Date, unemploymentBump: real, shocks: MacroShocks)
    ensures InRange(MacroStep(v, date, unemploymentBump, shocks))
  {
    var a := Adjusted(v, date, unemploymentBump, shocks);
    assert InRange(Clipped(a));
  }

  /** In the COVID window the policy rate never falls below 0.1. */
  lemma CovidRateFloor(v: MacroState, date: Date, unemploymentBump: real, shocks: MacroShocks)
    requires InMacroCovidWindow(date)
    ensures MacroStep(v, date, unemploymentBump, shocks).federalFundsRate >= 0.1
  {
    MacroWindowsDisjoint(date);
    var a := Adjusted(v, date, unemploymentBump, shocks);
    assert a == CovidAdjusted(Shocked(v, shocks), unemploymentBump);
    assert a.federalFundsRate >= 0.1;
  }

  /** In the rate-hike window inflation stays at most 9, the policy rate at most 5.5 and the ten-year yield at most 5. */
  lemma HikeCaps(v: MacroState, date: Date, unemploymentBump: real, shocks: MacroShocks)
    requires InRateHikeWindow(date)
    ensures var r := MacroStep(v, date, unemploymentBump, shocks);
      r.inflationRate <= 9.0 && r.federalFundsRate <= 5.5 && r.tenYearTreasury <= 5.0
  {
    var a := Adjusted(v, date, unemploymentBump, shocks);
    assert a.inflationRate <= 9.0 && a.federalFundsRate <= 5.5 && a.tenYearTreasury <= 5.0;
  }

  /** Outside both windows a step is only the shocks and the clip. */
  lemma QuietMonth(v: MacroState, date: Date, unemploymentBump: real, shocks: MacroShocks)
    requires !InMacroCovidWindow(date) && !InRateHikeWindow(date)
    ensures MacroStep(v, date, unemploymentBump, shocks) == Clipped(Shocked(v, shocks))
  {
  }

  /** The dollar index and the oil price never see an event adjustment. */
  lemma DollarAndOilUnadjusted(v: MacroState, date: Date, unemploymentBump: real, shocks: MacroShocks)
    ensures var r := MacroStep(v, date, unemploymentBump, shocks);
      r.dollarIndex == Clip(v.dollarIndex + Normal(0.0, 2.0, shocks.dollarZ), 80.0, 120.0) &&
      r.oilPrice == Clip(v.oilPrice + Normal(0.0, 8.0, shocks.oilZ), 20.0, 150.0)
  {
    var s := Shocked(v, shocks);
    var c := if InMacroCovidWindow(date) then CovidAdjusted(s, unemploymentBump) else s;
    assert c.dollarIndex == s.dollarIndex && c.oilPrice == s.oilPrice;
  }

  /** 2 * exp(-(index % 12) / 3), with expDecay[j] standing for exp(-j / 3). */
  function CovidBump(expDecay: seq<real>, index: nat): real
    requires |expDecay| == 12
  {
    2.0 * expDecay[index % 12]
  }

  /**
   * _update_macro_values: `new_values` is a copy of `values`, updated in
   * place; `values` is a value and cannot change. expDecay[j] stands for
   * exp(-j / 3), the only transcendental term.
   */
  method UpdateMacroValues(values: MacroState, date: Date, index: nat, expDecay: seq<real>, shocks: MacroShocks)
    returns (newValues: MacroState)
    requires |expDecay| == 12
    ensures newValues == MacroStep(values, date, CovidBump(expDecay, index), shocks)
    ensures InRange(newValues)
  {
    StepInRange(values, date, CovidBump(expDecay, index), shocks);
    newValues := values;
    newValues := newValues.(gdpGrowth := newValues.gdpGrowth + Normal(0.0, 0.3, shocks.gdpZ));
    newValues := newValues.(inflationRate := newValues.inflationRate + Normal(0.0, 0.4, shocks.inflationZ));
    newValues := newValues.(unemploymentRate := newValues.unemploymentRate + Normal(0.0, 0.2, shocks.unemploymentZ));
    newValues := newValues.(federalFundsRate := newValues.federalFundsRate + Normal(0.0, 0.25, shocks.fedFundsZ));
    newValues := newValues.(vixIndex := newValues.vixIndex + Normal(0.0, 3.0, shocks.vixZ));
    newValues := newValues.(dollarIndex := newValues.dollarIndex + Normal(0.0, 2.0, shocks.dollarZ));
    newValues := newValues.(oilPrice := newValues.oilPrice + Normal(0.0, 8.0, shocks.oilZ));
    newValues := newValues.(tenYearTreasury := newValues.tenYearTreasury + Normal(0.0, 0.3, shocks.tenYearZ));
    assert newValues == Shocked(values, shocks);

    if MacroCovidStart <= date <= MacroCovidEnd {
      newValues := newValues.(unemploymentRate := newValues.unemploymentRate + 2.0 * expDecay[index % 12]);
      newValues := newValues.(gdpGrowth := newValues.gdpGrowth - 1.5);
      newValues := newValues.(vixIndex := newValues.vixIndex + 10.0);
      newValues := newValues.(federalFundsRate := Max(0.1, newValues.federalFundsRate - 0.5));
    }

    if RateHikeStart <= date <= RateHikeEnd {
      newValues := newValues.(inflationRate := Min(9.0, newValues.inflationRate + 0.3));
      newValues := newValues.(federalFundsRate := Min(5.5, newValues.federalFundsRate + 0.2));
      newValues := newValues.(tenYearTreasury := Min(5.0, newValues.tenYearTreasury + 0.15));
    }
    assert newValues == Adjusted(values, date, CovidBump(expDecay, index), shocks);

    newValues := newValues.(gdpGrowth := Clip(newValues.gdpGrowth, -5.0, 8.0));
    newValues := newValues.(inflationRate := Clip(newValues.inflationRate, -1.0, 10.0));
    newValues := newValues.(unemploymentRate := Clip(newValues.unemploymentRate, 2.0, 15.0));
    newValues := newValues.(federalFundsRate := Clip(newValues.federalFundsRate, 0.0, 6.0));
    newValues := newValues.(vixIndex := Clip(newValues.vixIndex, 10.0, 80.0));
    newValues := newValues.(dollarIndex := Clip(newValues.dollarIndex, 80.0, 120.0));
    newValues := newValues.(oilPrice := Clip(newValues.oilPrice, 20.0, 150.0));
    newValues := newValues.(tenYearTreasury := Clip(newValues.tenYearTreasury, 0.5, 6.0));
  }

  /** The state after the first i months: the initial state stepped once per month. */
  function MacroStateAt(months: seq<Date>, expDecay: seq<real>, shocks: seq<MacroShocks>, i: nat): MacroState
    requires |expDecay| == 12 && |shocks| == |months| && i <= |months|
  {
    if i == 0 then InitialMacroValues
    else MacroStep(MacroStateAt(months, expDecay, shocks, i - 1), months[i - 1], CovidBump(expDecay, i - 1), shocks[i - 1])
  }

  /** Every state the loop passes through lies in range: the initial one by its values, the rest by the clip. */
  lemma StateInRange(months: seq<Date>, expDecay: seq<real>, shocks: seq<MacroShocks>, i: nat)
    requires |expDecay| == 12 && |shocks| == |months| && i <= |months|
    ensures InRange(MacroStateAt(months, expDecay, shocks, i))
  {
    if i == 0 {
      InitialInRange();
    } else {
      StepInRange(MacroStateAt(months, expDecay, shocks, i - 1), months[i - 1], CovidBump(expDecay, i - 1), shocks[i - 1]);
    }
  }

  /** A month's state depends only on the months and draws up to it. */
  lemma {:induction false} StateCausal(months: seq<Date>, months': seq<Date>, expDecay: seq<real>,
                                       shocks: seq<MacroShocks>, shocks': seq<MacroShocks>, i: nat)
    requires |expDecay| == 12 && |shocks| == |months| && |shocks'| == |months'|
    requires i <= |months| && i <= |months'| && months[..i] == months'[..i] && shocks[..i] == shocks'[..i]
    ensures MacroStateAt(months, expDecay, shocks, i) == MacroStateAt(months', expDecay, shocks', i)
  {
    if i > 0 {
      assert months[..i - 1] == months[..i][..i - 1] && months'[..i - 1] == months'[..i][..i - 1];
      assert shocks[..i - 1] == shocks[..i][..i - 1] && shocks'[..i - 1] == shocks'[..i][..i - 1];
      StateCausal(months, months', expDecay, shocks, shocks', i - 1);
      assert months[i - 1] == months[..i][i - 1] == months'[i - 1];
      assert shocks[i - 1] == shocks[..i][i - 1] == shocks'[i - 1];
    }
  }

  /** One row of the macro frame: the month and a copy of the state. */
  datatype MacroRecord = MacroRecord(date: Date, values: MacroState)

  /**
   * collect_macro_economic_data: threads the state through the month ends,
   * recording a copy after each step.
   */
  method CollectMacroEconomicData(months: seq<Date>, expDecay: seq<real>, shocks: seq<MacroShocks>)
    returns (records: seq<MacroRecord>)
    requires |expDecay| == 12 && |shocks| == |months|
    ensures |records| == |months|
    ensures forall i :: 0 <= i < |months| ==>
      records[i].date == months[i] && records[i].values == MacroStateAt(months, expDecay, shocks, i + 1)
    ensures forall i :: 0 <= i < |months| ==> InRange(records[i].values)
  {
    var macroValues := InitialMacroValues;
    records := [];
    for i := 0 to |months|
      invariant |records| == i
      invariant macroValues == MacroStateAt(months, expDecay, shocks, i)
      invariant forall j :: 0 <= j < i ==> records[j] == MacroRecord(months[j], MacroStateAt(months, expDecay, shocks, j + 1))
    {
      macroValues := UpdateMacroValues(macroValues, months[i], i, expDecay, shocks[i]);
      records := records + [MacroRecord(months[i], macroValues)];
    }
    forall i | 0 <= i < |months|
      ensures InRange(records[i].values)
    {
      StateInRange(months, expDecay, shocks, i + 1);
    }
  }
}
