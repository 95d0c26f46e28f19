/** The static sector table of the synthetic generator (main.py, _get_sector_parameters). */
module Sectors {

  /** Annual drift and volatility, market beta and average daily volume of an instrument. */
  datatype SectorProfile = SectorProfile(drift: real, volatility: real, beta: real, avgVolume: int)

  const TechStocks: seq<string> := ["AAPL", "MSFT", "GOOGL", "GOOG", "AMZN", "NVDA", "META", "TSLA", "ORCL", "AMD", "CRM", "ADBE", "INTU", "IBM"]
  const FinanceStocks: seq<string> := ["JPM", "BAC", "WFC", "GS", "AXP", "USB", "PNC", "TFC", "COF", "SCHW"]
  const HealthcareStocks: seq<string> := ["JNJ", "PFE", "UNH", "ABBV", "TMO", "ABT", "DHR", "BMY", "AMGN", "GILD"]
  const EnergyStocks: seq<string> := ["XOM", "CVX", "SLB", "OXY", "FCX", "DVN", "APA"]

  const TechProfile := SectorProfile(0.15, 0.35, 1.2, 15000000)
  const FinanceProfile := SectorProfile(0.10, 0.25, 1.1, 8000000)
  const HealthcareProfile := SectorProfile(0.12, 0.20, 0.8, 6000000)
  const EnergyProfile := SectorProfile(0.08, 0.40, 1.3, 12000000)
  const DefaultProfile := SectorProfile(0.10, 0.22, 1.0, 5000000)

  /** Every profile of the table has a positive drift, volatility, beta and volume. */
  predicate Plausible(p: SectorProfile)
  {
    p.drift > 0.0 && p.volatility > 0.0 && p.beta > 0.0 && p.avgVolume >= 2
  }

  /** The first sector list that holds the symbol decides; unknown symbols get the default. */
  function GetSectorParameters(symbol: string): (p: SectorProfile)
    ensures Plausible(p)
  {
    if symbol in TechStocks then TechProfile
    else if symbol in FinanceStocks then FinanceProfile
    else if symbol in HealthcareStocks then HealthcareProfile
    else if symbol in EnergyStocks then EnergyProfile
    else DefaultProfile
  }

  /** The lists are disjoint, so each profile belongs to exactly the members of its list. */
  lemma SectorMembership(symbol: string)
    ensures var p := GetSectorParameters(symbol);
      && (p == TechProfile <==> symbol in TechStocks)
      && (p == FinanceProfile <==> symbol in FinanceStocks)
      && (p == HealthcareProfile <==> symbol in HealthcareStocks)
      && (p == EnergyProfile <==> symbol in EnergyStocks)
      && (p == DefaultProfile <==> symbol !in TechStocks + FinanceStocks + HealthcareStocks + EnergyStocks)
  {
    SectorListsDisjoint(symbol);
  }

  /** The lists do not overlap, so the order of the tests never matters. */
  lemma SectorListsDisjoint(symbol: string)
    ensures symbol in TechStocks ==> symbol !in FinanceStocks + HealthcareStocks + EnergyStocks
    ensures symbol in FinanceStocks ==> symbol !in HealthcareStocks + EnergyStocks
    ensures symbol in HealthcareStocks ==> symbol !in EnergyStocks
  {
    TechApart(symbol);
    FinanceApart(symbol);
  }

  lemma TechApart(symbol: string)
    ensures symbol in TechStocks ==> symbol !in FinanceStocks + HealthcareStocks + EnergyStocks
  {
    if symbol in TechStocks {
      TechNotFinance(symbol);
      TechNotHealthcare(symbol);
      TechNotEnergy(symbol);
    }
  }

  lemma TechNotFinance(symbol: string)
    requires symbol in TechStocks
    ensures symbol !in FinanceStocks
  {
  }

  lemma TechNotHealthcare(symbol: string)
    requires symbol in TechStocks
    ensures symbol !in HealthcareStocks
  {
  }

  lemma TechNotEnergy(symbol: string)
    requires symbol in TechStocks
    ensures symbol !in EnergyStocks
  {
  }

  lemma FinanceApart(symbol: string)
    ensures symbol in FinanceStocks ==> symbol !in HealthcareStocks + EnergyStocks
  {
  }
}
