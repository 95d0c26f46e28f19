/**
 * The synthetic news corpus: one batch of template-filled articles per
 * trading day, a top-up to the target size, and a down-sample when the
 * daily batches overshoot it. Every random choice is an input draw.
 */
module News {
  import opened Common
  import opened Calendar

  /** Config.EXPECTED_NEWS_COUNT. */
  const ExpectedNewsCount: nat := 15000
  const MinutesPerDay: int := 1440

  datatype Category =
    | EarningsPositive | EarningsNegative | AnalystUpgrades | AnalystDowngrades
    | ProductInnovation | RegulatoryNews | MarketGeneral | MergerAcquisition

  /** The template library's keys, in the order the library lists them. */
  const Categories: seq<Category> :=
    [EarningsPositive, EarningsNegative, AnalystUpgrades, AnalystDowngrades,
     ProductInnovation, RegulatoryNews, MarketGeneral, MergerAcquisition]

  /** The key under which the library files each category. */
  function CategoryName(c: Category): string
  {
    match c
    case EarningsPositive => "earnings_positive"
    case EarningsNegative => "earnings_negative"
    case AnalystUpgrades => "analyst_upgrades"
    case AnalystDowngrades => "analyst_downgrades"
    case ProductInnovation => "product_innovation"
    case RegulatoryNews => "regulatory_news"
    case MarketGeneral => "market_general"
    case MergerAcquisition => "merger_acquisition"
  }

  /** The `sentiment` hint a template carries. */
  datatype Hint = Positive | Negative | Neutral

  /** A template string with its one `{company}` placeholder between `before` and `after`. */
  datatype Pattern = Pattern(before: string, after: string)

  datatype Template = Template(title: Pattern, description: Pattern, sentiment: Hint)

  /** str.format(company=...): the placeholder replaced by the company name, which the result then contains. */
  function Fill(p: Pattern, company: string): (r: string)
    ensures |r| == |p.before| + |company| + |p.after|
    ensures Contains(r, company)
  {
    var r := p.before + company + p.after;
    assert OccursAt(r, company, |p.before|);
    r
  }

  /** How many templates the library files under each category. */
  function TemplateCount(c: Category): (n: nat)
    ensures 2 <= n <= 3
  {
    match c
    case EarningsPositive => 3
    case EarningsNegative => 3
    case AnalystUpgrades => 2
    case AnalystDowngrades => 2
    case ProductInnovation => 2
    case RegulatoryNews => 2
    case MarketGeneral => 2
    case MergerAcquisition => 2
  }

  /** The k-th template of a category, in the library's order. */
  function TemplateAt(c: Category, k: nat): Template
    requires k < TemplateCount(c)
  {
    match (c, k)
    case (EarningsPositive, 0) =>
      Template(Pattern("", " Beats Earnings Expectations"),
        Pattern("", " reported quarterly earnings that exceeded analyst expectations, driven by strong revenue growth and improved operational efficiency."),
        Positive)
    case (EarningsPositive, 1) =>
      Template(Pattern("", " Posts Record Quarterly Revenue"),
        Pattern("", " announced record quarterly revenue, surpassing previous highs and demonstrating strong market position."),
        Positive)
    case (EarningsPositive, _) =>
      Template(Pattern("", " Delivers Strong Financial Results"),
        Pattern("", " delivered robust financial performance with revenue and earnings both exceeding Wall Street forecasts."),
        Positive)
    case (EarningsNegative, 0) =>
      Template(Pattern("", " Misses Earnings Estimates"),
        Pattern("", " reported disappointing quarterly results, falling short of analyst expectations amid challenging market conditions."),
        Negative)
    case (EarningsNegative, 1) =>
      Template(Pattern("", " Reports Declining Revenue"),
        Pattern("", " announced a decline in quarterly revenue, citing increased competition and economic headwinds."),
        Negative)
    case (EarningsNegative, _) =>
      Template(Pattern("", " Warns of Lower Guidance"),
        Pattern("", " issued lower forward guidance, expressing concerns about market volatility and operational challenges."),
        Negative)
    case (AnalystUpgrades, 0) =>
      Template(Pattern("", " Upgraded by Major Investment Bank"),
        Pattern("A leading investment bank upgraded ", " citing strong fundamentals and positive long-term outlook."),
        Positive)
    case (AnalystUpgrades, _) =>
      Template(Pattern("Analysts Raise Price Target for ", ""),
        Pattern("Multiple analysts increased their price targets for ", " following strong operational performance."),
        Positive)
    case (AnalystDowngrades, 0) =>
      Template(Pattern("", " Downgraded on Growth Concerns"),
        Pattern("Analysts downgraded ", " citing concerns over slowing growth and increased market competition."),
        Negative)
    case (AnalystDowngrades, _) =>
      Template(Pattern("Investment Bank Cuts ", " Rating"),
        Pattern("A major investment bank reduced its rating on ", " due to regulatory concerns and market headwinds."),
        Negative)
    case (ProductInnovation, 0) =>
      Template(Pattern("", " Announces Breakthrough Innovation"),
        Pattern("", " unveiled a revolutionary new product that could transform the industry and drive future growth."),
        Positive)
    case (ProductInnovation, _) =>
      Template(Pattern("", " Launches Next-Generation Technology"),
        Pattern("", " introduced cutting-edge technology that positions the company at the forefront of innovation."),
        Positive)
    case (RegulatoryNews, 0) =>
      Template(Pattern("", " Faces Regulatory Investigation"),
        Pattern("", " is under investigation by regulatory authorities over potential compliance violations."),
        Negative)
    case (RegulatoryNews, _) =>
      Template(Pattern("", " Receives Regulatory Approval"),
        Pattern("", " obtained key regulatory approval for its new product, clearing a major hurdle for commercialization."),
        Positive)
    case (MarketGeneral, 0) =>
      Template(Pattern("", " Maintains Market Leadership"),
        Pattern("", " continues to demonstrate strong market position amid evolving industry dynamics."),
        Neutral)
    case (MarketGeneral, _) =>
      Template(Pattern("", " Adapts to Market Changes"),
        Pattern("", " announced strategic initiatives to adapt to changing market conditions and customer needs."),
        Neutral)
    case (MergerAcquisition, 0) =>
      Template(Pattern("", " Announces Strategic Acquisition"),
        Pattern("", " announced the acquisition of a complementary business to strengthen its market position."),
        Positive)
    case (MergerAcquisition, _) =>
      Template(Pattern("", " Explores Strategic Partnerships"),
        Pattern("", " is exploring strategic partnerships to enhance its competitive capabilities."),
        Neutral)
  }

  /** The companies an article may mention. */
  const Companies: seq<string> := [
    "Apple", "Microsoft", "Alphabet", "Amazon", "NVIDIA", "Tesla", "Meta",
    "Berkshire Hathaway", "UnitedHealth", "Johnson & Johnson", "ExxonMobil",
    "JPMorgan Chase", "Visa", "Procter & Gamble", "Mastercard", "Chevron",
    "Home Depot", "AbbVie", "Pfizer", "Bank of America", "Coca-Cola",
    "PepsiCo", "Thermo Fisher", "Costco", "Merck", "Walmart", "Disney",
    "Abbott", "Danaher", "Verizon", "Cisco", "Accenture", "Linde",
    "Adobe", "Nike", "Bristol Myers", "Philip Morris", "AT&T", "Intel",
    "Netflix", "Raytheon", "NextEra Energy", "Wells Fargo", "Lowe's",
    "Oracle", "AMD", "Salesforce", "Qualcomm", "Honeywell", "Union Pacific"]

  /** The outlets an article may be credited to. */
  const Sources: seq<string> := [
    "Reuters", "Bloomberg", "Wall Street Journal", "Financial Times",
    "CNBC", "MarketWatch", "Yahoo Finance", "Business Insider",
    "Forbes", "CNN Business", "Associated Press", "Dow Jones",
    "Benzinga", "Seeking Alpha", "TheStreet", "Barron's",
    "Investor's Business Daily", "Market News", "Financial News",
    "Trade News", "Sector Analysis", "Industry Report"]

  /** A uniform draw in [0, 1). */
  predicate Unit(u: real)
  {
    0.0 <= u < 1.0
  }

  /**
   * An index uniform over [0, n) from a unit draw: np.random.choice over n
   * items, or np.random.randint(lo, lo + n) shifted by lo.
   */
  function Pick(n: nat, u: real): (k: nat)
    requires n > 0 && Unit(u)
    ensures k < n
  {
    PickBounds(n, u);
    (n as real * u).Floor
  }

  lemma PickBounds(n: nat, u: real)
    requires n > 0 && Unit(u)
    ensures 0.0 <= n as real * u < n as real
  {
  }

  /** The six draws one article consumes, in the order the generator makes them. */
  datatype ArticleDraw = ArticleDraw(categoryU: real, templateU: real, companyU: real,
                                     sourceU: real, hourU: real, minuteU: real)

  predicate ArticleDrawFits(a: ArticleDraw)
  {
    Unit(a.categoryU) && Unit(a.templateU) && Unit(a.companyU)
    && Unit(a.sourceU) && Unit(a.hourU) && Unit(a.minuteU)
  }

  /** A top-up article first draws its trading day. */
  datatype ExtraDraw = ExtraDraw(dateU: real, article: ArticleDraw)

  /**
   * One row of the news frame; `publishedAt` counts minutes from the epoch.
   * The row keeps the drawn template (its category and position); title,
   * description and sentiment hint are that template filled in with the
   * company, as Title, Description and SentimentHint below.
   */
  datatype NewsRecord = NewsRecord(
    date: Date, publishedAt: int, category: Category, templateIndex: nat,
    companyMentioned: string, sourceName: string, url: string, apiSource: string)

  predicate ValidTemplate(r: NewsRecord)
  {
    r.templateIndex < TemplateCount(r.category)
  }

  function Title(r: NewsRecord): string
    requires ValidTemplate(r)
  {
    Fill(TemplateAt(r.category, r.templateIndex).title, r.companyMentioned)
  }

  function Description(r: NewsRecord): string
    requires ValidTemplate(r)
  {
    Fill(TemplateAt(r.category, r.templateIndex).description, r.companyMentioned)
  }

  function SentimentHint(r: NewsRecord): Hint
    requires ValidTemplate(r)
  {
    TemplateAt(r.category, r.templateIndex).sentiment
  }

  /** Published on its own date, between 06:00 and 21:59. */
  predicate PublishedInHours(r: NewsRecord)
  {
    r.date * MinutesPerDay + 6 * 60 <= r.publishedAt <= r.date * MinutesPerDay + 21 * 60 + 59
  }

  predicate WellFormed(r: NewsRecord)
  {
    ValidTemplate(r) && r.companyMentioned in Companies && r.sourceName in Sources && PublishedInHours(r)
  }

  /** Title and description of a row both name the company the row mentions. */
  lemma MentionsCompany(r: NewsRecord)
    requires ValidTemplate(r)
    ensures Contains(Title(r), r.companyMentioned) && Contains(Description(r), r.companyMentioned)
  {
  }

  /** One generated article: category, template, company, source, hour, minute. */
  function Article(date: Date, a: ArticleDraw, url: string, apiSource: string): (r: NewsRecord)
    requires ArticleDrawFits(a)
    ensures r.date == date && r.url == url && r.apiSource == apiSource
  {
    var category := Categories[Pick(|Categories|, a.categoryU)];
    var hour := 6 + Pick(16, a.hourU);
    var minute := Pick(60, a.minuteU);
    NewsRecord(date, date * MinutesPerDay + hour * 60 + minute,
      category, Pick(TemplateCount(category), a.templateU),
      Companies[Pick(|Companies|, a.companyU)], Sources[Pick(|Sources|, a.sourceU)], url, apiSource)
  }

  /**
   * Every generated article uses a template of its category, one of the
   * listed companies and sources, and is published between 06:00 and 21:59
   * of its date.
   */
  lemma ArticleWellFormed(date: Date, a: ArticleDraw, url: string, apiSource: string)
    requires ArticleDrawFits(a)
    ensures WellFormed(Article(date, a, url, apiSource))
  {
  }

  /** The url of the k-th article of the daily batches. */
  function MainUrl(k: nat): string
  {
    "https://example.com/news/" + NatToString(k)
  }

  /** The url of the i-th top-up article. */
  function AdditionalUrl(i: nat): string
  {
    "https://example.com/news/additional_" + NatToString(i)
  }

  lemma MainUrlInjective(m: nat, n: nat)
    requires MainUrl(m) == MainUrl(n)
    ensures m == n
  {
    assert NatToString(m) == MainUrl(m)[25..];
    assert NatToString(n) == MainUrl(n)[25..];
    NatToStringInjective(m, n);
  }

  lemma AdditionalUrlInjective(m: nat, n: nat)
    requires AdditionalUrl(m) == AdditionalUrl(n)
    ensures m == n
  {
    assert NatToString(m) == AdditionalUrl(m)[36..];
    assert NatToString(n) == AdditionalUrl(n)[36..];
    NatToStringInjective(m, n);
  }

  /** A daily-batch url continues with a digit where a top-up url continues with 'a'. */
  lemma UrlKindsDiffer(m: nat, i: nat)
    ensures MainUrl(m) != AdditionalUrl(i)
  {
    assert MainUrl(m)[25] == NatToString(m)[0];
    assert AdditionalUrl(i)[25] == 'a';
  }

  /** max(1, int(poisson draw)): the size of one day's batch. */
  function DailyCount(poisson: int): (n: nat)
    ensures n >= 1 && n >= poisson
    ensures poisson >= 1 ==> n == poisson
  {
    if poisson < 1 then 1 else poisson
  }

  predicate DayDrawsFit(draws: seq<ArticleDraw>)
  {
    forall j :: 0 <= j < |draws| ==> ArticleDrawFits(draws[j])
  }

  /** The batch of one day whose first article is number `first`. */
  function DayArticles(date: Date, draws: seq<ArticleDraw>, first: nat): (r: seq<NewsRecord>)
    requires DayDrawsFit(draws)
    ensures |r| == |draws|
  {
    seq(|draws|, j requires 0 <= j < |draws| => Article(date, draws[j], MainUrl(first + j), "comprehensive_generator"))
  }

  predicate PrimaryDrawsFit(days: seq<Date>, dayDraws: seq<seq<ArticleDraw>>)
  {
    |dayDraws| == |days| && forall d :: 0 <= d < |days| ==> DayDrawsFit(dayDraws[d])
  }

  /** Number of articles the daily batches produce. */
  function TotalDrawn(dayDraws: seq<seq<ArticleDraw>>): nat
  {
    if |dayDraws| == 0 then 0 else TotalDrawn(dayDraws[..|dayDraws| - 1]) + |dayDraws[|dayDraws| - 1]|
  }

  /**
   * The daily batches, day after day. Article k has url number k, is well
   * formed and is dated on a trading day.
   */
  function PrimaryNews(days: seq<Date>, dayDraws: seq<seq<ArticleDraw>>): (r: seq<NewsRecord>)
    requires PrimaryDrawsFit(days, dayDraws)
    ensures |r| == TotalDrawn(dayDraws)
    ensures forall k :: 0 <= k < |r| ==> r[k].url == MainUrl(k) && r[k].date in days
    decreases |days|
  {
    if |days| == 0 then []
    else
      var n := |days| - 1;
      var before := PrimaryNews(days[..n], dayDraws[..n]);
      before + DayArticles(days[n], dayDraws[n], |before|)
  }

  /** Every article of the daily batches is well formed. */
  lemma {:induction false} PrimaryWellFormed(days: seq<Date>, dayDraws: seq<seq<ArticleDraw>>, k: nat)
    requires PrimaryDrawsFit(days, dayDraws) && k < |PrimaryNews(days, dayDraws)|
    ensures WellFormed(PrimaryNews(days, dayDraws)[k])
    decreases |days|
  {
    var n := |days| - 1;
    var before := PrimaryNews(days[..n], dayDraws[..n]);
    var r := PrimaryNews(days, dayDraws);
    assert r == before + DayArticles(days[n], dayDraws[n], |before|);
    if k < |before| {
      PrimaryWellFormed(days[..n], dayDraws[..n], k);
      assert r[k] == before[k];
    } else {
      var j := k - |before|;
      assert r[k] == Article(days[n], dayDraws[n][j], MainUrl(|before| + j), "comprehensive_generator");
      ArticleWellFormed(days[n], dayDraws[n][j], MainUrl(|before| + j), "comprehensive_generator");
    }
  }

  /** Every trading day gets at least one article in the daily batches. */
  lemma {:induction false} EveryDayCovered(days: seq<Date>, dayDraws: seq<seq<ArticleDraw>>, d: nat)
    requires PrimaryDrawsFit(days, dayDraws)
    requires forall e :: 0 <= e < |days| ==> |dayDraws[e]| >= 1
    requires d < |days|
    ensures exists k :: 0 <= k < |PrimaryNews(days, dayDraws)| && PrimaryNews(days, dayDraws)[k].date == days[d]
    decreases |days|
  {
    var n := |days| - 1;
    var before := PrimaryNews(days[..n], dayDraws[..n]);
    var r := PrimaryNews(days, dayDraws);
    assert r == before + DayArticles(days[n], dayDraws[n], |before|);
    if d == n {
      assert r[|before|].date == days[n];
    } else {
      EveryDayCovered(days[..n], dayDraws[..n], d);
      var k :| 0 <= k < |before| && before[k].date == days[..n][d];
      assert r[k] == before[k];
    }
  }

  /** With every batch non-empty there are at least as many articles as days. */
  lemma {:induction false} AtLeastOnePerDay(days: seq<Date>, dayDraws: seq<seq<ArticleDraw>>)
    requires PrimaryDrawsFit(days, dayDraws)
    requires forall e :: 0 <= e < |days| ==> |dayDraws[e]| >= 1
    ensures TotalDrawn(dayDraws) >= |days|
    decreases |days|
  {
    if |days| > 0 {
      var n := |days| - 1;
      AtLeastOnePerDay(days[..n], dayDraws[..n]);
    }
  }

  predicate ExtraDrawsFit(extra: seq<ExtraDraw>)
  {
    forall i :: 0 <= i < |extra| ==> Unit(extra[i].dateU) && ArticleDrawFits(extra[i].article)
  }

  /** The top-up batch: article i on a uniformly drawn trading day, with url number i. */
  function AdditionalNews(count: nat, days: seq<Date>, extra: seq<ExtraDraw>): (r: seq<NewsRecord>)
    requires |days| > 0 && count <= |extra| && ExtraDrawsFit(extra)
    ensures |r| == count
    ensures forall i :: 0 <= i < count ==> r[i].url == AdditionalUrl(i) && r[i].date in days
  {
    seq(count, i requires 0 <= i < count =>
      Article(days[Pick(|days|, extra[i].dateU)], extra[i].article, AdditionalUrl(i), "additional_generator"))
  }

  lemma AdditionalWellFormed(count: nat, days: seq<Date>, extra: seq<ExtraDraw>, i: nat)
    requires |days| > 0 && count <= |extra| && ExtraDrawsFit(extra) && i < count
    ensures WellFormed(AdditionalNews(count, days, extra)[i])
  {
    ArticleWellFormed(days[Pick(|days|, extra[i].dateU)], extra[i].article, AdditionalUrl(i), "additional_generator");
  }

  /** The corpus after the top-up: the daily batches, extended to the target when short. */
  function TopUp(primary: seq<NewsRecord>, days: seq<Date>, extra: seq<ExtraDraw>): (r: seq<NewsRecord>)
    requires |days| > 0 && |extra| >= ExpectedNewsCount && ExtraDrawsFit(extra)
    ensures |r| == if |primary| < ExpectedNewsCount then ExpectedNewsCount else |primary|
    ensures r[..|primary|] == primary
  {
    if |primary| < ExpectedNewsCount then primary + AdditionalNews(ExpectedNewsCount - |primary|, days, extra)
    else primary
  }

  /** The counters make every url of the topped-up corpus unique. */
  lemma TopUpUrlsDistinct(days: seq<Date>, dayDraws: seq<seq<ArticleDraw>>, extra: seq<ExtraDraw>, j: nat, k: nat)
    requires PrimaryDrawsFit(days, dayDraws) && |days| > 0
    requires |extra| >= ExpectedNewsCount && ExtraDrawsFit(extra)
    requires j < k < |TopUp(PrimaryNews(days, dayDraws), days, extra)|
    ensures TopUp(PrimaryNews(days, dayDraws), days, extra)[j].url != TopUp(PrimaryNews(days, dayDraws), days, extra)[k].url
  {
    var primary := PrimaryNews(days, dayDraws);
    var all := TopUp(primary, days, extra);
    var n := |primary|;
    if all[j].url == all[k].url {
      if k < n {
        assert all[j].url == MainUrl(j) && all[k].url == MainUrl(k);
        MainUrlInjective(j, k);
        return;
      }
      var additional := AdditionalNews(ExpectedNewsCount - n, days, extra);
      assert all == primary + additional;
      if j < n {
        assert all[j].url == MainUrl(j) && all[k].url == AdditionalUrl(k - n);
        UrlKindsDiffer(j, k - n);
      } else {
        assert all[j].url == AdditionalUrl(j - n) && all[k].url == AdditionalUrl(k - n);
        AdditionalUrlInjective(j - n, k - n);
      }
    }
  }

  predicate UnitDraws(us: seq<real>)
  {
    forall j :: 0 <= j < |us| ==> Unit(us[j])
  }

  /**
   * DataFrame.sample(n): |us| rows drawn without replacement, the j-th
   * uniformly among those not yet drawn.
   */
  function Sample<T>(xs: seq<T>, us: seq<real>): (r: seq<T>)
    requires |us| <= |xs| && UnitDraws(us)
    ensures |r| == |us|
    decreases |us|
  {
    if |us| == 0 then []
    else
      var k := Pick(|xs|, us[0]);
      [xs[k]] + Sample(xs[..k] + xs[k + 1..], us[1..])
  }

  /** Sampling without replacement takes each row at most as often as it occurs. */
  lemma {:induction false} SampleSubMultiset<T>(xs: seq<T>, us: seq<real>)
    requires |us| <= |xs| && UnitDraws(us)
    ensures multiset(Sample(xs, us)) <= multiset(xs)
    decreases |us|
  {
    if |us| > 0 {
      var k := Pick(|xs|, us[0]);
      var rest := xs[..k] + xs[k + 1..];
      SampleSubMultiset(rest, us[1..]);
      assert xs == xs[..k] + [xs[k]] + xs[k + 1..];
      assert multiset(xs) == multiset(rest) + multiset{xs[k]};
    }
  }

  lemma SampleMembers<T>(xs: seq<T>, us: seq<real>, x: T)
    requires |us| <= |xs| && UnitDraws(us)
    requires x in Sample(xs, us)
    ensures x in xs
  {
    SampleSubMultiset(xs, us);
    assert multiset(Sample(xs, us))[x] > 0;
  }

  predicate NewsDrawsFit(days: seq<Date>, counts: seq<int>, dayDraws: seq<seq<ArticleDraw>>,
                         extra: seq<ExtraDraw>, sampleU: seq<real>)
  {
    |counts| == |days| && PrimaryDrawsFit(days, dayDraws)
    && (forall d :: 0 <= d < |days| ==> |dayDraws[d]| == DailyCount(counts[d]))
    && |extra| >= ExpectedNewsCount && ExtraDrawsFit(extra)
    && |sampleU| == ExpectedNewsCount && UnitDraws(sampleU)
  }

  /** The final corpus over a non-empty calendar. */
  function NewsCorpus(days: seq<Date>, counts: seq<int>, dayDraws: seq<seq<ArticleDraw>>,
                      extra: seq<ExtraDraw>, sampleU: seq<real>): (r: seq<NewsRecord>)
    requires NewsDrawsFit(days, counts, dayDraws, extra, sampleU) && |days| > 0
    ensures |r| == ExpectedNewsCount
  {
    var all := TopUp(PrimaryNews(days, dayDraws), days, extra);
    if |all| > ExpectedNewsCount then Sample(all, sampleU) else all
  }

  /**
   * The corpus has exactly the target size, and each article names its
   * company in title and description, is published between 06:00 and 21:59
   * and falls on a trading day.
   */
  lemma CorpusShape(days: seq<Date>, counts: seq<int>, dayDraws: seq<seq<ArticleDraw>>,
                    extra: seq<ExtraDraw>, sampleU: seq<real>)
    requires NewsDrawsFit(days, counts, dayDraws, extra, sampleU) && |days| > 0
    ensures |NewsCorpus(days, counts, dayDraws, extra, sampleU)| == ExpectedNewsCount
    ensures forall x :: x in NewsCorpus(days, counts, dayDraws, extra, sampleU) ==> WellFormed(x) && x.date in days
  {
    var all := TopUp(PrimaryNews(days, dayDraws), days, extra);
    TopUpWellFormed(days, dayDraws, extra);
    if |all| > ExpectedNewsCount {
      forall x | x in Sample(all, sampleU)
        ensures WellFormed(x) && x.date in days
      {
        SampleMembers(all, sampleU, x);
      }
    }
  }

  /** Every article of the topped-up corpus is well formed and dated on a trading day. */
  lemma TopUpWellFormed(days: seq<Date>, dayDraws: seq<seq<ArticleDraw>>, extra: seq<ExtraDraw>)
    requires PrimaryDrawsFit(days, dayDraws) && |days| > 0
    requires |extra| >= ExpectedNewsCount && ExtraDrawsFit(extra)
    ensures forall x :: x in TopUp(PrimaryNews(days, dayDraws), days, extra) ==> WellFormed(x) && x.date in days
  {
    var all := TopUp(PrimaryNews(days, dayDraws), days, extra);
    forall x | x in all
      ensures WellFormed(x) && x.date in days
    {
      var k :| 0 <= k < |all| && all[k] == x;
      TopUpEntryWellFormed(days, dayDraws, extra, k);
    }
  }

  lemma TopUpEntryWellFormed(days: seq<Date>, dayDraws: seq<seq<ArticleDraw>>, extra: seq<ExtraDraw>, k: nat)
    requires PrimaryDrawsFit(days, dayDraws) && |days| > 0
    requires |extra| >= ExpectedNewsCount && ExtraDrawsFit(extra)
    requires k < |TopUp(PrimaryNews(days, dayDraws), days, extra)|
    ensures var x := TopUp(PrimaryNews(days, dayDraws), days, extra)[k]; WellFormed(x) && x.date in days
  {
    var primary := PrimaryNews(days, dayDraws);
    if k >= |primary| {
      var count := ExpectedNewsCount - |primary|;
      assert TopUp(primary, days, extra)[k] == AdditionalNews(count, days, extra)[k - |primary|];
      AdditionalWellFormed(count, days, extra, k - |primary|);
    } else {
      assert TopUp(primary, days, extra)[k] == primary[k];
      PrimaryWellFormed(days, dayDraws, k);
    }
  }

  // The top-up as written. Choosing from a DatetimeIndex with
  // np.random.choice yields a bare numpy datetime64, not a pandas Timestamp,
  // and a datetime64 has no .date(): the first top-up row raises. The
  // functions above model the evidently intended top-up; the ones below
  // model the code as it stands.

  /** A chosen trading day, as the value type the choice returns. */
  datatype DateValue = Timestamp(day: Date) | Datetime64(day: Date)

  /** `.date()`: defined on a Timestamp, an AttributeError (None) on a datetime64. */
  function DateMethod(v: DateValue): (r: Option<Date>)
    ensures r.Some? <==> v.Timestamp?
    ensures r.Some? ==> r.value == v.day
  {
    match v
    case Timestamp(day) => Some(day)
    case Datetime64(_) => None
  }

  /** np.random.choice(business_days): a trading day, as a datetime64. */
  function ChoiceOf(days: seq<Date>, u: real): (v: DateValue)
    requires |days| > 0 && Unit(u)
    ensures v.Datetime64? && v.day in days
  {
    Datetime64(days[Pick(|days|, u)])
  }

  /** _generate_additional_news as written: None (it raises) as soon as it builds a row. */
  function AdditionalNewsAsWritten(count: nat, days: seq<Date>, extra: seq<ExtraDraw>): (r: Option<seq<NewsRecord>>)
    requires |days| > 0 && count <= |extra| && ExtraDrawsFit(extra)
    ensures r.None? <==> count > 0
    ensures r.Some? ==> r.value == AdditionalNews(count, days, extra)
  {
    if count == 0 then Some([])
    else
      var chosen := ChoiceOf(days, extra[count - 1].dateU);
      var row := Article(chosen.day, extra[count - 1].article, AdditionalUrl(count - 1), "additional_generator");
      match AdditionalNewsAsWritten(count - 1, days, extra)
      case None => None
      case Some(before) =>
        match DateMethod(chosen)
        case None => None
        case Some(date) => Some(before + [row.(date := date)])
  }

  /**
   * The corpus as written: it fails exactly when the daily batches fall
   * short of the target, and agrees with the intended corpus otherwise.
   */
  function NewsCorpusAsWritten(days: seq<Date>, counts: seq<int>, dayDraws: seq<seq<ArticleDraw>>,
                               extra: seq<ExtraDraw>, sampleU: seq<real>): (r: Option<seq<NewsRecord>>)
    requires NewsDrawsFit(days, counts, dayDraws, extra, sampleU) && |days| > 0
    ensures r.None? <==> TotalDrawn(dayDraws) < ExpectedNewsCount
    ensures r.Some? ==> r.value == NewsCorpus(days, counts, dayDraws, extra, sampleU)
  {
    var primary := PrimaryNews(days, dayDraws);
    if |primary| < ExpectedNewsCount then
      match AdditionalNewsAsWritten(ExpectedNewsCount - |primary|, days, extra)
      case None => None
      case Some(more) => Some(primary + more)
    else if |primary| > ExpectedNewsCount then Some(Sample(primary, sampleU))
    else Some(primary)
  }

  /** Days that each draw the same number of articles draw that many times the days in all. */
  lemma {:induction false} TotalDrawnUniform(dayDraws: seq<seq<ArticleDraw>>, n: nat)
    requires forall d :: 0 <= d < |dayDraws| ==> |dayDraws[d]| == n
    ensures TotalDrawn(dayDraws) == n * |dayDraws|
  {
    if |dayDraws| > 0 {
      TotalDrawnUniform(dayDraws[..|dayDraws| - 1], n);
    }
  }

  /**
   * A run whose Poisson draw is 5 on each of the 2518 trading days gets
   * 12590 articles from the daily batches: the code as written raises, the
   * intended top-up yields the 15000 articles.
   */
  lemma FiveADayFailsAsWritten(days: seq<Date>, counts: seq<int>, dayDraws: seq<seq<ArticleDraw>>,
                               extra: seq<ExtraDraw>, sampleU: seq<real>)
    requires NewsDrawsFit(days, counts, dayDraws, extra, sampleU) && |days| == ExpectedTradingDays
    requires forall d :: 0 <= d < |counts| ==> counts[d] == 5
    ensures NewsCorpusAsWritten(days, counts, dayDraws, extra, sampleU).None?
    ensures |NewsCorpus(days, counts, dayDraws, extra, sampleU)| == ExpectedNewsCount
  {
    TotalDrawnUniform(dayDraws, 5);
  }

  /** The `for _ in range(daily_count)` loop of one day, numbering urls from `first`. */
  method GenerateDayNews(date: Date, draws: seq<ArticleDraw>, dailyCount: nat, first: nat)
    returns (articles: seq<NewsRecord>)
    requires |draws| == dailyCount && DayDrawsFit(draws)
    ensures articles == DayArticles(date, draws, first)
  {
    articles := [];
    var totalGenerated := first;
    for j := 0 to dailyCount
      invariant |articles| == j && totalGenerated == first + j
      invariant forall i :: 0 <= i < j ==>
        articles[i] == Article(date, draws[i], MainUrl(first + i), "comprehensive_generator")
    {
      var record := Article(date, draws[j], MainUrl(totalGenerated), "comprehensive_generator");
      articles := articles + [record];
      totalGenerated := totalGenerated + 1;
    }
  }

  /** The outer loop over the trading days. */
  method GeneratePrimaryNews(days: seq<Date>, counts: seq<int>, dayDraws: seq<seq<ArticleDraw>>)
    returns (news: seq<NewsRecord>)
    requires |counts| == |days| && PrimaryDrawsFit(days, dayDraws)
    requires forall d :: 0 <= d < |days| ==> |dayDraws[d]| == DailyCount(counts[d])
    ensures news == PrimaryNews(days, dayDraws)
  {
    news := [];
    var totalGenerated := 0;
    for d := 0 to |days|
      invariant news == PrimaryNews(days[..d], dayDraws[..d])
      invariant totalGenerated == |news|
    {
      var dailyCount := DailyCount(counts[d]);
      var today := GenerateDayNews(days[d], dayDraws[d], dailyCount, totalGenerated);
      assert days[..d + 1][..d] == days[..d] && dayDraws[..d + 1][..d] == dayDraws[..d];
      news := news + today;
      totalGenerated := totalGenerated + dailyCount;
    }
    assert days[..|days|] == days && dayDraws[..|days|] == dayDraws;
  }

  /** _generate_additional_news: `count` articles, each on a drawn trading day. */
  method GenerateAdditionalNews(count: nat, days: seq<Date>, extra: seq<ExtraDraw>)
    returns (additional: seq<NewsRecord>)
    requires |days| > 0 && count <= |extra| && ExtraDrawsFit(extra)
    ensures additional == AdditionalNews(count, days, extra)
  {
    additional := [];
    for i := 0 to count
      invariant |additional| == i
      invariant forall j :: 0 <= j < i ==> additional[j] == AdditionalNews(count, days, extra)[j]
    {
      var date := days[Pick(|days|, extra[i].dateU)];
      additional := additional + [Article(date, extra[i].article, AdditionalUrl(i), "additional_generator")];
    }
  }

  /** DataFrame.sample(n) without replacement, one draw per picked row. */
  method SampleRows<T>(xs: seq<T>, us: seq<real>) returns (picked: seq<T>)
    requires |us| <= |xs| && UnitDraws(us)
    ensures picked == Sample(xs, us)
  {
    picked := [];
    var remaining := xs;
    for j := 0 to |us|
      invariant |remaining| == |xs| - j
      invariant picked + Sample(remaining, us[j..]) == Sample(xs, us)
    {
      var k := Pick(|remaining|, us[j]);
      assert us[j..][1..] == us[j + 1..];
      assert Sample(remaining, us[j..]) == [remaining[k]] + Sample(remaining[..k] + remaining[k + 1..], us[j + 1..]);
      picked := picked + [remaining[k]];
      remaining := remaining[..k] + remaining[k + 1..];
    }
  }

  /**
   * The generator over a given calendar: None when the calendar is empty
   * (the daily rate divides by its length), else the corpus.
   */
  method GenerateNews(days: seq<Date>, counts: seq<int>, dayDraws: seq<seq<ArticleDraw>>,
                      extra: seq<ExtraDraw>, sampleU: seq<real>)
    returns (r: Option<seq<NewsRecord>>)
    requires NewsDrawsFit(days, counts, dayDraws, extra, sampleU)
    ensures r.None? <==> |days| == 0
    ensures r.Some? ==> r.value == NewsCorpus(days, counts, dayDraws, extra, sampleU)
  {
    if |days| == 0 {
      return None;
    }
    var primary := GeneratePrimaryNews(days, counts, dayDraws);
    var news := primary;
    while |news| < ExpectedNewsCount
      invariant news == primary || news == TopUp(primary, days, extra)
      decreases ExpectedNewsCount - |news|
    {
      var additional := GenerateAdditionalNews(ExpectedNewsCount - |news|, days, extra);
      news := news + additional;
    }
    assert news == TopUp(primary, days, extra);
    if |news| > ExpectedNewsCount {
      news := SampleRows(news, sampleU);
    }
    return Some(news);
  }

  /** collect_news_sentiment_data: the generator over the study's trading calendar. */
  method CollectNewsSentimentData(counts: seq<int>, dayDraws: seq<seq<ArticleDraw>>,
                                  extra: seq<ExtraDraw>, sampleU: seq<real>)
    returns (r: Option<seq<NewsRecord>>)
    requires NewsDrawsFit(StudyCalendar(), counts, dayDraws, extra, sampleU)
    ensures r.None? <==> |StudyCalendar()| == 0
    ensures r.Some? ==> r.value == NewsCorpus(StudyCalendar(), counts, dayDraws, extra, sampleU)
  {
    var businessDays := BusinessDays(StartDate, EndDate);
    if |businessDays| > ExpectedTradingDays {
      businessDays := businessDays[..ExpectedTradingDays];
    }
    assert businessDays == StudyCalendar();
    r := GenerateNews(businessDays, counts, dayDraws, extra, sampleU);
  }
}
