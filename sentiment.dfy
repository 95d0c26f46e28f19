/**
 * The lexicon sentiment scorer and its per-day summary. The TextBlob
 * polarity and subjectivity of each article are inputs.
 */
module Sentiment {
  import opened Common
  import opened Calendar
  import News

  /** The financial lexicon, positive side. */
  const PositiveWords: seq<string> := [
    "beat", "exceed", "strong", "growth", "profit", "gain", "surge", "rally",
    "bullish", "optimistic", "upgrade", "outperform", "breakthrough", "success",
    "record", "robust", "solid", "positive", "momentum", "opportunity",
    "expansion", "innovation", "leadership", "competitive", "efficient"]

  /** The financial lexicon, negative side. */
  const NegativeWords: seq<string> := [
    "miss", "disappoint", "decline", "loss", "drop", "fall", "crash",
    "bearish", "pessimistic", "downgrade", "underperform", "concern",
    "challenge", "risk", "uncertainty", "volatility", "pressure",
    "weakness", "struggling", "difficult", "problem", "threat"]

  /** The analyzer's two word lists; scoring takes them as a value. */
  datatype Lexicon = Lexicon(positive: seq<string>, negative: seq<string>)

  /** The lists the analyzer is constructed with. */
  const FinancialLexicon: Lexicon := Lexicon(PositiveWords, NegativeWords)

  lemma FinancialLexiconSize()
    ensures |FinancialLexicon.positive| == 25 && |FinancialLexicon.negative| == 22
  {
  }

  /** The columns of the news frame the analyzer reads; `category` may be absent. */
  datatype NewsItem = NewsItem(date: Date, title: string, description: string,
                               sourceName: string, category: Option<string>)

  /** A generated news row as the analyzer sees it. */
  function ItemOf(r: News.NewsRecord): NewsItem
    requires News.ValidTemplate(r)
  {
    NewsItem(r.date, News.Title(r), News.Description(r), r.sourceName, Some(News.CategoryName(r.category)))
  }

  predicate IsUpper(c: char)
  {
    'A' <= c <= 'Z'
  }

  function LowerChar(c: char): (d: char)
    ensures !IsUpper(d)
    ensures !IsUpper(c) ==> d == c
  {
    if IsUpper(c) then (c as int + 32) as char else c
  }

  /** str.lower() on ASCII letters. */
  function Lower(s: string): (r: string)
    ensures |r| == |s|
    ensures forall i :: 0 <= i < |r| ==> !IsUpper(r[i])
  {
    seq(|s|, i requires 0 <= i < |s| => LowerChar(s[i]))
  }

  /** Lower-casing leaves text without capitals unchanged, so applying it twice changes nothing. */
  lemma LowerIdempotent(s: string)
    ensures Lower(Lower(s)) == Lower(s)
  {
    var once := Lower(s);
    assert forall i :: 0 <= i < |once| ==> LowerChar(once[i]) == once[i];
  }

  /** The text an article is scored on: title, a blank, description, lower-cased. */
  function ArticleText(item: NewsItem): string
  {
    Lower(item.title + " " + item.description)
  }

  /** How many words of the list occur in the text (each word counted once). */
  function CountHits(words: seq<string>, text: string): (n: nat)
    ensures n <= |words|
    ensures n == 0 <==> forall i :: 0 <= i < |words| ==> !Contains(text, words[i])
    ensures n == |words| <==> forall i :: 0 <= i < |words| ==> Contains(text, words[i])
  {
    if |words| == 0 then 0
    else
      var m := |words| - 1;
      assert forall i :: 0 <= i < m ==> words[..m][i] == words[i];
      CountHits(words[..m], text) + (if Contains(text, words[m]) then 1 else 0)
  }

  /** (pos - neg) / (pos + neg), or 0 when no lexicon word occurs. */
  function KeywordSentiment(pos: nat, neg: nat): (r: real)
    ensures -1.0 <= r <= 1.0
    ensures pos + neg == 0 ==> r == 0.0
    ensures pos > 0 && neg == 0 ==> r == 1.0
    ensures pos == 0 && neg > 0 ==> r == -1.0
    ensures r > 0.0 <==> pos > neg
    ensures r < 0.0 <==> pos < neg
  {
    if pos + neg > 0 then
      KeywordRatio(pos, neg);
      (pos as real - neg as real) / (pos + neg) as real
    else 0.0
  }

  lemma KeywordRatio(pos: nat, neg: nat)
    requires pos + neg > 0
    ensures var r := (pos as real - neg as real) / (pos + neg) as real;
      -1.0 <= r <= 1.0 && (r > 0.0 <==> pos > neg) && (r < 0.0 <==> pos < neg)
      && (neg == 0 ==> r == 1.0) && (pos == 0 ==> r == -1.0)
  {
    var t := (pos + neg) as real;
    var d := pos as real - neg as real;
    DivMonotone(-t, d, t);
    DivMonotone(d, t, t);
    assert t / t == 1.0 && -t / t == -1.0;
    assert d / t * t == d;
  }

  /** The TextBlob reading of one article: polarity in [-1, 1], subjectivity in [0, 1]. */
  datatype Reading = Reading(polarity: real, subjectivity: real)

  predicate ReadingFits(b: Reading)
  {
    -1.0 <= b.polarity <= 1.0 && 0.0 <= b.subjectivity <= 1.0
  }

  /** 0.6 TextBlob + 0.4 keywords, or the keyword score alone without TextBlob. */
  function CombinedSentiment(useTextBlob: bool, polarity: real, keyword: real): (r: real)
    requires -1.0 <= polarity <= 1.0 && -1.0 <= keyword <= 1.0
    ensures -1.0 <= r <= 1.0
    ensures !useTextBlob ==> r == keyword
    ensures useTextBlob && polarity == keyword ==> r == keyword
  {
    if useTextBlob then 0.6 * polarity + 0.4 * keyword else keyword
  }

  /** min(1, hits / 5). */
  function Intensity(total: nat): (r: real)
    ensures 0.0 <= r <= 1.0
    ensures r == 1.0 <==> total >= 5
    ensures total == 0 <==> r == 0.0
  {
    Min(1.0, total as real / 5.0)
  }

  /** One row of the sentiment frame. */
  datatype SentimentScore = SentimentScore(
    newsId: nat, date: Date, textblobSentiment: real, keywordSentiment: real,
    combinedSentiment: real, confidence: real, intensity: real,
    positiveKeywords: nat, negativeKeywords: nat, totalKeywords: nat,
    source: string, category: string)

  /** The scores of one article, the row at position `id`. */
  function Score(lex: Lexicon, id: nat, item: NewsItem, useTextBlob: bool, blob: Reading): (s: SentimentScore)
    requires ReadingFits(blob)
    ensures s.newsId == id && s.date == item.date && s.source == item.sourceName
    ensures -1.0 <= s.keywordSentiment <= 1.0 && -1.0 <= s.combinedSentiment <= 1.0
    ensures 0.0 <= s.intensity <= 1.0 && 0.0 <= s.confidence <= 1.0
    ensures s.totalKeywords == s.positiveKeywords + s.negativeKeywords <= |lex.positive| + |lex.negative|
    ensures s.totalKeywords == 0 ==> s.keywordSentiment == 0.0 && s.intensity == 0.0
    ensures !useTextBlob ==> s.textblobSentiment == 0.0 && s.confidence == 0.5 && s.combinedSentiment == s.keywordSentiment
    ensures item.category.None? ==> s.category == "general"
  {
    var text := ArticleText(item);
    var polarity := if useTextBlob then blob.polarity else 0.0;
    var confidence := if useTextBlob then blob.subjectivity else 0.5;
    var pos := CountHits(lex.positive, text);
    var neg := CountHits(lex.negative, text);
    var keyword := KeywordSentiment(pos, neg);
    SentimentScore(id, item.date, polarity, keyword, CombinedSentiment(useTextBlob, polarity, keyword),
      confidence, Intensity(pos + neg), pos, neg, pos + neg, item.sourceName,
      if item.category.Some? then item.category.value else "general")
  }

  /** The positive count is zero exactly when no positive lexicon word occurs in the text. */
  lemma NoPositiveHits(lex: Lexicon, id: nat, item: NewsItem, useTextBlob: bool, blob: Reading)
    requires ReadingFits(blob)
    ensures Score(lex, id, item, useTextBlob, blob).positiveKeywords == 0
      <==> forall i :: 0 <= i < |lex.positive| ==> !Contains(ArticleText(item), lex.positive[i])
  {
  }

  predicate ReadingsFit(items: seq<NewsItem>, blobs: seq<Reading>)
  {
    |blobs| == |items| && forall i :: 0 <= i < |blobs| ==> ReadingFits(blobs[i])
  }

  /** The sentiment frame: one score row per article, in frame order. */
  function ScoreAll(lex: Lexicon, items: seq<NewsItem>, useTextBlob: bool, blobs: seq<Reading>): (r: seq<SentimentScore>)
    requires ReadingsFit(items, blobs)
    ensures |r| == |items|
  {
    seq(|items|, i requires 0 <= i < |items| => Score(lex, i, items[i], useTextBlob, blobs[i]))
  }

  // ---------------------------------------------------------------- daily summary

  /** Insert a date into a strictly increasing list of dates, keeping it so. */
  function InsertDate(s: seq<Date>, d: Date): (r: seq<Date>)
    requires StrictlyIncreasing(s)
    ensures StrictlyIncreasing(r)
    ensures forall x :: x in r <==> x in s || x == d
  {
    if |s| == 0 then [d]
    else if d < s[0] then [d] + s
    else if d == s[0] then s
    else
      var rest := InsertDate(s[1..], d);
      assert forall x :: x in rest ==> s[0] < x;
      PrependIncreasing(s[0], rest);
      [s[0]] + rest
  }

  lemma PrependIncreasing(h: Date, s: seq<Date>)
    requires StrictlyIncreasing(s)
    requires forall x :: x in s ==> h < x
    ensures StrictlyIncreasing([h] + s)
  {
    var r := [h] + s;
    forall i, j | 0 <= i < j < |r|
      ensures r[i] < r[j]
    {
      assert r[j] == s[j - 1] && r[j] in s;
      if i > 0 {
        assert r[i] == s[i - 1];
      }
    }
  }

  /** The group keys of groupby('date'): the distinct dates, ascending. */
  function DistinctDates(scores: seq<SentimentScore>): (r: seq<Date>)
    ensures StrictlyIncreasing(r)
    ensures forall d :: d in r <==> exists i :: 0 <= i < |scores| && scores[i].date == d
  {
    if |scores| == 0 then []
    else
      var n := |scores| - 1;
      assert forall i :: 0 <= i < n ==> scores[..n][i] == scores[i];
      InsertDate(DistinctDates(scores[..n]), scores[n].date)
  }

  /** The group of one date: its rows in frame order. */
  function OnDate(scores: seq<SentimentScore>, d: Date): (g: seq<SentimentScore>)
    ensures |g| <= |scores|
    ensures forall j :: 0 <= j < |g| ==> g[j].date == d && g[j] in scores
    ensures (exists i :: 0 <= i < |scores| && scores[i].date == d) ==> |g| > 0
  {
    if |scores| == 0 then []
    else
      var n := |scores| - 1;
      var before := OnDate(scores[..n], d);
      assert forall x :: x in scores[..n] ==> x in scores;
      if scores[n].date == d then before + [scores[n]] else before
  }

  /** One column of a group of score rows. */
  function Column<T>(g: seq<SentimentScore>, f: SentimentScore -> T): (c: seq<T>)
    ensures |c| == |g| && forall i :: 0 <= i < |g| ==> c[i] == f(g[i])
  {
    seq(|g|, i requires 0 <= i < |g| => f(g[i]))
  }

  function Mean(xs: seq<real>): real
    requires |xs| > 0
  {
    Sum(xs) / |xs| as real
  }

  function SeqMin(xs: seq<real>): (m: real)
    requires |xs| > 0
    ensures forall i :: 0 <= i < |xs| ==> m <= xs[i]
    ensures m in xs
  {
    if |xs| == 1 then xs[0]
    else
      var n := |xs| - 1;
      assert forall i :: 0 <= i < n ==> xs[..n][i] == xs[i];
      Min(SeqMin(xs[..n]), xs[n])
  }

  function SeqMax(xs: seq<real>): (m: real)
    requires |xs| > 0
    ensures forall i :: 0 <= i < |xs| ==> xs[i] <= m
    ensures m in xs
  {
    if |xs| == 1 then xs[0]
    else
      var n := |xs| - 1;
      assert forall i :: 0 <= i < n ==> xs[..n][i] == xs[i];
      Max(SeqMax(xs[..n]), xs[n])
  }

  /** A mean of values within [lo, hi] is within [lo, hi]. */
  lemma MeanWithin(xs: seq<real>, lo: real, hi: real)
    requires |xs| > 0
    requires forall i :: 0 <= i < |xs| ==> lo <= xs[i] <= hi
    ensures lo <= Mean(xs) <= hi
  {
    SumBounds(xs, lo, hi);
    MeanOfBounded(Sum(xs), |xs|, lo, hi);
  }

  /** The mean of a column lies between its minimum and maximum. */
  lemma MeanBetween(xs: seq<real>)
    requires |xs| > 0
    ensures SeqMin(xs) <= Mean(xs) <= SeqMax(xs)
  {
    MeanWithin(xs, SeqMin(xs), SeqMax(xs));
  }

  function Round4(x: real): real
  {
    Round(x, FourPlaces)
  }

  datatype Regime = Bearish | Neutral | Bullish

  /** pd.cut with bins [-1, -0.2, 0.2, 1]: right-closed intervals, -1 itself outside. */
  function RegimeOf(x: real): (r: Option<Regime>)
    ensures r == Some(Bearish) <==> -1.0 < x <= -0.2
    ensures r == Some(Neutral) <==> -0.2 < x <= 0.2
    ensures r == Some(Bullish) <==> 0.2 < x <= 1.0
    ensures r.None? <==> x <= -1.0 || x > 1.0
  {
    if -1.0 < x <= -0.2 then Some(Bearish)
    else if -0.2 < x <= 0.2 then Some(Neutral)
    else if 0.2 < x <= 1.0 then Some(Bullish)
    else None
  }

  /** A daily mean of exactly -1 falls outside every bin. */
  lemma MinusOneUnlabelled()
    ensures RegimeOf(-1.0).None?
    ensures RegimeOf(-0.2) == Some(Bearish) && RegimeOf(0.2) == Some(Neutral) && RegimeOf(1.0) == Some(Bullish)
  {
  }

  /** One row of the daily summary (the std columns are not modelled). */
  datatype DailyRow = DailyRow(
    date: Date, combinedMean: real, combinedCount: nat, combinedMin: real, combinedMax: real,
    textblobMean: real, keywordMean: real, confidenceMean: real, intensityMean: real,
    positiveKeywords: int, negativeKeywords: int, totalKeywords: int,
    momentum: Option<real>, regime: Option<Regime>)

  /** The aggregates of one date's group, rounded to four places. */
  function DayStats(d: Date, g: seq<SentimentScore>): (row: DailyRow)
    requires |g| > 0
    ensures row.date == d && row.combinedCount == |g|
    ensures row.combinedMin <= row.combinedMean <= row.combinedMax
  {
    var combined := Column(g, (s: SentimentScore) => s.combinedSentiment);
    MeanBetween(combined);
    RoundMonotone(SeqMin(combined), Mean(combined), FourPlaces);
    RoundMonotone(Mean(combined), SeqMax(combined), FourPlaces);
    DailyRow(d, Round4(Mean(combined)), |g|, Round4(SeqMin(combined)), Round4(SeqMax(combined)),
      Round4(Mean(Column(g, (s: SentimentScore) => s.textblobSentiment))), Round4(Mean(Column(g, (s: SentimentScore) => s.keywordSentiment))),
      Round4(Mean(Column(g, (s: SentimentScore) => s.confidence))), Round4(Mean(Column(g, (s: SentimentScore) => s.intensity))),
      SumInt(Column(g, (s: SentimentScore) => s.positiveKeywords)), SumInt(Column(g, (s: SentimentScore) => s.negativeKeywords)),
      SumInt(Column(g, (s: SentimentScore) => s.totalKeywords)), None, None)
  }

  /** The grouped rows before the rolling and binned columns are added. */
  function DailyStats(scores: seq<SentimentScore>): (rows: seq<DailyRow>)
    ensures |rows| == |DistinctDates(scores)|
  {
    var dates := DistinctDates(scores);
    seq(|dates|, k requires 0 <= k < |dates| =>
      assert dates[k] in dates;
      DayStats(dates[k], OnDate(scores, dates[k])))
  }

  /** The rounded daily means, the column the momentum and the regime read. */
  function MeanColumn(rows: seq<DailyRow>): (c: seq<real>)
    ensures |c| == |rows|
  {
    seq(|rows|, k requires 0 <= k < |rows| => rows[k].combinedMean)
  }

  /** _generate_daily_sentiment_summary: the grouped rows with 5-day momentum and regime. */
  function DailySentimentSummary(scores: seq<SentimentScore>): (r: seq<DailyRow>)
    ensures |r| == |DistinctDates(scores)|
  {
    var stats := DailyStats(scores);
    var means := MeanColumn(stats);
    seq(|stats|, k requires 0 <= k < |stats| =>
      stats[k].(momentum := TrailingMean(means, 5, k), regime := RegimeOf(means[k])))
  }

  /**
   * One row per distinct date, ascending; each row counts a non-empty
   * group, its rounded minimum, mean and maximum are ordered, its momentum
   * is the 5-day trailing mean of the daily means and its regime is the bin
   * of its own mean.
   */
  lemma SummaryRows(scores: seq<SentimentScore>, k: nat)
    requires k < |DailySentimentSummary(scores)|
    ensures var row := DailySentimentSummary(scores)[k];
      row.date == DistinctDates(scores)[k]
      && row.combinedCount == |OnDate(scores, row.date)| > 0
      && row.combinedMin <= row.combinedMean <= row.combinedMax
      && row.momentum == TrailingMean(MeanColumn(DailyStats(scores)), 5, k)
      && row.regime == RegimeOf(row.combinedMean)
  {
    var dates := DistinctDates(scores);
    assert dates[k] in dates;
  }

  /** The momentum is undefined exactly on the first four dates. */
  lemma MomentumPrefix(scores: seq<SentimentScore>, k: nat)
    requires k < |DailySentimentSummary(scores)|
    ensures DailySentimentSummary(scores)[k].momentum.None? <==> k < 4
  {
  }

  /** With every combined score in [-1, 1], the daily means and the momentum stay in [-1, 1]. */
  lemma MomentumBounds(scores: seq<SentimentScore>, k: nat)
    requires forall i :: 0 <= i < |scores| ==> -1.0 <= scores[i].combinedSentiment <= 1.0
    requires 4 <= k < |DailySentimentSummary(scores)|
    ensures -1.0 <= DailySentimentSummary(scores)[k].momentum.value <= 1.0
  {
    var stats := DailyStats(scores);
    var means := MeanColumn(stats);
    forall j | 0 <= j < |means|
      ensures -1.0 <= means[j] <= 1.0
    {
      DailyMeanBounds(scores, j);
    }
    TrailingMeanBounds(means, 5, k, -1.0, 1.0);
  }

  lemma DailyMeanBounds(scores: seq<SentimentScore>, j: nat)
    requires forall i :: 0 <= i < |scores| ==> -1.0 <= scores[i].combinedSentiment <= 1.0
    requires j < |DailyStats(scores)|
    ensures -1.0 <= DailyStats(scores)[j].combinedMean <= 1.0
  {
    var d := DistinctDates(scores)[j];
    var g := OnDate(scores, d);
    assert d in DistinctDates(scores);
    var combined := Column(g, (s: SentimentScore) => s.combinedSentiment);
    forall i | 0 <= i < |combined|
      ensures -1.0 <= combined[i] <= 1.0
    {
      assert g[i] in scores;
    }
    SumBounds(combined, -1.0, 1.0);
    MeanOfBounded(Sum(combined), |combined|, -1.0, 1.0);
    RoundUnitInterval(Mean(combined), FourPlaces);
  }

  // ------------------------------------------------- the counts add up

  /** How often a date occurs in a list of dates. */
  function Occurrences(ds: seq<Date>, d: Date): nat
  {
    if |ds| == 0 then 0
    else Occurrences(ds[..|ds| - 1], d) + (if ds[|ds| - 1] == d then 1 else 0)
  }

  lemma {:induction false} OccursOnce(ds: seq<Date>, d: Date)
    requires StrictlyIncreasing(ds)
    ensures Occurrences(ds, d) == (if d in ds then 1 else 0)
  {
    if |ds| > 0 {
      var n := |ds| - 1;
      OccursOnce(ds[..n], d);
      assert ds == ds[..n] + [ds[n]];
      if ds[n] == d {
        assert d !in ds[..n];
      }
    }
  }

  /** The group sizes of a list of dates. */
  function GroupSizes(scores: seq<SentimentScore>, ds: seq<Date>): (c: seq<int>)
    ensures |c| == |ds|
  {
    seq(|ds|, k requires 0 <= k < |ds| => |OnDate(scores, ds[k])|)
  }

  /** Appending one row adds it to the group of every occurrence of its date. */
  lemma {:induction false} GroupSizesStep(scores: seq<SentimentScore>, x: SentimentScore, ds: seq<Date>)
    ensures SumInt(GroupSizes(scores + [x], ds)) == SumInt(GroupSizes(scores, ds)) + Occurrences(ds, x.date)
  {
    if |ds| > 0 {
      var n := |ds| - 1;
      GroupSizesStep(scores, x, ds[..n]);
      assert GroupSizes(scores + [x], ds)[..n] == GroupSizes(scores + [x], ds[..n]);
      assert GroupSizes(scores, ds)[..n] == GroupSizes(scores, ds[..n]);
      assert (scores + [x])[..|scores|] == scores;
    }
  }

  /** Over distinct dates covering every row, the group sizes add up to the number of rows. */
  lemma {:induction false} GroupSizesTotal(scores: seq<SentimentScore>, ds: seq<Date>)
    requires StrictlyIncreasing(ds)
    requires forall i :: 0 <= i < |scores| ==> scores[i].date in ds
    ensures SumInt(GroupSizes(scores, ds)) == |scores|
  {
    if |scores| == 0 {
      assert forall k :: 0 <= k < |ds| ==> GroupSizes(scores, ds)[k] == 0;
      ZeroSum(GroupSizes(scores, ds));
    } else {
      var n := |scores| - 1;
      GroupSizesTotal(scores[..n], ds);
      assert scores == scores[..n] + [scores[n]];
      GroupSizesStep(scores[..n], scores[n], ds);
      OccursOnce(ds, scores[n].date);
    }
  }

  lemma {:induction false} ZeroSum(s: seq<int>)
    requires forall k :: 0 <= k < |s| ==> s[k] == 0
    ensures SumInt(s) == 0
  {
    if |s| > 0 {
      ZeroSum(s[..|s| - 1]);
    }
  }

  /** The article counts of the rows, the column the total is taken over. */
  function CountColumn(rows: seq<DailyRow>): (c: seq<int>)
    ensures |c| == |rows|
  {
    seq(|rows|, k requires 0 <= k < |rows| => rows[k].combinedCount)
  }

  /** The daily counts add up to the number of scored articles. */
  lemma DailyCountsTotal(scores: seq<SentimentScore>)
    ensures SumInt(CountColumn(DailySentimentSummary(scores))) == |scores|
  {
    var dates := DistinctDates(scores);
    var rows := DailySentimentSummary(scores);
    forall i | 0 <= i < |scores|
      ensures scores[i].date in dates
    {
    }
    GroupSizesTotal(scores, dates);
    var counts := CountColumn(rows);
    forall k | 0 <= k < |rows|
      ensures counts[k] == GroupSizes(scores, dates)[k]
    {
      SummaryRows(scores, k);
    }
    assert counts == GroupSizes(scores, dates);
  }

  /**
   * analyze_news_sentiment: score every article in frame order, then
   * summarise by date.
   */
  method AnalyzeNewsSentiment(items: seq<NewsItem>, useTextBlob: bool, blobs: seq<Reading>)
    returns (scores: seq<SentimentScore>, daily: seq<DailyRow>)
    requires ReadingsFit(items, blobs)
    ensures scores == ScoreAll(FinancialLexicon, items, useTextBlob, blobs)
    ensures daily == DailySentimentSummary(scores)
  {
    scores := [];
    for i := 0 to |items|
      invariant |scores| == i
      invariant forall j :: 0 <= j < i ==> scores[j] == Score(FinancialLexicon, j, items[j], useTextBlob, blobs[j])
    {
      scores := scores + [Score(FinancialLexicon, i, items[i], useTextBlob, blobs[i])];
    }
    daily := DailySentimentSummary(scores);
  }
}
