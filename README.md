# Synthetic asset-pricing data generator: a verified model

This project models the generation and scoring core of a research data builder for an
asset-pricing study, plus its API-key checker.

The generator produces these tables:

- a daily price panel with derived technical indicators for a list of large-cap stocks;
- quarterly fundamental ratios per stock;
- a monthly macro-economic series;
- a corpus of template news;
- per-article sentiment scores and a daily sentiment summary.

The key checker decides whether enough data-provider credentials are configured. It also lists which providers are usable.

## How the model is organised

Every random draw of the original appears as an explicit input:

- A normal draw is a standard score `z`, used as `loc + scale * z`.
- A uniform draw is a unit real `u` in [0, 1), used as `low + (high - low) * u`.
- A choice among `n` items is `Floor(n * u)`.

The models then state what the program computes, whatever the draws were.

Dates are day numbers counted from 1970-01-01. Business days are the weekdays, as in the pandas `'B'` frequency, which has no holidays.

| file | module | models |
|---|---|---|
| common.dfy | Common | clipping, truncation, rounding, trailing means, sums, decimal rendering |
| calendar.dfy | Calendar | civil dates, business days, the truncated trading calendar, event windows |
| sectors.dfy | Sectors | the sector parameter table |
| prices.dfy | Prices | returns, event overlay, compounding, OHLCV rows, the panel (imperative: arrays and loops) |
| indicators.dfy | Indicators | moving averages, RSI-14, liquidity, volume ratio, percentage changes |
| fundamentals.dfy | Fundamentals | the 15 quarterly ratios and the record grid (loops) |
| macro.dfy | Macro | the monthly macro state machine with event adjustments and clamping (loop) |
| news.dfy | News | template news, daily batches, top-up, down-sampling (loops) |
| sentiment.dfy | Sentiment | lexicon scoring, combined score, intensity, daily aggregation, momentum, regime |
| apikeys.dfy | ApiKeys | `validate_keys` and `get_available_apis` |

Where the program loops or mutates, it is modelled as a `method`. Each such method is proved equal to a specification function: `AddMarketEvents`, `CompoundPrices`, `GenerateSingleStockData`, `CollectFundamentalData`, `CollectMacroEconomicData`, `GenerateNews`, `AnalyzeNewsSentiment` and `GetAvailableApis`. The properties the program promises are then proved as lemmas about those functions.

Where the design description and the code disagree, the model follows the code:

- **First close.** The code compounds from the initial price and then drops it, at main.py:391-394. So the first close is `initial * (1 + r[0])`, not the initial price.
- **Regime bins.** The bins at main.py:1090-1094 are closed on the right and open on the left. So -0.2 is Bearish, 0.2 is Neutral, and a daily mean of exactly -1 gets no label.
- **Daily news count.** It is `max(1, int(poisson))`, at main.py:724, not the raw Poisson draw. So every trading day has at least one primary article.
- **Non-negative ratios.** A generated ratio is floored at 0.01, at main.py:549. Ratios are therefore at least 0.01, which is stronger than positive.
- **Unscaled multipliers.** The multiplier lists at main.py:566 and 574 are shorter than the sector lists at main.py:433-436. Any ratio a list leaves out keeps multiplier 1.0.

## Model

| member | source | states |
|---|---|---|
| Calendar.Weekday | main.py:327-331 | the day of week of a day number is in 0..6 (Monday = 0) |
| Calendar.WeekdayAnchors | main.py:327-331 | 1970-01-01 and 2015-01-01 are Thursdays, 2024-12-31 a Tuesday, and 2024-12-29/30 a Sunday and a Monday, so Monday counts as 0 |
| Calendar.AnchorDates | main.py:47-48 | the study start 2015-01-01, the end 2024-12-31 and the COVID and inflation windows are the day numbers used everywhere |
| Calendar.WindowsDisjoint | main.py:453-465 | the COVID window and the 2022 inflation window of the stock overlay never overlap |
| Calendar.MacroWindowsDisjoint | main.py:669-680 | the COVID months and the rate-hike months of the macro series never overlap |
| Calendar.BusinessDays | main.py:327-331 | every generated date lies in [start, end], is a weekday, and the dates strictly increase |
| Calendar.BusinessDaysComplete | main.py:327-331 | every weekday in [start, end] is in the business-day list (completeness of the range) |
| Calendar.TradingCalendar | main.py:327-335 | the calendar is the first min(#business days, target) business days, in order, and its dates strictly increase |
| Sectors.GetSectorParameters | main.py:430-447 | every returned profile has positive drift, volatility, beta and average volume |
| Sectors.SectorMembership | main.py:430-447 | the tech, finance, healthcare and energy profiles are returned exactly for members of their lists, and the default profile exactly for symbols in none |
| Sectors.SectorListsDisjoint | main.py:433-436 | the four sector lists are pairwise disjoint, so the order of the tests does not matter |
| Prices.Uniform | main.py:369 | a uniform draw lies in [low, high] |
| Prices.WindowRankInRange | main.py:456-458 | a date in an event window has a rank below that window's draw count, so it receives its own draw |
| Prices.EventOverlay | main.py:449-467 | the overlay keeps the length and leaves every day outside both windows unchanged |
| Prices.OverlayAtMostOneShock | main.py:453-465 | a COVID-window day gets exactly its N(-0.02, 0.05) draw and an inflation-window day exactly its N(-0.005, 0.02) draw |
| Prices.ApplyWindow | main.py:456-458 | the in-place masked addition adds to each array cell exactly that day's window shock |
| Prices.AddMarketEvents | main.py:449-467 | the copied and shocked return array equals the event overlay of the returns |
| Prices.PricePath | main.py:391-393 | the path has one more entry than there are returns and starts at the initial price |
| Prices.PricePathStep | main.py:392-393 | each price is the previous price times (1 + return), and a prefix of the returns gives a prefix of the path |
| Prices.PricePathPositive | main.py:391-394 | with a positive initial price and every return above -100%, every price is positive |
| Prices.BaseReturns | main.py:374-385 | there is one beta-weighted market-plus-idiosyncratic return per day |
| Prices.DailyRange | main.py:400 | the daily range of a non-negative close is non-negative |
| Prices.DayRow | main.py:397-419 | a day's row carries its date, symbol and return, and for a non-negative close its rounded prices satisfy Low <= Close <= High |
| Prices.StockRows | main.py:397-421 | there is one row per date carrying that date and the symbol, Open[0] == Close[0], and Open[i] == Close[i-1] |
| Prices.FirstClose | main.py:391-400 | the first close is the rounded initial price compounded by the first return |
| Prices.StockVolumesPositive | main.py:406-409 | every generated volume is positive |
| Prices.VolumeAtLeastOne | main.py:407-409 | the truncated volume of a base volume of at least 2 is at least 1 |
| Prices.StockRowsOrdered | main.py:397-421 | with returns above -100%, every row of a stock satisfies Low <= Close <= High |
| Prices.CompoundPrices | main.py:391-394 | the compounding loop yields the price path without its initial entry |
| Prices.BuildRows | main.py:397-419 | the OHLCV loop builds exactly the row of each day |
| Prices.GenerateSingleStockData | main.py:362-428 | the single-stock frame equals the specified rows, and its indicators are those rows' indicators |
| Prices.StockFrames | main.py:345-353 | there is one frame per symbol, each with one row per calendar day |
| Prices.PanelIndicatorsBlock | main.py:345-360 | in the concatenated panel, row k*n+i holds the indicators of stock k on day i |
| Prices.GeneratePanel | main.py:345-360 | the panel is the concatenation of the per-symbol frames, in symbol order |
| Prices.GenerateFullScaleStockData | main.py:322-360 | the full panel over the study calendar is the symbol-ordered concatenation of the stock frames |
| Indicators.MovingAverage | main.py:474-477 | a k-day moving average is undefined exactly on the first k-1 rows |
| Indicators.PctChange | main.py:503-505 | a k-day change is undefined exactly before row k or on a zero reference close, and otherwise times the reference equals the price difference |
| Indicators.Gain | main.py:511-512 | each up-move is non-negative, and the first row counts as 0 |
| Indicators.Loss | main.py:511-513 | each down-move is non-negative, and the first row counts as 0 |
| Indicators.TechnicalIndicators | main.py:469-507 | each moving average is undefined on its leading rows, RSI, volume ratio and price changes are undefined before their windows fill, and liquidity is close times volume |
| Indicators.Rsi | main.py:509-515 | every defined RSI value lies in [0, 100] |
| Indicators.RsiBounds | main.py:509-515 | RSI is defined iff the row is at least the 14th and its window has some gain or some loss, and then lies in [0, 100] |
| Indicators.VolumeRatio | main.py:499-500 | the volume ratio is undefined iff the 20-day window is not full or its mean is 0, and otherwise times that mean gives the day's volume |
| Indicators.RsiHundredIffNoLoss | main.py:512-515 | RSI is exactly 100 iff the window has no loss and some gain |
| Indicators.RsiUndefinedWhenFlat | main.py:512-515 | a flat 14-row window leaves RSI undefined (0/0) rather than raising |
| Indicators.RsiOfIncreasingSeries | main.py:509-515 | a strictly increasing close series has RSI 100 on every row from the 14th on |
| Indicators.TrailingMeanCausal | main.py:474-477 | a trailing mean at row i depends only on rows up to i |
| Indicators.IndicatorsCausal | main.py:469-507 | the indicator row at day i depends only on closes and volumes up to day i (no look-ahead) |
| Indicators.TechnicalIndicatorsPrefix | main.py:469-507 | recomputing on the rows up to day i reproduces day i's indicators from the full pass |
| Fundamentals.IndicatorsListed | main.py:108-112 | there are 15 distinct fundamental indicators, and every ratio is one of them |
| Fundamentals.GetFundamentalMultiplier | main.py:563-581 | every sector multiplier lies in [0.5, 2.0], and a symbol in neither sector list gets 1.0 for every ratio |
| Fundamentals.DefaultMultipliers | main.py:581 | the default multiplier map sends every indicator to 1.0 |
| Fundamentals.MissingMultiplierIsOne | main.py:547 | a ratio absent from a sector's map is scaled by 1.0 |
| Fundamentals.TechUnscaledRatios | main.py:566-572 | for the six high-multiple tech names, market cap, leverage, liquidity ratios and turnover are unscaled |
| Fundamentals.FinanceUnscaledRatios | main.py:574-579 | for the five bank names, every ratio outside the six listed ones is unscaled |
| Fundamentals.DefaultUnscaledRatios | main.py:580-581 | every other symbol has every ratio unscaled |
| Fundamentals.BaseFundamentalValue | main.py:583-602 | every base value is positive |
| Fundamentals.RatioValue | main.py:546-549 | every generated ratio is at least 0.01, whatever the noise draw |
| Fundamentals.QuarterLabelInjective | main.py:541 | distinct valid quarters get distinct "YYYYQn" labels |
| Fundamentals.Record | main.py:538-549 | a record has the quarter's date, the symbol, the label and 15 ratios each at least 0.01 |
| Fundamentals.OneRecordPerPair | main.py:533-551 | there are |quarters| * |symbols| records, and the record at qi*|symbols|+si is that quarter and symbol's |
| Fundamentals.FundamentalFloor | main.py:545-549 | every ratio of every generated record is at least 0.01 |
| Fundamentals.GenerateRatios | main.py:545-549 | the indicator loop yields exactly the 15 values in indicator order |
| Fundamentals.CollectFundamentalData | main.py:517-561 | the nested quarter-by-symbol loop yields exactly the fundamental frame |
| Macro.InitialInRange | main.py:619-628 | the initial values lie within the clamp bands |
| Macro.CovidAdjusted | main.py:669-674 | the COVID adjustment floors the funds rate at 0.1 and leaves inflation, dollar, oil and treasury alone |
| Macro.HikeAdjusted | main.py:676-680 | the hike adjustment caps inflation at 9, the funds rate at 5.5 and the treasury at 5, and leaves the rest alone |
| Macro.Clipped | main.py:683-690 | clamping lands every indicator in its band and is the identity on in-band states |
| Macro.MacroStep | main.py:647-692 | the monthly step of any state under any shocks ends inside every clamp band |
| Macro.StepInRange | main.py:647-692 | every monthly update ends inside every band, whatever the shocks |
| Macro.CovidRateFloor | main.py:669-674 | in a COVID month the funds rate is at least 0.1 |
| Macro.HikeCaps | main.py:676-690 | in a hike month inflation <= 9, funds rate <= 5.5 and treasury <= 5 |
| Macro.QuietMonth | main.py:663-690 | outside both windows a month is shock-then-clamp only |
| Macro.DollarAndOilUnadjusted | main.py:663-690 | the dollar and oil indicators are only shocked and clamped, never event-adjusted |
| Macro.UpdateMacroValues | main.py:647-692 | the in-place update equals the specified step and stays within the bands |
| Macro.StateInRange | main.py:630-636 | the clamp invariant holds at every month |
| Macro.StateCausal | main.py:630-636 | month i's state depends only on the first i months and shocks |
| Macro.CollectMacroEconomicData | main.py:604-645 | the monthly loop emits one record per month with the state after that month, and all within the bands |
| News.Fill | main.py:742-743 | filling a template keeps its text around the company and contains the company name |
| News.TemplateCount | main.py:789-898 | each template category holds two or three templates |
| News.Pick | main.py:728-733 | a uniform choice among n items is an index below n |
| News.MentionsCompany | main.py:742-751 | an article's title and description both mention its company |
| News.Article | main.py:745-756 | an article carries its trading date, its URL and its source tag |
| News.ArticleWellFormed | main.py:728-739 | every article uses an existing template, a listed company and source, and is published on its date between 06:00 and 21:59 |
| News.MainUrlInjective | main.py:754 | distinct running counters give distinct primary URLs |
| News.AdditionalUrlInjective | main.py:951 | distinct top-up indices give distinct top-up URLs |
| News.UrlKindsDiffer | main.py:754 | a primary URL never equals a top-up URL |
| News.DailyCount | main.py:724 | the daily count is at least 1 and at least the Poisson draw, and equals the draw when that is positive |
| News.PrimaryNews | main.py:722-759 | one article is drawn per daily slot, the k-th carrying URL number k, and every date is a trading day |
| News.PrimaryWellFormed | main.py:722-759 | every primary article is well formed |
| News.EveryDayCovered | main.py:722-759 | every trading day has at least one primary article |
| News.AtLeastOnePerDay | main.py:724 | the primary batch has at least as many articles as trading days |
| News.AdditionalNews | main.py:925-955 | the top-up batch has the requested count, each with its indexed URL and a trading date |
| News.TopUp | main.py:767-775 | after the top-up, the corpus has max(15000, #primary) rows and keeps the primary rows as its prefix |
| News.TopUpUrlsDistinct | main.py:754 | all URLs in the topped-up corpus are distinct |
| News.Sample | main.py:778-779 | the down-sample has one row per draw |
| News.SampleSubMultiset | main.py:778-779 | down-sampling picks a sub-multiset of the rows, with no row twice |
| News.NewsCorpus | main.py:694-787 | the intended corpus over a non-empty calendar has exactly 15000 articles |
| News.CorpusShape | main.py:694-787 | the corpus has exactly 15000 well-formed articles, all dated on trading days |
| News.DateMethod | main.py:943 | `.date()` yields the day of a Timestamp and fails on a numpy datetime64 |
| News.ChoiceOf | main.py:931 | choosing from the trading days yields one of them, as a datetime64 |
| News.AdditionalNewsAsWritten | main.py:925-955 | the top-up as written fails iff it is asked for at least one row |
| News.NewsCorpusAsWritten | main.py:694-787 | the corpus as written fails iff the daily batches hold fewer than 15000 articles, and otherwise equals the intended corpus |
| News.TotalDrawnUniform | main.py:722-726 | days that each draw n articles draw n times the number of days in all |
| News.FiveADayFailsAsWritten | main.py:722-779 | five articles on each of the 2518 days make the code as written fail, while the intended corpus has 15000 articles |
| News.GenerateDayNews | main.py:726-759 | the per-day loop builds exactly that day's articles |
| News.GeneratePrimaryNews | main.py:722-759 | the day loop builds exactly the primary batch |
| News.GenerateAdditionalNews | main.py:925-955 | the top-up loop builds exactly the additional batch |
| News.SampleRows | main.py:778-779 | the sampling loop picks exactly the specified rows |
| News.GenerateNews | main.py:694-787 | generation fails exactly when the calendar is empty (the division by its length), and otherwise yields the corpus |
| News.CollectNewsSentimentData | main.py:694-787 | over the study calendar, the result is the specified corpus |
| Sentiment.FinancialLexiconSize | main.py:990-1002 | the lexicon has 25 positive and 22 negative terms |
| Sentiment.Lower | main.py:1008 | lower-casing keeps the length and leaves no upper-case letter |
| Sentiment.LowerIdempotent | main.py:1008 | lower-casing twice is lower-casing once |
| Sentiment.CountHits | main.py:1020-1021 | the hit count is at most the word count, 0 iff no word occurs, and full iff every word occurs |
| Sentiment.KeywordSentiment | main.py:1024-1027 | the keyword score lies in [-1, 1], is 0 with no hits and ±1 when one-sided, and its sign is that of pos - neg in both directions |
| Sentiment.KeywordRatio | main.py:1024-1027 | with hits, the score equals (pos - neg) / (pos + neg) and lies in [-1, 1] |
| Sentiment.CombinedSentiment | main.py:1030-1033 | the combined score lies in [-1, 1], is the keyword score without TextBlob, and is fixed by agreeing inputs |
| Sentiment.Intensity | main.py:1036 | intensity lies in [0, 1], is 1 iff at least five hits, and is 0 iff no hits |
| Sentiment.Score | main.py:1006-1051 | a score row carries the id, date and source, has bounded scores, keyword totals within the lexicon size, the no-TextBlob defaults, and category "general" when absent |
| Sentiment.ScoreAll | main.py:1006-1051 | there is one score row per article |
| Sentiment.DistinctDates | main.py:1070 | the grouping keys strictly increase and are exactly the dates that occur |
| Sentiment.OnDate | main.py:1070 | each group holds only rows of its date, and is non-empty for an occurring date |
| Sentiment.MeanBetween | main.py:1071 | a group mean lies between the group minimum and maximum |
| Sentiment.DayStats | main.py:1070-1079 | a daily row carries its date and group size, with min <= mean <= max |
| Sentiment.DailySentimentSummary | main.py:1068-1096 | there is one summary row per distinct date |
| Sentiment.SummaryRows | main.py:1068-1094 | one row per distinct date, carrying that date's group statistics, its momentum as the 5-day trailing mean of daily means, and its regime as the bin of its mean |
| Sentiment.RegimeOf | main.py:1090-1094 | Bearish iff -1 < x <= -0.2, Neutral iff -0.2 < x <= 0.2, Bullish iff 0.2 < x <= 1, else unlabelled |
| Sentiment.MinusOneUnlabelled | main.py:1090-1094 | -1 gets no label, and the bin edges -0.2, 0.2 and 1 fall in the lower bins |
| Sentiment.MomentumPrefix | main.py:1086 | momentum is undefined exactly on the first four days |
| Sentiment.MomentumBounds | main.py:1086 | every defined momentum lies in [-1, 1] |
| Sentiment.DailyMeanBounds | main.py:1071-1079 | every daily combined mean lies in [-1, 1] |
| Sentiment.GroupSizesTotal | main.py:1070-1079 | the group sizes over the distinct dates add up to the number of rows |
| Sentiment.DailyCountsTotal | main.py:1068-1079 | the daily counts add up to the number of scored articles |
| Sentiment.AnalyzeNewsSentiment | main.py:978-1066 | the scoring loop yields exactly the specified rows, and the summary of them |
| ApiKeys.Rank | api_keys.py:35-43 | each provider has its position in the checking order |
| ApiKeys.ApiNameInjective | api_keys.py:35-43 | distinct providers have distinct names |
| ApiKeys.ValidationResults | api_keys.py:35-43 | there is one status per provider, named in checking order |
| ApiKeys.CountTruePositive | api_keys.py:45 | the configured count is positive iff some status is true |
| ApiKeys.ConfiguredCount | api_keys.py:45-46 | at most the five providers are configured |
| ApiKeys.ValidateKeys | api_keys.py:33-61 | validation passes iff at least one provider is configured (the three-provider branch adds nothing) |
| ApiKeys.GetAvailableApis | api_keys.py:64-81 | the appended list equals the names of the configured providers, in checking order |
| ApiKeys.AvailableSnoc | api_keys.py:68-79 | checking one more provider appends its name iff it is configured |
| ApiKeys.AvailableMembers | api_keys.py:68-79 | a provider is kept iff it is checked and configured |
| ApiKeys.AvailableExactly | api_keys.py:64-81 | a provider's name is listed iff it is configured (Reddit needs both id and secret) |
| ApiKeys.AvailableOrdered | api_keys.py:64-81 | the list keeps the checking order and has no duplicates |
| ApiKeys.AvailableCount | api_keys.py:45-81 | the list is as long as the configured count, which is at most the number of providers |
| ApiKeys.ValidateMatchesAvailable | api_keys.py:33-81 | validation passes iff the available list is non-empty |
| ApiKeys.OtherSettingsIrrelevant | api_keys.py:33-81 | the user agent, Twitter token, database and Redis URLs affect neither result |
| ApiKeys.PlaceholdersRejected | api_keys.py:36-42 | the empty key and every key starting with "your_" never count as configured, and a placeholder secret disables Reddit |

## Left out

- Rolling return volatility (main.py:480-482), Bollinger bands (main.py:494-495) and the sentiment volatility and std columns (main.py:1071, 1087) are not modelled. They need a square root and the sample standard deviation over reals.
- MACD (main.py:488-491) is not modelled. Its exponentially weighted means are floating-point recurrences outside what the model states.
- The `Log_Return` column (main.py:420) is not modelled, because it needs a logarithm.
- numpy's random generators and seeding are not modelled. Every draw is an input, so bit-for-bit determinism is not stated.
- pd.bdate_range is modelled as weekdays in [start, end]. The quarter-end and month-end ranges (main.py:522-526, 609-613) are inputs, apart from the label and date each record carries.
- `exp(-(index % 12) / 3)` (main.py:671) is passed in as a 12-entry table, because real exponentials are not available.
- Sampling without replacement (main.py:778-779) is modelled as sequential picks that each remove one row. numpy's permutation order is not modelled.
- Article titles and descriptions are derived from a stored template reference and the company, rather than stored.
- The per-article text and its TextBlob polarity and subjectivity are inputs. TextBlob itself is not part of this model.
- The download path is not modelled: yfinance and the other network collectors, the save and report code, logging, and `print` are all left out.
- The `.env` loading and `os.getenv` (api_keys.py:11-30) are replaced by a credentials record. The status prints (api_keys.py:48-53) are not modelled.
- Python's half-to-even float rounding is modelled as round-half-up on exact reals.
- `str.lower` is modelled on ASCII letters only.
- A zero denominator (RSI with neither gain nor loss, a zero volume mean, a zero reference close) is modelled as an undefined value (`None`), not as NaN or inf.
- Calendar.TradingCalendar: states that the calendar has min(#business days, 2518) dates. It does not state that this is exactly 2518, because counting the 2609 weekdays of 2015-2024 is not done by the verifier.
- News.EveryDayCovered: holds for the daily batches before down-sampling. The sample may drop all of a day's articles.
- News.AdditionalNews, News.TopUp, News.NewsCorpus, News.CorpusShape, News.GenerateAdditionalNews, News.GenerateNews and News.CollectNewsSentimentData: these model the intended top-up. The code as written fails on the top-up path, as described under Findings, and that behaviour is modelled separately by the as-written members.
- Prices.GenerateSingleStockData: the sort by date at main.py:471 is not modelled. Indicators are computed in calendar order, which is the same thing because Calendar.TradingCalendar states the dates strictly increase.
- Prices.DayRow: Low <= Close <= High is stated for a non-negative close only. Prices.StockRowsOrdered gives that for every row whose returns stay above -100%.
- The symbol list (330 tickers at main.py:54-105) is a parameter of the model, not a constant.

## Findings

| source | as written | input that shows it | evidently intended | confidence | as-written member | corrected member |
|---|---|---|---|---|---|---|
| main.py:931-943 | `np.random.choice(business_days)` returns a numpy datetime64, which has no `.date()`, so the first top-up row raises AttributeError | a Poisson draw of 5 on each of the 2518 trading days: the daily batches hold 12590 < 15000 articles, so the top-up runs | each top-up row is dated on the chosen trading day, and the corpus reaches 15000 articles | high that the top-up path raises; the daily rate is 15000/2518 (main.py:706), so the batches fall short for roughly half of all seeds, and whether the fixed seed 42 does is not determined; not executed | News.NewsCorpusAsWritten, News.FiveADayFailsAsWritten | News.NewsCorpus, News.CorpusShape |
