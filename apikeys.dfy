/**
 * The API key validator: which of the five data APIs have a usable key,
 * whether the configuration passes, and the list of available APIs.
 * The key strings, read from the environment by the original, are a
 * record passed in.
 */
module ApiKeys {

  /** The settings read from the environment; missing variables arrive as their defaults. */
  datatype Credentials = Credentials(
    alphaVantageKey: string, fredKey: string, newsApiKey: string, gnewsKey: string,
    redditClientId: string, redditClientSecret: string, redditUserAgent: string,
    twitterBearerToken: string, databaseUrl: string, redisUrl: string)

  /** The prefix of the sample values shipped in the environment template. */
  const Placeholder: string := "your_"

  predicate StartsWith(s: string, p: string)
  {
    |p| <= |s| && s[..|p|] == p
  }

  /** A key is usable when it is non-empty and not a placeholder. */
  predicate IsConfigured(key: string)
  {
    |key| > 0 && !StartsWith(key, Placeholder)
  }

  datatype Api = AlphaVantage | Fred | NewsApi | GNews | Reddit

  /** The keys of the validation dictionary, in its insertion order. */
  const Apis: seq<Api> := [AlphaVantage, Fred, NewsApi, GNews, Reddit]

  const TotalApis: nat := 5

  function ApiName(a: Api): string
  {
    match a
    case AlphaVantage => "alpha_vantage"
    case Fred => "fred"
    case NewsApi => "newsapi"
    case GNews => "gnews"
    case Reddit => "reddit"
  }

  /** The position of an API in the fixed order. */
  function Rank(a: Api): (k: nat)
    ensures k < |Apis| && Apis[k] == a
  {
    match a
    case AlphaVantage => 0
    case Fred => 1
    case NewsApi => 2
    case GNews => 3
    case Reddit => 4
  }

  /** Distinct APIs have distinct names (the five names even differ in length). */
  lemma ApiNameInjective(a: Api, b: Api)
    requires ApiName(a) == ApiName(b)
    ensures a == b
  {
  }

  /** Whether one API is usable; Reddit needs both its client id and its secret. */
  predicate Configured(c: Credentials, a: Api)
  {
    match a
    case AlphaVantage => IsConfigured(c.alphaVantageKey)
    case Fred => IsConfigured(c.fredKey)
    case NewsApi => IsConfigured(c.newsApiKey)
    case GNews => IsConfigured(c.gnewsKey)
    case Reddit => IsConfigured(c.redditClientId) && IsConfigured(c.redditClientSecret)
  }

  /** validate_keys' dictionary: one (name, status) entry per API, in key order. */
  function ValidationResults(c: Credentials): (r: seq<(string, bool)>)
    ensures |r| == TotalApis
    ensures forall k :: 0 <= k < |r| ==> r[k].0 == ApiName(Apis[k])
  {
    seq(|Apis|, k requires 0 <= k < |Apis| => (ApiName(Apis[k]), Configured(c, Apis[k])))
  }

  function Statuses(entries: seq<(string, bool)>): (s: seq<bool>)
    ensures |s| == |entries|
  {
    seq(|entries|, k requires 0 <= k < |entries| => entries[k].1)
  }

  /** `sum` over booleans: the number of true entries. */
  function CountTrue(s: seq<bool>): (n: nat)
    ensures n <= |s|
  {
    if |s| == 0 then 0
    else CountTrue(s[..|s| - 1]) + (if s[|s| - 1] then 1 else 0)
  }

  lemma {:induction false} CountTruePositive(s: seq<bool>)
    ensures CountTrue(s) > 0 <==> exists k :: 0 <= k < |s| && s[k]
  {
    if |s| > 0 {
      var n := |s| - 1;
      CountTruePositive(s[..n]);
      if exists k :: 0 <= k < n && s[..n][k] {
        var k :| 0 <= k < n && s[..n][k];
        assert s[k];
      }
      if exists k :: 0 <= k < |s| && s[k] {
        var k :| 0 <= k < |s| && s[k];
        if k < n {
          assert s[..n][k];
        }
      }
    }
  }

  /** configured_count: the number of usable APIs. */
  function ConfiguredCount(c: Credentials): (n: nat)
    ensures n <= TotalApis
  {
    CountTrue(Statuses(ValidationResults(c)))
  }

  /**
   * validate_keys: at least three usable APIs pass outright, fewer pass
   * when there is at least one; together, the result is true exactly when
   * some API is usable.
   */
  function ValidateKeys(c: Credentials): (ok: bool)
    ensures ok <==> exists k :: 0 <= k < |Apis| && Configured(c, Apis[k])
  {
    var results := ValidationResults(c);
    var configuredCount := ConfiguredCount(c);
    CountTruePositive(Statuses(results));
    assert forall k :: 0 <= k < |Apis| ==> Statuses(results)[k] == Configured(c, Apis[k]);
    if configuredCount >= 3 then true else configuredCount > 0
  }

  /** The usable APIs among `apis`, in their order. */
  function Available(c: Credentials, apis: seq<Api>): (r: seq<Api>)
    ensures |r| <= |apis|
  {
    if |apis| == 0 then []
    else
      var n := |apis| - 1;
      var before := Available(c, apis[..n]);
      if Configured(c, apis[n]) then before + [apis[n]] else before
  }

  function Names(apis: seq<Api>): (names: seq<string>)
    ensures |names| == |apis|
  {
    seq(|apis|, k requires 0 <= k < |apis| => ApiName(apis[k]))
  }

  /** get_available_apis' result as a value: the names of the usable APIs in the fixed order. */
  function AvailableNames(c: Credentials): seq<string>
  {
    Names(Available(c, Apis))
  }

  /** get_available_apis: append each usable API's name under a chain of tests. */
  method GetAvailableApis(c: Credentials) returns (available: seq<string>)
    ensures available == AvailableNames(c)
  {
    available := [];
    ghost var tested: seq<Api> := [];
    if IsConfigured(c.alphaVantageKey) {
      available := available + ["alpha_vantage"];
    }
    AvailableSnoc(c, tested, AlphaVantage);
    tested := tested + [AlphaVantage];
    assert available == Names(Available(c, tested));
    if IsConfigured(c.fredKey) {
      available := available + ["fred"];
    }
    AvailableSnoc(c, tested, Fred);
    tested := tested + [Fred];
    assert available == Names(Available(c, tested));
    if IsConfigured(c.newsApiKey) {
      available := available + ["newsapi"];
    }
    AvailableSnoc(c, tested, NewsApi);
    tested := tested + [NewsApi];
    assert available == Names(Available(c, tested));
    if IsConfigured(c.gnewsKey) {
      available := available + ["gnews"];
    }
    AvailableSnoc(c, tested, GNews);
    tested := tested + [GNews];
    assert available == Names(Available(c, tested));
    if IsConfigured(c.redditClientId) && IsConfigured(c.redditClientSecret) {
      available := available + ["reddit"];
    }
    AvailableSnoc(c, tested, Reddit);
    tested := tested + [Reddit];
    assert available == Names(Available(c, tested));
    assert tested == Apis;
  }

  /** Testing one more API appends its name when it is usable. */
  lemma AvailableSnoc(c: Credentials, apis: seq<Api>, a: Api)
    ensures Names(Available(c, apis + [a]))
      == Names(Available(c, apis)) + (if Configured(c, a) then [ApiName(a)] else [])
  {
    assert (apis + [a])[..|apis|] == apis;
  }

  // ------------------------------------------------------------ properties

  /** An API is kept exactly when it is among those tested and usable. */
  lemma {:induction false} AvailableMembers(c: Credentials, apis: seq<Api>, a: Api)
    ensures a in Available(c, apis) <==> a in apis && Configured(c, a)
  {
    if |apis| > 0 {
      var n := |apis| - 1;
      AvailableMembers(c, apis[..n], a);
      assert apis == apis[..n] + [apis[n]];
    }
  }

  /** A name is listed exactly when its API is usable. */
  lemma AvailableExactly(c: Credentials, a: Api)
    ensures ApiName(a) in AvailableNames(c) <==> Configured(c, a)
  {
    var r := Available(c, Apis);
    assert a in Apis by {
      assert Apis[Rank(a)] == a;
    }
    if ApiName(a) in AvailableNames(c) {
      var k :| 0 <= k < |r| && AvailableNames(c)[k] == ApiName(a);
      ApiNameInjective(r[k], a);
    }
    AvailableMembers(c, Apis, a);
    if Configured(c, a) {
      assert a in r;
      var k :| 0 <= k < |r| && r[k] == a;
      assert AvailableNames(c)[k] == ApiName(a);
    }
  }

  /** The APIs appear in the fixed order, each at most once. */
  predicate InOrder(s: seq<Api>)
  {
    forall i, j :: 0 <= i < j < |s| ==> Rank(s[i]) < Rank(s[j])
  }

  /** Filtering keeps the order of the ranks. */
  lemma {:induction false} AvailableKeepsOrder(c: Credentials, apis: seq<Api>)
    requires InOrder(apis)
    ensures InOrder(Available(c, apis))
  {
    if |apis| > 0 {
      var n := |apis| - 1;
      var before := Available(c, apis[..n]);
      assert forall i :: 0 <= i < n ==> apis[..n][i] == apis[i];
      AvailableKeepsOrder(c, apis[..n]);
      var r := Available(c, apis);
      if Configured(c, apis[n]) {
        assert r == before + [apis[n]];
        forall i, j | 0 <= i < j < |r|
          ensures Rank(r[i]) < Rank(r[j])
        {
          assert r[i] == before[i];
          if j < |before| {
            assert r[j] == before[j];
            assert Rank(before[i]) < Rank(before[j]);
          } else {
            AvailableMembers(c, apis[..n], before[i]);
            assert before[i] in apis[..n];
            var m :| 0 <= m < n && apis[..n][m] == before[i];
            assert Rank(apis[m]) < Rank(apis[n]);
          }
        }
      }
    }
  }

  /** The list follows the fixed order alpha_vantage, fred, newsapi, gnews, reddit, so no name repeats. */
  lemma AvailableOrdered(c: Credentials)
    ensures InOrder(Available(c, Apis))
    ensures var names := AvailableNames(c);
      forall i, j :: 0 <= i < j < |names| ==> names[i] != names[j]
  {
    var r := Available(c, Apis);
    AvailableKeepsOrder(c, Apis);
    forall i, j | 0 <= i < j < |r|
      ensures AvailableNames(c)[i] != AvailableNames(c)[j]
    {
      assert Rank(r[i]) < Rank(r[j]);
      assert AvailableNames(c)[i] == ApiName(r[i]) && AvailableNames(c)[j] == ApiName(r[j]);
      if ApiName(r[i]) == ApiName(r[j]) {
        ApiNameInjective(r[i], r[j]);
      }
    }
  }

  /** The number of usable APIs counted over a list of them. */
  function CountConfigured(c: Credentials, apis: seq<Api>): nat
  {
    CountTrue(seq(|apis|, k requires 0 <= k < |apis| => Configured(c, apis[k])))
  }

  lemma {:induction false} AvailableCountsConfigured(c: Credentials, apis: seq<Api>)
    ensures |Available(c, apis)| == CountConfigured(c, apis)
  {
    if |apis| > 0 {
      var n := |apis| - 1;
      AvailableCountsConfigured(c, apis[..n]);
      var s := seq(|apis|, k requires 0 <= k < |apis| => Configured(c, apis[k]));
      assert s[..n] == seq(n, k requires 0 <= k < n => Configured(c, apis[..n][k]));
    }
  }

  /** The list is as long as configured_count, which is at most total_apis = 5. */
  lemma AvailableCount(c: Credentials)
    ensures |AvailableNames(c)| == ConfiguredCount(c) <= TotalApis == |ValidationResults(c)|
  {
    AvailableCountsConfigured(c, Apis);
    assert Statuses(ValidationResults(c)) == seq(|Apis|, k requires 0 <= k < |Apis| => Configured(c, Apis[k]));
  }

  /** The configuration passes exactly when the list of available APIs is non-empty. */
  lemma ValidateMatchesAvailable(c: Credentials)
    ensures ValidateKeys(c) <==> |AvailableNames(c)| > 0
  {
    AvailableCount(c);
    CountTruePositive(Statuses(ValidationResults(c)));
  }

  /** The Twitter token, the Reddit user agent and the database and Redis URLs play no part. */
  lemma OtherSettingsIrrelevant(c: Credentials, userAgent: string, twitter: string, database: string, redis: string)
    ensures var d := c.(redditUserAgent := userAgent, twitterBearerToken := twitter, databaseUrl := database, redisUrl := redis);
      ValidateKeys(d) == ValidateKeys(c) && AvailableNames(d) == AvailableNames(c)
  {
    var d := c.(redditUserAgent := userAgent, twitterBearerToken := twitter, databaseUrl := database, redisUrl := redis);
    assert forall a :: Configured(d, a) == Configured(c, a);
    assert ValidationResults(d) == ValidationResults(c);
    SameStatusSameList(c, d, Apis);
  }

  lemma {:induction false} SameStatusSameList(c: Credentials, d: Credentials, apis: seq<Api>)
    requires forall a :: Configured(d, a) == Configured(c, a)
    ensures Available(d, apis) == Available(c, apis)
  {
    if |apis| > 0 {
      SameStatusSameList(c, d, apis[..|apis| - 1]);
    }
  }

  /**
   * Empty values and every value that begins with the placeholder prefix do
   * not count, whatever follows the prefix; Reddit needs both of its values.
   */
  lemma PlaceholdersRejected(c: Credentials, suffix: string)
    requires c.alphaVantageKey == Placeholder + suffix && c.fredKey == ""
    requires c.redditClientSecret == Placeholder + suffix
    ensures !Configured(c, AlphaVantage) && !Configured(c, Fred) && !Configured(c, Reddit)
    ensures !IsConfigured(Placeholder + suffix) && !IsConfigured("")
  {
    assert (Placeholder + suffix)[..|Placeholder|] == Placeholder;
  }
}
