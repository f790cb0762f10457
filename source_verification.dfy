/**
 * The source-verification helpers (src/services/SourceVerificationService.ts):
 * the configuration defaults, the word-overlap relevance score, the mock
 * search and the map from claims to their search results.
 */
module SourceVerification {
  import opened Wrappers
  import opened Text

  // ---------------------------------------------------------------------------
  // Configuration
  // ---------------------------------------------------------------------------

  datatype SearchEngine = Google | Bing | Serper

  /** A configuration; a missing field is `None`. */
  datatype SourceVerificationConfig = SourceVerificationConfig(
    searchApiKey: Option<string>,
    searchEngine: Option<SearchEngine>,
    maxResults: Option<int>,
    credibilityThreshold: Option<int>)

  const DefaultEngine: SearchEngine := Serper
  const DefaultMaxResults: int := 5
  const DefaultCredibilityThreshold: int := 70

  /** A field given in the configuration, or else its default. */
  function Override<T>(default: T, given: Option<T>): (value: T) {
    if given.Some? then given.value else default
  }

  /** The constructor's `{ defaults, ...config }`. */
  function MergeConfig(config: SourceVerificationConfig): (merged: SourceVerificationConfig)
    ensures merged.searchEngine.Some? && merged.maxResults.Some? && merged.credibilityThreshold.Some?
  {
    SourceVerificationConfig(
      config.searchApiKey,
      Some(Override(DefaultEngine, config.searchEngine)),
      Some(Override(DefaultMaxResults, config.maxResults)),
      Some(Override(DefaultCredibilityThreshold, config.credibilityThreshold)))
  }

  /** Each given field wins over its default, and each missing one takes it. */
  lemma MergeConfigFields(config: SourceVerificationConfig)
    ensures var m := MergeConfig(config);
      && m.searchApiKey == config.searchApiKey
      && (config.searchEngine.Some? ==> m.searchEngine == config.searchEngine)
      && (config.searchEngine.None? ==> m.searchEngine == Some(Serper))
      && (config.maxResults.Some? ==> m.maxResults == config.maxResults)
      && (config.maxResults.None? ==> m.maxResults == Some(5))
      && (config.credibilityThreshold.Some? ==> m.credibilityThreshold == config.credibilityThreshold)
      && (config.credibilityThreshold.None? ==> m.credibilityThreshold == Some(70))
  {
  }

  /** Merging a merged configuration again changes nothing. */
  lemma MergeConfigIdempotent(config: SourceVerificationConfig)
    ensures MergeConfig(MergeConfig(config)) == MergeConfig(config)
  {
  }

  // ---------------------------------------------------------------------------
  // Relevance score
  // ---------------------------------------------------------------------------

  /** How many of the query words, counted with repetition, are among the snippet words. */
  function CountMatches(queryWords: seq<string>, snippetWords: seq<string>): (m: nat)
    ensures m <= |queryWords|
  {
    if queryWords == [] then 0
    else
      var last := queryWords[|queryWords| - 1];
      CountMatches(queryWords[..|queryWords| - 1], snippetWords) + (if last in snippetWords then 1 else 0)
  }

  /** `Math.round(m / n * 100)` in exact arithmetic: 100m/n rounded half up. */
  function RoundedPercent(m: nat, n: nat): (percent: nat)
    requires n > 0
  {
    (200 * m + n) / (2 * n)
  }

  function Min(a: int, b: int): (least: int) {
    if a <= b then a else b
  }

  /** The words of a text: lower-cased, split at each space. */
  function Words(s: string): (words: seq<string>)
    ensures |words| >= 1
  {
    Split(ToLower(s), ' ')
  }

  /** The score `calculateRelevanceScore` computes. */
  function RelevanceScore(query: string, snippet: string): (score: int)
    ensures 0 <= score <= 100
  {
    Min(100, RoundedPercent(CountMatches(Words(query), Words(snippet)), |Words(query)|))
  }

  /** `calculateRelevanceScore`: one pass over the query words, counting the matches. */
  method CalculateRelevanceScore(query: string, snippet: string) returns (score: int)
    ensures score == RelevanceScore(query, snippet)
    ensures 0 <= score <= 100
  {
    var queryWords := Split(ToLower(query), ' ');
    var snippetWords := Split(ToLower(snippet), ' ');
    assert queryWords == Words(query) && snippetWords == Words(snippet);
    var matchCount := 0;
    for i := 0 to |queryWords|
      invariant matchCount == CountMatches(queryWords[..i], snippetWords)
    {
      assert queryWords[..i + 1][..i] == queryWords[..i];
      if queryWords[i] in snippetWords {
        matchCount := matchCount + 1;
      }
    }
    assert queryWords[..|queryWords|] == queryWords;
    score := Min(100, RoundedPercent(matchCount, |queryWords|));
    RelevanceScoreBounds(query, snippet);
  }

  /** Multiplying by a natural number keeps the order. */
  lemma {:induction false} MulMonotone(a: nat, b: nat, c: nat)
    requires b <= c
    ensures a * b <= a * c
    decreases c - b
  {
    if b < c {
      MulMonotone(a, b, c - 1);
      assert a * c == a * (c - 1) + a;
    }
  }

  /** A smaller factor gives a product smaller by at least the other factor. */
  lemma MulStrict(a: nat, b: nat, c: nat)
    ensures b < c ==> a * b + a <= a * c
  {
    if b < c {
      MulMonotone(a, b + 1, c);
      assert a * (b + 1) == a * b + a;
    }
  }

  /** Dividing into whole parts: the quotient is fixed by the bounds around it. */
  lemma DivisionBounds(x: nat, d: nat, q: nat)
    requires d > 0 && d * q <= x < d * q + d
    ensures x / d == q
  {
    var r := x / d;
    assert x == d * r + x % d;
    MulStrict(d, r, q);
    MulStrict(d, q, r);
  }

  /** The rounded percentage lies within one half of the exact one. */
  lemma RoundedPercentSpec(m: nat, n: nat)
    requires n > 0
    ensures var r := RoundedPercent(m, n);
      2 * n * r <= 200 * m + n < 2 * n * r + 2 * n
  {
    var x := 200 * m + n;
    var d := 2 * n;
    assert x == d * (x / d) + x % d;
  }

  /** With no more matches than words, the percentage is at most 100, so the cap never applies. */
  lemma RoundedPercentAtMost100(m: nat, n: nat)
    requires 0 < n && m <= n
    ensures RoundedPercent(m, n) <= 100
  {
    var x := 200 * m + n;
    var d := 2 * n;
    var r := x / d;
    assert x == d * r + x % d;
    assert x < d * 101;
    if r > 100 {
      MulMonotone(d, 101, r);
    }
  }

  /** The score is always a percentage, and the `Math.min` never cuts it. */
  lemma RelevanceScoreBounds(query: string, snippet: string)
    ensures 0 <= RelevanceScore(query, snippet) <= 100
    ensures RelevanceScore(query, snippet) == RoundedPercent(CountMatches(Words(query), Words(snippet)), |Words(query)|)
  {
    RoundedPercentAtMost100(CountMatches(Words(query), Words(snippet)), |Words(query)|);
  }

  /** Every query word is matched exactly when the count reaches the number of words. */
  lemma {:induction false} CountMatchesAll(queryWords: seq<string>, snippetWords: seq<string>)
    ensures CountMatches(queryWords, snippetWords) == |queryWords|
      <==> forall i :: 0 <= i < |queryWords| ==> queryWords[i] in snippetWords
  {
    if queryWords != [] {
      var front := queryWords[..|queryWords| - 1];
      CountMatchesAll(front, snippetWords);
      assert forall i :: 0 <= i < |front| ==> front[i] == queryWords[i];
    }
  }

  /** No query word is matched exactly when the count is zero. */
  lemma {:induction false} CountMatchesNone(queryWords: seq<string>, snippetWords: seq<string>)
    ensures CountMatches(queryWords, snippetWords) == 0
      <==> forall i :: 0 <= i < |queryWords| ==> queryWords[i] !in snippetWords
  {
    if queryWords != [] {
      var front := queryWords[..|queryWords| - 1];
      CountMatchesNone(front, snippetWords);
      assert forall i :: 0 <= i < |front| ==> front[i] == queryWords[i];
    }
  }

  /** Repeated query words count once per repetition: the count adds up over pieces. */
  lemma {:induction false} CountMatchesAppend(a: seq<string>, b: seq<string>, snippetWords: seq<string>)
    ensures CountMatches(a + b, snippetWords) == CountMatches(a, snippetWords) + CountMatches(b, snippetWords)
    decreases |b|
  {
    if b == [] {
      assert a + b == a;
    } else {
      var front := b[..|b| - 1];
      assert (a + b)[..|a + b| - 1] == a + front;
      CountMatchesAppend(a, front, snippetWords);
    }
  }

  /** When every query word occurs in the snippet, the score is 100. */
  lemma RelevanceAllMatch(query: string, snippet: string)
    requires forall i :: 0 <= i < |Words(query)| ==> Words(query)[i] in Words(snippet)
    ensures RelevanceScore(query, snippet) == 100
  {
    var n := |Words(query)|;
    CountMatchesAll(Words(query), Words(snippet));
    DivisionBounds(200 * n + n, 2 * n, 100);
  }

  /** When no query word occurs in the snippet, the score is 0. */
  lemma RelevanceNoMatch(query: string, snippet: string)
    requires forall i :: 0 <= i < |Words(query)| ==> Words(query)[i] !in Words(snippet)
    ensures RelevanceScore(query, snippet) == 0
  {
    var n := |Words(query)|;
    CountMatchesNone(Words(query), Words(snippet));
    DivisionBounds(n, 2 * n, 0);
  }

  // ---------------------------------------------------------------------------
  // Mock search
  // ---------------------------------------------------------------------------

  datatype SearchResult = SearchResult(title: string, url: string, snippet: string, relevanceScore: int)

  /** The three groups of canned results. */
  datatype Topic = Climate | Covid | General

  /** The group a query falls in: climate first, then covid, then the general one. */
  function MockTopic(query: string): (topic: Topic)
    ensures topic == Climate ==> Contains(ToLower(query), "climate") || Contains(ToLower(query), "global warming")
    ensures topic == Covid ==> Contains(ToLower(query), "covid") || Contains(ToLower(query), "pandemic")
  {
    var q := ToLower(query);
    if Contains(q, "climate") || Contains(q, "global warming") then Climate
    else if Contains(q, "covid") || Contains(q, "pandemic") then Covid
    else General
  }

  const ClimateResults: seq<SearchResult> := [
    SearchResult(
      "NASA Climate Change and Global Warming",
      "https://climate.nasa.gov/",
      "Vital signs of the planet: Global climate change and global warming. Current news and data streams about global warming and climate change from NASA.",
      95),
    SearchResult(
      "IPCC - Intergovernmental Panel on Climate Change",
      "https://www.ipcc.ch/",
      "The IPCC is the UN body for assessing the science related to climate change.",
      90)]

  const CovidResults: seq<SearchResult> := [
    SearchResult(
      "WHO Coronavirus (COVID-19) Dashboard",
      "https://covid19.who.int/",
      "WHO Coronavirus (COVID-19) Dashboard with latest data and statistics.",
      92),
    SearchResult(
      "CDC COVID-19 Data Tracker",
      "https://covid.cdc.gov/covid-data-tracker",
      "CDC COVID Data Tracker: Maps, charts, and data provided by CDC.",
      88)]

  /** The general results, which name the query; `encode` stands for `encodeURIComponent`. */
  function GeneralResults(query: string, encode: string -> string): (results: seq<SearchResult>) {
    [
      SearchResult(
        "Wikipedia",
        "https://en.wikipedia.org/wiki/" + encode(query),
        "Information about " + query + " from Wikipedia.",
        75),
      SearchResult(
        "Encyclopedia Britannica",
        "https://www.britannica.com/search?query=" + encode(query),
        "Search results for " + query + " from Encyclopedia Britannica.",
        70)]
  }

  /** The canned results of the query's group, most relevant first. */
  function MockResults(query: string, encode: string -> string): (results: seq<SearchResult>)
    ensures |results| == 2
    ensures results[0].relevanceScore > results[1].relevanceScore
  {
    match MockTopic(query)
    case Climate => ClimateResults
    case Covid => CovidResults
    case General => GeneralResults(query, encode)
  }

  /** `maxResults || 5`: a missing or zero limit is 5. */
  function ResultLimit(maxResults: Option<int>): (limit: int) {
    if maxResults.None? || maxResults.value == 0 then 5 else maxResults.value
  }

  /** Where `slice(0, end)` stops on a list of `length` items; a negative end counts from the back. */
  function SliceEnd(length: nat, end: int): (k: nat)
    ensures k <= length
  {
    if end < 0 then (if length + end < 0 then 0 else length + end)
    else if end < length then end
    else length
  }

  /** `mockSearch` without its delay. */
  function MockSearch(config: SourceVerificationConfig, query: string, encode: string -> string): (results: seq<SearchResult>)
    ensures |results| <= 2 && results == MockResults(query, encode)[..|results|]
  {
    var all := MockResults(query, encode);
    all[..SliceEnd(|all|, ResultLimit(config.maxResults))]
  }

  /** The search keeps the first min(2, limit) canned results, or drops from the back for a negative limit. */
  lemma MockSearchShape(config: SourceVerificationConfig, query: string, encode: string -> string)
    ensures var r := MockSearch(config, query, encode);
      var limit := ResultLimit(config.maxResults);
      && r <= MockResults(query, encode)
      && (limit >= 0 ==> |r| == Min(2, limit))
      && (limit < 0 ==> |r| == if limit < -2 then 0 else 2 + limit)
  {
  }

  /** A limit of zero behaves as no limit at all, and both give both results. */
  lemma MockSearchZeroLimit(config: SourceVerificationConfig, query: string, encode: string -> string)
    requires config.maxResults == Some(0) || config.maxResults == None
    ensures MockSearch(config, query, encode) == MockResults(query, encode)
  {
  }

  /** Within a search, the relevance never increases from one result to the next. */
  lemma MockSearchOrdered(config: SourceVerificationConfig, query: string, encode: string -> string)
    ensures var r := MockSearch(config, query, encode);
      forall i, j :: 0 <= i < j < |r| ==> r[i].relevanceScore >= r[j].relevanceScore
  {
  }

  /** A query about the climate gets the climate results even when it also mentions covid. */
  lemma ClimateFirst(query: string)
    requires Contains(ToLower(query), "climate") || Contains(ToLower(query), "global warming")
    ensures MockTopic(query) == Climate
  {
  }

  /** The covid results need a covid word and no climate word. */
  lemma CovidTopic(query: string)
    ensures MockTopic(query) == Covid <==>
      && !Contains(ToLower(query), "climate") && !Contains(ToLower(query), "global warming")
      && (Contains(ToLower(query), "covid") || Contains(ToLower(query), "pandemic"))
  {
  }

  // ---------------------------------------------------------------------------
  // Claims to results
  // ---------------------------------------------------------------------------

  /** The results a search produced, or none when it threw. */
  function Found(outcome: Option<seq<SearchResult>>): (results: seq<SearchResult>) {
    outcome.GetOr([])
  }

  /** The map `searchAndVerifyClaims` builds; `outcomes[i]` is how the search for `claims[i]` ended. */
  function ClaimsMap(claims: seq<string>, outcomes: seq<Option<seq<SearchResult>>>): (results: map<string, seq<SearchResult>>)
    requires |outcomes| == |claims|
    ensures forall c :: c in results ==> c in claims
  {
    if claims == [] then map[]
    else
      var n := |claims| - 1;
      ClaimsMap(claims[..n], outcomes[..n])[claims[n] := Found(outcomes[n])]
  }

  /** `searchAndVerifyClaims`: the searches run in order, each setting its claim's entry. */
  method SearchAndVerifyClaims(claims: seq<string>, outcomes: seq<Option<seq<SearchResult>>>)
    returns (results: map<string, seq<SearchResult>>)
    requires |outcomes| == |claims|
    ensures results == ClaimsMap(claims, outcomes)
  {
    results := map[];
    for i := 0 to |claims|
      invariant results == ClaimsMap(claims[..i], outcomes[..i])
    {
      assert claims[..i + 1][..i] == claims[..i];
      assert outcomes[..i + 1][..i] == outcomes[..i];
      var searchResults: seq<SearchResult>;
      if outcomes[i].Some? {
        searchResults := outcomes[i].value;
      } else {
        searchResults := [];
      }
      results := results[claims[i] := searchResults];
    }
    assert claims[..|claims|] == claims;
    assert outcomes[..|outcomes|] == outcomes;
  }

  /** There is one entry per distinct claim. */
  lemma {:induction false} ClaimsMapKeys(claims: seq<string>, outcomes: seq<Option<seq<SearchResult>>>)
    requires |outcomes| == |claims|
    ensures ClaimsMap(claims, outcomes).Keys == set c | c in claims
  {
    if claims != [] {
      var n := |claims| - 1;
      ClaimsMapKeys(claims[..n], outcomes[..n]);
      assert claims == claims[..n] + [claims[n]];
    }
  }

  /** The entry of a claim is what its last search produced, or none if that search threw. */
  lemma {:induction false} ClaimsMapLastWins(claims: seq<string>, outcomes: seq<Option<seq<SearchResult>>>, i: nat)
    requires |outcomes| == |claims|
    requires i < |claims| && claims[i] !in claims[i + 1..]
    ensures claims[i] in ClaimsMap(claims, outcomes)
    ensures ClaimsMap(claims, outcomes)[claims[i]] == Found(outcomes[i])
  {
    var n := |claims| - 1;
    if i < n {
      assert claims[n] in claims[i + 1..];
      assert claims[..n][i + 1..] == claims[i + 1..n];
      ClaimsMapLastWins(claims[..n], outcomes[..n], i);
    }
  }

  /**
   * A search that never throws, as the mock search, maps every claim to its
   * own results, whatever the repetitions.
   */
  lemma {:induction false} ClaimsMapTotalSearch(claims: seq<string>, search: string -> seq<SearchResult>,
                                                outcomes: seq<Option<seq<SearchResult>>>)
    requires |outcomes| == |claims|
    requires forall i :: 0 <= i < |claims| ==> outcomes[i] == Some(search(claims[i]))
    ensures forall c :: c in claims ==>
      c in ClaimsMap(claims, outcomes) && ClaimsMap(claims, outcomes)[c] == search(c)
  {
    if claims != [] {
      var n := |claims| - 1;
      ClaimsMapTotalSearch(claims[..n], search, outcomes[..n]);
      forall c | c in claims
        ensures c in ClaimsMap(claims, outcomes) && ClaimsMap(claims, outcomes)[c] == search(c)
      {
        if c != claims[n] {
          var k :| 0 <= k < |claims| && claims[k] == c;
          assert k < n && claims[..n][k] == c;
        }
      }
    }
  }
}
