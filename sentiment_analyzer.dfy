/** `SentimentAnalyzer` of `sentimentAnalyzer.ts`: a score per source from a
    fixed table, clamped into [0, 100], and their rounded mean. */
module SentimentAnalyzer {
  import opened Results
  import opened Stats

  datatype SentimentSource = SentimentSource(source: string, score: real, details: seq<string>)

  const Sources: seq<string> := ["twitter", "reddit", "financial_news", "options_flow", "institutional_data"]

  const DefaultScore: real := 50.0

  /** `mockScores[source] || 50`: the table's score, 50 for any other source
      (no table score is 0, the other value `||` replaces). */
  function MockScore(source: string): (score: real)
    ensures source !in Sources ==> score == DefaultScore
    ensures 0.0 < score <= 100.0
  {
    if source == "twitter" then 65.0
    else if source == "reddit" then 58.0
    else if source == "financial_news" then 72.0
    else if source == "options_flow" then 60.0
    else if source == "institutional_data" then 55.0
    else DefaultScore
  }

  /** `fetchSourceSentiment`: the simulated reply for one source. */
  function FetchSourceSentiment(source: string, asset: string): (r: SentimentSource)
    ensures r.source == source && r.score == MockScore(source)
    ensures r.details == ["Sentiment analysis for " + asset + " from " + source]
  {
    SentimentSource(source, MockScore(source), ["Sentiment analysis for " + asset + " from " + source])
  }

  /** The table's five sources get their own scores. */
  lemma MockScoresTable()
    ensures MockScore("twitter") == 65.0
    ensures MockScore("reddit") == 58.0
    ensures MockScore("financial_news") == 72.0
    ensures MockScore("options_flow") == 60.0
    ensures MockScore("institutional_data") == 55.0
  {
  }

  /** `Math.min(Math.max(score, 0), 100)`. */
  function Clamp(x: real): (r: real)
    ensures 0.0 <= r <= 100.0
    ensures 0.0 <= x <= 100.0 ==> r == x
    ensures x < 0.0 ==> r == 0.0
    ensures 100.0 < x ==> r == 100.0
  {
    MinR(MaxR(x, 0.0), 100.0)
  }

  /** `aggregateSentiment`: every score clamped, all else kept. */
  function AggregateSentiment(s: seq<SentimentSource>): (r: seq<SentimentSource>)
    ensures |r| == |s|
    ensures forall i :: 0 <= i < |s| ==>
      r[i].source == s[i].source && r[i].details == s[i].details && r[i].score == Clamp(s[i].score)
  {
    seq(|s|, i requires 0 <= i < |s| => s[i].(score := Clamp(s[i].score)))
  }

  predicate InRange(s: seq<SentimentSource>)
  {
    forall i :: 0 <= i < |s| ==> 0.0 <= s[i].score <= 100.0
  }

  /** Clamping leaves in-range scores alone, so aggregating twice is
      aggregating once. */
  lemma AggregateIdempotent(s: seq<SentimentSource>)
    ensures InRange(AggregateSentiment(s))
    ensures InRange(s) ==> AggregateSentiment(s) == s
    ensures AggregateSentiment(AggregateSentiment(s)) == AggregateSentiment(s)
  {
  }

  /** The replies that did not throw, in source order. */
  function Kept(sources: seq<string>, fetch: string -> Result<SentimentSource>): (r: seq<SentimentSource>)
    ensures |r| <= |sources|
  {
    if |sources| == 0 then []
    else
      var rest := Kept(sources[1..], fetch);
      match fetch(sources[0])
      case Ok(reply) => [reply] + rest
      case Err(_) => rest
  }

  lemma {:induction false} KeptAppend(a: seq<string>, b: seq<string>, fetch: string -> Result<SentimentSource>)
    ensures Kept(a + b, fetch) == Kept(a, fetch) + Kept(b, fetch)
  {
    if |a| == 0 {
      assert a + b == b;
    } else {
      assert (a + b)[1..] == a[1..] + b;
      KeptAppend(a[1..], b, fetch);
    }
  }

  /** When no source fails, every reply is kept, in the order of the sources. */
  lemma {:induction false} KeptNoFailures(sources: seq<string>, fetch: string -> Result<SentimentSource>)
    requires forall i :: 0 <= i < |sources| ==> fetch(sources[i]).Ok?
    ensures |Kept(sources, fetch)| == |sources|
    ensures forall i :: 0 <= i < |sources| ==> Kept(sources, fetch)[i] == fetch(sources[i]).value
  {
    if |sources| > 0 {
      assert forall i :: 0 <= i < |sources| - 1 ==> sources[1..][i] == sources[i + 1];
      KeptNoFailures(sources[1..], fetch);
    }
  }

  /** `analyzeSentiment`: the loop over the sources, where a reply that throws
      is logged and skipped. `fetch` stands for `fetchSourceSentiment` on the
      asset, with its possible failure made explicit. */
  method AnalyzeSentiment(fetch: string -> Result<SentimentSource>) returns (r: seq<SentimentSource>)
    ensures r == AggregateSentiment(Kept(Sources, fetch))
  {
    var kept: seq<SentimentSource> := [];
    var i := 0;
    while i < |Sources|
      invariant i <= |Sources| && kept == Kept(Sources[..i], fetch)
    {
      var reply := fetch(Sources[i]);
      KeptAppend(Sources[..i], [Sources[i]], fetch);
      assert Sources[..i + 1] == Sources[..i] + [Sources[i]];
      if reply.Ok? {
        kept := kept + [reply.value];
      }
      i := i + 1;
    }
    assert Sources[..|Sources|] == Sources;
    r := AggregateSentiment(kept);
  }

  /** The simulated fetch, which never throws. */
  function MockFetch(asset: string): string -> Result<SentimentSource>
  {
    source => Ok(FetchSourceSentiment(source, asset))
  }

  /** With the simulated fetch every source answers: five replies, in the
      fixed order, each with its table score. */
  lemma AnalyzeWithMockFetch(asset: string)
    ensures var r := AggregateSentiment(Kept(Sources, MockFetch(asset)));
      |r| == 5
      && (forall i :: 0 <= i < 5 ==> r[i] == FetchSourceSentiment(Sources[i], asset))
      && r[0].score == 65.0 && r[1].score == 58.0 && r[2].score == 72.0
      && r[3].score == 60.0 && r[4].score == 55.0
  {
    var f := MockFetch(asset);
    assert forall i :: 0 <= i < |Sources| ==> f(Sources[i]) == Ok(FetchSourceSentiment(Sources[i], asset));
    KeptNoFailures(Sources, f);
    MockScoresTable();
  }

  /** `Math.round`: the nearest integer, halves rounded up. */
  function Round(x: real): (n: int)
    ensures x - 0.5 < n as real <= x + 0.5
  {
    (x + 0.5).Floor
  }

  function Scores(s: seq<SentimentSource>): (r: seq<real>)
    ensures |r| == |s| && forall i :: 0 <= i < |s| ==> r[i] == s[i].score
  {
    seq(|s|, i requires 0 <= i < |s| => s[i].score)
  }

  /** `calculateOverallSentiment`: the mean score, rounded; an empty list
      gives 0 / 0. */
  function CalculateOverallSentiment(s: seq<SentimentSource>): (r: Result<int>)
    ensures r.Ok? <==> |s| > 0
    ensures r.Ok? ==> Mean(Scores(s)) - 0.5 < r.value as real <= Mean(Scores(s)) + 0.5
    ensures r.Ok? && InRange(s) ==> 0 <= r.value <= 100
  {
    if |s| == 0 then Err(DivisionByZero)
    else
      MeanOfInRange(s);
      Ok(Round(Mean(Scores(s))))
  }

  lemma MeanOfInRange(s: seq<SentimentSource>)
    requires |s| > 0
    ensures InRange(s) ==> 0.0 <= Mean(Scores(s)) <= 100.0
  {
    if InRange(s) {
      MeanBetween(Scores(s), 0.0, 100.0);
    }
  }
}
