/** The weighted sentiment of `sentiment-analysis.ts`: a composite of the
    social-media, news and forum scores, its price impact, and the emotional
    trend read off the social-media score. The async fetchers that supply
    the scores are not part of this model: the scores are inputs. */
module SentimentAnalysis {
  import opened Stats

  datatype SourceScores = SourceScores(socialMedia: real, newsMedia: real, financialForums: real)

  const SocialMediaWeight: real := 0.4
  const NewsMediaWeight: real := 0.3
  const FinancialForumsWeight: real := 0.3

  datatype Composite = Composite(score: real, priceImpact: real)

  /** `calculatePriceImpact`: three quarters of the score. */
  function CalculatePriceImpact(score: real): (impact: real)
    ensures impact * 4.0 == score * 3.0
  {
    score * 0.75
  }

  function WeightedScore(s: SourceScores): real
  {
    s.socialMedia * SocialMediaWeight + s.newsMedia * NewsMediaWeight + s.financialForums * FinancialForumsWeight
  }

  /** `calculateCompositeSentiment`. The weights add up to 1, so the score
      is a weighted average of the three inputs. */
  function CalculateCompositeSentiment(s: SourceScores): (c: Composite)
    ensures MinR(s.socialMedia, MinR(s.newsMedia, s.financialForums)) <= c.score
    ensures c.score <= MaxR(s.socialMedia, MaxR(s.newsMedia, s.financialForums))
    ensures s.socialMedia == s.newsMedia == s.financialForums ==> c.score == s.socialMedia
    ensures c.priceImpact == CalculatePriceImpact(c.score)
  {
    var score := WeightedScore(s);
    Composite(score, CalculatePriceImpact(score))
  }

  /** Raising any one input never lowers the composite score. */
  lemma CompositeMonotone(s: SourceScores, t: SourceScores)
    requires s.socialMedia <= t.socialMedia
    requires s.newsMedia <= t.newsMedia
    requires s.financialForums <= t.financialForums
    ensures CalculateCompositeSentiment(s).score <= CalculateCompositeSentiment(t).score
    ensures CalculateCompositeSentiment(s).priceImpact <= CalculateCompositeSentiment(t).priceImpact
  {
  }

  datatype EmotionalTrend = EmotionalTrend(intensity: real, dominantEmotion: string)

  /** `classifyDominantEmotion`: a placeholder that ignores its input. */
  function ClassifyDominantEmotion(s: SourceScores): (emotion: string)
    ensures emotion == "neutral"
  {
    "neutral"
  }

  /** `detectEmotionalTrends`: the size of the social-media score. */
  function DetectEmotionalTrends(s: SourceScores): (t: EmotionalTrend)
    ensures 0.0 <= t.intensity
    ensures t.intensity == s.socialMedia || t.intensity == -s.socialMedia
    ensures t.dominantEmotion == "neutral"
  {
    EmotionalTrend(Abs(s.socialMedia), ClassifyDominantEmotion(s))
  }

  /** The trend depends on the social-media score alone, and only on its size. */
  lemma TrendIgnoresSign(s: SourceScores, t: SourceScores)
    requires t.socialMedia == -s.socialMedia
    ensures DetectEmotionalTrends(s) == DetectEmotionalTrends(t)
  {
  }
}
