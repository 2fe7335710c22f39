/** `RiskAnalysisService` of `RiskAnalysisService.ts`: a risk score (taken as
    an input; in the service it comes from the Python risk model) turned into
    a volatility forecast, a drawdown probability and a recommended action. */
module RiskAnalysis {
  import opened Stats

  datatype Action = Hold | Reduce | Exit

  /** How drastic an action is: HOLD < REDUCE < EXIT. */
  function Severity(a: Action): nat
  {
    match a
    case Hold => 0
    case Reduce => 1
    case Exit => 2
  }

  const HoldBelow: real := 30.0
  const ReduceBelow: real := 70.0

  /** `_determineRecommendedAction`. */
  function DetermineRecommendedAction(score: real): (a: Action)
    ensures a == Hold <==> score < HoldBelow
    ensures a == Reduce <==> HoldBelow <= score < ReduceBelow
    ensures a == Exit <==> ReduceBelow <= score
  {
    if score < HoldBelow then Hold
    else if score < ReduceBelow then Reduce
    else Exit
  }

  /** A higher score never asks for a milder action. */
  lemma ActionMonotone(s1: real, s2: real)
    requires s1 <= s2
    ensures Severity(DetermineRecommendedAction(s1)) <= Severity(DetermineRecommendedAction(s2))
  {
  }

  /** `_calculateVolatilityForecast`: half the score. */
  function VolatilityForecast(score: real): (v: real)
    ensures v + v == score
  {
    score * 0.5
  }

  /** `_calculateDrawdownProbability`: the score as a fraction of 100, capped at 1. */
  function DrawdownProbability(score: real): (p: real)
    ensures p <= 1.0
    ensures score <= 100.0 ==> p * 100.0 == score
    ensures 100.0 <= score ==> p == 1.0
    ensures 0.0 <= score ==> 0.0 <= p
  {
    MinR(score / 100.0, 1.0)
  }

  /** The drawdown probability never decreases with the score. */
  lemma DrawdownProbabilityMonotone(s1: real, s2: real)
    requires s1 <= s2
    ensures DrawdownProbability(s1) <= DrawdownProbability(s2)
  {
  }

  datatype Analysis = Analysis(
    riskScore: real,
    volatilityForecast: real,
    drawdownProbability: real,
    recommendedAction: Action)

  /** `analyzeMarketRisk` for a given score: the score is passed through and
      every other field is derived from it alone. */
  function AnalyzeMarketRisk(score: real): (a: Analysis)
    ensures a.riskScore == score
    ensures a.volatilityForecast == VolatilityForecast(score)
    ensures a.drawdownProbability == DrawdownProbability(score)
    ensures a.recommendedAction == DetermineRecommendedAction(score)
  {
    Analysis(score, VolatilityForecast(score), DrawdownProbability(score), DetermineRecommendedAction(score))
  }

  /** The fields of one analysis agree: EXIT is recommended exactly when the
      drawdown probability reaches 0.7, and HOLD exactly when the volatility
      forecast stays under 15. */
  lemma AnalysisConsistent(score: real)
    ensures AnalyzeMarketRisk(score).recommendedAction == Exit
      <==> AnalyzeMarketRisk(score).drawdownProbability >= 0.7
    ensures AnalyzeMarketRisk(score).recommendedAction == Hold
      <==> AnalyzeMarketRisk(score).volatilityForecast < 15.0
  {
  }
}
