# Prediction aggregation and risk statistics of the AI trading platform

This project models, in Dafny, the numeric core of the trading platform and
proves properties of that model:

- the **risk scorer** (`RiskPredictionModel`), in `risk_prediction.dfy`. It computes
  volatility, 10-step momentum, 20/50 moving-average trend strength, maximum
  drawdown and the composite risk score of a price window. It also trains a
  standard scaler and two estimators, and averages their predictions.
- the **ensemble coordinator** (`PricePredictionModel`), in `price_prediction.dfy`.
  It holds four named estimators and preprocesses the data with a min-max scaler
  and a train/test split. It reports MAE/RMSE per model. Its ensemble prediction
  is the elementwise mean, and each model gets a 2.5–97.5 percentile interval.
- the **single-series predictor** (`PricePredictor`), in `price_predictor.dfy`. It
  builds sliding windows of 60 scaled prices, predicts from the last 60
  observations and computes a volatility-based confidence score.
- the TypeScript helpers:
  - `risk_calculator.dfy`: population volatility, historical VaR, Monte Carlo jitter;
  - `risk_analysis.dfy`: score → forecast, probability, action;
  - `stress_risk_models.dfy`: scenario losses, vulnerable assets;
  - `portfolio_optimizer.dfy`: risk-inverse weights, rebalancing;
  - `correlation_analyzer.dfy`: random correlation object, systematic risk;
  - `correlation_service.dfy`: returns, correlation matrix;
  - `sentiment_analysis.dfy`: weighted composite sentiment;
  - `sentiment_analyzer.dfy`: per-source mock scores, clamping, rounded mean.

Shared modules:

- `results.dfy` holds the `Result`/`Option` types and the error kinds.
- `stats.dfy` holds sums, means and variances. Numbers are mathematical reals.
- `sorting.dfy` holds a sort and the strictly-below count.
- `js_object.dfy` models a JavaScript object (and a Python dict) as an
  insertion-ordered list of properties.
- `learning.dfy` holds abstract estimators, affine scalers and
  `train_test_split`. The random split is given as a permutation. Each
  training algorithm is an input learner: a function from the training
  samples and their targets to the rule the fitted model predicts with.

The square root is a parameter `sqrt` that satisfies `IsSqrt`. `Math.random`
draws, the learners, `mathjs.corr` and the value of
`MathUtils.normalDistribution` are inputs.

Some behaviour of the code that is easy to miss:

- The code computes the volatility of the risk scorer as pandas' sample
  deviation (divisor n − 1).
- The code gives `[100, 50, 100]` a maximum drawdown of 0. `pct_change` leaves
  index 0 undefined and `cumprod`/`cummax` skip it, so `p[0]` is never a peak
  (`MaxDrawdownExampleFirstFall`).
- The coordinator fits its min-max scaler on all of X before the split and then
  discards it. `predict_price` passes `new_data` to the models unscaled.
- In `train_models` a failing `fit` aborts the loop, so the later models are
  not trained. In the model the fit only fails for inputs that preprocessing already
  rejects.

## Model

| member | source | states |
|---|---|---|
| RiskPrediction.PctChange | src/models/RiskPredictionModel.py:24 | `pct_change(periods=k)` has n − k entries, entry i being p[i+k]/p[i] − 1 |
| RiskPrediction.Volatility | src/models/RiskPredictionModel.py:24 | defined iff at least 3 prices; the value is ≥ 0 and its square is the sample variance (divisor n − 2 over the n − 1 returns) |
| RiskPrediction.VolatilityZeroIff | src/models/RiskPredictionModel.py:43 | volatility is 0 exactly when all one-step returns are equal |
| RiskPrediction.PctChangeOfConstant | src/models/RiskPredictionModel.py:24 | a constant positive series has all-zero changes |
| RiskPrediction.Momentum | src/models/RiskPredictionModel.py:31-33 | defined iff more than 10 prices, otherwise InsufficientHistory |
| RiskPrediction.MomentumBetween | src/models/RiskPredictionModel.py:33 | momentum lies between the smallest and largest 10-step change |
| RiskPrediction.MomentumOfNonDecreasing | src/models/RiskPredictionModel.py:33 | a non-decreasing positive series has momentum ≥ 0 |
| RiskPrediction.TrendGaps | src/models/RiskPredictionModel.py:37-39 | one gap for each t ≥ 49, namely the absolute difference of the 20- and 50-step rolling means ending at t |
| RiskPrediction.TrendGapsZeroIff | src/models/RiskPredictionModel.py:37-39 | every gap is 0 exactly when the 20- and 50-step rolling means agree at every t ≥ 49 |
| RiskPrediction.TrendStrength | src/models/RiskPredictionModel.py:35-39 | defined iff at least 50 prices, and then ≥ 0 |
| RiskPrediction.TrendStrengthZeroIff | src/models/RiskPredictionModel.py:39 | trend strength is 0 exactly when the two moving averages agree at every t ≥ 49 |
| RiskPrediction.TrendStrengthOfConstant | src/models/RiskPredictionModel.py:35-39 | a constant series has trend strength 0 |
| RiskPrediction.MaxDrawdown | src/models/RiskPredictionModel.py:47-51 | defined iff at least 2 prices, otherwise InsufficientHistory |
| RiskPrediction.GrowthIsRelativePrice | src/models/RiskPredictionModel.py:48 | the cumulative product of 1 + return up to t equals p[t]/p[0] |
| RiskPrediction.PeakAbove | src/models/RiskPredictionModel.py:49 | the running peak at t is at least every cumulative return at indices 1..t |
| RiskPrediction.PeakAttained | src/models/RiskPredictionModel.py:49 | the running peak is attained at some index in 1..t |
| RiskPrediction.DrawdownAtBounds | src/models/RiskPredictionModel.py:50 | each drawdown lies in (−1, 0], and is 0 iff the price is at its peak |
| RiskPrediction.MaxDrawdownRange | src/models/RiskPredictionModel.py:47-51 | for positive prices the maximum drawdown lies in [0, 1) |
| RiskPrediction.MaxDrawdownZeroIff | src/models/RiskPredictionModel.py:48-51 | the maximum drawdown is 0 exactly when p[1..] is non-decreasing |
| RiskPrediction.MaxDrawdownExampleFirstFall | src/models/RiskPredictionModel.py:48-51 | `[100, 50, 100]` has maximum drawdown 0 |
| RiskPrediction.MaxDrawdownExampleHalf | src/models/RiskPredictionModel.py:48-51 | `[100, 100, 50]` has maximum drawdown 0.5 |
| RiskPrediction.RiskScore | src/models/RiskPredictionModel.py:41-45 | defined iff at least 3 prices |
| RiskPrediction.RiskScoreZeroIff | src/models/RiskPredictionModel.py:41-45 | the risk score is ≥ 0, and 0 exactly when volatility or drawdown is 0 |
| RiskPrediction.RiskScoreOfConstant | src/models/RiskPredictionModel.py:41-45 | a constant series scores 0 |
| RiskPrediction.ExtractFeatures | src/models/RiskPredictionModel.py:21-29 | defined iff at least 50 prices; volatility, trend strength and risk score are ≥ 0 |
| RiskPrediction.ExtractFeaturesFields | src/models/RiskPredictionModel.py:23-28 | each feature is the statistic of the same name |
| RiskPrediction.ExtractAll | src/models/RiskPredictionModel.py:16 | one feature record per window, defined iff every window has 50 prices |
| RiskPrediction.PrepareData | src/models/RiskPredictionModel.py:14-19 | preparation succeeds iff there are ≥ 2 windows, all of at least 50 prices; the training and test rows are 3 wide (risk_score dropped), the test part is non-empty, and there is one training target per training row |
| RiskPrediction.PrepareDataOneWindowFails | src/models/RiskPredictionModel.py:14-19 | one window never prepares: too short it fails for history, long enough the split of its single sample leaves no training set |
| RiskPrediction.PrepareDataTargets | src/models/RiskPredictionModel.py:17-19 | training target i is the risk score of the window the split put at training position i |
| RiskPrediction.Ensemble | src/models/RiskPredictionModel.py:69 | the mean of two predictions lies between them and is equidistant from both |
| RiskPrediction.RiskPredictionModel.constructor | src/models/RiskPredictionModel.py:9-12 | scaler and both estimators start unfitted |
| RiskPrediction.RiskPredictionModel.TrainModel | src/models/RiskPredictionModel.py:53-59 | succeeds iff preparation does; the scaler is then fitted on the training rows only, and each estimator is the rule its own learner draws from the scaled training rows and the training targets, on 3 columns; on failure nothing changes |
| RiskPrediction.RiskPredictionModel.PredictRow | src/models/RiskPredictionModel.py:63-69 | NotFitted before training, DimensionMismatch for a row that is not 3 wide; otherwise the mean of both rules on the row scaled by the trained scaler |
| RiskPrediction.RiskPredictionModel.PredictRisk | src/models/RiskPredictionModel.py:61-69 | defined iff the model is trained and the window has 50 prices; the prediction for the 3-feature row |
| RiskPrediction.PredictRiskAsWrittenAlwaysFails | src/models/RiskPredictionModel.py:62-63 | on a trained model the code as written (4-column frame) always fails with DimensionMismatch, while the 3-feature version succeeds |
| Learning.Fit | src/models/RiskPredictionModel.py:58-59 | fitting succeeds iff X is a non-empty rectangular matrix with one target per row; the fitted model has the width of X and the rule the learner draws from exactly X and y |
| Learning.FitThenPredict | src/ml/price_prediction_model.py:53-54 | a fitted estimator predicts one value per row: the rule learned from X and y applied to that row |
| Learning.Transform | src/models/RiskPredictionModel.py:56 | NotFitted before fitting, DimensionMismatch for the wrong width; otherwise each row is scaled column by column |
| Learning.TransformRoundTrip | src/ml/price_predictor.py:52 | inverse_transform undoes transform |
| Learning.MinMaxUnitRange | src/ml/price_prediction_model.py:43-44 | min-max fitted and applied to the same matrix gives entries in [0, 1] |
| Learning.TestCount | src/models/RiskPredictionModel.py:19 | the test part is ⌈0.2 n⌉ rows |
| Learning.SplitShape | src/models/RiskPredictionModel.py:19 | the split succeeds iff X and y agree in length and n ≥ 2; the sizes are right, samples keep their targets, and train and test are disjoint |
| PricePrediction.DropPrice | src/ml/price_prediction_model.py:40-41 | MissingColumn unless `price` is a column; X is every other column, y the price column |
| PricePrediction.PreprocessDataOk | src/ml/price_prediction_model.py:37-46 | succeeds iff `price` is present with another column and ≥ 2 rows |
| PricePrediction.PreprocessDataUnitRange | src/ml/price_prediction_model.py:43-46 | every scaled feature of both the training and the test part lies in [0, 1] (the scaler was fitted on all rows) |
| PricePrediction.PreprocessDataTargets | src/ml/price_prediction_model.py:40-46 | the test part has `TestCount(n)` rows and the training part the rest, one target per row; each target is the price of the row drawn for that position |
| PricePrediction.MeanAbsoluteErrorZeroIff | src/ml/price_prediction_model.py:57 | MAE ≥ 0, and 0 exactly when predictions equal the targets |
| PricePrediction.MeanSquaredErrorZeroIff | src/ml/price_prediction_model.py:58 | MSE ≥ 0, and 0 exactly when predictions equal the targets |
| PricePrediction.Score | src/ml/price_prediction_model.py:56-59 | mae, rmse ≥ 0, each 0 iff exact, rmse² = MSE |
| PricePrediction.ElementwiseMean | src/ml/price_prediction_model.py:70 | ShapeError for no vectors or ragged vectors; otherwise one mean per position |
| PricePrediction.ElementwiseMeanBetween | src/ml/price_prediction_model.py:70 | each ensemble value lies between the models' smallest and largest prediction at that position |
| PricePrediction.ElementwiseMeanAgreement | src/ml/price_prediction_model.py:70 | where all models agree the ensemble equals them |
| PricePrediction.ElementwiseMeanExample | src/ml/price_prediction_model.py:65-70 | `[1,2,3]` and `[3,4,5]` average to `[2,3,4]` |
| PricePrediction.Percentile | src/ml/price_prediction_model.py:83-84 | defined iff the vector is non-empty and q ∈ [0, 100] |
| PricePrediction.PercentileBounds | src/ml/price_prediction_model.py:83-84 | every percentile lies in [min, max] of the vector |
| PricePrediction.PercentileMonotone | src/ml/price_prediction_model.py:83-84 | a higher q never gives a lower percentile, so lower ≤ upper |
| PricePrediction.PercentileMedianExample | src/ml/price_prediction_model.py:83-84 | the values are sorted before interpolating: the median of `[3,1,2]` is 2 |
| PricePrediction.PercentileUpperExample | src/ml/price_prediction_model.py:83-84 | linear interpolation between neighbours: the 97.5th percentile of `[1,2]` is 1.975 |
| PricePrediction.IntervalOfBounds | src/ml/price_prediction_model.py:83-84 | a model's interval has lower ≤ upper and lies within [min, max] of that model's predictions |
| PricePrediction.ModelNamesDistinct | src/ml/price_prediction_model.py:12-17 | the four model names are distinct |
| PricePrediction.CalculateConfidenceInterval | src/ml/price_prediction_model.py:78-86 | one interval per model, same keys in the same order, each the 2.5th and 97.5th percentile of that model's own vector; fails iff some vector is empty |
| PricePrediction.PricePredictionModel.constructor | src/ml/price_prediction_model.py:12-17 | the models map is `lstm`, `random_forest`, `xgboost`, `transformer`, in that order, all unfitted |
| PricePrediction.PricePredictionModel.TrainModels | src/ml/price_prediction_model.py:48-61 | succeeds iff preprocessing does; one record per model name in order, each the score of that model's test predictions; model i is the rule its own learner draws from the training rows and targets of the split; on failure nothing changes |
| PricePrediction.PricePredictionModel.FitAll | src/ml/price_prediction_model.py:51-61 | the loop keeps the four model names in order; model i is the rule its learner draws from the training rows and targets, and record i is the score of its predictions for the test part |
| PricePrediction.PricePredictionModel.PredictPrice | src/ml/price_prediction_model.py:63-76 | succeeds iff every model predicts; the prediction is the elementwise mean with one value per row; one interval per model name, each the 2.5th/97.5th percentiles of that model's own predictions |
| PricePredictor.Windows | src/ml/price_predictor.py:26-29 | max(0, n − 60) samples; sample k is scaled[k..k+60) with target scaled[k+60] |
| PricePredictor.WindowsSlide | src/ml/price_predictor.py:27-31 | every window has 60 values; window k+1 is window k shifted one step, ending in target k |
| PricePredictor.PricePredictor.constructor | src/ml/price_predictor.py:7-10 | scaler unfitted, model built for windows of 60 |
| PricePredictor.PricePredictor.PrepareData | src/ml/price_predictor.py:21-31 | fits the min-max scaler on the whole series, keeps the model, and produces the windows of the scaled series; fails only for an empty series |
| PricePredictor.ScaledHistoryInUnitRange | src/ml/price_predictor.py:23 | every scaled training value lies in [0, 1] |
| PricePredictor.PricePredictor.Train | src/ml/price_predictor.py:33-41 | succeeds iff more than 61 prices (at least two windows, so that `validation_split=0.2` leaves both parts non-empty); the scaler is refitted on the series, and the model is the rule the learner draws from the first ⌊0.8 n⌋ of the n windows and their targets; on failure the model is unchanged |
| PricePredictor.ValidationSplitAt | src/ml/price_predictor.py:38 | of n samples the first ⌊0.8 n⌋ train; both parts are non-empty iff n ≥ 2 |
| PricePredictor.PricePredictor.Forecast | src/ml/price_predictor.py:45-52 | the price is the model applied to the last 60 values scaled by the existing scaler, mapped back through the scaler's inverse |
| PricePredictor.UnscaleRoundTrip | src/ml/price_predictor.py:51-52 | scaling the reported price again gives back the model's output, so `inverse_transform` undoes `transform` |
| PricePredictor.PricePredictor.Predict | src/ml/price_predictor.py:43-60 | NotFitted before prepare_data; succeeds iff ≥ 60 observations and a non-zero recent mean; the price is the forecast of the last 60 scaled values, the confidence that of the recent prices, in [0, 100] |
| PricePredictor.RecentPrices | src/ml/price_predictor.py:64 | the last min(30, n) prices |
| PricePredictor.CalculateConfidence | src/ml/price_predictor.py:62-69 | defined iff there are prices with non-zero recent mean; the value lies in [0, 100] |
| PricePredictor.ConfidenceIgnoresPrediction | src/ml/price_predictor.py:62-69 | the predicted price does not affect the confidence |
| PricePredictor.ConfidenceUsesRecentPrices | src/ml/price_predictor.py:64-65 | history older than the last 30 prices does not affect the confidence |
| PricePredictor.ConfidenceOfFlatPrices | src/ml/price_predictor.py:65-69 | constant recent prices give confidence 100 |
| RiskCalculator.CalculateVolatility | src/lib/riskCalculator.ts:2-6 | defined iff there are returns; the value is ≥ 0 and its square is the population variance |
| RiskCalculator.VolatilityZeroIff | src/lib/riskCalculator.ts:2-6 | volatility is 0 exactly for constant returns |
| Sorting.Sort | src/lib/riskCalculator.ts:9 | the copy is sorted ascending and a permutation of the returns |
| RiskCalculator.CalculateVaR | src/lib/riskCalculator.ts:8-12 | defined iff ⌊n·c⌋ is a valid index; the result is that element of the sorted copy, an element of the returns, with at most ⌊n·c⌋ returns strictly below it |
| RiskCalculator.VaRDefined | src/lib/riskCalculator.ts:10-11 | every non-empty list has a VaR at levels in [0, 1) |
| RiskCalculator.VaRAtFullConfidence | src/lib/riskCalculator.ts:10-11 | at level 1 the index is n, out of bounds |
| RiskCalculator.VaRMonotone | src/lib/riskCalculator.ts:9-11 | a higher level never gives a smaller VaR |
| RiskCalculator.Jitter | src/lib/riskCalculator.ts:16 | for v ≥ 0 and a draw in [0, 1) the value lies in [0.95 v, 1.05 v], below 1.05 v when v > 0 |
| RiskCalculator.MonteCarloSimulation | src/lib/riskCalculator.ts:14-17 | exactly `iterations` values, the i-th jittered by the i-th draw |
| RiskCalculator.MonteCarloWithinFivePercent | src/lib/riskCalculator.ts:14-17 | with draws in [0, 1) each value lies within 5% of a non-negative initial value |
| RiskAnalysis.DetermineRecommendedAction | src/services/RiskAnalysisService.ts:37-41 | HOLD iff score < 30, REDUCE iff 30 ≤ score < 70, EXIT iff score ≥ 70 |
| RiskAnalysis.ActionMonotone | src/services/RiskAnalysisService.ts:37-41 | a higher score never gives a milder action |
| RiskAnalysis.VolatilityForecast | src/services/RiskAnalysisService.ts:29-31 | the forecast is half the score |
| RiskAnalysis.DrawdownProbability | src/services/RiskAnalysisService.ts:33-35 | at most 1; score/100 up to a score of 100, then 1; ≥ 0 for non-negative scores |
| RiskAnalysis.DrawdownProbabilityMonotone | src/services/RiskAnalysisService.ts:33-35 | the probability never decreases with the score |
| RiskAnalysis.AnalyzeMarketRisk | src/services/RiskAnalysisService.ts:18-27 | the score is copied unchanged and every other field is derived from it alone |
| RiskAnalysis.AnalysisConsistent | src/services/RiskAnalysisService.ts:21-26 | EXIT exactly when the drawdown probability reaches 0.7; HOLD exactly when the forecast is under 15 |
| StressRiskModels.PotentialLossLinear | src/lib/portfolio-stress-testing/risk-models.ts:43-47 | the loss is the severity times the portfolio's unit-severity loss |
| StressRiskModels.PotentialLossNonNegative | src/lib/portfolio-stress-testing/risk-models.ts:43-47 | non-negative allocations, volatilities and severity give a non-negative loss |
| StressRiskModels.Vulnerable | src/lib/portfolio-stress-testing/risk-models.ts:49-53 | a symbol is listed iff some asset with it has volatility above the severity |
| StressRiskModels.VulnerableAppend | src/lib/portfolio-stress-testing/risk-models.ts:50-52 | the filter distributes over concatenation, so portfolio order is kept |
| StressRiskModels.VulnerableShrinks | src/lib/portfolio-stress-testing/risk-models.ts:49-53 | raising the severity yields a subsequence of the vulnerable list |
| StressRiskModels.MonteCarloSimulation | src/lib/portfolio-stress-testing/risk-models.ts:19-35 | three results in order Market Crash, Economic Recession, Geopolitical Tension, each with its severity's loss and vulnerable assets |
| StressRiskModels.MonteCarloIgnoresIterations | src/lib/portfolio-stress-testing/risk-models.ts:19-35 | the result does not depend on `iterations` |
| StressRiskModels.MonteCarloOrdered | src/lib/portfolio-stress-testing/risk-models.ts:20-24 | with non-negative weights each scenario loses at least as much as the next, milder one, and its vulnerable list is a subsequence of the next one's |
| PortfolioOptimizer.OptimizeAllocation | src/lib/portfolio-stress-testing/optimization-strategy.ts:8-16 | defined unless the total risk of a non-empty list is 0; the keys are the symbols in first-occurrence order, without repeats |
| PortfolioOptimizer.AllocateLastWins | src/lib/portfolio-stress-testing/optimization-strategy.ts:12-15 | a symbol's weight is 1 − risk/totalRisk of its last occurrence |
| PortfolioOptimizer.WeightsSumDistinct | src/lib/portfolio-stress-testing/optimization-strategy.ts:10-15 | with distinct symbols the weights add up to n − 1 |
| PortfolioOptimizer.WeightsInUnitRange | src/lib/portfolio-stress-testing/optimization-strategy.ts:10-15 | with non-negative risks every weight lies in [0, 1] |
| PortfolioOptimizer.WeightAntitone | src/lib/portfolio-stress-testing/optimization-strategy.ts:14 | a riskier asset never gets a larger weight |
| PortfolioOptimizer.SuggestRebalancing | src/lib/portfolio-stress-testing/optimization-strategy.ts:18-25 | one suggestion per current key in order; the target weight is looked up, and where present current + adjustment = target |
| PortfolioOptimizer.RebalanceCurrentWeight | src/lib/portfolio-stress-testing/optimization-strategy.ts:21 | the current weight is the property's own value |
| CorrelationAnalyzer.Correlation | src/lib/portfolio-stress-testing/correlation-analyzer.ts:15 | a draw in [0, 1) gives a correlation in [−1, 1) |
| CorrelationAnalyzer.GenerateCorrelationMatrix | src/lib/portfolio-stress-testing/correlation-analyzer.ts:10-19 | the nested loops build the object defined by the row-by-row assignments; its keys are the assets without repeats |
| CorrelationAnalyzer.GeneratedWellFormed | src/lib/portfolio-stress-testing/correlation-analyzer.ts:10-19 | every row has an entry for every asset, each in [−1, 1) |
| CorrelationAnalyzer.AssetCorrelationAnalyzer.constructor | src/lib/portfolio-stress-testing/correlation-analyzer.ts:5-8 | keeps the assets and the generated matrix, which is well-formed |
| CorrelationAnalyzer.AssetCorrelationAnalyzer.CalculateSystematicRisk | src/lib/portfolio-stress-testing/correlation-analyzer.ts:21-25 | the mean of all entries: d² of them for d distinct assets, undefined without assets, within [−1, 1) |
| CorrelationService.CalculateReturns | src/services/correlation/correlation-service.ts:17-21 | n − 1 returns (none for no prices), return i times p[i] equal to p[i+1] − p[i]; undefined when a divisor price is 0 |
| CorrelationService.ReturnsRoundTrip | src/services/correlation/correlation-service.ts:17-21 | the next price is the price times 1 + return |
| CorrelationService.ReturnsOfConstant | src/services/correlation/correlation-service.ts:17-21 | constant prices give zero returns |
| CorrelationService.CalculatePearsonCorrelations | src/services/correlation/correlation-service.ts:23-36 | m rows of m entries, entry (i, j) being corr(returns i, returns j) |
| CorrelationService.TableSymmetric | src/services/correlation/correlation-service.ts:26-33 | a symmetric corr gives a symmetric matrix |
| CorrelationService.ComputeCorrelationMatrix | src/services/correlation/correlation-service.ts:5-15 | one row and one column per asset in input order, entry (i, j) the correlation of their returns |
| SentimentAnalysis.CalculateCompositeSentiment | src/lib/sentiment-analysis.ts:20-37 | the score lies between the smallest and largest input, equals v for three equal inputs v; the impact is the score's price impact |
| SentimentAnalysis.CompositeMonotone | src/lib/sentiment-analysis.ts:27-31 | raising any input never lowers score or impact |
| SentimentAnalysis.CalculatePriceImpact | src/lib/sentiment-analysis.ts:48-51 | the impact is three quarters of the score |
| SentimentAnalysis.DetectEmotionalTrends | src/lib/sentiment-analysis.ts:40-46 | intensity is |socialMedia| ≥ 0; the emotion is `neutral` |
| SentimentAnalysis.ClassifyDominantEmotion | src/lib/sentiment-analysis.ts:53-56 | always `neutral` |
| SentimentAnalysis.TrendIgnoresSign | src/lib/sentiment-analysis.ts:43 | the trend depends only on the size of the social-media score |
| SentimentAnalyzer.MockScore | src/services/sentimentAnalyzer.ts:32-44 | 50 for a source outside the table; every score in (0, 100] |
| SentimentAnalyzer.MockScoresTable | src/services/sentimentAnalyzer.ts:32-38 | twitter 65, reddit 58, financial_news 72, options_flow 60, institutional_data 55 |
| SentimentAnalyzer.FetchSourceSentiment | src/services/sentimentAnalyzer.ts:30-45 | the reply carries the source, its table score and the one details line |
| SentimentAnalyzer.Clamp | src/services/sentimentAnalyzer.ts:51 | the result lies in [0, 100]; in-range scores are unchanged, the rest go to the nearer bound |
| SentimentAnalyzer.AggregateSentiment | src/services/sentimentAnalyzer.ts:47-53 | same count and order; source and details kept; every score clamped |
| SentimentAnalyzer.AggregateIdempotent | src/services/sentimentAnalyzer.ts:47-53 | aggregation yields in-range scores, leaves in-range lists alone, and is idempotent |
| SentimentAnalyzer.AnalyzeSentiment | src/services/sentimentAnalyzer.ts:15-28 | the loop keeps the non-throwing replies in source order, then aggregates them |
| SentimentAnalyzer.KeptNoFailures | src/services/sentimentAnalyzer.ts:18-25 | when no source throws, every reply is kept, one per source, in the order of the sources |
| SentimentAnalyzer.AnalyzeWithMockFetch | src/services/sentimentAnalyzer.ts:15-45 | with the simulated fetch all five sources answer, in order, with scores 65, 58, 72, 60, 55 |
| SentimentAnalyzer.Round | src/services/sentimentAnalyzer.ts:57 | `Math.round` gives the integer within half of x |
| SentimentAnalyzer.CalculateOverallSentiment | src/services/sentimentAnalyzer.ts:55-58 | undefined for an empty list; otherwise within half of the mean score, and in [0, 100] for in-range scores |

## Left out

- Library internals are abstract:
  - the learning rules of LSTM, random forest, XGBoost and BERT;
  - epochs and validation split;
  - `mathjs.corr`;
  - `MathUtils.normalDistribution` and `MathUtils.parametricVaR`.
  `math-utils` is not part of this model.
- `PortfolioRiskAnalyzer.calculateVaR` and its constant `fetchHistoricalReturns` are left out. They only pass data to `MathUtils.parametricVaR`, which is not part of this model.
- All I/O is taken as inputs:
  - the network fetches (`fetchMultiSourceSentiment` and its three fetchers, `fetchHistoricalPrices`);
  - `Promise.all`, async scheduling and console logging;
  - the data source object of the coordinator.
- `FeatureEngineer`, whose indicators are stubs returning `None`, is left out; the coordinator takes its feature frame as input. Also left out are `main` and the missing imports of `RandomForestRegressor`, `mean_absolute_error` and `mean_squared_error`.
- IEEE floats, NaN and Infinity are not modelled. Numbers are reals, and each case the code turns into NaN/Infinity, `undefined` or an exception becomes an `Err`:
  - a 0/0 mean;
  - division by a zero price or by a zero total risk;
  - an out-of-range array index;
  - unfitted scalers;
  - mismatched shapes.
- RiskPrediction.ExtractFeatures: `pd.DataFrame` of four scalars raises pandas' ValueError "If using all scalar values, you must pass an index". The model takes the intended one-row frame.
- RiskPrediction.PrepareData: `XGBClassifier` fitted on a continuous target is left to the library. The code builds one feature row from its one `market_data`, so `train_test_split` always raises and `train_model` can never succeed as written (`PrepareDataOneWindowFails`, and the Findings table). The model takes a sequence of windows, one feature row per window.
- RiskPrediction.Volatility, RiskPrediction.MaxDrawdown: these require positive prices. A zero price makes `pct_change` infinite.
- PricePredictor.PricePredictor.Predict: Keras' output shape and the untrained model's random weights are represented only by the rule given at construction.
- PricePredictor.CalculateConfidence: the NaN that Python's `min`/`max` would turn into 100 (zero mean with zero spread) is reported as an error.
- SentimentAnalyzer.MockScore: lookups of prototype properties such as `toString` are not modelled.
- JsObject: JavaScript orders integer-like keys before other keys. The model keeps insertion order for every key.
- RiskCalculator.MonteCarloSimulation: `iterations` is a nat. JavaScript's `Array.from({length})` would turn a negative or fractional length into 0 or a truncated count; the model does not take such lengths.
- StressRiskModels.MonteCarloSimulation: the probability is the unseen `normalDistribution(0.15)` value, taken as a parameter.
- Sorting.Sort: the comparator of `Array.prototype.sort` and the copy (`[...returns]`) are modelled by working on values. The input is immutable, so it is unchanged.

## Findings

| source | as written | input that shows it | evidently intended | confidence | as-written member | corrected member |
|---|---|---|---|---|---|---|
| src/models/RiskPredictionModel.py:62-63 | `predict_risk` scales the full feature frame, including the `risk_score` column, with a scaler fitted on the three columns left after `risk_score` was dropped | any window of 50 or more prices on a trained model | drop `risk_score` before `transform`, as `prepare_data` does | not executed | RiskPrediction.RiskPredictionModel.PredictRiskAsWritten | RiskPrediction.RiskPredictionModel.PredictRisk |
| src/models/RiskPredictionModel.py:14-19 | `prepare_data` makes one feature row of its one `market_data` and asks `train_test_split` for a 20% test set, which takes that one sample and leaves an empty training set | any `market_data` of at least 50 prices | one feature row per window of several windows, as `train_model` needs at least two samples | not executed | RiskPrediction.PrepareDataOneWindowFails | RiskPrediction.PrepareData |
