# Portfolio optimizer core, modelled in Dafny

This project models four parts of a Python portfolio-optimisation tool written by its
original authors and proves properties of the model:

- **Black–Litterman view handling** (`PortfolioOptimizer/BlackLitterman.py`).
  - Investor views are encoded into a picking matrix `P` and a view vector `Q`.
  - The view-uncertainty matrix `Omega = diag(diag(P · diag(diag(Sigma)) · Pᵀ · tau))` is built from them.
  - The optimizer object's fields `P`, `Q` and `omega` are set by construction and by the Omega setter, and read by the optimisation call.
- **The CAPM prior** (`PortfolioOptimizer/ExpectedReturnCalculator.py`).
  - The risk-free rate is taken from 3-month bill yields.
  - The annualised market return is computed from daily index closes.
  - Each ticker's beta is computed from aligned monthly returns.
  - The expected return is `rf + beta · (market − rf)`.
- **Tag extraction** from a model reply (`ChatGPT/ApiGpt.py` and `OpenAi/functions.py`).
  - The source matches `escape(start)(.*?)escape(end)` with DOTALL and keeps the first hit of `findall`, stripped.
  - The model defines this match by what it means: the leftmost start tag, then the nearest end tag after it.
- **The prompt builders** of `OpenAi/prompt.py`: five insight prompts and the final stock-symbols prompt.

Modules, one file each:

| module | file | contents |
|---|---|---|
| `Wrappers` | `wrappers.dfy` | `Option` and `Result` |
| `Matrices` | `matrices.dfy` | the numpy operations the Omega formula uses: `dot`, `.T`, both forms of `diag`, scaling |
| `BlackLitterman` | `black_litterman.dfy` | view encoding, Omega, and the class `BlackLitterman` with array fields |
| `ExpectedReturnCalculator` | `capm.dfy` | the CAPM prior |
| `Text` | `text.dfy` | literal search and Python's `str.strip()` |
| `ApiGpt` | `api_gpt.dfy` | the extraction in `ChatGPT/ApiGpt.py` |
| `OpenAiFunctions` | `openai_functions.dfy` | the extraction in `OpenAi/functions.py` |
| `OpenAiPrompt` | `openai_prompt.dfy` | the prompt builders |

How the model carries the source's types and failures:

- **Python floats** are `real`. Where numpy produces a non-finite value, the CAPM module uses `Num = Real(value) | NaN`; `NaN` stands for NaN and for both infinities. This covers `np.cov` of one sample, division by a zero variance, the mean of no returns, and a step from a zero close.
- **Exceptions** become `Err` values:
  - `list.index` on an unknown ticker raises `ValueError`; this is `UnknownAsset`.
  - Omega requested before `P` is set raises `ValueError`; this is `PickingMatrixNotSet`.
  - `np.dot` on `P` and a `Sigma` of another size raises; this is `ShapeMismatch`.
  - Optimising before `P` and `Q` are set raises `ValueError`; this is `ViewsNotSet`.
  - `iloc[-1]` on an empty yield series raises `IndexError`; this is `NoYieldObservation`.
- **The imperative parts keep their form.**
  - `user_input_to_pq` zero-fills two arrays and writes them view by view in a loop.
  - The object's `P`, `Q` and `omega` are `array2?`/`array?` fields that the methods reassign.
  - `calculate_beta` and `calculate_expected_return` build their dictionaries in loops.
  - Each such method is proved against a specification function: `EncodeViews`, `OmegaMatrix`, `Beta` or `CapmReturn`.

Behaviours of the code that the model keeps, although the code's comments or the textbook formulas suggest otherwise:

- `__init__` stores the Omega setter's return value, which is `None`, into `self.omega` (`PortfolioOptimizer/BlackLitterman.py:26-27`). The setter had just stored the matrix (line 88). A constructed object therefore has no Omega, and the optimiser receives `omega=None`. `New` and `BuildAndOptimize` state this.
- Black–Litterman usually assumes a strictly positive Omega diagonal; here a view of an unrecognised type gets 0, because its row of `P` is all zero. `OmegaOfOtherView` states the code's behaviour.
- Beta divides `np.cov` (divisor n − 1) by `np.var` (divisor n). Beta is therefore n/(n − 1) times the least-squares slope, and the market's beta against itself is n/(n − 1), not 1. `BetaRatio` and `BetaOfMarketItself` state this.
- A relative view whose two assets are the same ticker leaves a single `-1` in its row, because the second write overwrites the first. `EncodeView` states this.
- The closing instruction of the final prompt joins "symbols." and "Avoid" without a space (`OpenAi/prompt.py:52-53`). `RequestClosing` keeps it.

## Model

| member | source | states |
|---|---|---|
| BlackLitterman.IndexOf | PortfolioOptimizer/BlackLitterman.py:55 | `tickers.index(t)`: the first position holding `t`, or None exactly when `t` is not a ticker (Python's ValueError) |
| BlackLitterman.EncodeView | PortfolioOptimizer/BlackLitterman.py:53-66 | absolute view: 1 at the first occurrence of the asset, 0 elsewhere, Q = the return unchanged; relative view: -1 at asset2's position, else 1 at asset1's, else 0, Q = the difference (a single -1 when both name one ticker); any other type: zero row and 0; unknown asset (asset1 checked before asset2) gives UnknownAsset of it |
| BlackLitterman.EncodeViews | PortfolioOptimizer/BlackLitterman.py:49-66 | P is len(views) by len(tickers) and Q has len(views) entries |
| BlackLitterman.EncodeViewsRow | PortfolioOptimizer/BlackLitterman.py:52-66 | row i of P and entry i of Q are the encoding of view i alone |
| BlackLitterman.EncodeViewsSucceeds | PortfolioOptimizer/BlackLitterman.py:52-66 | encoding succeeds if and only if every single view encodes (every ticker it names is known) |
| BlackLitterman.EncodeViewsPrefixError | PortfolioOptimizer/BlackLitterman.py:52-62 | once a prefix of the views fails, the whole list fails with the same error: later views cannot mask it |
| BlackLitterman.EncodeViewsFirstError | PortfolioOptimizer/BlackLitterman.py:52-62 | the error reported is the one of the first view that fails |
| BlackLitterman.EncodeViewInto | PortfolioOptimizer/BlackLitterman.py:52-66 | one loop step writes exactly row i of P and entry i of Q with view i's encoding, or reports its unknown ticker; every other row and entry is unchanged |
| BlackLitterman.ViewCovarianceDiagonal | PortfolioOptimizer/BlackLitterman.py:82-85 | diagonal entry i of `P · diag(diag(Sigma)) · Pᵀ` is the sum over j of P[i][j]² · Sigma[j][j] |
| BlackLitterman.OmegaMatrix | PortfolioOptimizer/BlackLitterman.py:82-88 | Omega is k by k, its off-diagonal entries are 0, its diagonal is tau times that of the views' covariance |
| BlackLitterman.OmegaDiagonal | PortfolioOptimizer/BlackLitterman.py:82-88 | Omega[i][i] = tau · sum over j of P[i][j]² · Sigma[j][j] |
| BlackLitterman.AbsoluteRowVariance | PortfolioOptimizer/BlackLitterman.py:53-58 | the row of an absolute view on the asset at position k picks out exactly variance k |
| BlackLitterman.RelativeRowVariance | PortfolioOptimizer/BlackLitterman.py:59-66 | the row of a relative view picks out variances k1 + k2, or variance k1 alone when both assets are one ticker |
| BlackLitterman.OmegaOfAbsoluteView | PortfolioOptimizer/BlackLitterman.py:82-88 | an absolute view on the asset at position k has Omega[i][i] = tau · Sigma[k][k] |
| BlackLitterman.OmegaOfRelativeView | PortfolioOptimizer/BlackLitterman.py:82-88 | a relative view has Omega[i][i] = tau · (Sigma[k1][k1] + Sigma[k2][k2]), or tau · Sigma[k1][k1] when both assets are one ticker |
| BlackLitterman.OmegaOfOtherView | PortfolioOptimizer/BlackLitterman.py:82-88 | a view of another type has Omega[i][i] = 0 |
| BlackLitterman.OmegaMonotoneInTau | PortfolioOptimizer/BlackLitterman.py:75-85 | with non-negative variances, each Omega[i][i] is non-negative and grows with tau (smaller tau, more confidence) |
| BlackLitterman.BlackLitterman.Init | PortfolioOptimizer/BlackLitterman.py:14-22 | the fields tickers, Sigma, prior and portfolio value are stored; P, Q and omega start unset |
| BlackLitterman.BlackLitterman.UserInputToPQ | PortfolioOptimizer/BlackLitterman.py:29-68 | fresh zero-filled arrays of shape len(views) by len(tickers) and len(views), filled in a loop, equal EncodeViews; an unknown ticker gives EncodeViews' error |
| BlackLitterman.BlackLitterman.SetOmegaProportionalToPrior | PortfolioOptimizer/BlackLitterman.py:70-88 | P unset gives PickingMatrixNotSet, a Sigma of another size gives ShapeMismatch, and omega is then unchanged; otherwise omega becomes a fresh array equal to OmegaMatrix(P, Sigma, tau) |
| BlackLitterman.BlackLitterman.New | PortfolioOptimizer/BlackLitterman.py:12-27 | fails exactly when a view names an unknown ticker (that error) or len(tickers) differs from Sigma's size (ShapeMismatch); otherwise P and Q are set to the encoded views and omega is unset |
| BlackLitterman.BlackLitterman.OptimizeWithBlackLitterman | PortfolioOptimizer/BlackLitterman.py:90-114 | fails with ViewsNotSet if and only if P or Q is unset; otherwise returns the solver applied to Sigma, prior, P, Q and omega (None when unset) |
| BlackLitterman.BuildAndOptimize | PortfolioOptimizer/BlackLitterman.py:25-27 | after a successful construction the optimisation never fails, and the solver receives the encoded views and no Omega |
| ExpectedReturnCalculator.RiskFreeRate | PortfolioOptimizer/ExpectedReturnCalculator.py:30-41 | fails exactly when there is no yield; otherwise rate · 100 is the last yield |
| ExpectedReturnCalculator.RiskFreeRateOfTwoPercent | tests/test_ExpectedReturnCalculator.py:23-27 | a last yield of 2.0 gives a rate of 0.02 |
| ExpectedReturnCalculator.DailyReturns | PortfolioOptimizer/ExpectedReturnCalculator.py:51 | at most one return per day after the first; none for fewer than two closes |
| ExpectedReturnCalculator.DailyReturnsOfNonzeroPrices | PortfolioOptimizer/ExpectedReturnCalculator.py:51 | with no zero close there is exactly one return per day after the first, p[t+1]/p[t] − 1 |
| ExpectedReturnCalculator.DailyReturnsUndefined | PortfolioOptimizer/ExpectedReturnCalculator.py:51 | the daily returns are non-finite exactly when some zero close is followed by a non-zero close (an infinite `pct_change`) |
| ExpectedReturnCalculator.DailyReturnsDropZeroToZero | PortfolioOptimizer/ExpectedReturnCalculator.py:51 | a zero close followed by another zero close adds no return: the `nan` step is removed by `dropna` |
| ExpectedReturnCalculator.AnnualizedReturn | PortfolioOptimizer/ExpectedReturnCalculator.py:56 | `(1 + m) ** 252 - 1` is never below −1 (−100%), because 252 is even |
| ExpectedReturnCalculator.MarketReturn | PortfolioOptimizer/ExpectedReturnCalculator.py:43-60 | fewer than two closes leave no daily return and give `nan`; a finite market return is never below −100% |
| ExpectedReturnCalculator.MarketReturnOfZeroToNonzeroStep | PortfolioOptimizer/ExpectedReturnCalculator.py:51-56 | a zero close followed by a non-zero close makes the market return non-finite |
| ExpectedReturnCalculator.DailyReturnsOfConstantPrices | PortfolioOptimizer/ExpectedReturnCalculator.py:51 | constant non-zero closes give all-zero daily returns |
| ExpectedReturnCalculator.AnnualizedReturnSign | PortfolioOptimizer/ExpectedReturnCalculator.py:55-56 | annualising over 252 days keeps the sign: 0 stays 0, a gain stays a gain, a daily loss above −100% stays an annual loss above −100% |
| ExpectedReturnCalculator.MarketReturnOfConstantPrices | PortfolioOptimizer/ExpectedReturnCalculator.py:43-60 | an index that never moves has a market return of 0 |
| ExpectedReturnCalculator.MarketPremium | PortfolioOptimizer/ExpectedReturnCalculator.py:62-63 | fails exactly when there is no yield; otherwise market return minus the risk-free rate |
| ExpectedReturnCalculator.Beta | PortfolioOptimizer/ExpectedReturnCalculator.py:72-110 | the beta recorded for one ticker: with at least one shared month it is non-finite exactly when there is a single month (`np.cov` divides by n − 1 = 0) or the market does not move (`np.var` is 0); the 0.0 fallbacks are `BetaFallback` |
| ExpectedReturnCalculator.BetaFallback | PortfolioOptimizer/ExpectedReturnCalculator.py:75-100 | no stock data, or no month shared with the market, gives beta 0.0 |
| ExpectedReturnCalculator.BetaRatio | PortfolioOptimizer/ExpectedReturnCalculator.py:102-110 | with two or more months and a moving market, beta is n/(n−1) times the least-squares slope; otherwise it is not finite |
| ExpectedReturnCalculator.BetaOfMarketItself | PortfolioOptimizer/ExpectedReturnCalculator.py:102-110 | a stock that moves exactly with the market gets beta n/(n−1), not 1 |
| ExpectedReturnCalculator.CalculateBeta | PortfolioOptimizer/ExpectedReturnCalculator.py:65-112 | the map's keys are exactly the tickers, each mapped to the beta of that ticker's data |
| ExpectedReturnCalculator.CapmReturn | PortfolioOptimizer/ExpectedReturnCalculator.py:129 | `rf + beta * premium` is non-finite exactly when beta or the premium is; otherwise it exceeds rf by beta times the premium |
| ExpectedReturnCalculator.CapmReturnAnchors | PortfolioOptimizer/ExpectedReturnCalculator.py:129 | with a finite premium, beta 0 earns the risk-free rate and beta 1 earns the market return |
| ExpectedReturnCalculator.CapmReturnOfNaNPremium | PortfolioOptimizer/ExpectedReturnCalculator.py:129 | a non-finite premium makes every expected return non-finite, beta 0 included |
| ExpectedReturnCalculator.CalculateExpectedReturn | PortfolioOptimizer/ExpectedReturnCalculator.py:114-133 | fails exactly when no yield exists; otherwise maps exactly the tickers, each to rf + beta · premium |
| Text.Strip | ChatGPT/ApiGpt.py:31 | the result neither starts nor ends with whitespace and is no longer than the input |
| Text.StripDecomposes | ChatGPT/ApiGpt.py:31 | the input is whitespace, then the result, then whitespace: only whitespace is removed |
| Text.StripPadded | ChatGPT/ApiGpt.py:31 | a stripped string padded with whitespace on both sides strips back to itself |
| Text.StripIdempotent | ChatGPT/ApiGpt.py:31 | stripping twice is stripping once |
| Text.FindFrom | ChatGPT/ApiGpt.py:29-30 | the first literal occurrence of an escaped tag at or after a position, or None when there is none |
| ApiGpt.FirstMatch | ChatGPT/ApiGpt.py:29-30 | the match findall lists first (leftmost start tag, then the shortest lazy group), or None exactly when the pattern matches nowhere |
| ApiGpt.ExtractTextBetweenTags | ChatGPT/ApiGpt.py:27-31 | the stripped group of the first match, "" when there is no match; the result is always stripped |
| ApiGpt.FirstMatchAtFirstStartTag | ChatGPT/ApiGpt.py:29-30 | no start tag occurs before the first match |
| ApiGpt.CapturedHasNoEndTag | ChatGPT/ApiGpt.py:29 | no end tag begins inside the captured group (the lazy group stops at the nearest end tag) |
| ApiGpt.RoundTrip | ChatGPT/ApiGpt.py:27-31 | start tag + s + end tag extracts to strip(s) when no end tag begins inside s |
| OpenAiFunctions.ExtractTextBetweenTags | OpenAi/functions.py:24-27 | the same extraction as ApiGpt's, with the tags defaulting to `[stocks]` and `[/stocks]`; the result is stripped |
| OpenAiFunctions.StocksBlock | OpenAi/functions.py:24-27 | with the default tags, `[stocks]s[/stocks]` gives strip(s), and a reply with no complete block gives "" |
| OpenAiPrompt.IndustryAndSectorAnalysis | OpenAi/prompt.py:2-8 | fixed opening; the "focusing on {focus}, " clause appears exactly when the focus is non-empty; ends with the timeframe (default "long-term") and "investment horizon?" |
| OpenAiPrompt.IndustryAndSectorAnalysisDefaults | OpenAi/prompt.py:6-7 | an empty risk tolerance reads as "a balanced", an empty timeframe as "long-term" |
| OpenAiPrompt.IndustryAndSectorAnalysisInjective | OpenAi/prompt.py:2-8 | changing one argument alone (after defaults) changes the prompt |
| OpenAiPrompt.FinancialNewsSummary | OpenAi/prompt.py:10-16 | fixed opening; the "in {sector} sectors " clause appears exactly when the sector is non-empty; ends with the timeframe (default "long-term growth") |
| OpenAiPrompt.FinancialNewsSummaryDefaults | OpenAi/prompt.py:14-15 | an empty risk tolerance reads as "moderate-risk", an empty timeframe as "long-term growth" |
| OpenAiPrompt.FinancialNewsSummaryInjective | OpenAi/prompt.py:10-16 | changing one argument alone (after defaults) changes the prompt |
| OpenAiPrompt.AnalystReportsSummary | OpenAi/prompt.py:18-24 | fixed opening; the "in the {sector} sectors, " clause appears exactly when the sector is non-empty; ends with the risk tolerance (default "moderate") |
| OpenAiPrompt.AnalystReportsSummaryDefaults | OpenAi/prompt.py:22-23 | an empty timeframe reads as "long-term growth", an empty risk tolerance as "moderate" |
| OpenAiPrompt.AnalystReportsSummaryInjective | OpenAi/prompt.py:18-24 | changing one argument alone (after defaults) changes the prompt |
| OpenAiPrompt.EsgFactorAnalysis | OpenAi/prompt.py:26-31 | fixed opening, the sector (default "various"), and the closing naming the investment values (default "ethical and sustainable investing") |
| OpenAiPrompt.EsgFactorAnalysisDefaults | OpenAi/prompt.py:28-30 | an empty sector reads as "various", empty values as "ethical and sustainable investing" |
| OpenAiPrompt.EsgFactorAnalysisInjective | OpenAi/prompt.py:26-31 | changing one argument alone (after defaults) changes the prompt |
| OpenAiPrompt.RegulatoryDevelopmentsSummary | OpenAi/prompt.py:33-38 | fixed opening, the sector (default "various"), and the closing naming the global focus (default "key markets globally") |
| OpenAiPrompt.RegulatoryDevelopmentsSummaryDefaults | OpenAi/prompt.py:35-37 | an empty sector reads as "various", an empty global focus as "key markets globally" |
| OpenAiPrompt.RegulatoryDevelopmentsSummaryInjective | OpenAi/prompt.py:33-38 | changing one argument alone (after defaults) changes the prompt |
| OpenAiPrompt.GenerateStockSymbolsPrompt | OpenAi/prompt.py:40-55 | begins with the introduction and the five numbered insights verbatim, each followed by a newline; ends with the request naming the timeframe and the risk tolerance |
| OpenAiPrompt.GenerateStockSymbolsPromptInjective | OpenAi/prompt.py:40-55 | equal prompts built from insights and timeframes of equal lengths come from the same arguments |

## Left out

- **pypfopt.** The library's code is not part of this model. This covers `risk_models.sample_cov`, `black_litterman.market_implied_risk_aversion`, `BlackLittermanModel`, `bl_returns`, `bl_cov`, `EfficientFrontier`, `max_sharpe`, `clean_weights` and `portfolio_performance`.
  - `Sigma` and the prior are inputs.
  - The posterior optimisation is the function parameter `solve` of `OptimizeWithBlackLitterman`.
  - The risk-aversion `delta` (`PortfolioOptimizer/BlackLitterman.py:16`) is computed but never used by the code, so it is not modelled.
- **Market data fetching (I/O).** `MarketDataProvider.get_data` is not part of this model. Bill yields, index closes and per-ticker data are parameters.
  - The prior is a parameter of the Black–Litterman constructor, so the `CapmCalculator` call with the data's first and last dates (`PortfolioOptimizer/BlackLitterman.py:20-22`) is not modelled.
  - The price DataFrame itself (line 14) is not stored.
- **pandas alignment in `calculate_beta`.** The monthly `resample`/`align` and the DataFrame-or-Series checks (`PortfolioOptimizer/ExpectedReturnCalculator.py:69-96`) are not modelled. Each ticker's data is given as "no data" or as the aligned monthly return pairs.
- ExpectedReturnCalculator.DailyReturns: does not model pandas' float arithmetic.
  - Several numpy outcomes are collapsed into one non-finite state: a zero-to-zero step (NaN), which `dropna` removes, and a zero-to-non-zero step (±inf), which makes the whole mean non-finite.
  - An infinite mean is therefore not told apart from NaN.
- ExpectedReturnCalculator.RiskFreeRate: the yields DataFrame's one column is a sequence, so the `isinstance(val, pd.Series)` branch (lines 39-40) is the same value.
- **Floating point.** All arithmetic is exact over `real`. Rounding, overflow and the distinction between NaN and ±inf are not modelled.
- ExpectedReturnCalculator.CalculateExpectedReturn: returns a `map`, so the order and the name of the `pd.Series` the source builds (tickers in first-insertion order) are not modelled. `OptimizeWithBlackLitterman`'s `solve` therefore receives the prior as that map, without the order that lines it up with `Sigma`'s rows; that alignment is not modelled.
- **Q's shape.** `Q` is a `len(views)`-by-1 array in numpy and a vector of `len(views)` entries here.
- **Malformed views.** A view dictionary without the keys its type needs raises `KeyError` in the source. A `View` datatype value always carries its keys, so this case is not modelled. A view type other than "absolute" and "relative" is `OtherType`.
- BlackLitterman.BlackLitterman.Init / New / SetOmegaProportionalToPrior: require `Sigma` to be square. `sample_cov` always returns a square matrix; a non-square `Sigma` is not modelled.
- BlackLitterman.BlackLitterman.OptimizeWithBlackLitterman: only the precondition logic and what is handed to the solver are stated. The shape checks and errors raised inside pypfopt are not modelled.
- ApiGpt.ExtractTextBetweenTags: `re.escape` is modelled by matching the tags literally, which is what escaping achieves. The regular-expression engine itself is not modelled.
- OpenAiFunctions.ExtractTextBetweenTags: defined through `ApiGpt.ExtractTextBetweenTags`, because the two functions' code is the same apart from the default tags.
- OpenAiPrompt.GenerateStockSymbolsPromptInjective: assumes equal insight and timeframe lengths. Without that, different arguments can give the same text, because each insight is embedded verbatim and may itself contain a heading.
- **Text.Strip.** Whitespace is the set of characters Python's `str.isspace()` accepts. Unicode normalisation and surrogate handling are not modelled.
- **The assistant API calls.** `ApiGpt.call_gpt` (`ChatGPT/ApiGpt.py:13`), `callGpt` (`OpenAi/functions.py:10`) and the prompt template classes under `ChatGPT/` are not part of this model: they are network calls or text templates with no logic.
- **Other components.** `HRPCalculator`, the Monte Carlo simulator (random draws), `MeanOptimizer`, `EfficientFrontierCalculator`, `ManageTickers`, the GUI views and the web app are not part of this model.
