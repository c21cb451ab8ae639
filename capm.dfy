/**
 * The CAPM prior of `PortfolioOptimizer/ExpectedReturnCalculator.py` (`CapmCalculator`):
 * expected return = risk-free rate + beta * (market return - risk-free rate), per ticker.
 * Market data arrives already fetched: the 3-month bill yields, the daily index closes and,
 * per ticker, the monthly stock and market returns after the inner join on dates.
 */
module ExpectedReturnCalculator {
  import opened Wrappers

  /**
   * A float as numpy leaves it: a finite real, or `NaN`, which stands for every
   * non-finite outcome (NaN and both infinities) of an undefined quotient or mean.
   */
  datatype Num = Real(value: real) | NaN

  function Add(a: Num, b: Num): Num {
    if a.Real? && b.Real? then Real(a.value + b.value) else NaN
  }

  function Sub(a: Num, b: Num): Num {
    if a.Real? && b.Real? then Real(a.value - b.value) else NaN
  }

  /** A product with a non-finite factor is non-finite, even against 0.0 (`0.0 * nan` is `nan`). */
  function Mul(a: Num, b: Num): Num {
    if a.Real? && b.Real? then Real(a.value * b.value) else NaN
  }

  /** Division by zero gives `inf` or `nan` in numpy: never a finite number. */
  function Div(a: Num, b: Num): Num {
    if a.Real? && b.Real? && b.value != 0.0 then Real(a.value / b.value) else NaN
  }

  /** The typical number of trading days in a year, used to annualise the daily market return. */
  const TradingDaysPerYear: nat := 252

  /** `iloc[-1]` on an empty yield series raises `IndexError`. */
  datatype CapmError = NoYieldObservation

  // ---------------------------------------------------------------------------
  // Risk-free rate

  /** `calculate_risk_free_rate`: the last observed 3-month bill yield, in percent, as a decimal. */
  function RiskFreeRate(billYields: seq<real>): (r: Result<real, CapmError>)
    ensures r.Err? <==> billYields == []
    ensures r.Ok? ==> r.value * 100.0 == billYields[|billYields| - 1]
  {
    if billYields == [] then Err(NoYieldObservation) else Ok(billYields[|billYields| - 1] / 100.0)
  }

  /** The source's test: a last yield of 2.0 percent is a rate of 0.02. */
  lemma RiskFreeRateOfTwoPercent(earlier: seq<real>)
    ensures RiskFreeRate(earlier + [2.0]) == Ok(0.02)
  {
  }

  // ---------------------------------------------------------------------------
  // Market return

  function Sum(xs: seq<real>): real {
    if xs == [] then 0.0 else xs[0] + Sum(xs[1..])
  }

  function Mean(xs: seq<real>): real
    requires xs != []
  {
    Sum(xs) / (|xs| as real)
  }

  function Pow(x: real, n: nat): real {
    if n == 0 then 1.0 else x * Pow(x, n - 1)
  }

  /**
   * `pct_change().dropna()` on daily closes: `p[t] / p[t-1] - 1` for each day after the first.
   * A step from a zero close to a zero close is `nan` and is dropped; a step from a zero close
   * to a non-zero one is infinite, which makes the whole computation non-finite (`None`).
   */
  function DailyReturns(prices: seq<real>): (r: Option<seq<real>>)
    ensures r.Some? && |prices| >= 2 ==> |r.value| <= |prices| - 1
    ensures r.Some? && |prices| < 2 ==> r.value == []
  {
    if |prices| < 2 then Some([])
    else
      match DailyReturns(prices[..|prices| - 1])
      case None => None
      case Some(rs) =>
        var prev, cur := prices[|prices| - 2], prices[|prices| - 1];
        if prev != 0.0 then Some(rs + [cur / prev - 1.0])
        else if cur == 0.0 then Some(rs)
        else None
  }

  /** With no zero close, day `t + 1`'s return is `p[t + 1] / p[t] - 1`, one per day after the first. */
  lemma {:induction false} DailyReturnsOfNonzeroPrices(prices: seq<real>)
    requires |prices| >= 2
    requires forall t :: 0 <= t < |prices| ==> prices[t] != 0.0
    ensures DailyReturns(prices).Some? && |DailyReturns(prices).value| == |prices| - 1
    ensures forall t :: 0 <= t < |prices| - 1 ==> DailyReturns(prices).value[t] == prices[t + 1] / prices[t] - 1.0
  {
    if |prices| > 2 {
      DailyReturnsOfNonzeroPrices(prices[..|prices| - 1]);
    }
  }

  /** A zero close followed by a non-zero one is an infinite return: nothing after it is finite. */
  lemma {:induction false} DailyReturnsUndefined(prices: seq<real>)
    ensures DailyReturns(prices).None? <==>
      exists t :: 0 <= t < |prices| - 1 && prices[t] == 0.0 && prices[t + 1] != 0.0
  {
    if |prices| >= 2 {
      var front := prices[..|prices| - 1];
      DailyReturnsUndefined(front);
      if exists t :: 0 <= t < |front| - 1 && front[t] == 0.0 && front[t + 1] != 0.0 {
        var t :| 0 <= t < |front| - 1 && front[t] == 0.0 && front[t + 1] != 0.0;
        assert prices[t] == 0.0 && prices[t + 1] != 0.0;
      }
      if exists t :: 0 <= t < |prices| - 1 && prices[t] == 0.0 && prices[t + 1] != 0.0 {
        var t :| 0 <= t < |prices| - 1 && prices[t] == 0.0 && prices[t + 1] != 0.0;
        if t < |front| - 1 {
          assert front[t] == 0.0 && front[t + 1] != 0.0;
        }
      }
    }
  }

  /** A zero close followed by another zero close is `nan`, which `dropna` removes. */
  lemma DailyReturnsDropZeroToZero(prices: seq<real>)
    requires prices != [] && prices[|prices| - 1] == 0.0
    ensures DailyReturns(prices + [0.0]) == DailyReturns(prices)
  {
    assert (prices + [0.0])[..|prices|] == prices;
  }

  /** `(1 + mean daily return) ** 252 - 1`; an even power is never negative, so never below -100%. */
  function AnnualizedReturn(meanDailyReturn: real): (r: real)
    ensures r >= -1.0
  {
    PowOfEvenExponent(1.0 + meanDailyReturn, TradingDaysPerYear / 2);
    Pow(1.0 + meanDailyReturn, TradingDaysPerYear) - 1.0
  }

  lemma {:induction false} PowOfEvenExponent(x: real, k: nat)
    ensures Pow(x, 2 * k) >= 0.0
  {
    if k > 0 {
      PowOfEvenExponent(x, k - 1);
      var rest := Pow(x, 2 * (k - 1));
      assert Pow(x, 2 * k) == (x * x) * rest;
      assert x * x >= 0.0;
      assert (x * x) * rest >= 0.0;
    }
  }

  /**
   * `calculate_market_return`: the mean of no daily returns at all is `nan`, so fewer than two
   * closes give a non-finite return; a finite one is never below -100%.
   */
  function MarketReturn(prices: seq<real>): (r: Num)
    ensures |prices| < 2 ==> r == NaN
    ensures r.Real? ==> r.value >= -1.0
  {
    match DailyReturns(prices)
    case None => NaN
    case Some(rs) => if rs == [] then NaN else Real(AnnualizedReturn(Mean(rs)))
  }

  /** A zero close followed by a non-zero close makes the market return non-finite. */
  lemma MarketReturnOfZeroToNonzeroStep(prices: seq<real>, t: nat)
    requires t < |prices| - 1 && prices[t] == 0.0 && prices[t + 1] != 0.0
    ensures MarketReturn(prices) == NaN
  {
    DailyReturnsUndefined(prices);
  }

  /** `calculate_market_premium`: market return minus risk-free rate. */
  function MarketPremium(prices: seq<real>, billYields: seq<real>): (r: Result<Num, CapmError>)
    ensures r.Err? <==> billYields == []
    ensures r.Ok? ==> r.value == Sub(MarketReturn(prices), Real(RiskFreeRate(billYields).value))
  {
    match RiskFreeRate(billYields)
    case Err(e) => Err(e)
    case Ok(rf) => Ok(Sub(MarketReturn(prices), Real(rf)))
  }

  lemma {:induction false} PowOfOne(n: nat)
    ensures Pow(1.0, n) == 1.0
  {
    if n > 0 { PowOfOne(n - 1); }
  }

  lemma {:induction false} PowAboveOne(x: real, n: nat)
    requires x > 1.0 && n >= 1
    ensures Pow(x, n) > 1.0
  {
    if n > 1 {
      PowAboveOne(x, n - 1);
      assert x * Pow(x, n - 1) > 1.0 * Pow(x, n - 1);
    }
  }

  lemma {:induction false} PowBetweenZeroAndOne(x: real, n: nat)
    requires 0.0 < x < 1.0 && n >= 1
    ensures 0.0 < Pow(x, n) < 1.0
  {
    if n > 1 {
      PowBetweenZeroAndOne(x, n - 1);
      assert x * Pow(x, n - 1) < 1.0 * Pow(x, n - 1);
    }
  }

  /**
   * Annualising keeps the sign of the mean daily return: zero gives zero, a gain gives a gain,
   * and a loss of less than 100% a day gives an annual loss of less than 100%.
   */
  lemma AnnualizedReturnSign(m: real)
    ensures m == 0.0 ==> AnnualizedReturn(m) == 0.0
    ensures m > 0.0 ==> AnnualizedReturn(m) > 0.0
    ensures -1.0 < m < 0.0 ==> -1.0 < AnnualizedReturn(m) < 0.0
  {
    if m == 0.0 { PowOfOne(TradingDaysPerYear); }
    if m > 0.0 { PowAboveOne(1.0 + m, TradingDaysPerYear); }
    if -1.0 < m < 0.0 { PowBetweenZeroAndOne(1.0 + m, TradingDaysPerYear); }
  }

  lemma {:induction false} DailyReturnsOfConstantPrices(prices: seq<real>)
    requires forall t :: 0 <= t < |prices| ==> prices[t] == prices[0] != 0.0
    ensures DailyReturns(prices).Some?
    ensures forall t :: 0 <= t < |DailyReturns(prices).value| ==> DailyReturns(prices).value[t] == 0.0
    ensures |prices| >= 2 ==> |DailyReturns(prices).value| == |prices| - 1
  {
    if |prices| >= 2 {
      DailyReturnsOfConstantPrices(prices[..|prices| - 1]);
    }
  }

  lemma {:induction false} SumOfZeros(xs: seq<real>)
    requires forall t :: 0 <= t < |xs| ==> xs[t] == 0.0
    ensures Sum(xs) == 0.0
  {
    if xs != [] { SumOfZeros(xs[1..]); }
  }

  /** An index that never moves (at least two equal, non-zero closes) has a market return of 0. */
  lemma MarketReturnOfConstantPrices(prices: seq<real>)
    requires |prices| >= 2
    requires forall t :: 0 <= t < |prices| ==> prices[t] == prices[0] != 0.0
    ensures MarketReturn(prices) == Real(0.0)
  {
    DailyReturnsOfConstantPrices(prices);
    var rs := DailyReturns(prices).value;
    SumOfZeros(rs);
    AnnualizedReturnSign(Mean(rs));
  }

  // ---------------------------------------------------------------------------
  // Beta

  /** One month of the inner join: the stock's return and the market's return. */
  datatype Observation = Observation(stock: real, market: real)

  /** What `calculate_beta` has for a ticker: no price data at all, or the aligned monthly returns. */
  datatype StockData = NoData | Aligned(observations: seq<Observation>)

  function Stocks(obs: seq<Observation>): (xs: seq<real>)
    ensures |xs| == |obs|
  {
    seq(|obs|, i requires 0 <= i < |obs| => obs[i].stock)
  }

  function Markets(obs: seq<Observation>): (ys: seq<real>)
    ensures |ys| == |obs|
  {
    seq(|obs|, i requires 0 <= i < |obs| => obs[i].market)
  }

  /** The sum of `(x - mx) * (y - my)` over the observations. */
  function CrossDeviation(obs: seq<Observation>, mx: real, my: real): real {
    if obs == [] then 0.0
    else (obs[0].stock - mx) * (obs[0].market - my) + CrossDeviation(obs[1..], mx, my)
  }

  /** The sum of `(y - my) ** 2` over the observations' market returns. */
  function MarketDeviation(obs: seq<Observation>, my: real): real {
    if obs == [] then 0.0
    else (obs[0].market - my) * (obs[0].market - my) + MarketDeviation(obs[1..], my)
  }

  /** `np.cov(stock, market)[0, 1]`: the divisor is `n - 1`; a single observation gives `nan`. */
  function SampleCovariance(obs: seq<Observation>): Num
    requires obs != []
  {
    if |obs| == 1 then NaN
    else Real(CrossDeviation(obs, Mean(Stocks(obs)), Mean(Markets(obs))) / ((|obs| - 1) as real))
  }

  /** `np.var(market)`: the divisor is `n`. */
  function MarketVariance(obs: seq<Observation>): real
    requires obs != []
  {
    MarketDeviation(obs, Mean(Markets(obs))) / (|obs| as real)
  }

  /** The beta `calculate_beta` records for one ticker (the specification of its loop body). */
  function Beta(data: StockData): (r: Num)
    ensures data.Aligned? && data.observations != [] ==>
      (r == NaN <==> |data.observations| == 1 || MarketVariance(data.observations) == 0.0)
  {
    match data
    case NoData => Real(0.0)
    case Aligned(obs) =>
      if obs == [] then Real(0.0) else Div(SampleCovariance(obs), Real(MarketVariance(obs)))
  }

  /** The least-squares slope of stock on market returns, the usual definition of beta. */
  function TextbookBeta(obs: seq<Observation>): real
    requires obs != []
  {
    var mx, my := Mean(Stocks(obs)), Mean(Markets(obs));
    if MarketDeviation(obs, my) == 0.0 then 0.0 else CrossDeviation(obs, mx, my) / MarketDeviation(obs, my)
  }

  /** No stock data, or no month shared with the market, gives beta 0.0. */
  lemma BetaFallback(data: StockData)
    requires data.NoData? || data.observations == []
    ensures Beta(data) == Real(0.0)
  {
  }

  /**
   * Mixing `np.cov` (divisor n - 1) with `np.var` (divisor n) scales beta by n / (n - 1):
   * with two or more months and a market that moves, beta is n / (n - 1) times the
   * least-squares slope; otherwise it is not finite.
   */
  lemma BetaRatio(obs: seq<Observation>)
    requires obs != []
    ensures |obs| >= 2 && MarketVariance(obs) != 0.0 ==>
      Beta(Aligned(obs)) == Real((|obs| as real) / ((|obs| - 1) as real) * TextbookBeta(obs))
    ensures |obs| < 2 || MarketVariance(obs) == 0.0 ==> Beta(Aligned(obs)) == NaN
  {
    var n := |obs| as real;
    var my := Mean(Markets(obs));
    var sxy := CrossDeviation(obs, Mean(Stocks(obs)), my);
    var syy := MarketDeviation(obs, my);
    if |obs| >= 2 && MarketVariance(obs) != 0.0 {
      assert syy != 0.0;
      assert (sxy / (n - 1.0)) / (syy / n) == n / (n - 1.0) * (sxy / syy);
    }
  }

  lemma {:induction false} CrossDeviationOfMarket(obs: seq<Observation>, m: real)
    requires forall i :: 0 <= i < |obs| ==> obs[i].stock == obs[i].market
    ensures CrossDeviation(obs, m, m) == MarketDeviation(obs, m)
  {
    if obs != [] { CrossDeviationOfMarket(obs[1..], m); }
  }

  /** The source's beta of the market against itself is n / (n - 1), not 1. */
  lemma BetaOfMarketItself(obs: seq<Observation>)
    requires |obs| >= 2 && MarketVariance(obs) != 0.0
    requires forall i :: 0 <= i < |obs| ==> obs[i].stock == obs[i].market
    ensures Beta(Aligned(obs)) == Real((|obs| as real) / ((|obs| - 1) as real))
  {
    assert Stocks(obs) == Markets(obs);
    var my := Mean(Markets(obs));
    var syy := MarketDeviation(obs, my);
    assert syy != 0.0 by {
      assert MarketVariance(obs) == syy / (|obs| as real);
    }
    CrossDeviationOfMarket(obs, my);
    assert CrossDeviation(obs, Mean(Stocks(obs)), my) == syy;
    assert TextbookBeta(obs) == syy / syy == 1.0;
    BetaRatio(obs);
  }

  /** `calculate_beta`: one entry per input ticker, each the beta of that ticker's data. */
  method CalculateBeta(tickers: seq<string>, stockData: string -> StockData) returns (betas: map<string, Num>)
    ensures betas.Keys == set t | t in tickers
    ensures forall t :: t in betas ==> betas[t] == Beta(stockData(t))
  {
    betas := map[];
    var i := 0;
    while i < |tickers|
      invariant i <= |tickers|
      invariant betas.Keys == set t | t in tickers[..i]
      invariant forall t :: t in betas ==> betas[t] == Beta(stockData(t))
    {
      var ticker := tickers[i];
      var data := stockData(ticker);
      if data.NoData? {
        betas := betas[ticker := Real(0.0)];
      } else if data.observations == [] {
        betas := betas[ticker := Real(0.0)];
      } else {
        var covariance := SampleCovariance(data.observations);
        var marketVariance := MarketVariance(data.observations);
        betas := betas[ticker := Div(covariance, Real(marketVariance))];
      }
      assert tickers[..i + 1] == tickers[..i] + [ticker];
      i := i + 1;
    }
    assert tickers[..i] == tickers;
  }

  // ---------------------------------------------------------------------------
  // Expected return

  /** The CAPM formula `rf + beta * premium`. */
  function CapmReturn(riskFreeRate: real, premium: Num, beta: Num): (r: Num)
    ensures r == NaN <==> premium == NaN || beta == NaN
    ensures r.Real? ==> r.value - riskFreeRate == beta.value * premium.value
  {
    Add(Real(riskFreeRate), Mul(beta, premium))
  }

  /**
   * With a finite premium, beta 0 earns the risk-free rate and beta 1 earns the market return;
   * a non-finite premium makes every expected return non-finite, beta 0 included.
   */
  lemma CapmReturnAnchors(prices: seq<real>, billYields: seq<real>)
    requires billYields != [] && MarketReturn(prices).Real?
    ensures CapmReturn(RiskFreeRate(billYields).value, MarketPremium(prices, billYields).value, Real(0.0)) == Real(RiskFreeRate(billYields).value)
    ensures CapmReturn(RiskFreeRate(billYields).value, MarketPremium(prices, billYields).value, Real(1.0)) == MarketReturn(prices)
  {
  }

  lemma CapmReturnOfNaNPremium(riskFreeRate: real, beta: Num)
    ensures CapmReturn(riskFreeRate, NaN, beta) == NaN
  {
  }

  /**
   * `calculate_expected_return`: fails exactly when no yield was observed; otherwise maps
   * exactly the tickers (the keys of the beta map) to `rf + beta * premium`.
   */
  method CalculateExpectedReturn(tickers: seq<string>, billYields: seq<real>, marketPrices: seq<real>,
                                 stockData: string -> StockData)
    returns (r: Result<map<string, Num>, CapmError>)
    ensures r.Err? <==> billYields == []
    ensures r.Ok? ==> r.value.Keys == set t | t in tickers
    ensures r.Ok? ==> forall t :: t in r.value ==>
              r.value[t] == CapmReturn(RiskFreeRate(billYields).value, MarketPremium(marketPrices, billYields).value, Beta(stockData(t)))
  {
    var rf := RiskFreeRate(billYields);
    if rf.Err? {
      return Err(rf.error);
    }
    var riskFreeRate := rf.value;
    var premium := MarketPremium(marketPrices, billYields).value;
    var betas := CalculateBeta(tickers, stockData);
    var expected: map<string, Num> := map[];
    var remaining := betas.Keys;
    while remaining != {}
      invariant remaining <= betas.Keys
      invariant expected.Keys == betas.Keys - remaining
      invariant forall t :: t in expected ==> expected[t] == CapmReturn(riskFreeRate, premium, betas[t])
      decreases remaining
    {
      var ticker :| ticker in remaining;
      expected := expected[ticker := Add(Real(riskFreeRate), Mul(betas[ticker], premium))];
      remaining := remaining - {ticker};
    }
    return Ok(expected);
  }
}
