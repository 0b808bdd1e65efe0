/**
 * The profit engine: constant-product swap output, the profit breakdown of a
 * two-leg arbitrage, the go/no-go threshold, trade sizing, slippage, price
 * impact, the staleness gate, the break-even gas price and the ranking score.
 *
 * Every operation is a pure function of its arguments and of the bot
 * configuration. Arithmetic is BigNumber arithmetic (module BigNum), so a
 * division by zero yields an infinity or NaN instead of being excluded.
 */
module ProfitCalculator {
  import opened Wrappers
  import opened BigNum

  /** The per-leg DEX fee, 0.3%. `1 - dexFee` is the JavaScript number 0.997. */
  const DexFee: real := 0.003
  /** The flashloan fee rate: only zero-fee providers are used. */
  const FlashloanFeeRate: real := 0.0
  /** The gas-limit estimate of one arbitrage transaction. */
  const GasLimit: real := 500000.0
  /** Wei per ether, 1e18. */
  const WeiPerEther: real := 1000000000000000000.0
  /** The default maximum age of an opportunity, in milliseconds. */
  const DefaultMaxAge: int := 5000

  /** The fields of an arbitrage opportunity that the engine reads. */
  datatype Opportunity = Opportunity(buyPrice: real, sellPrice: real, timestamp: int)

  datatype ReservePair = ReservePair(reserveIn: real, reserveOut: real)

  /** The optional `reserves` argument; a leg may be missing. */
  datatype Reserves = Reserves(buyDex: Option<ReservePair>, sellDex: Option<ReservePair>)

  /** The `config.bot` values the engine reads. */
  datatype BotConfig = BotConfig(maxTradeSize: real, minProfitThreshold: real)

  datatype ProfitBreakdown = ProfitBreakdown(
    grossProfit: Num, flashloanFee: Num, gasCost: Num, netProfit: Num, profitPercentage: Num)

  datatype PriceImpact = PriceImpact(priceImpact: Num, executionPrice: Num, expectedOutput: Num)

  /** `ethers.BigNumber.from` refuses the text of a non-finite value. */
  datatype ConversionError = NotAnInteger(text: Num)

  // ---------------------------------------------------------------------------
  // Constant-product output

  /**
   * Uniswap V2 `getAmountOut` without integer truncation:
   * amountIn * 997 * reserveOut / (reserveIn * 1000 + amountIn * 997).
   * For positive reserves and a non-negative input the output is a finite
   * value in [0, reserveOut): the pool can never be drained.
   */
  function CalculateAmountOut(amountIn: Num, reserveIn: Num, reserveOut: Num): (r: Num)
    ensures amountIn.Fin? && reserveIn.Fin? && reserveOut.Fin?
            && amountIn.v >= 0.0 && reserveIn.v > 0.0 && reserveOut.v > 0.0
            ==> r.Fin? && 0.0 <= r.v < reserveOut.v
    ensures amountIn.Fin? && reserveIn.Fin? && reserveOut.Fin?
            && reserveIn.v * 1000.0 + amountIn.v * 997.0 == 0.0
            ==> !r.Fin?
  {
    var amountInWithFee := Times(amountIn, Fin(997.0));
    var numerator := Times(amountInWithFee, reserveOut);
    var denominator := Plus(Times(reserveIn, Fin(1000.0)), amountInWithFee);
    var out := DividedBy(numerator, denominator);
    if amountIn.Fin? && reserveIn.Fin? && reserveOut.Fin?
       && amountIn.v >= 0.0 && reserveIn.v > 0.0 && reserveOut.v > 0.0 then
      AmountOutBelowReserve(amountIn.v, reserveIn.v, reserveOut.v);
      out
    else
      out
  }

  /** The exact rational the formula denotes, when its denominator is not zero. */
  function AmountOutFormula(a: real, rIn: real, rOut: real): real
    requires rIn * 1000.0 + a * 997.0 != 0.0
  {
    a * 997.0 * rOut / (rIn * 1000.0 + a * 997.0)
  }

  lemma AmountOutBelowReserve(a: real, rIn: real, rOut: real)
    requires a >= 0.0 && rIn > 0.0 && rOut > 0.0
    ensures 0.0 <= AmountOutFormula(a, rIn, rOut) < rOut
  {
    var d := rIn * 1000.0 + a * 997.0;
    assert d > a * 997.0;
    var q := a * 997.0 / d;
    assert 0.0 <= q < 1.0 by {
      assert a * 997.0 == q * d;
    }
    assert AmountOutFormula(a, rIn, rOut) == q * rOut;
  }

  /** On finite arguments with a non-zero denominator, the BigNumber computation is the rational formula. */
  lemma AmountOutExact(a: real, rIn: real, rOut: real)
    requires rIn * 1000.0 + a * 997.0 != 0.0
    ensures CalculateAmountOut(Fin(a), Fin(rIn), Fin(rOut)) == Fin(AmountOutFormula(a, rIn, rOut))
  {
  }

  /** A zero input yields zero output whenever the input reserve is non-zero. */
  lemma AmountOutOfZero(rIn: real, rOut: real)
    requires rIn != 0.0
    ensures CalculateAmountOut(Fin(0.0), Fin(rIn), Fin(rOut)) == Fin(0.0)
  {
    var d := rIn * 1000.0 + 0.0 * 997.0;
    assert d != 0.0;
    assert 0.0 * 997.0 * rOut == 0.0;
    DivisionByProduct(0.0, d, 0.0);
    assert AmountOutFormula(0.0, rIn, rOut) == 0.0;
    AmountOutExact(0.0, rIn, rOut);
  }

  /** A larger input buys strictly more output from the same pool. */
  lemma AmountOutIncreasing(a: real, b: real, rIn: real, rOut: real)
    requires 0.0 <= a < b && rIn > 0.0 && rOut > 0.0
    ensures CalculateAmountOut(Fin(a), Fin(rIn), Fin(rOut)).v < CalculateAmountOut(Fin(b), Fin(rIn), Fin(rOut)).v
  {
    AmountOutExact(a, rIn, rOut);
    AmountOutExact(b, rIn, rOut);
    FormulaIncreasing(a, b, rIn, rOut);
  }

  lemma FormulaIncreasing(a: real, b: real, rIn: real, rOut: real)
    requires 0.0 <= a < b && rIn > 0.0 && rOut > 0.0
    ensures AmountOutFormula(a, rIn, rOut) < AmountOutFormula(b, rIn, rOut)
  {
    var c := rIn * 1000.0;
    var da := c + a * 997.0;
    var db := c + b * 997.0;
    var k := 997.0 * rOut;
    assert a * c < b * c;
    assert a * db == a * c + a * b * 997.0;
    assert b * da == b * c + a * b * 997.0;
    ScaleLess(a * db, b * da, k);
    var x, y := a * 997.0 * rOut, b * 997.0 * rOut;
    assert x == a * k && y == b * k;
    assert x * db == (a * db) * k;
    assert y * da == (b * da) * k;
    QuotientLess(x, da, y, db);
  }

  /** x / dx < y / dy follows from x * dy < y * dx for positive denominators. */
  lemma QuotientLess(x: real, dx: real, y: real, dy: real)
    requires dx > 0.0 && dy > 0.0 && x * dy < y * dx
    ensures x / dx < y / dy
  {
    var p, q := x / dx, y / dy;
    assert x == p * dx;
    assert y == q * dy;
    assert p * (dx * dy) < q * (dx * dy);
  }

  lemma ScaleLess(p: real, q: real, k: real)
    requires p < q && k > 0.0
    ensures p * k < q * k
  {
  }

  // ---------------------------------------------------------------------------
  // Profit

  /** True when both legs of the reserves are present (`reserves && reserves.buyDex && reserves.sellDex`). */
  predicate HasBothLegs(reserves: Option<Reserves>) {
    reserves.Some? && reserves.value.buyDex.Some? && reserves.value.sellDex.Some?
  }

  /**
   * The amount held after both swaps: the constant-product formula across
   * the buy leg and then the sell leg when both reserve pairs are given,
   * otherwise the price ratio with the DEX fee taken on each leg.
   */
  function FinalAmount(opp: Opportunity, amount: Num, reserves: Option<Reserves>): Num {
    if HasBothLegs(reserves) then
      var buy := reserves.value.buyDex.value;
      var sell := reserves.value.sellDex.value;
      var buyOutput := CalculateAmountOut(amount, Fin(buy.reserveIn), Fin(buy.reserveOut));
      CalculateAmountOut(buyOutput, Fin(sell.reserveIn), Fin(sell.reserveOut))
    else
      var buyAmount := Times(amount, Fin(1.0 - DexFee));
      var sellAmount := DividedBy(Times(buyAmount, Fin(opp.sellPrice)), Fin(opp.buyPrice));
      Times(sellAmount, Fin(1.0 - DexFee))
  }

  /** Gas cost in ether: gasPrice (wei) times the gas limit, over 1e18. */
  function GasCost(gasPrice: real): Num {
    DividedBy(Times(Fin(gasPrice), Fin(GasLimit)), Fin(WeiPerEther))
  }

  /** `calculateProfit(opportunity, tradeAmount, gasPrice, reserves)`. */
  function CalculateProfit(opp: Opportunity, tradeAmount: real, gasPrice: real, reserves: Option<Reserves>): (r: ProfitBreakdown)
    ensures r.flashloanFee == Fin(0.0)
    ensures r.gasCost == Fin(gasPrice * 500000.0 / 1000000000000000000.0)
    ensures r.netProfit == Minus(Minus(r.grossProfit, r.flashloanFee), r.gasCost)
    ensures tradeAmount == 0.0 ==> !r.profitPercentage.Fin?
  {
    var amount := Fin(tradeAmount);
    var finalAmount := FinalAmount(opp, amount, reserves);
    var flashloanFeeAmount := Times(amount, Fin(FlashloanFeeRate));
    var netAmount := Minus(Minus(finalAmount, amount), flashloanFeeAmount);
    var gasCost := GasCost(gasPrice);
    var profit := Minus(netAmount, gasCost);
    GasCostExact(gasPrice);
    assert flashloanFeeAmount == Fin(0.0);
    assert tradeAmount == 0.0 ==> !DividedBy(profit, amount).Fin?;
    ProfitBreakdown(
      Minus(finalAmount, amount),
      flashloanFeeAmount,
      gasCost,
      profit,
      Times(DividedBy(profit, amount), Fin(100.0)))
  }

  /** With both legs present, the final amount is the buy-leg output fed into the sell leg. */
  lemma TwoLegComposition(opp: Opportunity, tradeAmount: real, gasPrice: real, buy: ReservePair, sell: ReservePair)
    ensures var p := CalculateProfit(opp, tradeAmount, gasPrice, Some(Reserves(Some(buy), Some(sell))));
            var final := CalculateAmountOut(CalculateAmountOut(Fin(tradeAmount), Fin(buy.reserveIn), Fin(buy.reserveOut)),
                                            Fin(sell.reserveIn), Fin(sell.reserveOut));
            p.grossProfit == Minus(final, Fin(tradeAmount))
  {
  }

  /**
   * With positive reserves on both legs and a positive trade the two-leg
   * result is finite, and the gross profit is the exact composition of the
   * two rational formulas minus the trade amount.
   */
  lemma {:induction false} TwoLegExact(opp: Opportunity, tradeAmount: real, buy: ReservePair, sell: ReservePair)
    requires tradeAmount > 0.0 && buy.reserveIn > 0.0 && buy.reserveOut > 0.0
    requires sell.reserveIn > 0.0 && sell.reserveOut > 0.0
    ensures var mid := AmountOutFormula(tradeAmount, buy.reserveIn, buy.reserveOut);
            && 0.0 <= mid < buy.reserveOut
            && FinalAmount(opp, Fin(tradeAmount), Some(Reserves(Some(buy), Some(sell))))
               == Fin(AmountOutFormula(mid, sell.reserveIn, sell.reserveOut))
  {
    var mid := AmountOutFormula(tradeAmount, buy.reserveIn, buy.reserveOut);
    AmountOutBelowReserve(tradeAmount, buy.reserveIn, buy.reserveOut);
    AmountOutExact(tradeAmount, buy.reserveIn, buy.reserveOut);
    assert sell.reserveIn * 1000.0 + mid * 997.0 > 0.0;
    AmountOutExact(mid, sell.reserveIn, sell.reserveOut);
  }

  /** Without both legs, the final amount is amount * 0.997 * sellPrice / buyPrice * 0.997. */
  lemma SimplifiedFinalAmount(opp: Opportunity, tradeAmount: real, reserves: Option<Reserves>)
    requires !HasBothLegs(reserves) && opp.buyPrice != 0.0
    ensures FinalAmount(opp, Fin(tradeAmount), reserves)
            == Fin(tradeAmount * 0.997 * opp.sellPrice / opp.buyPrice * 0.997)
  {
  }

  /**
   * Whenever the final amount is finite and the trade amount is not zero, the
   * breakdown is: gross = final - amount, fee = 0, gas = gasPrice * 500000 / 1e18,
   * net = gross - fee - gas, and percentage = net / amount * 100.
   */
  lemma {:induction false} ProfitBreakdownExact(opp: Opportunity, tradeAmount: real, gasPrice: real, reserves: Option<Reserves>)
    requires FinalAmount(opp, Fin(tradeAmount), reserves).Fin? && tradeAmount != 0.0
    ensures var final := FinalAmount(opp, Fin(tradeAmount), reserves).v;
            var p := CalculateProfit(opp, tradeAmount, gasPrice, reserves);
            var gas := gasPrice * 500000.0 / 1000000000000000000.0;
            && p.grossProfit == Fin(final - tradeAmount)
            && p.flashloanFee == Fin(0.0)
            && p.gasCost == Fin(gas)
            && p.netProfit == Fin(final - tradeAmount - 0.0 - gas)
            && p.profitPercentage == Fin((final - tradeAmount - gas) / tradeAmount * 100.0)
  {
    var final := FinalAmount(opp, Fin(tradeAmount), reserves).v;
    var gas := gasPrice * 500000.0 / 1000000000000000000.0;
    assert Times(Fin(tradeAmount), Fin(FlashloanFeeRate)) == Fin(0.0);
    assert GasCost(gasPrice) == Fin(gas);
  }

  /**
   * `isProfitable`: the breakdown is evaluated at the configured maximum
   * trade size, or 1 when that is zero (falsy), and the answer is whether
   * the net profit strictly exceeds the minimum threshold.
   */
  function TradeAmountOf(cfg: BotConfig): (amount: real)
    ensures amount != 0.0
    ensures cfg.maxTradeSize != 0.0 ==> amount == cfg.maxTradeSize
    ensures cfg.maxTradeSize == 0.0 ==> amount == 1.0
  {
    if cfg.maxTradeSize != 0.0 then cfg.maxTradeSize else 1.0
  }

  /**
   * A finite net profit passes exactly when it is strictly above the
   * threshold; an infinite positive one always passes; NaN and -Infinity
   * never do.
   */
  predicate IsProfitable(opp: Opportunity, gasPrice: real, reserves: Option<Reserves>, cfg: BotConfig): (b: bool)
    ensures var net := CalculateProfit(opp, TradeAmountOf(cfg), gasPrice, reserves).netProfit;
            b <==> (net.Fin? && net.v > cfg.minProfitThreshold) || net.PosInf?
  {
    ExceedsThreshold(CalculateProfit(opp, TradeAmountOf(cfg), gasPrice, reserves).netProfit, cfg.minProfitThreshold)
  }

  /** `netProfit.isGreaterThan(minProfitThreshold)` against a finite threshold. */
  predicate ExceedsThreshold(net: Num, threshold: real): (b: bool)
    ensures b <==> (net.Fin? && net.v > threshold) || net.PosInf?
  {
    IsGreaterThan(net, Fin(threshold))
  }

  /** In particular a net profit equal to the threshold is refused. */
  lemma ThresholdIsStrict(opp: Opportunity, gasPrice: real, reserves: Option<Reserves>, cfg: BotConfig)
    requires CalculateProfit(opp, TradeAmountOf(cfg), gasPrice, reserves).netProfit == Fin(cfg.minProfitThreshold)
    ensures !IsProfitable(opp, gasPrice, reserves, cfg)
  {
  }

  // ---------------------------------------------------------------------------
  // Sizing, slippage, price impact

  /**
   * `calculateOptimalTradeSize`: the smaller of the configured maximum and
   * 80% of the available liquidity. A heuristic cap, not an optimiser.
   */
  function CalculateOptimalTradeSize(cfg: BotConfig, availableLiquidity: real): (r: Num)
    ensures r.Fin?
    ensures r.v <= cfg.maxTradeSize && r.v <= availableLiquidity * 0.8
    ensures r.v == cfg.maxTradeSize || r.v == availableLiquidity * 0.8
  {
    Min(Fin(cfg.maxTradeSize), Times(Fin(availableLiquidity), Fin(0.8)))
  }

  /**
   * `estimateSlippage`: the linear model tradeAmount / liquidity * 100.
   * For a non-zero liquidity the result times the liquidity gives back
   * a hundred times the trade; for zero liquidity it is not finite.
   */
  function EstimateSlippage(tradeAmount: real, liquidity: real): (r: Num)
    ensures liquidity != 0.0 ==> r.Fin? && r.v * liquidity == tradeAmount * 100.0
    ensures liquidity == 0.0 ==> !r.Fin?
  {
    var slippage := Times(DividedBy(Fin(tradeAmount), Fin(liquidity)), Fin(100.0));
    if liquidity != 0.0 then
      assert slippage.v == tradeAmount / liquidity * 100.0;
      slippage
    else
      slippage
  }

  /** `calculatePriceImpact`: execution price against spot price, with the same constant-product output. */
  function CalculatePriceImpact(tradeAmount: real, reserve0: real, reserve1: real): (r: PriceImpact)
    ensures tradeAmount == 0.0 ==> r.executionPrice.NaN? && r.priceImpact.NaN?
    ensures reserve0 == 0.0 ==> !r.priceImpact.Fin?
  {
    var amountIn := Fin(tradeAmount);
    var reserveIn := Fin(reserve0);
    var reserveOut := Fin(reserve1);
    var amountInWithFee := Times(amountIn, Fin(997.0));
    var numerator := Times(amountInWithFee, reserveOut);
    var denominator := Plus(Times(reserveIn, Fin(1000.0)), amountInWithFee);
    var amountOut := DividedBy(numerator, denominator);
    var executionPrice := DividedBy(amountOut, amountIn);
    var spotPrice := DividedBy(reserveOut, reserveIn);
    var priceImpact := Times(DividedBy(Minus(spotPrice, executionPrice), spotPrice), Fin(100.0));
    if tradeAmount == 0.0 then
      ZeroTradeExecutionPrice(reserve0, reserve1);
      PriceImpact(priceImpact, executionPrice, amountOut)
    else
      PriceImpact(priceImpact, executionPrice, amountOut)
  }

  /** With a zero trade the execution price is 0/0 or NaN/0: NaN either way. */
  lemma ZeroTradeExecutionPrice(reserve0: real, reserve1: real)
    ensures var withFee := Times(Fin(0.0), Fin(997.0));
            var out := DividedBy(Times(withFee, Fin(reserve1)), Plus(Times(Fin(reserve0), Fin(1000.0)), withFee));
            DividedBy(out, Fin(0.0)).NaN?
  {
    assert Times(Fin(0.0), Fin(997.0)) == Fin(0.0);
    assert Times(Fin(0.0), Fin(reserve1)) == Fin(0.0);
    if reserve0 != 0.0 {
      DivisionByProduct(0.0, reserve0 * 1000.0 + 0.0, 0.0);
    }
  }

  /** The expected output of the price-impact computation is `calculateAmountOut` on the same arguments. */
  lemma PriceImpactOutputAgrees(tradeAmount: real, reserve0: real, reserve1: real)
    ensures CalculatePriceImpact(tradeAmount, reserve0, reserve1).expectedOutput
            == CalculateAmountOut(Fin(tradeAmount), Fin(reserve0), Fin(reserve1))
  {
  }

  /**
   * For a positive trade against positive reserves the execution price is
   * positive and strictly below the spot price, and the price impact is
   * 100 * (3 * reserve0 + 997 * tradeAmount) / (1000 * reserve0 + 997 * tradeAmount):
   * strictly above the 0.3% fee and strictly below 100%.
   */
  lemma PriceImpactBounds(tradeAmount: real, reserve0: real, reserve1: real)
    requires tradeAmount > 0.0 && reserve0 > 0.0 && reserve1 > 0.0
    ensures var p := CalculatePriceImpact(tradeAmount, reserve0, reserve1);
            && p.executionPrice.Fin? && p.priceImpact.Fin?
            && 0.0 < p.executionPrice.v < reserve1 / reserve0
            && p.priceImpact.v == 100.0 * (3.0 * reserve0 + 997.0 * tradeAmount) / (1000.0 * reserve0 + 997.0 * tradeAmount)
            && 0.3 < p.priceImpact.v < 100.0
  {
    CalculatePriceImpactSteps(tradeAmount, reserve0, reserve1);
    ImpactRational(tradeAmount, reserve0, reserve1);
  }

  /** The rational content of the price-impact bounds. */
  lemma ImpactRational(a: real, r0: real, r1: real)
    requires a > 0.0 && r0 > 0.0 && r1 > 0.0
    ensures var d := r0 * 1000.0 + a * 997.0;
            var out := a * 997.0 * r1 / d;
            var exec := out / a;
            var spot := r1 / r0;
            var impact := (spot - exec) / spot * 100.0;
            && 0.0 < exec < spot
            && impact == 100.0 * (3.0 * r0 + 997.0 * a) / (1000.0 * r0 + 997.0 * a)
            && 0.3 < impact < 100.0
  {
    var d := r0 * 1000.0 + a * 997.0;
    var out := a * 997.0 * r1 / d;
    var exec := out / a;
    var spot := r1 / r0;
    var n := 3.0 * r0 + 997.0 * a;
    ExecutionPrice(a, r1, d);
    assert (997.0 * r1) * r0 < r1 * d;
    QuotientLess(997.0 * r1, d, r1, r0);
    PriceRatio(r0, r1, d);
    RelativeGap(spot, exec);
    FeeComplement(r0, d, n);
    QuotientLess(n, d, d, d);
    QuotientLess(3.0, 1000.0, n, d);
    assert 100.0 * n / d == n / d * 100.0;
  }

  lemma ExecutionPrice(a: real, r1: real, d: real)
    requires a > 0.0 && d > 0.0 && r1 > 0.0
    ensures a * 997.0 * r1 / d / a == 997.0 * r1 / d && 997.0 * r1 / d > 0.0
  {
    var e := 997.0 * r1 / d;
    assert a * 997.0 * r1 == a * (e * d);
    assert a * 997.0 * r1 / d == a * e;
  }

  lemma PriceRatio(r0: real, r1: real, d: real)
    requires r0 > 0.0 && r1 > 0.0 && d > 0.0
    ensures (997.0 * r1 / d) / (r1 / r0) == 997.0 * r0 / d
  {
    var f := 997.0 * r0 / d;
    var spot := r1 / r0;
    assert f * spot * d * r0 == 997.0 * r0 * r1;
    assert (f * spot) * d == 997.0 * r1;
  }

  lemma RelativeGap(spot: real, exec: real)
    requires spot != 0.0
    ensures (spot - exec) / spot == 1.0 - exec / spot
  {
    DivisionByProduct(spot - exec, spot, 1.0 - exec / spot);
  }

  lemma FeeComplement(r0: real, d: real, n: real)
    requires d > 0.0 && n == d - 997.0 * r0
    ensures 1.0 - 997.0 * r0 / d == n / d
  {
    DivisionByProduct(n, d, 1.0 - 997.0 * r0 / d);
  }

  /** t / s is the z with z * s == t. */
  lemma DivisionByProduct(t: real, s: real, z: real)
    requires s != 0.0 && z * s == t
    ensures t / s == z
  {
  }

  /** The BigNumber steps of the price impact, on positive arguments, are the rational ones. */
  lemma CalculatePriceImpactSteps(a: real, r0: real, r1: real)
    requires a > 0.0 && r0 > 0.0 && r1 > 0.0
    ensures var p := CalculatePriceImpact(a, r0, r1);
            var out := a * 997.0 * r1 / (r0 * 1000.0 + a * 997.0);
            && p.expectedOutput == Fin(out)
            && p.executionPrice == Fin(out / a)
            && p.priceImpact == Fin((r1 / r0 - out / a) / (r1 / r0) * 100.0)
  {
    assert r1 / r0 != 0.0;
  }

  // ---------------------------------------------------------------------------
  // Staleness

  /**
   * `isOpportunityValid(opportunity, maxAge = 5000)`: the opportunity is valid
   * while its age, `now - timestamp` in milliseconds, is below the maximum age.
   * The clock reading `now` is a parameter.
   */
  predicate IsOpportunityValid(opp: Opportunity, now: int, maxAge: Option<int>): (valid: bool)
    ensures maxAge.Some? ==> (valid <==> now - opp.timestamp < maxAge.value)
    ensures maxAge.None? ==> (valid <==> now - opp.timestamp < 5000)
  {
    var limit := if maxAge.Some? then maxAge.value else DefaultMaxAge;
    now - opp.timestamp < limit
  }

  /** Valid at age maxAge - 1, stale at age maxAge; the default limit is 5000 ms. */
  lemma StalenessBoundary(opp: Opportunity, maxAge: int)
    ensures IsOpportunityValid(opp, opp.timestamp + maxAge - 1, Some(maxAge))
    ensures !IsOpportunityValid(opp, opp.timestamp + maxAge, Some(maxAge))
    ensures IsOpportunityValid(opp, opp.timestamp + 4999, None)
    ensures !IsOpportunityValid(opp, opp.timestamp + 5000, None)
  {
  }

  /** Staleness is permanent: an opportunity stale at some time is stale at every later time. */
  lemma StalenessIsPermanent(opp: Opportunity, now: int, later: int, maxAge: Option<int>)
    requires now <= later && !IsOpportunityValid(opp, now, maxAge)
    ensures !IsOpportunityValid(opp, later, maxAge)
  {
  }

  // ---------------------------------------------------------------------------
  // Break-even gas price

  /**
   * The gross profit before gas inside `calculateBreakEvenGasPrice`: the
   * price-ratio final amount minus the trade and the flashloan fee.
   */
  function BreakEvenGrossProfit(opp: Opportunity, tradeAmount: real): (r: Num)
    ensures r.Fin? <==> opp.buyPrice != 0.0
  {
    var amount := Fin(tradeAmount);
    var buyAmount := Times(amount, Fin(1.0 - DexFee));
    var sellAmount := DividedBy(Times(buyAmount, Fin(opp.sellPrice)), Fin(opp.buyPrice));
    var finalAmount := Times(sellAmount, Fin(1.0 - DexFee));
    var flashloanFeeAmount := Times(amount, Fin(FlashloanFeeRate));
    Minus(Minus(finalAmount, amount), flashloanFeeAmount)
  }

  /** The break-even gas price in wei before it is rounded: grossProfit * 1e18 / 500000. */
  function BreakEvenGasPriceExact(opp: Opportunity, tradeAmount: real): (r: Num)
    ensures r.Fin? <==> opp.buyPrice != 0.0
    ensures r.Fin? ==> r.v * 500000.0 == BreakEvenGrossProfit(opp, tradeAmount).v * 1000000000000000000.0
  {
    DividedBy(Times(BreakEvenGrossProfit(opp, tradeAmount), Fin(WeiPerEther)), Fin(GasLimit))
  }

  /** `toFixed(0)` under the library's default rounding mode ROUND_HALF_UP: to the nearest integer, ties away from zero. */
  function RoundHalfUp(x: real): (n: int)
    ensures x - 0.5 <= n as real <= x + 0.5
    ensures x >= 0.0 ==> x - 0.5 < n as real
    ensures x < 0.0 ==> n as real < x + 0.5
    ensures x >= 0.0 ==> n >= 0
  {
    if x >= 0.0 then (x + 0.5).Floor else -((-x + 0.5).Floor)
  }

  /**
   * `calculateBreakEvenGasPrice`: the exact break-even price rounded to an
   * integer; the text of a non-finite value is refused by `ethers.BigNumber.from`.
   */
  function CalculateBreakEvenGasPrice(opp: Opportunity, tradeAmount: real): (r: Result<int, ConversionError>)
    ensures r.Success? <==> BreakEvenGasPriceExact(opp, tradeAmount).Fin?
    ensures r.Success? <==> opp.buyPrice != 0.0
    ensures r.Success? ==> var x := BreakEvenGasPriceExact(opp, tradeAmount).v;
                           x - 0.5 <= r.value as real <= x + 0.5
  {
    var exact := BreakEvenGasPriceExact(opp, tradeAmount);
    if exact.Fin? then Success(RoundHalfUp(exact.v)) else Failure(NotAnInteger(exact))
  }

  /** The gross profit of the break-even computation is `calculateProfit`'s pre-gas net amount on the price-ratio path. */
  lemma BreakEvenGrossMatchesProfit(opp: Opportunity, tradeAmount: real, gasPrice: real)
    ensures CalculateProfit(opp, tradeAmount, gasPrice, None).netProfit
            == Minus(BreakEvenGrossProfit(opp, tradeAmount), GasCost(gasPrice))
  {
  }

  /**
   * At the unrounded break-even gas price the price-ratio net profit is
   * exactly zero; below it the net profit is positive, above it negative.
   */
  lemma {:induction false} BreakEvenZeroesNetProfit(opp: Opportunity, tradeAmount: real, gasPrice: real)
    requires opp.buyPrice != 0.0
    ensures BreakEvenGasPriceExact(opp, tradeAmount).Fin?
    ensures var be := BreakEvenGasPriceExact(opp, tradeAmount).v;
            var net := CalculateProfit(opp, tradeAmount, gasPrice, None).netProfit;
            && CalculateProfit(opp, tradeAmount, be, None).netProfit == Fin(0.0)
            && net.Fin?
            && (gasPrice < be <==> net.v > 0.0)
            && (gasPrice > be <==> net.v < 0.0)
  {
    var g := BreakEvenGrossProfit(opp, tradeAmount);
    var be := g.v * 1000000000000000000.0 / 500000.0;
    assert BreakEvenGasPriceExact(opp, tradeAmount) == Fin(be);
    BreakEvenGrossMatchesProfit(opp, tradeAmount, gasPrice);
    BreakEvenGrossMatchesProfit(opp, tradeAmount, be);
    GasCostExact(gasPrice);
    GasCostExact(be);
    GasScaling(g.v, gasPrice);
  }

  /** The gas cost of a gas price, in ether, is always finite. */
  lemma GasCostExact(gasPrice: real)
    ensures GasCost(gasPrice) == Fin(gasPrice * 500000.0 / 1000000000000000000.0)
  {
  }

  /** Converting the break-even price back to a gas cost gives the gross profit; a lower price costs less. */
  lemma GasScaling(g: real, gasPrice: real)
    ensures g * 1000000000000000000.0 / 500000.0 * 500000.0 / 1000000000000000000.0 == g
    ensures gasPrice < g * 1000000000000000000.0 / 500000.0 <==> g - gasPrice * 500000.0 / 1000000000000000000.0 > 0.0
    ensures gasPrice > g * 1000000000000000000.0 / 500000.0 <==> g - gasPrice * 500000.0 / 1000000000000000000.0 < 0.0
  {
  }

  // ---------------------------------------------------------------------------
  // Ranking score

  /**
   * `getProfitabilityScore`: min(profitPercentage * 10, 50) + min(netProfit * 10, 50),
   * on the price-ratio breakdown at the configured trade size. The result is
   * never +Infinity and, when finite, at most 100; it has no lower bound.
   */
  function GetProfitabilityScore(opp: Opportunity, gasPrice: real, cfg: BotConfig): (score: Num)
    ensures !score.PosInf?
    ensures score.Fin? ==> score.v <= 100.0
  {
    var profit := CalculateProfit(opp, TradeAmountOf(cfg), gasPrice, None);
    WrittenScore(profit.profitPercentage, profit.netProfit)
  }

  /** The as-written score of a profit percentage and a net profit. */
  function WrittenScore(pct: Num, net: Num): (score: Num)
    ensures !score.PosInf?
    ensures score.Fin? ==> score.v <= 100.0
  {
    var profitScore := Min(Times(pct, Fin(10.0)), Fin(50.0));
    var amountScore := Min(Times(net, Fin(10.0)), Fin(50.0));
    Plus(profitScore, amountScore)
  }

  /** A losing opportunity gets a negative score, below the documented 0..100 range. */
  lemma ScoreCanBeNegative()
    ensures var score := GetProfitabilityScore(Opportunity(1.0, 1.0, 0), 0.0, BotConfig(10.0, 0.01));
            score.Fin? && score.v < 0.0
  {
    var opp := Opportunity(1.0, 1.0, 0);
    assert TradeAmountOf(BotConfig(10.0, 0.01)) == 10.0;
    SimplifiedFinalAmount(opp, 10.0, None);
    assert FinalAmount(opp, Fin(10.0), None) == Fin(9.94009);
    ProfitBreakdownExact(opp, 10.0, 0.0, None);
    var p := CalculateProfit(opp, 10.0, 0.0, None);
    assert p.netProfit == Fin(-0.05991);
    assert p.profitPercentage == Fin(-0.5991);
    assert Min(Times(p.profitPercentage, Fin(10.0)), Fin(50.0)) == Fin(-5.991);
    assert Min(Times(p.netProfit, Fin(10.0)), Fin(50.0)) == Fin(-0.5991);
    assert GetProfitabilityScore(opp, 0.0, BotConfig(10.0, 0.01)) == Plus(Fin(-5.991), Fin(-0.5991));
  }

  /** One half of the score, kept inside [0, 50]: NaN and negative values score zero. */
  function ClampedHalfScore(x: Num): (s: real)
    ensures 0.0 <= s <= 50.0
    ensures x.Fin? && 0.0 <= x.v * 10.0 <= 50.0 ==> s == x.v * 10.0
  {
    match x
    case Fin(v) => if v * 10.0 < 0.0 then 0.0 else if v * 10.0 > 50.0 then 50.0 else v * 10.0
    case PosInf => 50.0
    case _ => 0.0
  }

  /**
   * The score as documented: each half clamped to [0, 50], so the total is a
   * finite value in [0, 100], and it agrees with the as-written score
   * whenever both halves of that are already in range.
   */
  function ProfitabilityScore(opp: Opportunity, gasPrice: real, cfg: BotConfig): (score: real)
    ensures 0.0 <= score <= 100.0
    ensures var written := GetProfitabilityScore(opp, gasPrice, cfg);
            var p := CalculateProfit(opp, TradeAmountOf(cfg), gasPrice, None);
            p.profitPercentage.Fin? && p.netProfit.Fin?
            && 0.0 <= p.profitPercentage.v && 0.0 <= p.netProfit.v
            ==> written.Fin? && written.v == score
  {
    var profit := CalculateProfit(opp, TradeAmountOf(cfg), gasPrice, None);
    DocumentedScore(profit.profitPercentage, profit.netProfit)
  }

  /** The documented score of a profit percentage and a net profit. */
  function DocumentedScore(pct: Num, net: Num): (score: real)
    ensures 0.0 <= score <= 100.0
    ensures pct.Fin? && net.Fin? && 0.0 <= pct.v && 0.0 <= net.v ==> WrittenScore(pct, net) == Fin(score)
  {
    if pct.Fin? && net.Fin? && 0.0 <= pct.v && 0.0 <= net.v then
      HalfScoreAgrees(pct);
      HalfScoreAgrees(net);
      ClampedHalfScore(pct) + ClampedHalfScore(net)
    else
      ClampedHalfScore(pct) + ClampedHalfScore(net)
  }

  /** On a non-negative finite value the as-written half and the clamped half coincide. */
  lemma HalfScoreAgrees(x: Num)
    requires x.Fin? && 0.0 <= x.v
    ensures Min(Times(x, Fin(10.0)), Fin(50.0)) == Fin(ClampedHalfScore(x))
  {
  }
}
