/**
  The market-stress score and the market condition report of
  services/market_data/analysis.py, over reals.
 */
module MarketConditions {
  import opened Prelude
  import opened Numbers

  datatype Regime = Bull | Bear | Range | HighVol | Crisis

  datatype Momentum = Continuation | Exhaustion | Unclear

  datatype Trend = Weak | Moderate | Strong

  datatype Band = AboveUpper | WithinBands | BelowLower | UnknownBand

  datatype Signal = BullishSignal | StrongBullishSignal | BearishSignal | StrongBearishSignal | OtherSignal

  // ---------------------------------------------------------------- stress score

  function IvPart(ivRank: real): real {
    if ivRank > 70.0 then 40.0 * (ivRank / 100.0)
    else if ivRank > 50.0 then 20.0 * (ivRank / 100.0)
    else 0.0
  }

  function MovePart(move: real): real {
    if move > 5.0 then Min(move / 10.0, 1.0) * 30.0
    else if move > 3.0 then 15.0
    else 0.0
  }

  /** Both levels are known and the price is positive; a zero level counts as unknown. */
  predicate LevelsKnown(price: real, support: Option<real>, resistance: Option<real>) {
    && support.Some? && support.value != 0.0 && resistance.Some? && resistance.value != 0.0
    && price > 0.0
  }

  predicate BreaksSupport(price: real, support: Option<real>, resistance: Option<real>) {
    LevelsKnown(price, support, resistance) && price < support.value * 0.98
  }

  predicate BreaksResistance(price: real, support: Option<real>, resistance: Option<real>) {
    LevelsKnown(price, support, resistance) && price > resistance.value * 1.02
  }

  function BreakPart(price: real, support: Option<real>, resistance: Option<real>): real {
    (if BreaksSupport(price, support, resistance) then 15.0 else 0.0)
    + (if BreaksResistance(price, support, resistance) then 15.0 else 0.0)
  }

  function MoveSize(recentMove: Option<real>): real {
    Abs(if recentMove.Some? then recentMove.value else 0.0)
  }

  function Stress(
      ivRank: real, recentMove: Option<real>, price: real, support: Option<real>, resistance: Option<real>): real {
    Min(IvPart(ivRank) + MovePart(MoveSize(recentMove)) + BreakPart(price, support, resistance), 100.0)
  }

  method CalculateMarketStressLevel(
      ivRank: real, recentMove: Option<real>, price: real, support: Option<real>, resistance: Option<real>)
    returns (stress: real)
    ensures stress == Stress(ivRank, recentMove, price, support, resistance)
  {
    var score := 0.0;
    if ivRank > 70.0 {
      score := score + 40.0 * (ivRank / 100.0);
    } else if ivRank > 50.0 {
      score := score + 20.0 * (ivRank / 100.0);
    }
    var move := Abs(if recentMove.Some? then recentMove.value else 0.0);
    if move > 5.0 {
      var contribution := Min(move / 10.0, 1.0) * 30.0;
      score := score + contribution;
    } else if move > 3.0 {
      score := score + 15.0;
    }
    if support.Some? && support.value != 0.0 && resistance.Some? && resistance.value != 0.0 && price > 0.0 {
      if price < support.value * 0.98 {
        score := score + 15.0;
      }
      if price > resistance.value * 1.02 {
        score := score + 15.0;
      }
    }
    return Min(score, 100.0);
  }

  /** Levels in their natural order, where both are given. */
  predicate Ordered(support: Option<real>, resistance: Option<real>) {
    support.Some? && resistance.Some? ==> support.value <= resistance.value
  }

  /** The stress score passes 85 exactly when both levels read as broken and the other parts exceed 55. */
  lemma StressAbove85Iff(
      ivRank: real, recentMove: Option<real>, price: real, support: Option<real>, resistance: Option<real>)
    requires 0.0 <= ivRank <= 100.0
    ensures Stress(ivRank, recentMove, price, support, resistance) > 85.0 <==>
              && BreaksSupport(price, support, resistance) && BreaksResistance(price, support, resistance)
              && IvPart(ivRank) + MovePart(MoveSize(recentMove)) > 55.0
  {
  }

  /** With support at or below resistance only one level can be broken, so stress never exceeds 85. */
  lemma StressAtMost85(
      ivRank: real, recentMove: Option<real>, price: real, support: Option<real>, resistance: Option<real>)
    requires 0.0 <= ivRank <= 100.0 && Ordered(support, resistance)
    ensures 0.0 <= Stress(ivRank, recentMove, price, support, resistance) <= 85.0
    ensures !(BreaksSupport(price, support, resistance) && BreaksResistance(price, support, resistance))
  {
    StressAbove85Iff(ivRank, recentMove, price, support, resistance);
  }

  lemma StressMonotone(
      iv1: real, iv2: real, move1: Option<real>, move2: Option<real>, price: real, support: Option<real>,
      resistance: Option<real>)
    requires 0.0 <= iv1 <= iv2 && MoveSize(move1) <= MoveSize(move2)
    ensures Stress(iv1, move1, price, support, resistance) <= Stress(iv2, move2, price, support, resistance)
  {
    assert IvPart(iv1) <= IvPart(iv2);
    assert MovePart(MoveSize(move1)) <= MovePart(MoveSize(move2));
  }

  // ---------------------------------------------------------------- the report

  datatype Inputs = Inputs(
    price: real, rsi: real, macd: Signal, band: Band, sma: real, adx: Option<real>,
    rangeBound: bool, rangeDays: nat, ivRank: real, stress: real,
    currentIv: real, historicalVolatility: Option<real>)

  function TrendOf(adx: Option<real>): Trend {
    if adx.None? then Weak else if adx.value > 30.0 then Strong else if adx.value > 20.0 then Moderate else Weak
  }

  /** Historical over implied volatility; 1 where one of them is missing or not positive. */
  function VolatilityRatio(x: Inputs): real {
    if x.currentIv > 0.0 && x.historicalVolatility.Some? && x.historicalVolatility.value > 0.0
    then x.historicalVolatility.value / x.currentIv
    else 1.0
  }

  /** Regimes in order of precedence. */
  function RegimeOf(x: Inputs): Option<Regime> {
    if x.stress >= 80.0 then Some(Crisis)
    else if x.ivRank >= 75.0 then Some(HighVol)
    else if x.rangeBound then Some(Range)
    else if TrendOf(x.adx) == Strong && x.macd in {BullishSignal, StrongBullishSignal} then Some(Bull)
    else if TrendOf(x.adx) == Strong && x.macd in {BearishSignal, StrongBearishSignal} then Some(Bear)
    else None
  }

  function Bit(b: bool): nat {
    if b then 1 else 0
  }

  function Extension(x: Inputs): real
    requires x.sma > 0.0
  {
    ((x.price - x.sma) / x.sma) * 100.0
  }

  function OverboughtCount(x: Inputs): nat {
    Bit(x.rsi > 70.0) + Bit(x.rsi > 80.0) + Bit(x.band == AboveUpper) + Bit(x.sma > 0.0 && Extension(x) > 5.0)
  }

  function OversoldCount(x: Inputs): nat {
    Bit(x.rsi < 30.0) + Bit(x.rsi < 20.0) + Bit(x.band == BelowLower) + Bit(x.sma > 0.0 && Extension(x) < -5.0)
  }

  function MomentumOf(x: Inputs): Momentum {
    if TrendOf(x.adx) != Strong then Unclear
    else if OverboughtCount(x) >= 3 || OversoldCount(x) >= 3 then Exhaustion
    else Continuation
  }

  /** A trend regime presupposes an ADX above 30, so its boost always applies. */
  function RegimeConfidence(x: Inputs): real {
    match RegimeOf(x)
    case None => 0.0
    case Some(Crisis) => Min(x.stress, 100.0)
    case Some(HighVol) => Min(x.ivRank, 100.0)
    case Some(Range) => Min(50.0 + (x.rangeDays * 10) as real, 100.0)
    case Some(_) => 80.0
  }

  /** Three or four warnings make an exhaustion. */
  function MomentumConfidence(x: Inputs): real {
    match MomentumOf(x)
    case Unclear => 0.0
    case Exhaustion => if OverboughtCount(x) == 4 || OversoldCount(x) == 4 then 90.0 else 80.0
    case Continuation => if x.adx.Some? && x.adx.value > 40.0 then 80.0 else 60.0
  }

  class MarketConditionReport {
    const x: Inputs
    var trend: Trend
    var volatilityRatio: real
    var regime: Option<Regime>
    var regimeConfidence: real
    var overboughtWarnings: nat
    var oversoldWarnings: nat
    var isOverbought: bool
    var isOversold: bool
    var momentum: Momentum
    var momentumConfidence: real

    constructor (x: Inputs)
      ensures this.x == x
      ensures trend == TrendOf(x.adx) && regime == RegimeOf(x) && momentum == MomentumOf(x)
      ensures volatilityRatio == VolatilityRatio(x)
      ensures overboughtWarnings == OverboughtCount(x) && oversoldWarnings == OversoldCount(x)
      ensures isOverbought <==> OverboughtCount(x) >= 3
      ensures isOversold <==> OversoldCount(x) >= 3
      ensures regimeConfidence == RegimeConfidence(x) && momentumConfidence == MomentumConfidence(x)
    {
      this.x := x;
      trend := TrendOf(x.adx);
      volatilityRatio := VolatilityRatio(x);
      regime, regimeConfidence := None, 0.0;
      overboughtWarnings, oversoldWarnings, isOverbought, isOversold := 0, 0, false, false;
      momentum, momentumConfidence := Unclear, 0.0;
      new;
      DetectRegime();
      DetectExtremes();
      DetectMomentum();
    }

    method DetectRegime()
      requires trend == TrendOf(x.adx)
      modifies this`regime, this`regimeConfidence
      ensures regime == RegimeOf(x) && regimeConfidence == RegimeConfidence(x)
    {
      if x.stress >= 80.0 {
        regime, regimeConfidence := Some(Crisis), Min(x.stress, 100.0);
        return;
      }
      if x.ivRank >= 75.0 {
        regime, regimeConfidence := Some(HighVol), Min(x.ivRank, 100.0);
        return;
      }
      if x.rangeBound {
        regime, regimeConfidence := Some(Range), Min(50.0 + (x.rangeDays * 10) as real, 100.0);
        return;
      }
      if trend == Strong {
        var confidence := 60.0;
        if x.adx.Some? && x.adx.value > 30.0 { confidence := confidence + 20.0; }
        if x.macd == BullishSignal || x.macd == StrongBullishSignal {
          regime, regimeConfidence := Some(Bull), Min(confidence, 100.0);
          return;
        }
        if x.macd == BearishSignal || x.macd == StrongBearishSignal {
          regime, regimeConfidence := Some(Bear), Min(confidence, 100.0);
          return;
        }
      }
      regime, regimeConfidence := None, 0.0;
    }

    method DetectExtremes()
      modifies this`overboughtWarnings, this`oversoldWarnings, this`isOverbought, this`isOversold
      ensures overboughtWarnings == OverboughtCount(x) && oversoldWarnings == OversoldCount(x)
      ensures isOverbought <==> OverboughtCount(x) >= 3
      ensures isOversold <==> OversoldCount(x) >= 3
    {
      var over, under := 0, 0;
      if x.rsi > 70.0 { over := over + 1; }
      if x.rsi > 80.0 { over := over + 1; }
      if x.rsi < 30.0 { under := under + 1; }
      if x.rsi < 20.0 { under := under + 1; }
      if x.band == AboveUpper { over := over + 1; }
      if x.band == BelowLower { under := under + 1; }
      if x.sma > 0.0 {
        var extension := ((x.price - x.sma) / x.sma) * 100.0;
        if extension > 5.0 { over := over + 1; }
        if extension < -5.0 { under := under + 1; }
      }
      overboughtWarnings, oversoldWarnings := over, under;
      isOverbought, isOversold := over >= 3, under >= 3;
    }

    method DetectMomentum()
      requires trend == TrendOf(x.adx)
      requires isOverbought <==> OverboughtCount(x) >= 3
      requires isOversold <==> OversoldCount(x) >= 3
      requires overboughtWarnings == OverboughtCount(x) && oversoldWarnings == OversoldCount(x)
      modifies this`momentum, this`momentumConfidence
      ensures momentum == MomentumOf(x) && momentumConfidence == MomentumConfidence(x)
    {
      if (isOverbought || isOversold) && trend == Strong {
        var worst := if overboughtWarnings >= oversoldWarnings then overboughtWarnings else oversoldWarnings;
        var counted := if worst <= 5 then worst else 5;
        momentum, momentumConfidence := Exhaustion, Min(50.0 + (counted * 10) as real, 100.0);
        return;
      }
      if trend == Strong {
        if !isOverbought && !isOversold {
          var confidence := 60.0;
          if x.adx.Some? && x.adx.value > 40.0 { confidence := confidence + 20.0; }
          momentum, momentumConfidence := Continuation, Min(confidence, 100.0);
          return;
        }
      }
      momentum, momentumConfidence := Unclear, 0.0;
    }
  }

  // ---------------------------------------------------------------- score and report composed

  /** The report's stress input is the score of the same market. */
  ghost predicate Scored(x: Inputs, recentMove: Option<real>, support: Option<real>, resistance: Option<real>) {
    x.stress == Stress(x.ivRank, recentMove, x.price, support, resistance)
  }

  /**
    Crisis is declared exactly when a level is broken and implied volatility and the
    recent move together contribute at least 65.
   */
  lemma CrisisIff(x: Inputs, recentMove: Option<real>, support: Option<real>, resistance: Option<real>)
    requires 0.0 <= x.ivRank <= 100.0 && Ordered(support, resistance) && Scored(x, recentMove, support, resistance)
    ensures RegimeOf(x) == Some(Crisis) <==>
              && (BreaksSupport(x.price, support, resistance) || BreaksResistance(x.price, support, resistance))
              && x.ivRank > 70.0 && MoveSize(recentMove) > 5.0
              && 40.0 * (x.ivRank / 100.0) + Min(MoveSize(recentMove) / 10.0, 1.0) * 30.0 >= 65.0
  {
    StressAtMost85(x.ivRank, recentMove, x.price, support, resistance);
  }

  /** So crisis needs all three at once: implied volatility near its high, a large move, and a broken level. */
  lemma CrisisForces(x: Inputs, recentMove: Option<real>, support: Option<real>, resistance: Option<real>)
    requires 0.0 <= x.ivRank <= 100.0 && Ordered(support, resistance) && Scored(x, recentMove, support, resistance)
    requires RegimeOf(x) == Some(Crisis)
    ensures x.ivRank >= 87.5
    ensures MoveSize(recentMove) >= 25.0 / 3.0
    ensures BreaksSupport(x.price, support, resistance) || BreaksResistance(x.price, support, resistance)
  {
    CrisisIff(x, recentMove, support, resistance);
  }

  /** Both bounds are reached. */
  lemma CrisisBoundsAreTight()
    ensures Stress(87.5, Some(-10.0), 97.0, Some(100.0), Some(110.0)) == 80.0
    ensures Stress(100.0, Some(25.0 / 3.0), 97.0, Some(100.0), Some(110.0)) == 80.0
  {
    assert MovePart(10.0) == 30.0;
    assert (25.0 / 3.0) / 10.0 * 30.0 == 25.0;
  }

  /** The ratio is positive, and stays the same when both volatilities are given in another unit. */
  lemma RatioIgnoresUnit(x: Inputs, unit: real)
    requires unit > 0.0
    ensures VolatilityRatio(x) > 0.0
    ensures var h := x.historicalVolatility;
            VolatilityRatio(x.(currentIv := unit * x.currentIv,
                               historicalVolatility := if h.Some? then Some(unit * h.value) else None))
            == VolatilityRatio(x)
  {
    SignKept(x.currentIv, unit);
    if x.historicalVolatility.Some? {
      SignKept(x.historicalVolatility.value, unit);
      if x.currentIv > 0.0 && x.historicalVolatility.value > 0.0 {
        CommonFactor(x.historicalVolatility.value, x.currentIv, unit);
      }
    }
  }

  lemma SignKept(x: real, unit: real)
    requires unit > 0.0
    ensures unit * x > 0.0 <==> x > 0.0
  {
  }

  lemma CommonFactor(h: real, iv: real, unit: real)
    requires h > 0.0 && iv > 0.0 && unit > 0.0 && unit * iv > 0.0
    ensures (unit * h) / (unit * iv) == h / iv && h / iv > 0.0
  {
    var q := h / iv;
    assert q * iv == h;
    assert q * (unit * iv) == unit * h;
  }

  /** Confidences are percentages for the scores a market can have. */
  lemma ConfidencesInRange(x: Inputs)
    requires 0.0 <= x.stress && 0.0 <= x.ivRank
    ensures 0.0 <= RegimeConfidence(x) <= 100.0 && 0.0 <= MomentumConfidence(x) <= 100.0
  {
  }

  lemma NeverBothExtremes(x: Inputs)
    ensures !(OverboughtCount(x) >= 3 && OversoldCount(x) >= 3)
  {
  }

  /** Extremes do not matter: momentum is unclear exactly when the trend reading is missing or at most 30. */
  lemma UnclearIff(x: Inputs)
    ensures MomentumOf(x) == Unclear <==> x.adx.None? || x.adx.value <= 30.0
  {
  }

  /** A directional regime always comes with a momentum reading, and never under high volatility or stress. */
  lemma TrendRegimeHasMomentum(x: Inputs)
    requires RegimeOf(x) in {Some(Bull), Some(Bear)}
    ensures MomentumOf(x) != Unclear && x.stress < 80.0 && x.ivRank < 75.0 && !x.rangeBound
  {
  }

  // ---------------------------------------------------------------- each reading by its inputs

  /** Below support by more than 2 percent, or above resistance by more than 2 percent. */
  predicate LevelBroken(price: real, support: Option<real>, resistance: Option<real>) {
    && support.Some? && resistance.Some? && support.value != 0.0 && resistance.value != 0.0 && price > 0.0
    && (100.0 * price < 98.0 * support.value || 100.0 * price > 102.0 * resistance.value)
  }

  /** The points of the score: volatility, size of the move, and a broken level. */
  lemma StressPoints(
      ivRank: real, recentMove: Option<real>, price: real, support: Option<real>, resistance: Option<real>, size: real)
    requires 0.0 <= ivRank <= 100.0 && Ordered(support, resistance)
    requires size == Abs(if recentMove.Some? then recentMove.value else 0.0)
    ensures Stress(ivRank, recentMove, price, support, resistance)
            == (if ivRank > 70.0 then 2.0 * ivRank / 5.0 else if ivRank > 50.0 then ivRank / 5.0 else 0.0)
               + (if size >= 10.0 then 30.0 else if size > 5.0 then 3.0 * size else if size > 3.0 then 15.0 else 0.0)
               + (if LevelBroken(price, support, resistance) then 15.0 else 0.0)
  {
    StressAtMost85(ivRank, recentMove, price, support, resistance);
  }

  predicate Trending(x: Inputs) {
    x.adx.Some? && x.adx.value > 30.0
  }

  /** No stress, no volatility, no range: what is left for the trend. */
  predicate Undisturbed(x: Inputs) {
    x.stress < 80.0 && x.ivRank < 75.0 && !x.rangeBound
  }

  lemma RegimeIff(x: Inputs)
    ensures RegimeOf(x) == Some(Crisis) <==> x.stress >= 80.0
    ensures RegimeOf(x) == Some(HighVol) <==> x.stress < 80.0 && x.ivRank >= 75.0
    ensures RegimeOf(x) == Some(Range) <==> x.stress < 80.0 && x.ivRank < 75.0 && x.rangeBound
    ensures RegimeOf(x) == Some(Bull) <==>
              Undisturbed(x) && Trending(x) && (x.macd == BullishSignal || x.macd == StrongBullishSignal)
    ensures RegimeOf(x) == Some(Bear) <==>
              Undisturbed(x) && Trending(x) && (x.macd == BearishSignal || x.macd == StrongBearishSignal)
  {
  }

  /** A strong trend is exhausted at an extreme and continues otherwise. */
  lemma MomentumIff(x: Inputs)
    ensures MomentumOf(x) == Exhaustion <==> Trending(x) && (Overbought(x) || Oversold(x))
    ensures MomentumOf(x) == Continuation <==> Trending(x) && !Overbought(x) && !Oversold(x)
  {
    OverboughtIff(x);
    OversoldIff(x);
  }

  predicate Overbought(x: Inputs) {
    var far := x.sma > 0.0 && x.price > 1.05 * x.sma;
    || (x.rsi > 70.0 && x.band == AboveUpper && far)
    || (x.rsi > 80.0 && (x.band == AboveUpper || far))
  }

  predicate Oversold(x: Inputs) {
    var far := x.sma > 0.0 && x.price < 0.95 * x.sma;
    || (x.rsi < 30.0 && x.band == BelowLower && far)
    || (x.rsi < 20.0 && (x.band == BelowLower || far))
  }

  lemma ExtensionIff(x: Inputs)
    requires x.sma > 0.0
    ensures Extension(x) > 5.0 <==> x.price > 1.05 * x.sma
    ensures Extension(x) < -5.0 <==> x.price < 0.95 * x.sma
  {
    var q := (x.price - x.sma) / x.sma;
    assert q * x.sma == x.price - x.sma;
    assert Extension(x) == q * 100.0;
    FactorOrder(q, 0.05, x.sma);
    FactorOrder(-0.05, q, x.sma);
    assert q > 0.05 <==> x.price - x.sma > 0.05 * x.sma;
    assert q < -0.05 <==> x.price - x.sma < -0.05 * x.sma;
  }

  lemma FactorOrder(a: real, b: real, s: real)
    requires s > 0.0
    ensures a > b <==> a * s > b * s
  {
    if a > b {
      assert (a - b) * s > 0.0;
    } else {
      assert (b - a) * s >= 0.0;
    }
  }

  /** Three of the four warnings, of which one RSI warning implies the other. */
  lemma OverboughtIff(x: Inputs)
    ensures OverboughtCount(x) >= 3 <==> Overbought(x)
  {
    if x.sma > 0.0 {
      ExtensionIff(x);
    }
  }

  lemma OversoldIff(x: Inputs)
    ensures OversoldCount(x) >= 3 <==> Oversold(x)
  {
    if x.sma > 0.0 {
      ExtensionIff(x);
    }
  }

  /** Every warning of one side at once. */
  predicate FullExtreme(x: Inputs) {
    || (x.rsi > 80.0 && x.band == AboveUpper && x.sma > 0.0 && x.price > 1.05 * x.sma)
    || (x.rsi < 20.0 && x.band == BelowLower && x.sma > 0.0 && x.price < 0.95 * x.sma)
  }

  /** The score itself in a crisis or under high volatility; ten points a day up to five days for a range. */
  lemma RegimeConfidenceIs(x: Inputs)
    requires x.stress <= 100.0 && x.ivRank <= 100.0
    ensures RegimeConfidence(x)
            == if x.stress >= 80.0 then x.stress
               else if x.ivRank >= 75.0 then x.ivRank
               else if x.rangeBound then (if x.rangeDays >= 5 then 100.0 else 50.0 + 10.0 * x.rangeDays as real)
               else if Trending(x) && x.macd != OtherSignal then 80.0
               else 0.0
  {
  }

  /** 90 for an exhaustion with every warning, 80 for any other and for an ADX above 40, 60 for the rest. */
  lemma MomentumConfidenceIs(x: Inputs)
    ensures MomentumConfidence(x)
            == if !Trending(x) then 0.0
               else if FullExtreme(x) then 90.0
               else if Overbought(x) || Oversold(x) || x.adx.value > 40.0 then 80.0
               else 60.0
  {
    MomentumIff(x);
    if x.sma > 0.0 {
      ExtensionIff(x);
    }
  }
}
