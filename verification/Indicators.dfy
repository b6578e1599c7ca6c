/**
  RSI, ADX and the composite direction of services/market_data/indicators.py, over reals.

  A pandas series entry that is not a number is modelled by where a recurrence starts;
  a result that is not a number is None.
 */
module Indicators {
  import opened Prelude
  import opened Numbers

  const RSI_PERIOD := 14

  /** Replaces a zero divisor. */
  const TINY := 0.0000000001

  // ---------------------------------------------------------------- RSI

  /** Price change at i; the first entry has none and counts as neither gain nor loss. */
  function Gain(prices: seq<real>, i: nat): real
    requires i < |prices|
  {
    if i > 0 && prices[i] > prices[i - 1] then prices[i] - prices[i - 1] else 0.0
  }

  function Loss(prices: seq<real>, i: nat): real
    requires i < |prices|
  {
    if i > 0 && prices[i] < prices[i - 1] then prices[i - 1] - prices[i] else 0.0
  }

  function GainSum(prices: seq<real>, lo: nat, hi: nat): (sum: real)
    requires lo <= hi <= |prices|
    ensures sum >= 0.0
  {
    if lo == hi then 0.0 else GainSum(prices, lo, hi - 1) + Gain(prices, hi - 1)
  }

  function LossSum(prices: seq<real>, lo: nat, hi: nat): (sum: real)
    requires lo <= hi <= |prices|
    ensures sum >= 0.0
  {
    if lo == hi then 0.0 else LossSum(prices, lo, hi - 1) + Loss(prices, hi - 1)
  }

  /** The index of a relative strength gain / loss. */
  function StrengthIndex(gain: real, loss: real): real
    requires gain >= 0.0 && loss > 0.0
  {
    assert gain / loss >= 0.0;
    100.0 - 100.0 / (1.0 + gain / loss)
  }

  function WindowGain(prices: seq<real>): real
    requires |prices| >= RSI_PERIOD
  {
    GainSum(prices, |prices| - RSI_PERIOD, |prices|) / RSI_PERIOD as real
  }

  function WindowLoss(prices: seq<real>): real
    requires |prices| >= RSI_PERIOD
  {
    LossSum(prices, |prices| - RSI_PERIOD, |prices|) / RSI_PERIOD as real
  }

  /** The rolling version: fewer than a window of entries gives no number. */
  function RollingRsi(prices: seq<real>): Option<real> {
    if |prices| < RSI_PERIOD then None
    else Some(StrengthIndex(WindowGain(prices), if WindowLoss(prices) == 0.0 then TINY else WindowLoss(prices)))
  }

  /** What the fallback computes, stated through the same window. */
  function SimpleRsi(prices: seq<real>): real {
    if |prices| < RSI_PERIOD + 1 then 50.0
    else if WindowLoss(prices) == 0.0 then 100.0
    else StrengthIndex(WindowGain(prices), WindowLoss(prices))
  }

  function SumOf(s: seq<real>): real {
    if s == [] then 0.0 else SumOf(s[..|s| - 1]) + s[|s| - 1]
  }

  /** The lists of gains and losses, then the averages of their last entries. */
  method CalculateRsiSimple(prices: seq<real>) returns (rsi: real)
    ensures rsi == SimpleRsi(prices)
  {
    if |prices| < RSI_PERIOD + 1 { return 50.0; }
    var gains, losses := [], [];
    for i := 1 to |prices|
      invariant |gains| == |losses| == i - 1
      invariant forall k :: 0 <= k < i - 1 ==> gains[k] == Gain(prices, k + 1) && losses[k] == Loss(prices, k + 1)
    {
      var change := prices[i] - prices[i - 1];
      if change > 0.0 {
        gains, losses := gains + [change], losses + [0.0];
      } else {
        gains, losses := gains + [0.0], losses + [-change];
      }
    }
    if |gains| < RSI_PERIOD { return 50.0; }
    var avgGain := SumOf(gains[|gains| - RSI_PERIOD..]) / RSI_PERIOD as real;
    var avgLoss := SumOf(losses[|losses| - RSI_PERIOD..]) / RSI_PERIOD as real;
    LastEntriesSum(prices, gains, losses, RSI_PERIOD);
    if avgLoss == 0.0 { return 100.0; }
    var rs := avgGain / avgLoss;
    return 100.0 - 100.0 / (1.0 + rs);
  }

  /** Summing the last k list entries is summing the last k changes. */
  lemma LastEntriesSum(prices: seq<real>, gains: seq<real>, losses: seq<real>, k: nat)
    requires |gains| == |losses| == |prices| - 1 && k <= |gains|
    requires forall j :: 0 <= j < |gains| ==> gains[j] == Gain(prices, j + 1) && losses[j] == Loss(prices, j + 1)
    ensures SumOf(gains[|gains| - k..]) == GainSum(prices, |prices| - k, |prices|)
    ensures SumOf(losses[|losses| - k..]) == LossSum(prices, |prices| - k, |prices|)
  {
    SliceSum(prices, gains, losses, |gains| - k, |gains|);
    assert gains[|gains| - k..|gains|] == gains[|gains| - k..];
    assert losses[|gains| - k..|gains|] == losses[|losses| - k..];
  }

  lemma {:induction false} SliceSum(prices: seq<real>, gains: seq<real>, losses: seq<real>, lo: nat, hi: nat)
    requires |gains| == |losses| == |prices| - 1 && lo <= hi <= |gains|
    requires forall j :: 0 <= j < |gains| ==> gains[j] == Gain(prices, j + 1) && losses[j] == Loss(prices, j + 1)
    ensures SumOf(gains[lo..hi]) == GainSum(prices, lo + 1, hi + 1)
    ensures SumOf(losses[lo..hi]) == LossSum(prices, lo + 1, hi + 1)
    decreases hi
  {
    if lo < hi {
      SliceSum(prices, gains, losses, lo, hi - 1);
      assert gains[lo..hi][..hi - 1 - lo] == gains[lo..hi - 1];
      assert losses[lo..hi][..hi - 1 - lo] == losses[lo..hi - 1];
    }
  }

  /** The index is the share of gains in all movement, as a percentage. */
  lemma StrengthIsShare(gain: real, loss: real)
    requires gain >= 0.0 && loss > 0.0
    ensures StrengthIndex(gain, loss) == 100.0 * gain / (gain + loss)
    ensures 0.0 <= StrengthIndex(gain, loss) < 100.0
  {
    var rs := gain / loss;
    assert rs * loss == gain;
    assert (1.0 + rs) * loss == gain + loss;
    var inverse := 100.0 / (1.0 + rs);
    assert inverse * (1.0 + rs) == 100.0;
    assert inverse * (gain + loss) == 100.0 * loss by {
      assert inverse * ((1.0 + rs) * loss) == (inverse * (1.0 + rs)) * loss;
    }
    var share := 100.0 * gain / (gain + loss);
    assert share * (gain + loss) == 100.0 * gain;
    assert (100.0 - inverse) * (gain + loss) == 100.0 * gain;
    assert (100.0 - inverse - share) * (gain + loss) == 0.0;
    assert share >= 0.0;
    assert inverse > 0.0;
  }

  /** Both versions stay between 0 and 100. */
  lemma RsiInRange(prices: seq<real>)
    ensures RollingRsi(prices).Some? ==> 0.0 <= RollingRsi(prices).value < 100.0
    ensures 0.0 <= SimpleRsi(prices) <= 100.0
  {
    if |prices| >= RSI_PERIOD {
      StrengthIsShare(WindowGain(prices), if WindowLoss(prices) == 0.0 then TINY else WindowLoss(prices));
    }
  }

  /** With enough prices the two versions agree exactly when the window contains a loss. */
  lemma RollingEqualsSimpleIff(prices: seq<real>)
    requires |prices| > RSI_PERIOD
    ensures RollingRsi(prices) == Some(SimpleRsi(prices)) <==> Falls(prices, |prices| - RSI_PERIOD)
  {
    RsiInRange(prices);
    FallsIffLoss(prices, |prices| - RSI_PERIOD);
  }

  /** The price falls, or rises, somewhere from position lo on. */
  predicate Falls(prices: seq<real>, lo: int) {
    exists i :: 1 <= i && lo <= i < |prices| && prices[i] < prices[i - 1]
  }

  predicate Rises(prices: seq<real>, lo: int) {
    exists i :: 1 <= i && lo <= i < |prices| && prices[i] > prices[i - 1]
  }

  lemma FallsIffLoss(prices: seq<real>, lo: nat)
    requires lo <= |prices|
    ensures LossSum(prices, lo, |prices|) > 0.0 <==> Falls(prices, lo)
  {
    LossPositiveIff(prices, lo, |prices|);
    assert forall i :: lo <= i < |prices| ==> (Loss(prices, i) > 0.0 <==> i >= 1 && prices[i] < prices[i - 1]);
    if i :| lo <= i < |prices| && Loss(prices, i) > 0.0 {
      assert prices[i] < prices[i - 1];
    }
    if Falls(prices, lo) {
      var i :| 1 <= i && lo <= i < |prices| && prices[i] < prices[i - 1];
      assert Loss(prices, i) > 0.0;
    }
  }

  lemma RisesIffGain(prices: seq<real>, lo: nat)
    requires lo <= |prices|
    ensures GainSum(prices, lo, |prices|) > 0.0 <==> Rises(prices, lo)
  {
    GainPositiveIff(prices, lo, |prices|);
    if i :| lo <= i < |prices| && Gain(prices, i) > 0.0 {
      assert prices[i] > prices[i - 1];
    }
    if Rises(prices, lo) {
      var i :| 1 <= i && lo <= i < |prices| && prices[i] > prices[i - 1];
      assert Gain(prices, i) > 0.0;
    }
  }

  lemma {:induction false} GainPositiveIff(prices: seq<real>, lo: nat, hi: nat)
    requires lo <= hi <= |prices|
    ensures GainSum(prices, lo, hi) > 0.0 <==> exists i :: lo <= i < hi && Gain(prices, i) > 0.0
    decreases hi
  {
    if lo < hi {
      GainPositiveIff(prices, lo, hi - 1);
    }
  }

  /** The ends of the scale: 100 without a fall in the last 14 changes, 0 without a rise but with a fall. */
  lemma RsiExtremes(prices: seq<real>)
    requires |prices| > RSI_PERIOD
    ensures var lo := |prices| - RSI_PERIOD;
            && (SimpleRsi(prices) == 100.0 <==> !Falls(prices, lo))
            && (SimpleRsi(prices) == 0.0 <==> Falls(prices, lo) && !Rises(prices, lo))
            && (RollingRsi(prices) == Some(0.0) <==> !Rises(prices, lo))
  {
    var lo := |prices| - RSI_PERIOD;
    FallsIffLoss(prices, lo);
    RisesIffGain(prices, lo);
    var g, l := WindowGain(prices), WindowLoss(prices);
    ShareIsZeroIff(g, if l == 0.0 then TINY else l);
  }

  lemma ShareIsZeroIff(gain: real, loss: real)
    requires gain >= 0.0 && loss > 0.0
    ensures StrengthIndex(gain, loss) == 0.0 <==> gain == 0.0
    ensures StrengthIndex(gain, loss) < 100.0
  {
    StrengthIsShare(gain, loss);
    var share := 100.0 * gain / (gain + loss);
    assert share * (gain + loss) == 100.0 * gain;
  }

  lemma {:induction false} LossPositiveIff(prices: seq<real>, lo: nat, hi: nat)
    requires lo <= hi <= |prices|
    ensures LossSum(prices, lo, hi) > 0.0 <==> exists i :: lo <= i < hi && Loss(prices, i) > 0.0
    decreases hi
  {
    if lo < hi {
      LossPositiveIff(prices, lo, hi - 1);
    }
  }

  function Affine(prices: seq<real>, scale: real, shift: real): (r: seq<real>)
    ensures |r| == |prices| && forall i :: 0 <= i < |r| ==> r[i] == scale * prices[i] + shift
  {
    seq(|prices|, i requires 0 <= i < |prices| => scale * prices[i] + shift)
  }

  lemma Distributes(scale: real, x: real, y: real)
    ensures scale * (x + y) == scale * x + scale * y
  {
  }

  ghost predicate Scales(prices: seq<real>, scaled: seq<real>, scale: real, shift: real) {
    |scaled| == |prices| && forall k :: 0 <= k < |prices| ==> scaled[k] == scale * prices[k] + shift
  }

  lemma ScaledChange(prices: seq<real>, scaled: seq<real>, scale: real, shift: real, i: nat)
    requires Scales(prices, scaled, scale, shift) && scale > 0.0 && i < |prices|
    ensures Gain(scaled, i) == scale * Gain(prices, i) && Loss(scaled, i) == scale * Loss(prices, i)
  {
    if i > 0 {
      var d := prices[i] - prices[i - 1];
      assert scaled[i] - scaled[i - 1] == d * scale;
      PositiveFactor(d, scale);
      PositiveFactor(-d, scale);
    }
  }

  lemma ScaledStrength(gain: real, loss: real, scale: real)
    requires gain >= 0.0 && loss > 0.0 && scale > 0.0
    ensures scale * gain >= 0.0 && scale * loss > 0.0
    ensures StrengthIndex(scale * gain, scale * loss) == StrengthIndex(gain, loss)
  {
    var rs := gain / loss;
    assert rs * loss == gain;
    assert rs * (scale * loss) == scale * gain;
    assert (scale * gain) / (scale * loss) == rs;
  }

  lemma PositiveFactor(x: real, y: real)
    requires y > 0.0
    ensures x * y > 0.0 <==> x > 0.0
    ensures x * y == 0.0 <==> x == 0.0
  {
  }

  lemma StrengthIncreases(a: real, b: real, loss: real)
    requires 0.0 <= a < b && loss > 0.0
    ensures StrengthIndex(a, loss) < StrengthIndex(b, loss)
  {
    var ra, rb := a / loss, b / loss;
    assert ra * loss == a && rb * loss == b;
    assert (rb - ra) * loss == b - a;
    PositiveFactor(rb - ra, loss);
    var ia, ib := 100.0 / (1.0 + ra), 100.0 / (1.0 + rb);
    assert ia * (1.0 + ra) == 100.0 && ib * (1.0 + rb) == 100.0;
    PositiveFactor(ib, 1.0 + rb);
    PositiveFactor(rb - ra, ib);
    assert (ia - ib) * (1.0 + ra) == (rb - ra) * ib;
    PositiveFactor(ia - ib, 1.0 + ra);
  }

  ghost predicate AdditiveAt(m: real -> real, x: real, y: real) {
    m(x) + m(y) == m(x + y)
  }

  ghost predicate Additive(m: real -> real) {
    m(0.0) == 0.0 && forall x, y :: AdditiveAt(m, x, y)
  }

  predicate ChangeMapped(prices: seq<real>, mapped: seq<real>, m: real -> real, i: nat) {
    i < |prices| == |mapped| && Gain(mapped, i) == m(Gain(prices, i)) && Loss(mapped, i) == m(Loss(prices, i))
  }

  /** Sums of gains and of losses go through any additive map that the single changes go through. */
  lemma {:induction false} MappedSums(prices: seq<real>, mapped: seq<real>, m: real -> real, lo: nat, hi: nat)
    requires Additive(m) && |mapped| == |prices| && lo <= hi <= |prices|
    requires forall i :: lo <= i < hi ==> ChangeMapped(prices, mapped, m, i)
    ensures GainSum(mapped, lo, hi) == m(GainSum(prices, lo, hi))
    ensures LossSum(mapped, lo, hi) == m(LossSum(prices, lo, hi))
    decreases hi
  {
    if lo < hi {
      MappedSums(prices, mapped, m, lo, hi - 1);
      assert ChangeMapped(prices, mapped, m, hi - 1);
      assert AdditiveAt(m, GainSum(prices, lo, hi - 1), Gain(prices, hi - 1));
      assert AdditiveAt(m, LossSum(prices, lo, hi - 1), Loss(prices, hi - 1));
    }
  }

  function Scaling(scale: real): real -> real {
    (x: real) => scale * x
  }

  lemma ScalingIsAdditive(scale: real)
    ensures Additive(Scaling(scale))
  {
    forall x, y
      ensures AdditiveAt(Scaling(scale), x, y)
    {
      Distributes(scale, x, y);
    }
  }

  lemma ScaledChangeMapped(prices: seq<real>, scaled: seq<real>, scale: real, shift: real, i: nat)
    requires Scales(prices, scaled, scale, shift) && scale > 0.0 && i < |prices|
    ensures ChangeMapped(prices, scaled, Scaling(scale), i)
  {
    ScaledChange(prices, scaled, scale, shift, i);
  }

  lemma ChangesMapped(prices: seq<real>, scaled: seq<real>, scale: real, shift: real)
    requires Scales(prices, scaled, scale, shift) && scale > 0.0
    ensures forall i :: 0 <= i < |prices| ==> ChangeMapped(prices, scaled, Scaling(scale), i)
  {
    forall i | 0 <= i < |prices|
      ensures ChangeMapped(prices, scaled, Scaling(scale), i)
    {
      ScaledChangeMapped(prices, scaled, scale, shift, i);
    }
  }

  lemma WindowMapped(prices: seq<real>, scaled: seq<real>, scale: real)
    requires |scaled| == |prices| >= RSI_PERIOD
    requires forall i :: 0 <= i < |prices| ==> ChangeMapped(prices, scaled, Scaling(scale), i)
    ensures WindowGain(scaled) == scale * WindowGain(prices) && WindowLoss(scaled) == scale * WindowLoss(prices)
  {
    var lo, hi := |prices| - RSI_PERIOD, |prices|;
    ScalingIsAdditive(scale);
    MappedSums(prices, scaled, Scaling(scale), lo, hi);
    Fourteenth(scale, GainSum(prices, lo, hi));
    Fourteenth(scale, LossSum(prices, lo, hi));
  }

  lemma WindowScales(prices: seq<real>, scale: real, shift: real)
    requires scale > 0.0 && |prices| >= RSI_PERIOD
    ensures WindowGain(Affine(prices, scale, shift)) == scale * WindowGain(prices)
    ensures WindowLoss(Affine(prices, scale, shift)) == scale * WindowLoss(prices)
  {
    ChangesMapped(prices, Affine(prices, scale, shift), scale, shift);
    WindowMapped(prices, Affine(prices, scale, shift), scale);
  }

  lemma Fourteenth(scale: real, x: real)
    ensures scale * x / 14.0 == scale * (x / 14.0)
  {
  }

  /** The fallback ignores the unit and the origin of prices. */
  lemma SimpleRsiInvariant(prices: seq<real>, scale: real, shift: real)
    requires scale > 0.0
    ensures SimpleRsi(Affine(prices, scale, shift)) == SimpleRsi(prices)
  {
    if |prices| >= RSI_PERIOD + 1 {
      WindowScales(prices, scale, shift);
      assert WindowLoss(prices) == 0.0 <==> scale * WindowLoss(prices) == 0.0;
      if WindowLoss(prices) != 0.0 {
        ScaledStrength(WindowGain(prices), WindowLoss(prices), scale);
      }
    }
  }

  /** In terms of the window's averages. */
  lemma RollingInvariantByWindow(prices: seq<real>, scale: real, shift: real)
    requires scale > 0.0 && |prices| >= RSI_PERIOD
    ensures RollingRsi(Affine(prices, scale, shift)) == RollingRsi(prices)
            <==> scale == 1.0 || WindowLoss(prices) > 0.0 || WindowGain(prices) == 0.0
  {
    WindowScales(prices, scale, shift);
    var g, l := WindowGain(prices), WindowLoss(prices);
    var g', l' := scale * g, scale * l;
    assert (l == 0.0 ==> l' == 0.0) && (g == 0.0 ==> g' == 0.0) && (scale == 1.0 ==> g' == g && l' == l);
    PositiveFactor(l, scale);
    var scaled := Affine(prices, scale, shift);
    assert WindowGain(scaled) == g' && WindowLoss(scaled) == l';
    if l > 0.0 {
      ScaledStrength(g, l, scale);
    } else if g > 0.0 && scale > 1.0 {
      PositiveFactor(scale - 1.0, g);
      assert (scale - 1.0) * g == g' - g;
      StrengthIncreases(g, g', TINY);
    } else if g > 0.0 && scale < 1.0 {
      PositiveFactor(1.0 - scale, g);
      assert (1.0 - scale) * g == g - g';
      StrengthIncreases(g', g, TINY);
    }
  }

  /**
    The rolling version does too, except on a window of gains without a loss, where the
    tiny stand-in divisor does not scale with the prices.
   */
  lemma RollingRsiInvariantIff(prices: seq<real>, scale: real, shift: real)
    requires scale > 0.0 && |prices| >= RSI_PERIOD
    ensures RollingRsi(Affine(prices, scale, shift)) == RollingRsi(prices)
            <==> scale == 1.0 || Falls(prices, |prices| - RSI_PERIOD) || !Rises(prices, |prices| - RSI_PERIOD)
  {
    RollingInvariantByWindow(prices, scale, shift);
    RisesIffGain(prices, |prices| - RSI_PERIOD);
    FallsIffLoss(prices, |prices| - RSI_PERIOD);
  }

  function Mirrored(prices: seq<real>, axis: real): (r: seq<real>)
    ensures |r| == |prices| && forall i :: 0 <= i < |r| ==> r[i] == axis - prices[i]
  {
    seq(|prices|, i requires 0 <= i < |prices| => axis - prices[i])
  }

  lemma {:induction false} MirroredSums(prices: seq<real>, axis: real, lo: nat, hi: nat)
    requires lo <= hi <= |prices|
    ensures GainSum(Mirrored(prices, axis), lo, hi) == LossSum(prices, lo, hi)
    ensures LossSum(Mirrored(prices, axis), lo, hi) == GainSum(prices, lo, hi)
    decreases hi
  {
    if lo < hi {
      MirroredSums(prices, axis, lo, hi - 1);
    }
  }

  lemma MirroredStrength(gain: real, loss: real)
    requires gain > 0.0 && loss > 0.0
    ensures StrengthIndex(loss, gain) == 100.0 - StrengthIndex(gain, loss)
  {
    StrengthIsShare(gain, loss);
    StrengthIsShare(loss, gain);
    var sum := gain + loss;
    var a, b := 100.0 * gain / sum, 100.0 * loss / sum;
    assert a * sum == 100.0 * gain && b * sum == 100.0 * loss;
    assert (a + b - 100.0) * sum == 0.0;
    PositiveFactor(a + b - 100.0, sum);
  }

  /**
    Turning prices upside down turns the rolling index into 100 minus itself exactly when gains and losses
    both occur.
   */
  lemma RollingRsiReflectsIff(prices: seq<real>, axis: real)
    requires |prices| >= RSI_PERIOD
    ensures RollingRsi(Mirrored(prices, axis)) == Some(100.0 - RollingRsi(prices).value)
            <==> Rises(prices, |prices| - RSI_PERIOD) && Falls(prices, |prices| - RSI_PERIOD)
  {
    RisesIffGain(prices, |prices| - RSI_PERIOD);
    FallsIffLoss(prices, |prices| - RSI_PERIOD);
    MirroredSums(prices, axis, |prices| - RSI_PERIOD, |prices|);
    var g, l := WindowGain(prices), WindowLoss(prices);
    assert WindowGain(Mirrored(prices, axis)) == l && WindowLoss(Mirrored(prices, axis)) == g;
    if g > 0.0 && l > 0.0 {
      MirroredStrength(g, l);
    } else {
      StrengthIsShare(g, if l == 0.0 then TINY else l);
      StrengthIsShare(l, if g == 0.0 then TINY else g);
      if g == 0.0 {
        assert StrengthIndex(0.0, if l == 0.0 then TINY else l) == 0.0;
      } else {
        assert StrengthIndex(0.0, g) == 0.0;
        StrengthIncreases(0.0, g, TINY);
      }
    }
  }

  // ---------------------------------------------------------------- ADX

  datatype Candle = Candle(high: real, low: real, close: real)

  /** The first bar has no previous close, so only its own range counts. */
  function TrueRange(bars: seq<Candle>, i: nat): real
    requires i < |bars|
  {
    if i == 0 then bars[0].high - bars[0].low
    else Max(bars[i].high - bars[i].low,
        Max(Abs(bars[i].high - bars[i - 1].close), Abs(bars[i].low - bars[i - 1].close)))
  }

  function PlusDm(bars: seq<Candle>, i: nat): real
    requires 1 <= i < |bars|
  {
    var up, down := bars[i].high - bars[i - 1].high, bars[i - 1].low - bars[i].low;
    if up > down && up > 0.0 then up else 0.0
  }

  function MinusDm(bars: seq<Candle>, i: nat): real
    requires 1 <= i < |bars|
  {
    var up, down := bars[i].high - bars[i - 1].high, bars[i - 1].low - bars[i].low;
    if down > up && down > 0.0 then down else 0.0
  }

  /** The weight of the newest entry for a given span. */
  function Alpha(period: nat): real
    requires period >= 1
  {
    2.0 / (period as real + 1.0)
  }

  /** One step of the unadjusted exponential average. */
  function Blend(period: nat, previous: real, newest: real): real
    requires period >= 1
  {
    (1.0 - Alpha(period)) * previous + Alpha(period) * newest
  }

  function Atr(bars: seq<Candle>, period: nat, i: nat): real
    requires period >= 1 && i < |bars|
  {
    if i == 0 then TrueRange(bars, 0) else Blend(period, Atr(bars, period, i - 1), TrueRange(bars, i))
  }

  /** Directional movement starts at the second bar, and so does its average. */
  function PlusSmooth(bars: seq<Candle>, period: nat, i: nat): real
    requires period >= 1 && 1 <= i < |bars|
  {
    if i == 1 then PlusDm(bars, 1) else Blend(period, PlusSmooth(bars, period, i - 1), PlusDm(bars, i))
  }

  function MinusSmooth(bars: seq<Candle>, period: nat, i: nat): real
    requires period >= 1 && 1 <= i < |bars|
  {
    if i == 1 then MinusDm(bars, 1) else Blend(period, MinusSmooth(bars, period, i - 1), MinusDm(bars, i))
  }

  function NonZero(x: real): (r: real)
    ensures r != 0.0
  {
    if x == 0.0 then TINY else x
  }

  function PlusDi(bars: seq<Candle>, period: nat, i: nat): real
    requires period >= 1 && 1 <= i < |bars|
  {
    100.0 * (PlusSmooth(bars, period, i) / NonZero(Atr(bars, period, i)))
  }

  function MinusDi(bars: seq<Candle>, period: nat, i: nat): real
    requires period >= 1 && 1 <= i < |bars|
  {
    100.0 * (MinusSmooth(bars, period, i) / NonZero(Atr(bars, period, i)))
  }

  function Dx(bars: seq<Candle>, period: nat, i: nat): real
    requires period >= 1 && 1 <= i < |bars|
  {
    var plus, minus := PlusDi(bars, period, i), MinusDi(bars, period, i);
    100.0 * Abs(plus - minus) / NonZero(plus + minus)
  }

  function AdxAt(bars: seq<Candle>, period: nat, i: nat): real
    requires period >= 1 && 1 <= i < |bars|
  {
    if i == 1 then Dx(bars, period, 1) else Blend(period, AdxAt(bars, period, i - 1), Dx(bars, period, i))
  }

  function Adx(bars: seq<Candle>, period: nat): Option<real>
    requires period >= 1
  {
    if |bars| < 2 then None else Some(AdxAt(bars, period, |bars| - 1))
  }

  /** The exponential average never leaves the range of its inputs. */
  lemma BlendStaysBetween(period: nat, previous: real, newest: real, lo: real, hi: real)
    requires period >= 1 && lo <= previous <= hi && lo <= newest <= hi
    ensures lo <= Blend(period, previous, newest) <= hi
  {
    var a := Alpha(period);
    DivisionBounds(2.0, period as real + 1.0, 1.0);
    MixBetween(a, previous, newest, lo);
    MixBetween(a, -previous, -newest, -hi);
    MixNegates(a, previous, newest);
  }

  lemma ProductNonNegative(x: real, y: real)
    requires x >= 0.0 && y >= 0.0
    ensures x * y >= 0.0
  {
  }

  /** A weighted mean is at least a lower bound of both values. */
  lemma MixBetween(a: real, x: real, y: real, lo: real)
    requires 0.0 <= a <= 1.0 && lo <= x && lo <= y
    ensures (1.0 - a) * x + a * y >= lo
  {
    ProductNonNegative(1.0 - a, x - lo);
    ProductNonNegative(a, y - lo);
    assert (1.0 - a) * x + a * y == lo + (1.0 - a) * (x - lo) + a * (y - lo);
  }

  lemma MixNegates(a: real, x: real, y: real)
    ensures (1.0 - a) * -x + a * -y == -((1.0 - a) * x + a * y)
  {
  }

  /** The newest entry's weight is 2/(n+1); Wilder's smoothing, which the source's comment names, would use 1/n. */
  lemma AlphaIsNotWilders(period: nat)
    requires period >= 1
    ensures Alpha(period) == 1.0 / period as real <==> period == 1
  {
    var a := Alpha(period);
    var n := period as real;
    assert a * (n + 1.0) == 2.0;
    var w := 1.0 / n;
    assert w * n == 1.0;
    if a == w {
      assert w * (n + 1.0) == w * n + w;
      assert w == 1.0;
    }
  }

  lemma DirectionalMovementsExclude(bars: seq<Candle>, i: nat)
    requires 1 <= i < |bars|
    ensures !(PlusDm(bars, i) > 0.0 && MinusDm(bars, i) > 0.0)
    ensures PlusDm(bars, i) >= 0.0 && MinusDm(bars, i) >= 0.0
  {
  }

  lemma {:induction false} AtrNonNegative(bars: seq<Candle>, period: nat, i: nat)
    requires period >= 1 && i < |bars| && bars[0].high >= bars[0].low
    ensures Atr(bars, period, i) >= 0.0
  {
    if i > 0 {
      AtrNonNegative(bars, period, i - 1);
      BlendStaysBetween(period, Atr(bars, period, i - 1), TrueRange(bars, i), 0.0,
                        Max(Atr(bars, period, i - 1), TrueRange(bars, i)));
    }
  }

  lemma {:induction false} SmoothedNonNegative(bars: seq<Candle>, period: nat, i: nat)
    requires period >= 1 && 1 <= i < |bars|
    ensures PlusSmooth(bars, period, i) >= 0.0 && MinusSmooth(bars, period, i) >= 0.0
  {
    if i > 1 {
      SmoothedNonNegative(bars, period, i - 1);
      var p, m := PlusSmooth(bars, period, i - 1), MinusSmooth(bars, period, i - 1);
      BlendStaysBetween(period, p, PlusDm(bars, i), 0.0, Max(p, PlusDm(bars, i)));
      BlendStaysBetween(period, m, MinusDm(bars, i), 0.0, Max(m, MinusDm(bars, i)));
    }
  }

  lemma QuotientNonNegative(a: real, b: real)
    requires a >= 0.0 && b > 0.0
    ensures a / b >= 0.0
  {
  }

  lemma RatioInRange(plus: real, minus: real)
    requires plus >= 0.0 && minus >= 0.0
    ensures 0.0 <= 100.0 * Abs(plus - minus) / NonZero(plus + minus) <= 100.0
  {
    DivisionBounds(100.0 * Abs(plus - minus), NonZero(plus + minus), 100.0);
  }

  lemma FactorNonNegative(a: real, b: real)
    requires b > 0.0 && a * b >= 0.0
    ensures a >= 0.0
  {
  }

  lemma DivisionBounds(x: real, y: real, hi: real)
    requires y > 0.0 && 0.0 <= x <= hi * y
    ensures 0.0 <= x / y <= hi
  {
    var q := x / y;
    assert q * y == x;
    FactorNonNegative(q, y);
    assert (hi - q) * y == hi * y - q * y;
    FactorNonNegative(hi - q, y);
  }

  lemma DxInRange(bars: seq<Candle>, period: nat, i: nat)
    requires period >= 1 && 1 <= i < |bars| && bars[0].high >= bars[0].low
    ensures 0.0 <= Dx(bars, period, i) <= 100.0
  {
    SmoothedNonNegative(bars, period, i);
    AtrNonNegative(bars, period, i);
    var atr := NonZero(Atr(bars, period, i));
    QuotientNonNegative(PlusSmooth(bars, period, i), atr);
    QuotientNonNegative(MinusSmooth(bars, period, i), atr);
    RatioInRange(PlusDi(bars, period, i), MinusDi(bars, period, i));
  }

  lemma {:induction false} AdxAtInRange(bars: seq<Candle>, period: nat, i: nat)
    requires period >= 1 && 1 <= i < |bars| && bars[0].high >= bars[0].low
    ensures 0.0 <= AdxAt(bars, period, i) <= 100.0
  {
    DxInRange(bars, period, i);
    if i > 1 {
      AdxAtInRange(bars, period, i - 1);
      BlendStaysBetween(period, AdxAt(bars, period, i - 1), Dx(bars, period, i), 0.0, 100.0);
    }
  }

  /** For every series of bars and every period; only the first bar's high and low need be in order. */
  lemma AdxInRange(bars: seq<Candle>, period: nat)
    requires period >= 1 && |bars| >= 2 && bars[0].high >= bars[0].low
    ensures Adx(bars, period).Some? && 0.0 <= Adx(bars, period).value <= 100.0
  {
    AdxAtInRange(bars, period, |bars| - 1);
  }

  // ---------------------------------------------------------------- what ADX measures

  /** Of an upward and a downward move only the larger counts, and only if it is one. */
  lemma LargerMoveCounts(bars: seq<Candle>, i: nat)
    requires 1 <= i < |bars|
    ensures var up, down := bars[i].high - bars[i - 1].high, bars[i - 1].low - bars[i].low;
            && (PlusDm(bars, i) > 0.0 ==> PlusDm(bars, i) == up && up > down)
            && (MinusDm(bars, i) > 0.0 ==> MinusDm(bars, i) == down && down > up)
            && PlusDm(bars, i) + MinusDm(bars, i) == if up == down then 0.0 else Max(Max(up, down), 0.0)
  {
  }

  /** Each step moves the average by 2/(n+1) of the distance to the newest value. */
  lemma BlendMoves(period: nat, previous: real, newest: real)
    requires period >= 1
    ensures (Blend(period, previous, newest) - previous) * (period as real + 1.0) == 2.0 * (newest - previous)
  {
    var a, n := Alpha(period), period as real + 1.0;
    assert a * n == 2.0;
    assert Blend(period, previous, newest) - previous == a * (newest - previous);
    assert (a * (newest - previous)) * n == (a * n) * (newest - previous);
  }

  /** d is the percentage that the part makes of the whole. */
  predicate Share(d: real, whole: real, part: real) {
    d * whole == 100.0 * part
  }

  /** How the index comes about: from two quotients by the same positive range. */
  ghost predicate FromQuotients(d: real, p: real, m: real, a: real) {
    && p >= 0.0 && m >= 0.0 && a > 0.0
    && d == 100.0 * Abs(100.0 * (p / a) - 100.0 * (m / a)) / NonZero(100.0 * (p / a) + 100.0 * (m / a))
  }

  lemma DxFromQuotients(bars: seq<Candle>, period: nat, i: nat)
    requires period >= 1 && 1 <= i < |bars| && bars[0].high >= bars[0].low
    ensures FromQuotients(Dx(bars, period, i), PlusSmooth(bars, period, i), MinusSmooth(bars, period, i),
                          NonZero(Atr(bars, period, i)))
  {
    AtrNonNegative(bars, period, i);
    SmoothedNonNegative(bars, period, i);
  }

  /** The directional index is the share of the imbalance in all directional movement; the range cancels. */
  lemma DxIsImbalance(bars: seq<Candle>, period: nat, i: nat)
    requires period >= 1 && 1 <= i < |bars| && bars[0].high >= bars[0].low
    ensures var p, m := PlusSmooth(bars, period, i), MinusSmooth(bars, period, i);
            Share(Dx(bars, period, i), p + m, Abs(p - m)) && (p + m == 0.0 ==> Dx(bars, period, i) == 0.0)
  {
    DxFromQuotients(bars, period, i);
    ImbalanceCancels(PlusSmooth(bars, period, i), MinusSmooth(bars, period, i), NonZero(Atr(bars, period, i)),
                     Dx(bars, period, i));
  }

  lemma ImbalanceCancels(p: real, m: real, a: real, d: real)
    requires FromQuotients(d, p, m, a)
    ensures Share(d, p + m, Abs(p - m)) && (p + m == 0.0 ==> d == 0.0)
  {
    var u, v := p / a, m / a;
    QuotientOf(p, a);
    QuotientOf(m, a);
    ImbalanceOfParts(u, v, d);
    Factored(u, v, a, p, m);
    AbsScales(u - v, a, p - m);
    ShareScales(d, u + v, Abs(u - v), a, p + m, Abs(p - m));
    ZeroFactor(u + v, a, p + m);
  }

  lemma QuotientOf(p: real, a: real)
    requires p >= 0.0 && a > 0.0
    ensures (p / a) * a == p && p / a >= 0.0
  {
    FactorNonNegative(p / a, a);
  }

  lemma ImbalanceOfParts(u: real, v: real, d: real)
    requires u >= 0.0 && v >= 0.0
    requires d == 100.0 * Abs(100.0 * u - 100.0 * v) / NonZero(100.0 * u + 100.0 * v)
    ensures Share(d, u + v, Abs(u - v)) && (u + v == 0.0 ==> d == 0.0)
  {
    var sum := 100.0 * u + 100.0 * v;
    if sum == 0.0 {
      assert u == 0.0 && v == 0.0;
      assert d == 0.0;
    } else {
      assert Abs(100.0 * u - 100.0 * v) == 100.0 * Abs(u - v);
      HundredthShare(d, sum, u + v, Abs(u - v));
    }
  }

  lemma HundredthShare(d: real, sum: real, whole: real, part: real)
    requires sum == 100.0 * whole && sum != 0.0 && d == 100.0 * (100.0 * part) / sum
    ensures Share(d, whole, part)
  {
    assert d * sum == 100.0 * (100.0 * part);
    assert d * sum == 100.0 * (d * whole);
  }

  lemma Factored(u: real, v: real, a: real, p: real, m: real)
    requires u * a == p && v * a == m
    ensures (u + v) * a == p + m && (u - v) * a == p - m
  {
  }

  lemma ShareScales(d: real, whole: real, part: real, a: real, scaledWhole: real, scaledPart: real)
    requires Share(d, whole, part) && whole * a == scaledWhole && part * a == scaledPart
    ensures Share(d, scaledWhole, scaledPart)
  {
    assert d * (whole * a) == (d * whole) * a;
  }

  lemma ZeroFactor(x: real, a: real, product: real)
    requires a > 0.0 && x * a == product
    ensures product == 0.0 ==> x == 0.0
  {
  }

  lemma AbsScales(x: real, a: real, product: real)
    requires a > 0.0 && x * a == product
    ensures Abs(x) * a == Abs(product)
  {
    if x > 0.0 {
      assert x * a > 0.0;
    } else if x < 0.0 {
      assert (-x) * a > 0.0;
      assert (-x) * a == -product;
    }
  }

  /** Every bar reaches higher and none falls lower. */
  predicate Climbs(bars: seq<Candle>) {
    forall i :: 1 <= i < |bars| ==> bars[i].high > bars[i - 1].high && bars[i].low >= bars[i - 1].low
  }

  predicate Sinks(bars: seq<Candle>) {
    forall i :: 1 <= i < |bars| ==> bars[i].low < bars[i - 1].low && bars[i].high <= bars[i - 1].high
  }

  lemma {:induction false} OneSidedSmooth(bars: seq<Candle>, period: nat, i: nat)
    requires period >= 1 && 1 <= i < |bars|
    ensures Climbs(bars) ==> PlusSmooth(bars, period, i) > 0.0 && MinusSmooth(bars, period, i) == 0.0
    ensures Sinks(bars) ==> MinusSmooth(bars, period, i) > 0.0 && PlusSmooth(bars, period, i) == 0.0
  {
    if i > 1 {
      OneSidedSmooth(bars, period, i - 1);
      var p, m := PlusSmooth(bars, period, i - 1), MinusSmooth(bars, period, i - 1);
      BlendStaysBetween(period, p, PlusDm(bars, i), Min(p, PlusDm(bars, i)), Max(p, PlusDm(bars, i)));
      BlendStaysBetween(period, m, MinusDm(bars, i), Min(m, MinusDm(bars, i)), Max(m, MinusDm(bars, i)));
    }
  }

  lemma OneSidedDx(bars: seq<Candle>, period: nat, i: nat)
    requires period >= 1 && 1 <= i < |bars| && bars[0].high >= bars[0].low && (Climbs(bars) || Sinks(bars))
    ensures Dx(bars, period, i) == 100.0
  {
    OneSidedSmooth(bars, period, i);
    DxIsImbalance(bars, period, i);
    var p, m := PlusSmooth(bars, period, i), MinusSmooth(bars, period, i);
    FullShare(Dx(bars, period, i), p + m, Abs(p - m));
  }

  lemma FullShare(d: real, whole: real, part: real)
    requires Share(d, whole, part) && whole == part && whole > 0.0
    ensures d == 100.0
  {
    assert (d - 100.0) * whole == 0.0;
    ZeroFactor(d - 100.0, whole, 0.0);
  }

  lemma {:induction false} OneSidedAdxAt(bars: seq<Candle>, period: nat, i: nat)
    requires period >= 1 && 1 <= i < |bars| && bars[0].high >= bars[0].low && (Climbs(bars) || Sinks(bars))
    ensures AdxAt(bars, period, i) == 100.0
  {
    OneSidedDx(bars, period, i);
    if i > 1 {
      OneSidedAdxAt(bars, period, i - 1);
      BlendStaysBetween(period, AdxAt(bars, period, i - 1), Dx(bars, period, i), 100.0, 100.0);
    }
  }

  /** A trend that never turns reads 100, whichever way it goes. */
  lemma SteadyTrendReadsFull(bars: seq<Candle>, period: nat)
    requires period >= 1 && |bars| >= 2 && bars[0].high >= bars[0].low && (Climbs(bars) || Sinks(bars))
    ensures Adx(bars, period) == Some(100.0)
  {
    OneSidedAdxAt(bars, period, |bars| - 1);
  }

  // ---------------------------------------------------------------- composite direction

  datatype Band = AboveUpper | WithinBands | BelowLower

  datatype Direction = StrongBullish | Bullish | BullishExhausted | Neutral | BearishExhausted | Bearish | StrongBearish

  function PriceSignal(price: real, sma: real): real {
    if price > sma then 1.0 else -1.0
  }

  function MacdSignal(histogram: real): real {
    if histogram > 0.0 then 1.0 else if histogram < 0.0 then -1.0 else 0.0
  }

  function MomentumSignal(price: real, sma: real, move: real): real {
    if move > 3.0 then (if price > sma then 1.0 else if price < sma then -1.0 else 0.0) else 0.0
  }

  function DirectionScore(price: real, sma: real, histogram: real, adx: real, move: real): real {
    var p, m, q := PriceSignal(price, sma), MacdSignal(histogram), MomentumSignal(price, sma, move);
    if adx > 25.0 then p * 0.6 + m * 0.2 + q * 0.2
    else if adx > 15.0 then p * 0.4 + m * 0.4 + q * 0.2
    else p * 0.3 + m * 0.5 + q * 0.2
  }

  function CompositeDirection(
      price: real, sma: real, histogram: real, rsi: real, adx: Option<real>, band: Band, move: real): Direction {
    var strength := if adx.Some? then adx.value else 0.0;
    var score := DirectionScore(price, sma, histogram, strength, move);
    var base := if score > 0.6 && strength > 25.0 then StrongBullish
                else if score > 0.3 then Bullish
                else if score < -0.6 && strength > 25.0 then StrongBearish
                else if score < -0.3 then Bearish
                else Neutral;
    if strength < 25.0 && base in {StrongBullish, Bullish} && rsi > 70.0 && band == AboveUpper then BullishExhausted
    else if strength < 25.0 && base in {StrongBearish, Bearish} && rsi < 30.0 && band == BelowLower
    then BearishExhausted
    else base
  }

  function MirrorBand(b: Band): Band {
    match b case AboveUpper => BelowLower case WithinBands => WithinBands case BelowLower => AboveUpper
  }

  function MirrorDirection(d: Direction): Direction {
    match d
    case StrongBullish => StrongBearish
    case Bullish => Bearish
    case BullishExhausted => BearishExhausted
    case Neutral => Neutral
    case BearishExhausted => BullishExhausted
    case Bearish => Bullish
    case StrongBearish => StrongBullish
  }

  /** Away from the moving average the classifier treats up and down alike. */
  lemma DirectionIsSymmetric(
      price: real, sma: real, histogram: real, rsi: real, adx: Option<real>, band: Band, move: real)
    requires price != sma
    ensures CompositeDirection(2.0 * sma - price, sma, -histogram, 100.0 - rsi, adx, MirrorBand(band), move)
         == MirrorDirection(CompositeDirection(price, sma, histogram, rsi, adx, band, move))
  {
    var strength := if adx.Some? then adx.value else 0.0;
    var p, m, q := PriceSignal(price, sma), MacdSignal(histogram), MomentumSignal(price, sma, move);
    assert PriceSignal(2.0 * sma - price, sma) == -p;
    assert MacdSignal(-histogram) == -m;
    assert MomentumSignal(2.0 * sma - price, sma, move) == -q;
    assert DirectionScore(2.0 * sma - price, sma, -histogram, strength, move)
             == -DirectionScore(price, sma, histogram, strength, move);
  }

  /**
    On the average itself, where a rise and a fall read the same bearish price signal, it
    does so exactly when MACD is flat and the trend too weak for the price to count.
   */
  lemma SymmetricAtAverageIff(sma: real, histogram: real, rsi: real, adx: Option<real>, band: Band, move: real)
    ensures (CompositeDirection(sma, sma, -histogram, 100.0 - rsi, adx, MirrorBand(band), move)
             == MirrorDirection(CompositeDirection(sma, sma, histogram, rsi, adx, band, move)))
            <==> histogram == 0.0 && (adx.None? || adx.value <= 15.0)
  {
    assert PriceSignal(sma, sma) == -1.0;
    assert MacdSignal(-histogram) == -MacdSignal(histogram);
    assert MomentumSignal(sma, sma, move) == 0.0;
  }

  /** The strongest reading, by its inputs. */
  lemma StrongBullishIff(
      price: real, sma: real, histogram: real, rsi: real, adx: Option<real>, band: Band, move: real)
    ensures CompositeDirection(price, sma, histogram, rsi, adx, band, move) == StrongBullish <==>
              && adx.Some? && adx.value > 25.0 && price > sma
              && (histogram > 0.0 || (histogram == 0.0 && move > 3.0))
  {
  }

  /** Without a strong trend, price and MACD agreeing upwards read bullish, or exhausted at the upper band. */
  lemma AgreeingSignalsReadBullish(
      price: real, sma: real, histogram: real, rsi: real, adx: Option<real>, band: Band, move: real)
    requires price > sma && histogram > 0.0 && (adx.Some? ==> adx.value < 25.0)
    ensures CompositeDirection(price, sma, histogram, rsi, adx, band, move)
            == if rsi > 70.0 && band == AboveUpper then BullishExhausted else Bullish
  {
  }
}
