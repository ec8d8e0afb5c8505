/** Wilder's Relative Strength Index over a series of closing prices, in exact
    real arithmetic. */
module Rsi {
  import opened Wrappers

  /** The window the dashboard uses when no period is given. */
  const DefaultPeriod: nat := 14

  /** Running average gain and average loss. */
  datatype Averages = Averages(gain: real, loss: real)

  predicate NonNegative(a: Averages) {
    a.gain >= 0.0 && a.loss >= 0.0
  }

  /** The upward part of a price change. */
  function Gain(d: real): (g: real)
    ensures g >= 0.0 && g >= d
    ensures d <= 0.0 ==> g == 0.0
  {
    if d > 0.0 then d else 0.0
  }

  /** The size of the downward part of a price change. */
  function Loss(d: real): (l: real)
    ensures l >= 0.0 && Gain(d) - l == d
    ensures d >= 0.0 ==> l == 0.0
  {
    if d < 0.0 then -d else 0.0
  }

  /** The change from each price to the next. */
  function Deltas(prices: seq<real>): (ds: seq<real>)
    ensures |ds| == if |prices| == 0 then 0 else |prices| - 1
    ensures forall i :: 0 <= i < |ds| ==> ds[i] == prices[i + 1] - prices[i]
  {
    if |prices| <= 1 then []
    else seq(|prices| - 1, i requires 0 <= i < |prices| - 1 => prices[i + 1] - prices[i])
  }

  /** No price is lower than the one before it. */
  predicate NonDecreasing(prices: seq<real>) {
    forall i :: 0 < i < |prices| ==> prices[i - 1] <= prices[i]
  }

  /** Every price is lower than the one before it. */
  predicate StrictlyDecreasing(prices: seq<real>) {
    forall i :: 0 < i < |prices| ==> prices[i - 1] > prices[i]
  }

  /** Sum of the gains and sum of the losses over `ds`, oldest first. */
  function Totals(ds: seq<real>): (t: Averages)
    ensures NonNegative(t)
  {
    if |ds| == 0 then Averages(0.0, 0.0)
    else
      var t := Totals(ds[..|ds| - 1]);
      var d := ds[|ds| - 1];
      Averages(t.gain + Gain(d), t.loss + Loss(d))
  }

  /** Wilder's update of one average: `(avg * (period - 1) + x) / period`. */
  function Wilder(avg: real, x: real, period: nat): (r: real)
    requires period >= 1
    ensures avg >= 0.0 && x >= 0.0 ==> r >= 0.0
  {
    var p := period as real;
    WeightedNonNegative(avg, x, p);
    (avg * (p - 1.0) + x) / p
  }

  lemma WeightedNonNegative(avg: real, x: real, p: real)
    requires p >= 1.0
    ensures avg >= 0.0 && x >= 0.0 ==> (avg * (p - 1.0) + x) / p >= 0.0
  {
  }

  lemma DivideNonNegative(x: real, p: real)
    requires p > 0.0
    ensures x >= 0.0 ==> x / p >= 0.0
    ensures x / p == 0.0 <==> x == 0.0
  {
  }

  /** One step of Wilder smoothing on both averages. */
  function Step(a: Averages, d: real, period: nat): (b: Averages)
    requires period >= 1
    ensures NonNegative(a) ==> NonNegative(b)
  {
    Averages(Wilder(a.gain, Gain(d), period), Wilder(a.loss, Loss(d), period))
  }

  /** Wilder smoothing folded over `ds`, oldest first. */
  function Smooth(a: Averages, ds: seq<real>, period: nat): (b: Averages)
    requires period >= 1
    ensures NonNegative(a) ==> NonNegative(b)
  {
    if |ds| == 0 then a
    else Step(Smooth(a, ds[..|ds| - 1], period), ds[|ds| - 1], period)
  }

  /** The averages after the seed window and the smoothing that follows it. */
  function FinalAverages(prices: seq<real>, period: nat): (a: Averages)
    requires period >= 1 && |prices| > period
    ensures NonNegative(a)
  {
    var ds := Deltas(prices);
    var t := Totals(ds[..period]);
    Smooth(Seed(t, period), ds[period..], period)
  }

  /** The first averages: the seed window's totals divided by its length. */
  function Seed(t: Averages, period: nat): (a: Averages)
    requires period >= 1
    ensures NonNegative(t) ==> NonNegative(a)
    ensures a.loss == 0.0 <==> t.loss == 0.0
  {
    var p := period as real;
    DivideNonNegative(t.gain, p);
    DivideNonNegative(t.loss, p);
    Averages(t.gain / p, t.loss / p)
  }

  /** The index read off the final averages; a zero average loss saturates
      at 100 instead of dividing by zero. */
  function Index(a: Averages): (r: real)
    requires NonNegative(a)
    ensures 0.0 <= r <= 100.0
    ensures r == 100.0 <==> a.loss == 0.0
  {
    if a.loss == 0.0 then 100.0
    else
      var rs := a.gain / a.loss;
      assert 1.0 + rs >= 1.0;
      DivideBounds(100.0, 1.0 + rs);
      100.0 - 100.0 / (1.0 + rs)
  }

  lemma DivideBounds(x: real, y: real)
    requires x > 0.0 && y >= 1.0
    ensures 0.0 < x / y <= x
  {
  }

  /** The RSI of `prices`, or None when there are not more prices than the
      window is long. */
  function CalculateRsi(prices: seq<real>, period: nat): (r: Option<real>)
    requires period >= 1
    ensures r.None? <==> |prices| <= period
    ensures r.Some? ==> 0.0 <= r.value <= 100.0
    ensures r.Some? ==> (r.value == 100.0 <==> FinalAverages(prices, period).loss == 0.0)
  {
    if |prices| <= period then None
    else Some(Index(FinalAverages(prices, period)))
  }

  /** An independent reading of the index: the share of the average gain in
      the total average movement, scaled to 100. */
  lemma IndexIsGainShare(a: Averages)
    requires NonNegative(a) && a.loss > 0.0
    ensures Index(a) == 100.0 * a.gain / (a.gain + a.loss)
  {
  }

  /** The summed loss is zero exactly when no delta goes down. */
  lemma {:induction false} TotalLossZero(ds: seq<real>)
    ensures Totals(ds).loss == 0.0 <==> forall i :: 0 <= i < |ds| ==> ds[i] >= 0.0
  {
    if |ds| > 0 {
      var init := ds[..|ds| - 1];
      TotalLossZero(init);
      assert forall i :: 0 <= i < |init| ==> init[i] == ds[i];
    }
  }

  /** Smoothing keeps a zero average loss at zero while no delta goes down;
      with a window of two or more, a zero result also shows that the start
      was zero and that no delta went down. */
  lemma {:induction false} SmoothLossZero(a: Averages, ds: seq<real>, period: nat)
    requires period >= 1 && NonNegative(a)
    ensures a.loss == 0.0 && (forall i :: 0 <= i < |ds| ==> ds[i] >= 0.0)
            ==> Smooth(a, ds, period).loss == 0.0
    ensures period >= 2 && Smooth(a, ds, period).loss == 0.0
            ==> a.loss == 0.0 && forall i :: 0 <= i < |ds| ==> ds[i] >= 0.0
  {
    if |ds| > 0 {
      var init := ds[..|ds| - 1];
      SmoothLossZero(a, init, period);
      assert forall i :: 0 <= i < |init| ==> init[i] == ds[i];
      StepLossZero(Smooth(a, init, period), ds[|ds| - 1], period);
    }
  }

  /** One smoothing step keeps a zero loss at zero on a delta that does not
      go down; with a window of two or more, the converse holds too. */
  lemma StepLossZero(b: Averages, d: real, period: nat)
    requires period >= 1 && NonNegative(b)
    ensures b.loss == 0.0 && d >= 0.0 ==> Step(b, d, period).loss == 0.0
    ensures period >= 2 && Step(b, d, period).loss == 0.0 ==> b.loss == 0.0 && d >= 0.0
  {
    WilderZero(b.loss, Loss(d), period);
  }

  /** Wilder's update is zero exactly when the old average and the new value
      are both zero, as long as the old average carries weight. */
  lemma WilderZero(avg: real, x: real, period: nat)
    requires period >= 1 && avg >= 0.0 && x >= 0.0
    ensures avg == 0.0 && x == 0.0 ==> Wilder(avg, x, period) == 0.0
    ensures period >= 2 && Wilder(avg, x, period) == 0.0 ==> avg == 0.0 && x == 0.0
  {
    var p := period as real;
    if period >= 2 && Wilder(avg, x, period) == 0.0 {
      DivideNonNegative(avg * (p - 1.0) + x, p);
      assert avg * (p - 1.0) + x == 0.0;
      assert avg * (p - 1.0) >= 0.0;
      assert avg * (p - 1.0) == 0.0;
    }
  }

  /** A series that never goes down has an RSI of exactly 100. */
  lemma NoDropSaturates(prices: seq<real>, period: nat)
    requires period >= 1 && |prices| > period
    requires NonDecreasing(prices)
    ensures CalculateRsi(prices, period) == Some(100.0)
  {
    var ds := Deltas(prices);
    var t := Totals(ds[..period]);
    assert forall i :: 0 <= i < |ds| ==> ds[i] == prices[i + 1] - prices[i];
    assert forall i :: 0 <= i < |ds| ==> ds[i] >= 0.0;
    TotalLossZero(ds[..period]);
    var seed := Seed(t, period);
    SmoothLossZero(seed, ds[period..], period);
  }

  /** With a window of two or more, an RSI of exactly 100 means no price in
      the whole series was lower than the one before it. */
  lemma SaturatedMeansNoDrop(prices: seq<real>, period: nat)
    requires period >= 2
    requires CalculateRsi(prices, period) == Some(100.0)
    ensures NonDecreasing(prices)
  {
    var ds := Deltas(prices);
    SaturatedDeltas(prices, period);
    forall i | 0 < i < |prices| ensures prices[i - 1] <= prices[i] {
      assert ds[i - 1] == prices[i] - prices[i - 1];
    }
  }

  /** The delta-level half of SaturatedMeansNoDrop: no delta is negative. */
  lemma SaturatedDeltas(prices: seq<real>, period: nat)
    requires period >= 2 && |prices| > period
    requires FinalAverages(prices, period).loss == 0.0
    ensures forall k :: 0 <= k < |Deltas(prices)| ==> Deltas(prices)[k] >= 0.0
  {
    var ds := Deltas(prices);
    var t := Totals(ds[..period]);
    SmoothLossZero(Seed(t, period), ds[period..], period);
    TotalLossZero(ds[..period]);
    forall k | 0 <= k < |ds| ensures ds[k] >= 0.0 {
      if k < period {
        assert ds[..period][k] == ds[k];
      } else {
        assert ds[period..][k - period] == ds[k];
      }
    }
  }

  /** Over deltas that all go down, the summed gain is zero and, unless
      there are none, the summed loss is positive. */
  lemma {:induction false} TotalsFalling(ds: seq<real>)
    requires forall i :: 0 <= i < |ds| ==> ds[i] < 0.0
    ensures Totals(ds).gain == 0.0
    ensures |ds| > 0 ==> Totals(ds).loss > 0.0
  {
    if |ds| > 0 {
      var init := ds[..|ds| - 1];
      assert forall i :: 0 <= i < |init| ==> init[i] == ds[i];
      TotalsFalling(init);
    }
  }

  /** Smoothing over deltas that all go down keeps the average gain at zero
      and the average loss positive. */
  lemma {:induction false} SmoothFalling(a: Averages, ds: seq<real>, period: nat)
    requires period >= 1 && a.gain == 0.0 && a.loss > 0.0
    requires forall i :: 0 <= i < |ds| ==> ds[i] < 0.0
    ensures Smooth(a, ds, period).gain == 0.0 && Smooth(a, ds, period).loss > 0.0
  {
    if |ds| > 0 {
      var init := ds[..|ds| - 1];
      assert forall i :: 0 <= i < |init| ==> init[i] == ds[i];
      SmoothFalling(a, init, period);
      var b := Smooth(a, init, period);
      var d := ds[|ds| - 1];
      var p := period as real;
      assert b.loss * (p - 1.0) >= 0.0;
      DivideNonNegative(b.loss * (p - 1.0) + Loss(d), p);
    }
  }

  /** A series in which every price falls has an RSI of exactly 0. */
  lemma FallingBottomsOut(prices: seq<real>, period: nat)
    requires period >= 1 && |prices| > period
    requires StrictlyDecreasing(prices)
    ensures CalculateRsi(prices, period) == Some(0.0)
  {
    var ds := Deltas(prices);
    forall i | 0 <= i < |ds| ensures ds[i] < 0.0 {
      assert ds[i] == prices[i + 1] - prices[i];
    }
    FallingAverages(prices, period);
    IndexWithoutGain(FinalAverages(prices, period));
  }

  /** The averages of a series whose deltas all go down: no gain, some loss. */
  lemma FallingAverages(prices: seq<real>, period: nat)
    requires period >= 1 && |prices| > period
    requires forall i :: 0 <= i < |Deltas(prices)| ==> Deltas(prices)[i] < 0.0
    ensures FinalAverages(prices, period).gain == 0.0 && FinalAverages(prices, period).loss > 0.0
  {
    var ds := Deltas(prices);
    var t := Totals(ds[..period]);
    TotalsFalling(ds[..period]);
    DivideNonNegative(t.loss, period as real);
    SmoothFalling(Seed(t, period), ds[period..], period);
  }

  lemma IndexWithoutGain(a: Averages)
    requires a.gain == 0.0 && a.loss > 0.0
    ensures Index(a) == 0.0
  {
  }

  /** With a window of one, smoothing forgets everything but the newest
      delta: the RSI is 100 exactly when the last price did not go down. */
  lemma PeriodOneSaturation(prices: seq<real>)
    requires |prices| > 1
    ensures CalculateRsi(prices, 1) == Some(100.0) <==> prices[|prices| - 2] <= prices[|prices| - 1]
  {
    var ds := Deltas(prices);
    var t := Totals(ds[..1]);
    var seed := Averages(t.gain, t.loss);
    assert Totals(ds[..1]) == Averages(Gain(ds[0]), Loss(ds[0]));
    var tail := ds[1..];
    if |tail| > 0 {
      assert Smooth(seed, tail, 1).loss == Loss(tail[|tail| - 1]);
    }
  }

  lemma TotalsExtend(ds: seq<real>, i: nat)
    requires i < |ds|
    ensures Totals(ds[..i + 1]) == Averages(Totals(ds[..i]).gain + Gain(ds[i]), Totals(ds[..i]).loss + Loss(ds[i]))
  {
    assert ds[..i + 1][..i] == ds[..i];
  }

  lemma SmoothExtend(a: Averages, ds: seq<real>, lo: nat, hi: nat, period: nat)
    requires period >= 1 && lo <= hi < |ds|
    ensures Smooth(a, ds[lo..hi + 1], period) == Step(Smooth(a, ds[lo..hi], period), ds[hi], period)
  {
    assert ds[lo..hi + 1][..hi - lo] == ds[lo..hi];
  }

  /** The dashboard's first loop: the gains and losses of the first
      `period` deltas, summed. */
  method SumSeedWindow(prices: seq<real>, period: nat) returns (gains: real, losses: real)
    requires period >= 1 && |prices| > period
    ensures Averages(gains, losses) == Totals(Deltas(prices)[..period])
  {
    ghost var ds := Deltas(prices);
    gains := 0.0;
    losses := 0.0;
    var i := 1;
    while i <= period
      invariant 1 <= i <= period + 1
      invariant Averages(gains, losses) == Totals(ds[..i - 1])
    {
      var delta := prices[i] - prices[i - 1];
      TotalsExtend(ds, i - 1);
      if delta >= 0.0 {
        gains := gains + delta;
      } else {
        losses := losses - delta;
      }
      i := i + 1;
    }
  }

  /** One turn of the second loop extends the fold by the next delta. */
  lemma SmoothRestStep(prices: seq<real>, period: nat, seed: Averages, i: nat, g: real, l: real)
    requires period >= 1 && period + 1 <= i < |prices|
    requires Averages(g, l) == Smooth(seed, Deltas(prices)[period..i - 1], period)
    ensures var d := prices[i] - prices[i - 1];
      Averages(Wilder(g, Gain(d), period), Wilder(l, Loss(d), period))
      == Smooth(seed, Deltas(prices)[period..i], period)
  {
    var ds := Deltas(prices);
    var d := prices[i] - prices[i - 1];
    assert ds[i - 1] == d;
    SmoothExtend(seed, ds, period, i - 1, period);
    assert Smooth(seed, ds[period..i], period) == Step(Averages(g, l), d, period);
  }

  /** The dashboard's second loop: Wilder smoothing of the averages over
      every delta after the seed window. */
  method SmoothRest(prices: seq<real>, period: nat, gain0: real, loss0: real)
    returns (avgGain: real, avgLoss: real)
    requires period >= 1 && |prices| > period
    ensures Averages(avgGain, avgLoss) == Smooth(Averages(gain0, loss0), Deltas(prices)[period..], period)
  {
    ghost var ds := Deltas(prices);
    ghost var seed := Averages(gain0, loss0);
    avgGain, avgLoss := gain0, loss0;
    var i := period + 1;
    while i < |prices|
      invariant period + 1 <= i <= |prices|
      invariant Averages(avgGain, avgLoss) == Smooth(seed, ds[period..i - 1], period)
    {
      var delta := prices[i] - prices[i - 1];
      var gain := if delta > 0.0 then delta else 0.0;
      var loss := if delta < 0.0 then -delta else 0.0;
      assert gain == Gain(delta) && loss == Loss(delta);
      SmoothRestStep(prices, period, seed, i, avgGain, avgLoss);
      avgGain := Wilder(avgGain, gain, period);
      avgLoss := Wilder(avgLoss, loss, period);
      i := i + 1;
    }
    assert ds[period..i - 1] == ds[period..];
  }

  /** The RSI computed the way the dashboard computes it: the two loops
      above, then the saturating division. */
  method CalculateRsiLoop(prices: seq<real>, period: nat) returns (r: Option<real>)
    requires period >= 1
    ensures r == CalculateRsi(prices, period)
  {
    if |prices| <= period {
      return None;
    }
    var gains, losses := SumSeedWindow(prices, period);
    var p := period as real;
    var avgGain, avgLoss := SmoothRest(prices, period, gains / p, losses / p);
    ghost var a := Averages(avgGain, avgLoss);
    assert a == FinalAverages(prices, period);
    assert CalculateRsi(prices, period) == Some(Index(a));
    if avgLoss == 0.0 {
      return Some(100.0);
    }
    var rs := avgGain / avgLoss;
    return Some(100.0 - 100.0 / (1.0 + rs));
  }
}
