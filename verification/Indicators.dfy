/** The rolling indicators of internal/indicator as values: SMA ring, EMA, SMMA and RSI.
    Prices are paise, averages are reals. Periods are positive, as ValidateConfigs demands. */
module Indicators {
  import opened Common

  datatype SmaState = SmaState(period: nat, buf: seq<real>, idx: nat, count: nat, sum: real, current: real) {
    predicate Valid() { period >= 1 && |buf| == period && idx < period }
  }

  datatype EmaState = EmaState(period: nat, multiplier: real, count: nat, sum: real, current: real) {
    predicate Valid() { period >= 1 && multiplier > 0.0 }
  }

  datatype SmmaState = SmmaState(period: nat, count: nat, sum: real, current: real) {
    predicate Valid() { period >= 1 }
  }

  /** The averages never go negative, which keeps RsiValue defined. */
  datatype RsiState = RsiState(period: nat, count: nat, prevClose: real, avgGain: real, avgLoss: real, current: real) {
    predicate Valid() { period >= 1 && avgGain >= 0.0 && avgLoss >= 0.0 }
  }

  // ----- Construction and update -----

  function NewSma(period: nat): SmaState
    requires period >= 1
  {
    SmaState(period, seq(period, _ => 0.0), 0, 0, 0.0, 0.0)
  }

  function UpdateSma(s: SmaState, price: real): (next: SmaState)
    requires s.Valid()
    ensures next.Valid() && next.period == s.period
  {
    var kept := if s.count >= s.period then s.sum - s.buf[s.idx] else s.sum;
    var sum, count := kept + price, s.count + 1;
    SmaState(s.period, s.buf[s.idx := price], (s.idx + 1) % s.period, count, sum,
             if count >= s.period then sum / s.period as real else s.current)
  }

  function NewEma(period: nat): EmaState
    requires period >= 1
  {
    EmaState(period, EmaAlpha(period), 0, 0.0, 0.0)
  }

  function EmaAlpha(period: nat): real { 2.0 / (period + 1) as real }

  /** x weighted a against the average weighted 1 - a. */
  function Blend(x: real, average: real, a: real): real {
    x * a + average * (1.0 - a)
  }

  function UpdateEma(e: EmaState, price: real): (next: EmaState)
    requires e.Valid()
    ensures next.Valid() && next.period == e.period
  {
    var count := e.count + 1;
    if count <= e.period then
      var sum := e.sum + price;
      e.(count := count, sum := sum, current := if count == e.period then sum / e.period as real else e.current)
    else
      e.(count := count, current := Blend(price, e.current, e.multiplier))
  }

  function NewSmma(period: nat): SmmaState
    requires period >= 1
  {
    SmmaState(period, 0, 0.0, 0.0)
  }

  /** Wilder's smoothing: x enters with weight 1/period. */
  function Wilder(average: real, x: real, period: nat): (w: real)
    requires period >= 1
    ensures average >= 0.0 && x >= 0.0 ==> w >= 0.0
  {
    var p := period as real;
    NonNegativeProduct(average, p - 1.0);
    (average * (p - 1.0) + x) / p
  }

  lemma NonNegativeProduct(a: real, b: real)
    ensures a >= 0.0 && b >= 0.0 ==> a * b >= 0.0
  {
  }

  function UpdateSmma(s: SmmaState, price: real): (next: SmmaState)
    requires s.Valid()
    ensures next.Valid() && next.period == s.period
  {
    var count := s.count + 1;
    if count <= s.period then
      var sum := s.sum + price;
      s.(count := count, sum := sum, current := if count == s.period then sum / s.period as real else s.current)
    else
      s.(count := count, current := Wilder(s.current, price, s.period))
  }

  function NewRsi(period: nat): RsiState
    requires period >= 1
  {
    RsiState(period, 0, 0.0, 0.0, 0.0, 0.0)
  }

  function Gain(from: real, to: real): real { if to - from > 0.0 then to - from else 0.0 }

  function Loss(from: real, to: real): real { if to - from > 0.0 then 0.0 else -(to - from) }

  /** RSI from the two averages; a zero average loss reads 100. */
  function RsiValue(avgGain: real, avgLoss: real): real
    requires avgGain >= 0.0 && avgLoss >= 0.0
  {
    if avgLoss == 0.0 then 100.0 else 100.0 - 100.0 / (1.0 + RelativeStrength(avgGain, avgLoss))
  }

  function RelativeStrength(avgGain: real, avgLoss: real): (rs: real)
    requires avgGain >= 0.0 && avgLoss > 0.0
    ensures rs >= 0.0
  {
    avgGain / avgLoss
  }

  function UpdateRsi(r: RsiState, price: real): (next: RsiState)
    requires r.Valid()
    ensures next.Valid() && next.period == r.period
  {
    var count := r.count + 1;
    if count == 1 then r.(count := count, prevClose := price)
    else
      var gain, loss := Gain(r.prevClose, price), Loss(r.prevClose, price);
      if count <= r.period + 1 then
        var g, l := r.avgGain + gain, r.avgLoss + loss;
        if count == r.period + 1 then
          var p := r.period as real;
          r.(count := count, prevClose := price, avgGain := g / p, avgLoss := l / p, current := RsiValue(g / p, l / p))
        else
          r.(count := count, prevClose := price, avgGain := g, avgLoss := l)
      else
        var g, l := Wilder(r.avgGain, gain, r.period), Wilder(r.avgLoss, loss, r.period);
        r.(count := count, prevClose := price, avgGain := g, avgLoss := l, current := RsiValue(g, l))
  }

  // ----- States reached by a history of closes, oldest first -----

  function RunSma(period: nat, hist: seq<real>): (s: SmaState)
    requires period >= 1
    ensures s.Valid() && s.count == |hist| && s.period == period
  {
    if hist == [] then NewSma(period) else UpdateSma(RunSma(period, hist[..|hist| - 1]), hist[|hist| - 1])
  }

  function RunEma(period: nat, hist: seq<real>): (s: EmaState)
    requires period >= 1
    ensures s.Valid() && s.count == |hist| && s.period == period
  {
    if hist == [] then NewEma(period) else UpdateEma(RunEma(period, hist[..|hist| - 1]), hist[|hist| - 1])
  }

  function RunSmma(period: nat, hist: seq<real>): (s: SmmaState)
    requires period >= 1
    ensures s.Valid() && s.count == |hist| && s.period == period
  {
    if hist == [] then NewSmma(period) else UpdateSmma(RunSmma(period, hist[..|hist| - 1]), hist[|hist| - 1])
  }

  function RunRsi(period: nat, hist: seq<real>): (s: RsiState)
    requires period >= 1
    ensures s.Valid() && s.count == |hist| && s.period == period
  {
    if hist == [] then NewRsi(period) else UpdateRsi(RunRsi(period, hist[..|hist| - 1]), hist[|hist| - 1])
  }

  // ----- SMA: the ring holds the window and the running sum is its sum -----

  /** The last min(|hist|, period) closes. */
  function Window(hist: seq<real>, period: nat): (w: seq<real>)
    ensures |w| == Min(|hist|, period)
  {
    if |hist| <= period then hist else hist[|hist| - period..]
  }

  /** Slot j % period of the ring holds close j for every close still in the window. */
  lemma {:induction false} SmaRing(period: nat, hist: seq<real>)
    requires period >= 1
    ensures var s := RunSma(period, hist);
            && s.idx == |hist| % period
            && forall j :: 0 <= j < |hist| && |hist| - period <= j ==> s.buf[j % period] == hist[j]
  {
    var n := |hist|;
    if n > 0 {
      var init := hist[..n - 1];
      SmaRing(period, init);
      ModNext(n - 1, period);
      var s := RunSma(period, hist);
      forall j | 0 <= j < n && n - period <= j ensures s.buf[j % period] == hist[j] {
        if j < n - 1 {
          if j % period == (n - 1) % period { ModDistinct(n - 1, j, period); }
          assert init[j] == hist[j];
        }
      }
    }
  }

  /** Once the ring is full, the slot about to be overwritten holds the oldest close of the window. */
  lemma SmaOldest(period: nat, hist: seq<real>)
    requires 1 <= period <= |hist|
    ensures var s := RunSma(period, hist); s.buf[s.idx] == Window(hist, period)[0]
  {
    hide RunSma;
    var n := |hist|;
    SmaRing(period, hist);
    ModShift(n, period);
    assert Window(hist, period)[0] == hist[n - period];
  }

  lemma UpdateSmaSum(s: SmaState, price: real)
    requires s.Valid()
    ensures UpdateSma(s, price).sum == (if s.count >= s.period then s.sum - s.buf[s.idx] else s.sum) + price
  {
  }

  lemma WindowSlides(hist: seq<real>, x: real, period: nat)
    requires period >= 1
    ensures Window(hist + [x], period) ==
            (if |hist| >= period then Window(hist, period)[1..] else Window(hist, period)) + [x]
  {
  }

  lemma {:induction false} SmaRunningSum(period: nat, hist: seq<real>)
    requires period >= 1
    ensures RunSma(period, hist).sum == Sum(Window(hist, period))
  {
    hide Sum, UpdateSma, Window;
    if hist == [] {
      assert Window(hist, period) == [];
      SumEmpty();
    } else {
      var init, x := hist[..|hist| - 1], hist[|hist| - 1];
      SmaRunningSum(period, init);
      UpdateSmaSum(RunSma(period, init), x);
      WindowSlides(init, x, period);
      assert hist == init + [x];
      var w := Window(init, period);
      if |init| >= period {
        SmaOldest(period, init);
        SumDropFirst(w);
        SumSnoc(w[1..], x);
      } else {
        SumSnoc(w, x);
      }
    }
  }

  /** For every history the SMA is the mean of the last period closes once ready, 0 before. */
  lemma {:induction false} SmaIsWindowMean(period: nat, hist: seq<real>)
    requires period >= 1
    ensures RunSma(period, hist).current ==
            if |hist| >= period then Sum(Window(hist, period)) / period as real else 0.0
  {
    if hist != [] {
      SmaIsWindowMean(period, hist[..|hist| - 1]);
      SmaRunningSum(period, hist);
    }
  }

  // ----- EMA and SMMA: exponentially weighted sums over a mean seed -----

  function Pow(d: real, n: nat): real { if n == 0 then 1.0 else d * Pow(d, n - 1) }

  /** Each element weighted by d to the number of elements after it. */
  function Decayed(d: real, xs: seq<real>): real {
    if xs == [] then 0.0 else Pow(d, |xs| - 1) * xs[0] + Decayed(d, xs[1..])
  }

  lemma {:induction false} DecayedSnoc(d: real, xs: seq<real>, x: real)
    ensures Decayed(d, xs + [x]) == d * Decayed(d, xs) + x
  {
    var more := xs + [x];
    if xs == [] {
      assert more[1..] == [];
      assert Pow(d, 0) == 1.0;
    } else {
      DecayedSnoc(d, xs[1..], x);
      assert more[1..] == xs[1..] + [x];
      Distribute(d, Pow(d, |xs| - 1), xs[0], Decayed(d, xs[1..]), x);
    }
  }

  lemma Distribute(d: real, p: real, y: real, t: real, x: real)
    ensures (d * p) * y + (d * t + x) == d * (p * y + t) + x
  {
  }

  /** The textbook value: the mean of the first period closes decayed, plus alpha times the decayed rest. */
  function Weighted(alpha: real, period: nat, hist: seq<real>): real
    requires 1 <= period <= |hist|
  {
    var d := 1.0 - alpha;
    Pow(d, |hist| - period) * (Sum(hist[..period]) / period as real) + alpha * Decayed(d, hist[period..])
  }

  lemma WeightedSeed(alpha: real, hist: seq<real>)
    requires 1 <= |hist|
    ensures Weighted(alpha, |hist|, hist) == Sum(hist) / |hist| as real
  {
    assert hist[..|hist|] == hist && hist[|hist|..] == [];
  }

  lemma WeightedSnoc(alpha: real, period: nat, hist: seq<real>, x: real)
    requires 1 <= period <= |hist|
    ensures Weighted(alpha, period, hist + [x]) == Blend(x, Weighted(alpha, period, hist), alpha)
  {
    hide Sum, Decayed;
    var d, more := 1.0 - alpha, hist + [x];
    assert more[..period] == hist[..period] && more[period..] == hist[period..] + [x];
    DecayedSnoc(d, hist[period..], x);
    WeightedStep(Pow(d, |hist| - period), Sum(hist[..period]) / period as real, Decayed(d, hist[period..]), alpha, d, x);
  }

  lemma WeightedStep(pow: real, seed: real, tail: real, a: real, d: real, x: real)
    requires d == 1.0 - a
    ensures (d * pow) * seed + a * (d * tail + x) == x * a + (pow * seed + a * tail) * (1.0 - a)
  {
  }

  /** The recursive form the code computes. */
  function Smoothed(alpha: real, period: nat, hist: seq<real>): real
    requires 1 <= period <= |hist|
  {
    if |hist| == period then Sum(hist) / period as real
    else Blend(hist[|hist| - 1], Smoothed(alpha, period, hist[..|hist| - 1]), alpha)
  }

  lemma {:induction false} SmoothedIsWeighted(alpha: real, period: nat, hist: seq<real>)
    requires 1 <= period <= |hist|
    ensures Smoothed(alpha, period, hist) == Weighted(alpha, period, hist)
  {
    hide Weighted, Blend;
    if |hist| == period {
      WeightedSeed(alpha, hist);
    } else {
      var init, x := hist[..|hist| - 1], hist[|hist| - 1];
      SmoothedIsWeighted(alpha, period, init);
      WeightedSnoc(alpha, period, init, x);
      assert init + [x] == hist;
    }
  }

  lemma {:induction false} EmaSmoothed(period: nat, hist: seq<real>)
    requires period >= 1
    ensures var e := RunEma(period, hist);
            && e.multiplier == EmaAlpha(period)
            && (|hist| <= period ==> e.sum == Sum(hist))
            && e.current == if |hist| >= period then Smoothed(EmaAlpha(period), period, hist) else 0.0
  {
    hide Blend, EmaAlpha;
    if hist != [] {
      EmaSmoothed(period, hist[..|hist| - 1]);
    }
  }

  /** For every history the EMA is its closed form with alpha 2/(period + 1) once ready, 0 before. */
  lemma EmaIsWeighted(period: nat, hist: seq<real>)
    requires period >= 1
    ensures RunEma(period, hist).current ==
            if |hist| >= period then Weighted(2.0 / (period + 1) as real, period, hist) else 0.0
  {
    EmaSmoothed(period, hist);
    if |hist| >= period { SmoothedIsWeighted(EmaAlpha(period), period, hist); }
  }

  lemma WilderIsBlend(average: real, x: real, period: nat)
    requires period >= 1
    ensures Wilder(average, x, period) == Blend(x, average, 1.0 / period as real)
  {
    var p := period as real;
    assert (average * (p - 1.0) + x) / p == average * ((p - 1.0) / p) + x / p;
    assert (p - 1.0) / p == 1.0 - 1.0 / p;
  }

  lemma {:induction false} SmmaSmoothed(period: nat, hist: seq<real>)
    requires period >= 1
    ensures var s := RunSmma(period, hist);
            && (|hist| <= period ==> s.sum == Sum(hist))
            && s.current == if |hist| >= period then Smoothed(1.0 / period as real, period, hist) else 0.0
  {
    hide Blend, Wilder;
    if hist != [] {
      var init := hist[..|hist| - 1];
      SmmaSmoothed(period, init);
      WilderIsBlend(RunSmma(period, init).current, hist[|hist| - 1], period);
    }
  }

  /** For every history the SMMA is its closed form with alpha 1/period once ready, 0 before. */
  lemma SmmaIsWeighted(period: nat, hist: seq<real>)
    requires period >= 1
    ensures RunSmma(period, hist).current ==
            if |hist| >= period then Weighted(1.0 / period as real, period, hist) else 0.0
  {
    SmmaSmoothed(period, hist);
    if |hist| >= period { SmoothedIsWeighted(1.0 / period as real, period, hist); }
  }

  // ----- RSI: Wilder's averages are the SMMA of the gains and of the losses -----

  /** One element per step of hist. */
  function Deltas(hist: seq<real>, f: (real, real) -> real): (g: seq<real>)
    requires hist != []
    ensures |g| == |hist| - 1
    ensures forall i :: 0 <= i < |g| ==> g[i] == f(hist[i], hist[i + 1])
  {
    seq(|hist| - 1, i requires 0 <= i < |hist| - 1 => f(hist[i], hist[i + 1]))
  }

  lemma DeltasSnoc(hist: seq<real>, f: (real, real) -> real)
    requires |hist| >= 2
    ensures Deltas(hist, f) == Deltas(hist[..|hist| - 1], f) + [f(hist[|hist| - 2], hist[|hist| - 1])]
  {
  }

  /** SMMA of a series, or its plain sum until the seed is full. */
  function WilderAverage(period: nat, xs: seq<real>): real
    requires period >= 1
  {
    if |xs| < period then Sum(xs) else RunSmma(period, xs).current
  }

  lemma WilderAverageEmpty(period: nat)
    requires period >= 1
    ensures WilderAverage(period, []) == 0.0
  {
  }

  lemma WilderAverageStep(period: nat, xs: seq<real>, x: real)
    requires period >= 1
    ensures WilderAverage(period, xs + [x]) ==
            AverageStep(WilderAverage(period, xs), x, |xs| + 1, period)
  {
    hide Wilder;
    SumSnoc(xs, x);
    SmmaSmoothed(period, xs);
    assert (xs + [x])[..|xs|] == xs;
  }

  lemma RsiFirst(period: nat, hist: seq<real>)
    requires period >= 1 && |hist| == 1
    ensures RunRsi(period, hist) == NewRsi(period).(count := 1, prevClose := hist[0])
  {
    assert RunRsi(period, hist[..0]) == NewRsi(period);
  }

  /** How an average moves: the plain sum until the seed is full, Wilder's step after. */
  function AverageStep(average: real, x: real, count: nat, period: nat): real
    requires period >= 1
  {
    if count < period then average + x
    else if count == period then (average + x) / period as real
    else Wilder(average, x, period)
  }

  lemma UpdateRsiParts(r: RsiState, price: real)
    requires r.Valid() && r.count >= 1
    ensures var next := UpdateRsi(r, price);
            && next.prevClose == price
            && next.avgGain == AverageStep(r.avgGain, Gain(r.prevClose, price), r.count, r.period)
            && next.avgLoss == AverageStep(r.avgLoss, Loss(r.prevClose, price), r.count, r.period)
            && next.current == if r.count >= r.period then RsiValue(next.avgGain, next.avgLoss) else r.current
  {
  }

  /** For every history RSI is RsiValue of the SMMA of its gains and the SMMA of its losses. */
  lemma {:induction false} RsiIsWilder(period: nat, hist: seq<real>)
    requires period >= 1 && hist != []
    ensures var r := RunRsi(period, hist);
            && r.prevClose == hist[|hist| - 1]
            && r.avgGain == WilderAverage(period, Deltas(hist, Gain))
            && r.avgLoss == WilderAverage(period, Deltas(hist, Loss))
            && r.current == if |hist| > period then RsiValue(r.avgGain, r.avgLoss) else 0.0
  {
    hide UpdateRsi, AverageStep, RsiValue, Gain, Loss, WilderAverage;
    var n := |hist|;
    var init := hist[..n - 1];
    if n == 1 {
      RsiFirst(period, hist);
      assert Deltas(hist, Gain) == [] && Deltas(hist, Loss) == [];
      WilderAverageEmpty(period);
    } else {
      RsiIsWilder(period, init);
      UpdateRsiParts(RunRsi(period, init), hist[n - 1]);
      DeltasSnoc(hist, Gain);
      DeltasSnoc(hist, Loss);
      WilderAverageStep(period, Deltas(init, Gain), Gain(hist[n - 2], hist[n - 1]));
      WilderAverageStep(period, Deltas(init, Loss), Loss(hist[n - 2], hist[n - 1]));
    }
  }

  // ----- Ranges -----

  predicate AllWithin(hist: seq<real>, lo: real, hi: real) {
    forall i :: 0 <= i < |hist| ==> lo <= hist[i] <= hi
  }

  lemma MeanRange(xs: seq<real>, lo: real, hi: real)
    requires xs != [] && AllWithin(xs, lo, hi)
    ensures lo <= Sum(xs) / |xs| as real <= hi
  {
    SumBounds(xs, lo, hi);
    DivideBounds(Sum(xs), |xs| as real, lo, hi);
  }

  lemma DivideBounds(s: real, n: real, lo: real, hi: real)
    requires n > 0.0 && lo * n <= s <= hi * n
    ensures lo <= s / n <= hi
  {
    assert s == (s / n) * n;
    StrictScale(s / n, lo, n);
    StrictScale(hi, s / n, n);
  }

  lemma StrictScale(x: real, y: real, a: real)
    requires a > 0.0
    ensures x < y ==> x * a < y * a
  {
  }

  lemma BlendRange(x: real, y: real, a: real, lo: real, hi: real)
    requires lo <= x <= hi && lo <= y <= hi && 0.0 <= a <= 1.0
    ensures lo <= Blend(x, y, a) <= hi
  {
    BlendFrom(x, y, a, lo);
    BlendFrom(x, y, a, hi);
    NonNegativeProduct(x - lo, a);
    NonNegativeProduct(y - lo, 1.0 - a);
    NonNegativeProduct(hi - x, a);
    NonNegativeProduct(hi - y, 1.0 - a);
    assert (hi - x) * a == -((x - hi) * a) && (hi - y) * (1.0 - a) == -((y - hi) * (1.0 - a));
  }

  lemma BlendFrom(x: real, y: real, a: real, b: real)
    ensures Blend(x, y, a) == b + (x - b) * a + (y - b) * (1.0 - a)
  {
  }

  lemma {:induction false} SmoothedRange(alpha: real, period: nat, hist: seq<real>, lo: real, hi: real)
    requires 1 <= period <= |hist| && 0.0 <= alpha <= 1.0 && AllWithin(hist, lo, hi)
    ensures lo <= Smoothed(alpha, period, hist) <= hi
  {
    hide Blend, Sum;
    if |hist| == period {
      MeanRange(hist, lo, hi);
    } else {
      var init := hist[..|hist| - 1];
      SmoothedRange(alpha, period, init, lo, hi);
      BlendRange(hist[|hist| - 1], Smoothed(alpha, period, init), alpha, lo, hi);
    }
  }

  lemma AlphaRange(n: nat, k: real)
    requires 0.0 <= k <= n as real && n >= 1
    ensures 0.0 <= k / n as real <= 1.0
  {
    DivideBounds(k, n as real, 0.0, 1.0);
  }

  /** A ready moving average lies between any bounds on the closes fed, so between their least and greatest. */
  lemma AverageRange(period: nat, hist: seq<real>, lo: real, hi: real)
    requires 1 <= period <= |hist| && AllWithin(hist, lo, hi)
    ensures lo <= RunSma(period, hist).current <= hi
    ensures lo <= RunEma(period, hist).current <= hi
    ensures lo <= RunSmma(period, hist).current <= hi
  {
    hide Smoothed, Sum;
    SmaIsWindowMean(period, hist);
    MeanRange(Window(hist, period), lo, hi);
    EmaSmoothed(period, hist);
    AlphaRange(period + 1, 2.0);
    SmoothedRange(EmaAlpha(period), period, hist, lo, hi);
    SmmaSmoothed(period, hist);
    AlphaRange(period, 1.0);
    SmoothedRange(1.0 / period as real, period, hist, lo, hi);
  }

  lemma RsiValueRange(g: real, l: real)
    requires g >= 0.0 && l >= 0.0
    ensures 0.0 <= RsiValue(g, l) <= 100.0
  {
    if l > 0.0 {
      DivideBounds(100.0, 1.0 + RelativeStrength(g, l), 0.0, 100.0);
    }
  }

  lemma RsiRange(period: nat, hist: seq<real>)
    requires period >= 1
    ensures 0.0 <= RunRsi(period, hist).current <= 100.0
  {
    if hist != [] {
      RsiIsWilder(period, hist);
      var r := RunRsi(period, hist);
      RsiValueRange(r.avgGain, r.avgLoss);
    }
  }

  // ----- Peek: the value a forming candle would give -----

  function PeekSma(s: SmaState, price: real): real
    requires s.Valid()
  {
    if s.count < s.period then (s.sum + price) / (s.count + 1) as real
    else (s.sum - s.buf[s.idx] + price) / s.period as real
  }

  function PeekEma(e: EmaState, price: real): real { if e.count < e.period then price else Blend(price, e.current, e.multiplier) }

  function PeekSmma(s: SmmaState, price: real): real
    requires s.Valid()
  {
    if s.count < s.period then (s.sum + price) / (s.count + 1) as real else Wilder(s.current, price, s.period)
  }

  function PeekRsi(r: RsiState, price: real): real
    requires r.Valid()
  {
    if r.count <= r.period then r.current
    else RsiValue(Wilder(r.avgGain, Gain(r.prevClose, price), r.period), Wilder(r.avgLoss, Loss(r.prevClose, price), r.period))
  }

  lemma DivideBack(x: real, k: real)
    requires k > 0.0
    ensures (x / k) * k == x
  {
  }

  /** The partial mean before the seed moves with the price, while the indicator's value does not. */
  lemma PartialMeanMoves(sum: real, n: nat, v: real)
    requires n >= 1
    ensures !(sum / n as real == v && (sum + n as real) / n as real == v)
  {
    DivideBack(sum, n as real);
    DivideBack(sum + n as real, n as real);
  }

  /** Peek foretells the next SMA value, whatever the price, exactly when at most one close is missing. */
  lemma SmaPeekExact(period: nat, hist: seq<real>)
    requires period >= 1
    ensures var s := RunSma(period, hist);
            (forall x :: PeekSma(s, x) == UpdateSma(s, x).current) <==> s.count + 1 >= period
  {
    var s := RunSma(period, hist);
    if s.count + 1 < period {
      var x := s.count as real + 1.0;
      PartialMeanMoves(s.sum, s.count + 1, s.current);
      assert PeekSma(s, 0.0) != s.current || PeekSma(s, x) != s.current;
      assert UpdateSma(s, 0.0).current == UpdateSma(s, x).current == s.current;
    }
  }

  lemma SmmaPeekExact(period: nat, hist: seq<real>)
    requires period >= 1
    ensures var s := RunSmma(period, hist);
            (forall x :: PeekSmma(s, x) == UpdateSmma(s, x).current) <==> s.count + 1 >= period
  {
    hide Wilder;
    var s := RunSmma(period, hist);
    if s.count + 1 < period {
      var x := s.count as real + 1.0;
      PartialMeanMoves(s.sum, s.count + 1, s.current);
      assert PeekSmma(s, 0.0) != s.current || PeekSmma(s, x) != s.current;
      assert UpdateSmma(s, 0.0).current == UpdateSmma(s, x).current == s.current;
    }
  }

  /** EMA's Peek returns the price itself before the seed, so it is exact from the seed on, or for period 1. */
  lemma EmaPeekExact(period: nat, hist: seq<real>)
    requires period >= 1
    ensures var e := RunEma(period, hist);
            (forall x :: PeekEma(e, x) == UpdateEma(e, x).current) <==> (e.count >= period || period == 1)
  {
    hide Blend;
    var e := RunEma(period, hist);
    EmaSmoothed(period, hist);
    if e.count < period {
      if period == 1 {
        assert hist == [];
      } else if e.count + 1 < period {
        assert PeekEma(e, 0.0) != e.current || PeekEma(e, 1.0) != e.current;
        assert UpdateEma(e, 0.0).current == UpdateEma(e, 1.0).current == e.current;
      } else {
        EmaSeedDiffers(e);
      }
    }
  }

  lemma EmaSeedDiffers(e: EmaState)
    requires e.Valid() && e.period >= 2 && e.count + 1 == e.period
    ensures PeekEma(e, 0.0) != UpdateEma(e, 0.0).current || PeekEma(e, 1.0) != UpdateEma(e, 1.0).current
  {
    var p := e.period as real;
    assert (e.sum + 1.0) / p == e.sum / p + 1.0 / p;
    assert 1.0 / p < 1.0;
  }

  /** RSI's Peek is exact except for the one candle that completes the seed. */
  lemma RsiPeekExact(period: nat, hist: seq<real>)
    requires period >= 1
    ensures var r := RunRsi(period, hist);
            (forall x :: PeekRsi(r, x) == UpdateRsi(r, x).current) <==> r.count != period
  {
    hide Wilder, RsiValue;
    var r := RunRsi(period, hist);
    if r.count == period {
      RsiIsWilder(period, hist);
      var x := r.prevClose + 1.0;
      UpdateRsiParts(r, x);
      var next := UpdateRsi(r, x);
      RsiGainPositive(r.avgGain, period);
      RsiPositive(next.avgGain, next.avgLoss);
      assert PeekRsi(r, x) == 0.0;
    }
  }

  lemma RsiGainPositive(g: real, period: nat)
    requires g >= 0.0 && period >= 1
    ensures AverageStep(g, 1.0, period, period) > 0.0
  {
  }

  lemma RsiPositive(g: real, l: real)
    requires g > 0.0 && l >= 0.0
    ensures RsiValue(g, l) > 0.0
  {
    if l > 0.0 {
      var q := 1.0 + RelativeStrength(g, l);
      assert g / l > 0.0;
      assert (100.0 / q) * q == 100.0;
      StrictScale(100.0, 100.0 / q, q);
    }
  }

  // ----- One indicator of any kind -----

  datatype Kind = SMA | EMA | SMMA | RSI

  datatype Cfg = Cfg(kind: Kind, period: nat)

  datatype Ind = SmaInd(sma: SmaState) | EmaInd(ema: EmaState) | SmmaInd(smma: SmmaState) | RsiInd(rsi: RsiState)
  {
    predicate Valid() {
      match this
      case SmaInd(s) => s.Valid()
      case EmaInd(e) => e.Valid()
      case SmmaInd(s) => s.Valid()
      case RsiInd(r) => r.Valid()
    }

    function Key(): Cfg {
      match this
      case SmaInd(s) => Cfg(SMA, s.period)
      case EmaInd(e) => Cfg(EMA, e.period)
      case SmmaInd(s) => Cfg(SMMA, s.period)
      case RsiInd(r) => Cfg(RSI, r.period)
    }

    function Count(): nat {
      match this
      case SmaInd(s) => s.count
      case EmaInd(e) => e.count
      case SmmaInd(s) => s.count
      case RsiInd(r) => r.count
    }

    function Value(): real {
      match this
      case SmaInd(s) => s.current
      case EmaInd(e) => e.current
      case SmmaInd(s) => s.current
      case RsiInd(r) => r.current
    }

    predicate Ready() {
      match this
      case SmaInd(s) => s.count >= s.period
      case EmaInd(e) => e.count >= e.period
      case SmmaInd(s) => s.count >= s.period
      case RsiInd(r) => r.count > r.period
    }
  }

  function New(cfg: Cfg): (ind: Ind)
    requires cfg.period >= 1
    ensures ind.Valid() && ind.Key() == cfg && ind.Count() == 0
  {
    match cfg.kind
    case SMA => SmaInd(NewSma(cfg.period))
    case EMA => EmaInd(NewEma(cfg.period))
    case SMMA => SmmaInd(NewSmma(cfg.period))
    case RSI => RsiInd(NewRsi(cfg.period))
  }

  function Update(ind: Ind, price: real): (next: Ind)
    requires ind.Valid()
    ensures next.Valid() && next.Key() == ind.Key() && next.Count() == ind.Count() + 1
  {
    match ind
    case SmaInd(s) => SmaInd(UpdateSma(s, price))
    case EmaInd(e) => EmaInd(UpdateEma(e, price))
    case SmmaInd(s) => SmmaInd(UpdateSmma(s, price))
    case RsiInd(r) => RsiInd(UpdateRsi(r, price))
  }

  function Peek(ind: Ind, price: real): real
    requires ind.Valid()
  {
    match ind
    case SmaInd(s) => PeekSma(s, price)
    case EmaInd(e) => PeekEma(e, price)
    case SmmaInd(s) => PeekSmma(s, price)
    case RsiInd(r) => PeekRsi(r, price)
  }

  // ----- Snapshots -----

  /** One record serves all four kinds: Valid constrains only what Restore reads for the kind at hand. lastTS stands for the
      slot's gate, with 0 free to mean none because bucket times are positive. */
  datatype IndSnap = IndSnap(kind: Kind, period: nat, buf: seq<real>, idx: nat, count: nat, sum: real, current: real,
                             multiplier: real, prevClose: real, avgGain: real, avgLoss: real, lastTS: int)
  {
    function Key(): Cfg { Cfg(kind, period) }

    predicate Valid() {
      && period >= 1 && avgGain >= 0.0 && avgLoss >= 0.0
      && (kind == SMA ==> |buf| in {0, period} && idx < period)
    }
  }

  function Snapshot(ind: Ind): (snap: IndSnap)
    requires ind.Valid()
    ensures snap.Valid() && snap.Key() == ind.Key()
  {
    var zero := IndSnap(SMA, 0, [], 0, 0, 0.0, 0.0, 0.0, 0.0, 0.0, 0.0, 0);
    match ind
    case SmaInd(s) =>
      zero.(period := s.period, buf := s.buf, idx := s.idx, count := s.count, sum := s.sum, current := s.current)
    case EmaInd(e) =>
      zero.(kind := EMA, period := e.period, multiplier := e.multiplier, current := e.current, count := e.count, sum := e.sum)
    case SmmaInd(s) =>
      zero.(kind := SMMA, period := s.period, count := s.count, sum := s.sum, current := s.current)
    case RsiInd(r) =>
      zero.(kind := RSI, period := r.period, count := r.count, prevClose := r.prevClose, avgGain := r.avgGain,
            avgLoss := r.avgLoss, current := r.current)
  }

  /** RestoreFromSnapshot on a fresh indicator of the snapshot's kind. */
  function Restore(snap: IndSnap): (ind: Ind)
    requires snap.Valid()
    ensures ind.Valid() && ind.Key() == snap.Key()
  {
    match snap.kind
    case SMA =>
      var buf := if |snap.buf| > 0 then snap.buf else seq(snap.period, _ => 0.0);
      SmaInd(SmaState(snap.period, buf, snap.idx, snap.count, snap.sum, snap.current))
    case EMA =>
      var multiplier := if snap.multiplier <= 0.0 then EmaAlpha(snap.period) else snap.multiplier;
      EmaInd(EmaState(snap.period, multiplier, snap.count, snap.sum, snap.current))
    case SMMA => SmmaInd(SmmaState(snap.period, snap.count, snap.sum, snap.current))
    case RSI => RsiInd(RsiState(snap.period, snap.count, snap.prevClose, snap.avgGain, snap.avgLoss, snap.current))
  }

  /** Restoring a snapshot gives back the whole state. */
  lemma RestoreSnapshot(ind: Ind)
    requires ind.Valid()
    ensures Restore(Snapshot(ind)) == ind
  {
  }
}
