/** One slot against its stream of bars: whatever way candles are replayed, redelivered or consumed,
    the slot ends where one uninterrupted pass would leave it, unless a source skips ahead of it. */
module Schedule {
  import opened Common
  import opened Indicators
  import opened IndicatorEngine

  /** The bars of one stream: positive bucket times, strictly increasing. */
  predicate Ordered(bars: seq<Bar>) {
    && (forall i :: 0 <= i < |bars| ==> bars[i].ts > 0)
    && (forall i, j :: 0 <= i < j < |bars| ==> bars[i].ts < bars[j].ts)
  }

  /** A slot configured as cfg that has been fed bars and nothing else. */
  function RunSlot(cfg: Cfg, bars: seq<Bar>): Slot
    requires cfg.period >= 1 && Positive(bars)
  {
    FeedSlot(FreshSlot(cfg), bars)
  }

  /** The gate of s stands just after bar h - 1. */
  predicate AtMark(s: Slot, bars: seq<Bar>, h: nat) {
    h <= |bars| && s.last == if h == 0 then None else Some(bars[h - 1].ts)
  }

  // ----- Schedules: deliveries of a stream's bars by index, repeats allowed -----

  /** Every delivery is a repeat or the next bar after the high-water mark h. */
  predicate NoGap(h: nat, idx: seq<nat>)
    decreases |idx|
  {
    idx == [] || (idx[0] <= h && NoGap(Max(h, idx[0] + 1), idx[1..]))
  }

  function HighWater(h: nat, idx: seq<nat>): (top: nat)
    ensures top >= h
    decreases |idx|
  {
    if idx == [] then h else HighWater(Max(h, idx[0] + 1), idx[1..])
  }

  predicate Within(idx: seq<nat>, n: nat) {
    forall i :: 0 <= i < |idx| ==> idx[i] < n
  }

  function Pick(bars: seq<Bar>, idx: seq<nat>): (picked: seq<Bar>)
    requires Within(idx, |bars|)
    ensures |picked| == |idx| && forall i :: 0 <= i < |idx| ==> picked[i] == bars[idx[i]]
  {
    seq(|idx|, i requires 0 <= i < |idx| => bars[idx[i]])
  }

  function Range(a: nat, b: nat): (idx: seq<nat>)
    requires a <= b
    ensures |idx| == b - a && forall i :: 0 <= i < |idx| ==> idx[i] == a + i
  {
    seq(b - a, i requires 0 <= i => a + i)
  }

  lemma PickRange(bars: seq<Bar>, a: nat, b: nat)
    requires a <= b <= |bars|
    ensures Pick(bars, Range(a, b)) == bars[a..b]
  {
  }

  lemma {:induction false} RangeSchedule(h: nat, a: nat, b: nat)
    requires a <= b
    ensures NoGap(h, Range(a, b)) <==> a <= h || a == b
    ensures HighWater(h, Range(a, b)) == if a == b then h else Max(h, b)
    decreases b - a
  {
    var idx := Range(a, b);
    if a < b {
      assert idx[1..] == Range(a + 1, b);
      RangeSchedule(Max(h, a + 1), a + 1, b);
    }
  }

  lemma {:induction false} ScheduleAppend(h: nat, x: seq<nat>, y: seq<nat>)
    ensures NoGap(h, x + y) <==> NoGap(h, x) && NoGap(HighWater(h, x), y)
    ensures HighWater(h, x + y) == HighWater(HighWater(h, x), y)
    decreases |x|
  {
    if x == [] {
      assert x + y == y;
    } else {
      assert (x + y)[0] == x[0] && (x + y)[1..] == x[1..] + y;
      ScheduleAppend(Max(h, x[0] + 1), x[1..], y);
    }
  }

  lemma PickAppend(bars: seq<Bar>, x: seq<nat>, y: seq<nat>)
    requires Within(x, |bars|) && Within(y, |bars|)
    ensures Within(x + y, |bars|) && Pick(bars, x + y) == Pick(bars, x) + Pick(bars, y)
  {
  }

  // ----- What a schedule does to a slot -----

  lemma RunSlotSnoc(cfg: Cfg, bars: seq<Bar>, b: Bar)
    requires cfg.period >= 1 && Positive(bars) && b.ts > 0
    ensures RunSlot(cfg, bars + [b]) == ApplySlot(RunSlot(cfg, bars), b.ts, b.close)
  {
    FeedSlotAppend(FreshSlot(cfg), bars, [b]);
    var s := RunSlot(cfg, bars);
    assert FeedSlot(s, [b]) == FeedSlot(ApplySlot(s, b.ts, b.close), []);
  }

  /** One uninterrupted pass applies every bar. */
  lemma {:induction false} RunSlotMark(cfg: Cfg, bars: seq<Bar>)
    requires cfg.period >= 1 && Ordered(bars)
    ensures AtMark(RunSlot(cfg, bars), bars, |bars|) && RunSlot(cfg, bars).ind.Count() == |bars|
  {
    if bars != [] {
      var init, b := bars[..|bars| - 1], bars[|bars| - 1];
      RunSlotMark(cfg, init);
      RunSlotSnoc(cfg, init, b);
      assert bars == init + [b];
    }
  }

  /** One delivery: a bar before the mark is dropped, the bar at the mark is applied. */
  lemma DeliverOne(cfg: Cfg, bars: seq<Bar>, r: nat, h: nat, i: nat)
    requires cfg.period >= 1 && Ordered(bars) && r <= h <= |bars| && (r < h || i == h) && i <= h && i < |bars|
    ensures ApplySlot(RunSlot(cfg, bars[r..h]), bars[i].ts, bars[i].close) == RunSlot(cfg, bars[r..Max(h, i + 1)])
  {
    hide Update;
    var s, b := RunSlot(cfg, bars[r..h]), bars[i];
    RunSlotMark(cfg, bars[r..h]);
    if i == h {
      RunSlotSnoc(cfg, bars[r..h], b);
      assert bars[r..h] + [b] == bars[r..h + 1];
    } else {
      assert bars[r..h][|bars[r..h]| - 1] == bars[h - 1];
      assert Replayed(s, b.ts);
    }
  }

  /** idx can start from a slot fed bars[z..k]: one fed nothing has no mark yet, so bar k must come first. */
  predicate Starts(z: nat, k: nat, idx: seq<nat>) { z < k || idx == [] || idx[0] == k }

  /** A schedule without gaps, from a slot fed bars[r..h], leaves the slot fed bars[r..high water]. */
  lemma {:induction false} ScheduleState(cfg: Cfg, bars: seq<Bar>, r: nat, h: nat, idx: seq<nat>)
    requires cfg.period >= 1 && Ordered(bars) && Within(idx, |bars|)
    requires r <= h <= |bars| && Starts(r, h, idx) && NoGap(h, idx)
    ensures HighWater(h, idx) <= |bars|
    ensures FeedSlot(RunSlot(cfg, bars[r..h]), Pick(bars, idx)) == RunSlot(cfg, bars[r..HighWater(h, idx)])
    decreases |idx|
  {
    hide Update, RunSlot, ApplySlot;
    if idx != [] {
      var i := idx[0];
      assert Pick(bars, idx)[1..] == Pick(bars, idx[1..]);
      DeliverOne(cfg, bars, r, h, i);
      ScheduleState(cfg, bars, r, Max(h, i + 1), idx[1..]);
    }
  }

  /** Whatever is delivered, a slot applies at most one bar for each its mark moves, and fewer when a delivery jumps over a
      bar: what was skipped is never made up for. */
  lemma {:induction false} Deficit(s: Slot, bars: seq<Bar>, h: nat, idx: seq<nat>)
    requires s.Valid() && Ordered(bars) && Within(idx, |bars|) && AtMark(s, bars, h)
    ensures var t, top := FeedSlot(s, Pick(bars, idx)), HighWater(h, idx);
            && top <= |bars| && AtMark(t, bars, top) && t.ind.Count() <= s.ind.Count() + top - h
            && (!NoGap(h, idx) ==> t.ind.Count() < s.ind.Count() + top - h)
    decreases |idx|
  {
    hide Update;
    if idx != [] {
      var b := bars[idx[0]];
      UpdateCounts(s, b);
      assert Pick(bars, idx)[1..] == Pick(bars, idx[1..]);
      if idx[0] < h {
        assert bars[idx[0]].ts <= bars[h - 1].ts;
      }
      Deficit(ApplySlot(s, b.ts, b.close), bars, Max(h, idx[0] + 1), idx[1..]);
    }
  }

  lemma UpdateCounts(s: Slot, b: Bar)
    requires s.Valid() && b.ts > 0
    ensures !Replayed(s, b.ts) ==>
              ApplySlot(s, b.ts, b.close).last == Some(b.ts) && ApplySlot(s, b.ts, b.close).ind.Count() == s.ind.Count() + 1
  {
  }

  /** A slot fed bars[z..k] ends as if fed bars[z..] without interruption exactly when the schedule that brings its mark to
      the last bar has no gap. */
  lemma ScheduleExact(cfg: Cfg, bars: seq<Bar>, z: nat, k: nat, idx: seq<nat>)
    requires cfg.period >= 1 && Ordered(bars) && Within(idx, |bars|)
    requires z <= k <= |bars| && (z == 0 || Starts(z, k, idx)) && HighWater(k, idx) == |bars|
    ensures FeedSlot(RunSlot(cfg, bars[z..k]), Pick(bars, idx)) == RunSlot(cfg, bars[z..]) <==> NoGap(k, idx)
  {
    assert bars[z..|bars|] == bars[z..];
    if NoGap(k, idx) {
      ScheduleState(cfg, bars, z, k, idx);
    } else if z < k || z == 0 {
      ScheduleLoses(cfg, bars, z, k, idx);
    } else {
      DeliverOne(cfg, bars, z, k, k);
      assert Pick(bars, idx)[1..] == Pick(bars, idx[1..]);
      ScheduleLoses(cfg, bars, z, k + 1, idx[1..]);
    }
  }

  lemma ScheduleLoses(cfg: Cfg, bars: seq<Bar>, z: nat, k: nat, idx: seq<nat>)
    requires cfg.period >= 1 && Ordered(bars) && Within(idx, |bars|)
    requires z <= k <= |bars| && (z < k || z == 0) && HighWater(k, idx) == |bars| && !NoGap(k, idx)
    ensures FeedSlot(RunSlot(cfg, bars[z..k]), Pick(bars, idx)) != RunSlot(cfg, bars[z..])
  {
    hide FeedSlot, NoGap, HighWater, Pick, ApplySlot;
    var s := RunSlot(cfg, bars[z..k]);
    RunSlotMark(cfg, bars[z..k]);
    RunSlotMark(cfg, bars[z..]);
    assert z < k ==> bars[z..k][k - z - 1] == bars[k - 1];
    Deficit(s, bars, k, idx);
  }

  // ----- Restart -----

  /** Where the delta replay starts when Redis holds bars[r..n] and the checkpoint is c: entries up to the checkpoint are
      skipped, trimmed ones are gone. */
  function DeltaStart(c: nat, r: nat, n: nat): (d: nat)
    requires r <= n
    ensures r <= d <= n
  {
    Min(Max(r, c), n)
  }

  /** What a restart delivers: the SQLite warm-up bars[a..b], the delta replay bars[d..n], then live consumption. */
  function Deliveries(a: nat, b: nat, d: nat, n: nat, later: seq<nat>): seq<nat>
    requires a <= b && d <= n
  {
    Range(a, b) + (Range(d, n) + later)
  }

  lemma ThreeReads(s: Slot, bars: seq<Bar>, a: nat, b: nat, d: nat, n: nat, later: seq<nat>)
    requires s.Valid() && Ordered(bars) && a <= b <= |bars| && d <= n <= |bars| && Within(later, |bars|)
    ensures Within(Deliveries(a, b, d, n, later), |bars|)
    ensures FeedSlot(FeedSlot(FeedSlot(s, bars[a..b]), bars[d..n]), Pick(bars, later)) ==
            FeedSlot(s, Pick(bars, Deliveries(a, b, d, n, later)))
  {
    hide FeedSlot, Pick, Range;
    PickRange(bars, a, b);
    PickRange(bars, d, n);
    PickAppend(bars, Range(d, n), later);
    PickAppend(bars, Range(a, b), Range(d, n) + later);
    FeedSlotAppend(s, bars[a..b], bars[d..n] + Pick(bars, later));
    FeedSlotAppend(FeedSlot(s, bars[a..b]), bars[d..n], Pick(bars, later));
  }

  lemma DeliveriesFirst(a: nat, b: nat, d: nat, n: nat, later: seq<nat>)
    requires a <= b && d <= n
    ensures var all := Deliveries(a, b, d, n, later);
            (all == [] <==> a == b && d == n && later == [])
            && (all != [] ==> all[0] == FirstBar(a, b, d, n, later, 0))
  {
  }

  lemma DeliveriesGap(h: nat, a: nat, b: nat, d: nat, n: nat, later: seq<nat>)
    requires a <= b && d <= n
    ensures var x, y := WarmMark(h, a, b), ReplayMark(WarmMark(h, a, b), d, n);
            && HighWater(h, Deliveries(a, b, d, n, later)) == HighWater(y, later)
            && (NoGap(h, Deliveries(a, b, d, n, later)) <==> (a <= h || a == b) && (d <= x || d == n) && NoGap(y, later))
  {
    hide NoGap, HighWater, Range;
    RangeSchedule(h, a, b);
    RangeSchedule(WarmMark(h, a, b), d, n);
    ScheduleAppend(WarmMark(h, a, b), Range(d, n), later);
    ScheduleAppend(h, Range(a, b), Range(d, n) + later);
  }

  /** The mark a warm-up with bars[a..b] leaves. */
  function WarmMark(k: nat, a: nat, b: nat): nat { if a < b then Max(k, b) else k }

  /** The mark a replay of bars[r..n], from wherever it starts, leaves. */
  function ReplayMark(h: nat, r: nat, n: nat): nat { if r < n then Max(h, n) else h }

  /** Neither read jumps over a bar: the warm-up window starts no later than the first bar the slot lacks, and Redis still
      holds the first bar it lacks after that, or an empty read. */
  predicate NoJump(k: nat, a: nat, b: nat, r: nat, n: nat) {
    (a <= k || a == b) && (r <= WarmMark(k, a, b) || r == n)
  }

  /** The first bar a restart delivers: of the warm-up, else of the replay, else live. */
  function FirstBar(a: nat, b: nat, d: nat, n: nat, later: seq<nat>, end: nat): nat {
    if a < b then a else if d < n then d else if later != [] then later[0] else end
  }

  /** A slot fed bars[z..k] counts from bar z; one fed nothing yet counts from bar 0 or from the first bar it will be fed. */
  predicate Begins(z: nat, k: nat, first: nat) { z < k || (z == k && (z == 0 || first == z)) }

  /** Restart: the restored slot holds bars[z..k], the SQLite warm-up feeds bars[a..b], the delta replay reads what Redis
      still holds, bars[r..n], past a checkpoint c no later than k, and redelivery and live consumption follow up to the
      last bar. The slot ends exactly as one uninterrupted pass from bar z leaves it if and only if neither read jumps over
      a bar and nor does the consumption. */
  lemma RestartEquivalence(cfg: Cfg, bars: seq<Bar>, z: nat, k: nat, a: nat, b: nat, c: nat, r: nat, n: nat, later: seq<nat>)
    requires cfg.period >= 1 && Ordered(bars) && c <= k <= |bars| && a <= b <= |bars| && r <= n <= |bars| && Within(later, |bars|)
    requires Begins(z, k, FirstBar(a, b, DeltaStart(c, r, n), n, later, |bars|))
    requires HighWater(ReplayMark(WarmMark(k, a, b), r, n), later) == |bars|
    ensures FeedSlot(FeedSlot(FeedSlot(RunSlot(cfg, bars[z..k]), bars[a..b]), bars[DeltaStart(c, r, n)..n]), Pick(bars, later))
            == RunSlot(cfg, bars[z..])
            <==> NoJump(k, a, b, r, n) && NoGap(ReplayMark(WarmMark(k, a, b), r, n), later)
  {
    var d := DeltaStart(c, r, n);
    assert z == 0 || Starts(z, k, Deliveries(a, b, d, n, later)) by { DeliveriesFirst(a, b, d, n, later); }
    hide FeedSlot, NoGap, HighWater, Pick, Deliveries, Starts;
    assert ReplayMark(WarmMark(k, a, b), d, n) == ReplayMark(WarmMark(k, a, b), r, n);
    ThreeReads(RunSlot(cfg, bars[z..k]), bars, a, b, d, n, later);
    DeliveriesGap(k, a, b, d, n, later);
    ScheduleExact(cfg, bars, z, k, Deliveries(a, b, d, n, later));
  }

  /** An indicator configured between snapshot and restart starts fresh, while the checkpoint c is the snapshot's: it ends as
      if configured since the first bar it is fed if and only if neither the delta replay nor the consumption jumps over
      bars after that. */
  lemma RestartAdded(cfg: Cfg, bars: seq<Bar>, a: nat, b: nat, c: nat, r: nat, n: nat, later: seq<nat>)
    requires cfg.period >= 1 && Ordered(bars) && a <= b <= |bars| && r <= n <= |bars| && Within(later, |bars|)
    requires var d := DeltaStart(c, r, n);
             HighWater(ReplayMark(WarmMark(FirstBar(a, b, d, n, later, |bars|), a, b), d, n), later) == |bars|
    ensures var d := DeltaStart(c, r, n);
            var start := FirstBar(a, b, d, n, later, |bars|);
            start <= |bars| &&
            (FeedSlot(FeedSlot(FeedSlot(FreshSlot(cfg), bars[a..b]), bars[d..n]), Pick(bars, later)) == RunSlot(cfg, bars[start..])
             <==> (a == b || d <= b || d == n) && NoGap(ReplayMark(WarmMark(start, a, b), d, n), later))
  {
    var d := DeltaStart(c, r, n);
    var start := FirstBar(a, b, d, n, later, |bars|);
    var all := Deliveries(a, b, d, n, later);
    assert FreshSlot(cfg) == RunSlot(cfg, bars[start..start]);
    DeliveriesFirst(a, b, d, n, later);
    hide FeedSlot, RunSlot, NoGap, HighWater, Pick, Deliveries;
    ThreeReads(FreshSlot(cfg), bars, a, b, d, n, later);
    DeliveriesGap(start, a, b, d, n, later);
    ScheduleExact(cfg, bars, start, start, all);
  }

  /** SQLite warm-up reads each token's last maxPeriod candles: with b candles stored, the restart is exact if and only if
      at most maxPeriod of them are newer than the snapshot's, Redis still holds the first candle past both, and consumption
      has no gap. */
  lemma WarmUpWindow(cfg: Cfg, bars: seq<Bar>, z: nat, k: nat, b: nat, maxPeriod: nat, c: nat, r: nat, n: nat, later: seq<nat>)
    requires cfg.period >= 1 && Ordered(bars) && maxPeriod >= 1
    requires c <= k <= |bars| && b <= |bars| && r <= n <= |bars| && Within(later, |bars|)
    requires Begins(z, k, FirstBar(Max(0, b - maxPeriod), b, DeltaStart(c, r, n), n, later, |bars|))
    requires HighWater(ReplayMark(Max(k, b), r, n), later) == |bars|
    ensures var a := Max(0, b - maxPeriod);
            FeedSlot(FeedSlot(FeedSlot(RunSlot(cfg, bars[z..k]), bars[a..b]), bars[DeltaStart(c, r, n)..n]), Pick(bars, later))
            == RunSlot(cfg, bars[z..])
            <==> b - k <= maxPeriod && (r <= Max(k, b) || r == n) && NoGap(ReplayMark(Max(k, b), r, n), later)
  {
    RestartEquivalence(cfg, bars, z, k, Max(0, b - maxPeriod), b, c, r, n, later);
  }

  // ----- Reload -----

  /** A kept indicator, replayed bars[r..n] after the reload, is as if no reload had happened: exactly when the retained
      history reaches back to the first candle it lacks, or has none, and consumption has no gap. */
  lemma ReloadKept(cfg: Cfg, bars: seq<Bar>, z: nat, k: nat, r: nat, n: nat, later: seq<nat>)
    requires cfg.period >= 1 && Ordered(bars) && k <= |bars| && r <= n <= |bars| && Within(later, |bars|)
    requires Begins(z, k, FirstBar(0, 0, r, n, later, |bars|)) && HighWater(ReplayMark(k, r, n), later) == |bars|
    ensures FeedSlot(FeedSlot(RunSlot(cfg, bars[z..k]), bars[r..n]), Pick(bars, later)) == RunSlot(cfg, bars[z..])
            <==> (r <= k || r == n) && NoGap(ReplayMark(k, r, n), later)
  {
    RestartEquivalence(cfg, bars, z, k, r, n, 0, n, n, later);
    assert bars[n..n] == [];
  }

  /** An added indicator is as if configured since the start of the replayed history bars[r..n], or since the first live
      bar when none is replayed, exactly when consumption has no gap. */
  lemma ReloadAdded(cfg: Cfg, bars: seq<Bar>, r: nat, n: nat, later: seq<nat>)
    requires cfg.period >= 1 && Ordered(bars) && r <= n <= |bars| && Within(later, |bars|)
    requires HighWater(ReplayMark(FirstBar(0, 0, r, n, later, |bars|), r, n), later) == |bars|
    ensures var start := FirstBar(0, 0, r, n, later, |bars|);
            start <= |bars| &&
            (FeedSlot(FeedSlot(FreshSlot(cfg), bars[r..n]), Pick(bars, later)) == RunSlot(cfg, bars[start..])
             <==> NoGap(ReplayMark(start, r, n), later))
  {
    RestartAdded(cfg, bars, 0, 0, 0, r, n, later);
    assert bars[0..0] == [];
  }
}
