/** The level book of one index: today's bars and swings, higher-timeframe swings, and the cached merged list. */
module LevelBook {
  import opened Common
  import opened Levels

  /** Times are in nanoseconds; the zero time is 0. */
  const SECOND := 1_000_000_000

  const ONE_MINUTE := Naming(SwingHigh, SwingLow, 0)

  function IstDay(ts: int): int { (ts + 19800 * SECOND) / (86400 * SECOND) }

  function IstMinute(ts: int): int { ((ts + 19800 * SECOND) % (86400 * SECOND)) / (60 * SECOND) }

  /** The opening minute, 09:15 IST. */
  const OPEN := 9 * 60 + 15

  predicate Increasing(bars: seq<Candle>) {
    forall i, j :: 0 <= i < j < |bars| ==> bars[i].ts < bars[j].ts
  }

  // ----- Swings one bar at a time -----

  /** What one new last bar adds: the verdict on the bar k back. */
  function NewSwings(bars: seq<Candle>, k: nat, naming: Naming): seq<Level> {
    var i := |bars| - 1 - k;
    if i >= k then SwingsAt(bars, i, k, naming) else []
  }

  function Incremental(bars: seq<Candle>, k: nat, naming: Naming): seq<Level> {
    if bars == [] then [] else Incremental(bars[..|bars| - 1], k, naming) + NewSwings(bars, k, naming)
  }

  lemma ScanGrows(bars: seq<Candle>, c: Candle, k: nat, naming: Naming)
    ensures Scan(bars + [c], k, naming) == Scan(bars, k, naming) + NewSwings(bars + [c], k, naming)
  {
    hide Scan, SwingsAt;
    ScanSnoc(bars, c, k, naming);
  }

  /** For a fixed window, the list built one bar at a time is the batch scan of all bars. */
  lemma {:induction false} IncrementalIsBatch(bars: seq<Candle>, k: nat, naming: Naming)
    ensures Incremental(bars, k, naming) == Scan(bars, k, naming)
  {
    hide Scan, NewSwings;
    if bars == [] {
      NothingScanned(k, naming);
    } else {
      var init := bars[..|bars| - 1];
      IncrementalIsBatch(init, k, naming);
      ScanGrows(init, bars[|bars| - 1], k, naming);
      assert bars == init + [bars[|bars| - 1]];
    }
  }

  lemma NothingScanned(k: nat, naming: Naming)
    ensures Scan([], k, naming) == []
  {
  }

  /** The list after more bars, judged with window k, from whatever list a day started with. */
  function Streamed(found: seq<Level>, bars: seq<Candle>, more: seq<Candle>, k: nat, naming: Naming): seq<Level> {
    if more == [] then found
    else
      var init := more[..|more| - 1];
      Streamed(found, bars, init, k, naming) + NewSwings(bars + more, k, naming)
  }

  lemma AppendCancels<T>(a: seq<T>, b: seq<T>, tail: seq<T>)
    ensures a + tail == b + tail <==> a == b
  {
    if a + tail == b + tail {
      assert |a| == |b|;
      assert a == (a + tail)[..|a|] && b == (b + tail)[..|b|];
    }
  }

  lemma StepExact(found: seq<Level>, bars: seq<Candle>, c: Candle, k: nat, naming: Naming)
    ensures found + NewSwings(bars + [c], k, naming) == Scan(bars + [c], k, naming) <==> found == Scan(bars, k, naming)
  {
    hide Scan, NewSwings;
    ScanGrows(bars, c, k, naming);
    AppendCancels(found, Scan(bars, k, naming), NewSwings(bars + [c], k, naming));
  }

  /** A window changed to k during the day, after bars: the list is the batch scan with k after any later bars if and only if
      it was so at the change. */
  lemma {:induction false} WindowChangeExact(found: seq<Level>, bars: seq<Candle>, more: seq<Candle>, k: nat, naming: Naming)
    ensures Streamed(found, bars, more, k, naming) == Scan(bars + more, k, naming) <==> found == Scan(bars, k, naming)
    decreases |more|
  {
    hide Scan, NewSwings;
    if more == [] {
      assert bars + more == bars;
    } else {
      var init, c := more[..|more| - 1], more[|more| - 1];
      WindowChangeExact(found, bars, init, k, naming);
      assert (bars + init) + [c] == bars + more;
      StepExact(Streamed(found, bars, init, k, naming), bars + init, c, k, naming);
    }
  }

  /** Every swing comes from a judged bar, dated k bars later. */
  lemma {:induction false} ScanSource(bars: seq<Candle>, k: nat, naming: Naming, m: nat, l: Level) returns (i: nat)
    requires m + k <= |bars| && l in ScanTo(bars, k, naming, m)
    ensures k <= i < m && (l.price == bars[i].high || l.price == bars[i].low) && l.since == bars[i + k].ts + naming.delay
  {
    hide IsHigh, IsLow, SwingsAt;
    i := m - 1;
    if l in ScanTo(bars, k, naming, m - 1) {
      i := ScanSource(bars, k, naming, m - 1, l);
    } else {
      SwingSource(bars, m - 1, k, naming, l);
    }
  }

  lemma SwingSource(bars: seq<Candle>, i: nat, k: nat, naming: Naming, l: Level)
    requires k <= i && i + k < |bars| && l in SwingsAt(bars, i, k, naming)
    ensures (l.price == bars[i].high || l.price == bars[i].low) && l.since == bars[i + k].ts + naming.delay
  {
    hide IsHigh, IsLow;
  }

  function Minute(ts: int, high: int): Candle { Candle(60, ts, 1, high, 1, 1, false) }

  const SIX_BARS := [Minute(0, 1), Minute(60, 2), Minute(120, 1), Minute(180, 3), Minute(240, 1), Minute(300, 1)]

  /** A day whose window goes from 1 to 2 after three bars ends with swings that no window's batch scan finds. */
  lemma WindowChangeShows(k: nat)
    requires k >= 1
    ensures Increasing(SIX_BARS)
    ensures Streamed(Incremental(SIX_BARS[..3], 1, ONE_MINUTE), SIX_BARS[..3], SIX_BARS[3..], 2, ONE_MINUTE)
            != Scan(SIX_BARS, k, ONE_MINUTE)
  {
    hide Streamed, ScanTo, Incremental;
    var bars, first, second := SIX_BARS, Level(2, SwingHigh, 120, false, [], 0), Level(3, SwingHigh, 300, false, [], 0);
    IncrementalIsBatch(bars[..3], 1, ONE_MINUTE);
    EarlySwing(bars[..3], first);
    LateSwing(bars, bars[..3], bars[3..], first, second);
    if Scan(bars, k, ONE_MINUTE) == [first, second] {
      var i := ScanSource(bars, k, ONE_MINUTE, |bars| - k, first);
      var i' := ScanSource(bars, k, ONE_MINUTE, |bars| - k, second);
    }
  }

  lemma EarlySwing(early: seq<Candle>, first: Level)
    requires early == [Minute(0, 1), Minute(60, 2), Minute(120, 1)] && first == Level(2, SwingHigh, 120, false, [], 0)
    ensures Scan(early, 1, ONE_MINUTE) == [first]
  {
    assert ScanTo(early, 1, ONE_MINUTE, 2) == ScanTo(early, 1, ONE_MINUTE, 1) + SwingsAt(early, 1, 1, ONE_MINUTE);
    assert IsHigh(early, 1, 1) && !IsLow(early, 1, 1) by { assert early[0].low <= early[1].low; }
  }

  lemma LateSwing(bars: seq<Candle>, early: seq<Candle>, late: seq<Candle>, first: Level, second: Level)
    requires bars == SIX_BARS && early == bars[..3] && late == bars[3..] && second == Level(3, SwingHigh, 300, false, [], 0)
    ensures Streamed([first], early, late, 2, ONE_MINUTE) == [first, second]
  {
    assert late[..2] == [bars[3], bars[4]] && late[..2][..1] == [bars[3]] && late[..1] == [bars[3]];
    assert early + [bars[3]] == bars[..4] && early + late[..2] == bars[..5] && early + late == bars;
    assert Streamed([first], early, [], 2, ONE_MINUTE) == [first];
    assert [bars[3]][..0] == [];
    assert Streamed([first], early, [bars[3]], 2, ONE_MINUTE) == [first];
    assert NewSwings(bars[..5], 2, ONE_MINUTE) == [] by {
      assert bars[..5][1].high >= bars[..5][2].high && bars[..5][1].low <= bars[..5][2].low;
    }
    assert Streamed([first], early, late[..2], 2, ONE_MINUTE) == [first];
    assert IsHigh(bars, 3, 2) && !IsLow(bars, 3, 2) by { assert bars[2].low <= bars[3].low; }
    assert NewSwings(bars, 2, ONE_MINUTE) == [second];
  }

  // ----- The opening range -----

  datatype Orb = Orb(high: int, low: int, done: bool)

  predicate InOpening(c: Candle, orbMin: int) { OPEN <= IstMinute(c.ts) < OPEN + orbMin }

  predicate AfterOpening(c: Candle, orbMin: int) { IstMinute(c.ts) >= OPEN + orbMin }

  predicate ClosesOpening(c: Candle, orbMin: int) { InOpening(c, orbMin) && IstMinute(c.ts) == OPEN + orbMin - 1 }

  function Raised(high: int, x: int): int { if high == 0 || x > high then x else high }

  function Lowered(low: int, x: int): int { if low == 0 || x < low then x else low }

  function OrbStep(o: Orb, c: Candle, orbMin: int): Orb {
    if InOpening(c, orbMin) then Orb(Raised(o.high, c.high), Lowered(o.low, c.low), o.done || ClosesOpening(c, orbMin))
    else if AfterOpening(c, orbMin) && o.high > 0 then o.(done := true)
    else o
  }

  function OrbOf(bars: seq<Candle>, orbMin: int): Orb {
    if bars == [] then Orb(0, 0, false) else OrbStep(OrbOf(bars[..|bars| - 1], orbMin), bars[|bars| - 1], orbMin)
  }

  predicate Positive(bars: seq<Candle>) { forall c :: c in bars ==> c.low > 0 && c.high > 0 }

  /** high is the largest of xs, 0 when there is none. */
  ghost predicate IsMax(high: int, xs: set<int>) { if xs == {} then high == 0 else high in xs && forall x :: x in xs ==> x <= high }

  ghost predicate IsMin(low: int, xs: set<int>) { if xs == {} then low == 0 else low in xs && forall x :: x in xs ==> low <= x }

  ghost function OpeningHighs(bars: seq<Candle>, orbMin: int): set<int> { set c | c in bars && InOpening(c, orbMin) :: c.high }

  ghost function OpeningLows(bars: seq<Candle>, orbMin: int): set<int> { set c | c in bars && InOpening(c, orbMin) :: c.low }

  /** The range is complete once its last minute is in, or any later bar follows one of its bars. */
  ghost predicate Complete(bars: seq<Candle>, orbMin: int) {
    || (exists j :: 0 <= j < |bars| && ClosesOpening(bars[j], orbMin))
    || (exists i, j :: 0 <= i < j < |bars| && InOpening(bars[i], orbMin) && AfterOpening(bars[j], orbMin))
  }

  /** high is the largest and low the smallest price of the opening bars, both 0 when there is none. */
  lemma {:induction false} OpeningPrices(bars: seq<Candle>, orbMin: int)
    requires Positive(bars)
    ensures var o := OrbOf(bars, orbMin);
            IsMax(o.high, OpeningHighs(bars, orbMin)) && IsMin(o.low, OpeningLows(bars, orbMin))
  {
    hide InOpening, AfterOpening, ClosesOpening;
    if bars != [] {
      var init, c := bars[..|bars| - 1], bars[|bars| - 1];
      assert forall d :: d in bars <==> d in init || d == c;
      OpeningPrices(init, orbMin);
      var hi, lo := OpeningHighs(init, orbMin), OpeningLows(init, orbMin);
      PricesPositive(init, orbMin);
      if InOpening(c, orbMin) {
        assert OpeningHighs(bars, orbMin) == hi + {c.high};
        assert OpeningLows(bars, orbMin) == lo + {c.low};
      } else {
        assert OpeningHighs(bars, orbMin) == hi;
        assert OpeningLows(bars, orbMin) == lo;
      }
    }
  }

  lemma PricesPositive(bars: seq<Candle>, orbMin: int)
    requires Positive(bars)
    ensures forall x :: x in OpeningHighs(bars, orbMin) || x in OpeningLows(bars, orbMin) ==> x > 0
    ensures OpeningHighs(bars, orbMin) == {} <==> forall i :: 0 <= i < |bars| ==> !InOpening(bars[i], orbMin)
  {
    hide InOpening;
    var hi := OpeningHighs(bars, orbMin);
    if hi != {} {
      var h :| h in hi;
      var i :| 0 <= i < |bars| && InOpening(bars[i], orbMin) && bars[i].high == h;
    }
    if i :| 0 <= i < |bars| && InOpening(bars[i], orbMin) {
      assert bars[i].high in hi;
    }
  }

  /** The streamed range is done exactly when it is complete. */
  lemma {:induction false} OpeningDone(bars: seq<Candle>, orbMin: int)
    requires Positive(bars)
    ensures OrbOf(bars, orbMin).done <==> Complete(bars, orbMin)
  {
    hide InOpening, AfterOpening, ClosesOpening, Complete;
    if bars == [] {
      NothingComplete(orbMin);
    } else {
      var init, c := bars[..|bars| - 1], bars[|bars| - 1];
      assert init + [c] == bars;
      OpeningDone(init, orbMin);
      OpeningPrices(init, orbMin);
      PricesPositive(init, orbMin);
      WindowsApart(c, orbMin);
      CompleteSnoc(init, c, orbMin);
    }
  }

  lemma NothingComplete(orbMin: int)
    ensures !Complete([], orbMin)
  {
  }

  lemma WindowsApart(c: Candle, orbMin: int)
    ensures !(InOpening(c, orbMin) && AfterOpening(c, orbMin)) && (ClosesOpening(c, orbMin) ==> InOpening(c, orbMin))
  {
  }

  lemma CompleteSnoc(bars: seq<Candle>, c: Candle, orbMin: int)
    ensures Complete(bars + [c], orbMin) <==>
            || Complete(bars, orbMin) || ClosesOpening(c, orbMin)
            || (AfterOpening(c, orbMin) && exists i :: 0 <= i < |bars| && InOpening(bars[i], orbMin))
  {
    hide InOpening, AfterOpening, ClosesOpening;
    var more := bars + [c];
    if j :| 0 <= j < |bars| && ClosesOpening(bars[j], orbMin) {
      assert ClosesOpening(more[j], orbMin);
    }
    if ClosesOpening(c, orbMin) {
      assert ClosesOpening(more[|bars|], orbMin);
    }
    if i, j :| 0 <= i < j < |bars| && InOpening(bars[i], orbMin) && AfterOpening(bars[j], orbMin) {
      assert InOpening(more[i], orbMin) && AfterOpening(more[j], orbMin);
    }
    if i :| 0 <= i < |bars| && InOpening(bars[i], orbMin) && AfterOpening(c, orbMin) {
      assert InOpening(more[i], orbMin) && AfterOpening(more[|bars|], orbMin);
    }
  }

  /** The opening range after more bars, from whatever range a day had when its length was set. */
  function OrbStreamed(o: Orb, more: seq<Candle>, orbMin: int): Orb {
    if more == [] then o else OrbStep(OrbStreamed(o, more[..|more| - 1], orbMin), more[|more| - 1], orbMin)
  }

  /** A range that is its bars' own when its length is set stays so over any later bars. */
  lemma {:induction false} OrbKeepsAgreeing(o: Orb, bars: seq<Candle>, more: seq<Candle>, orbMin: int)
    requires o == OrbOf(bars, orbMin)
    ensures OrbStreamed(o, more, orbMin) == OrbOf(bars + more, orbMin)
    decreases |more|
  {
    hide OrbStep;
    if more == [] {
      assert bars + more == bars;
    } else {
      var init, c := more[..|more| - 1], more[|more| - 1];
      OrbKeepsAgreeing(o, bars, init, orbMin);
      OrbGrows(bars + init, c, orbMin);
      assert (bars + init) + [c] == bars + more;
    }
  }

  /** Unlike the swings, an opening range that is not its bars' own after a change of its length may become so again. */
  lemma OrbCatchesUp()
    ensures var first, next := Candle(60, 13500 * SECOND, 5, 5, 5, 5, false), Candle(60, 13560 * SECOND, 5, 5, 5, 5, false);
            var o := OrbOf([first], 1);
            o != OrbOf([first], 2) && OrbStep(o, next, 2) == OrbOf([first, next], 2)
  {
    var first, next := Candle(60, 13500 * SECOND, 5, 5, 5, 5, false), Candle(60, 13560 * SECOND, 5, 5, 5, 5, false);
    assert [first][..0] == [] && [first, next][..1] == [first];
  }

  // ----- Higher timeframes -----

  datatype Htf = Htf(bars: seq<Candle>, swings: seq<Level>)

  predicate IsHtf(tf: int) { tf == 300 || tf == 3600 }

  function HtfNaming(tf: int): Naming {
    if tf == 300 then Naming(SwingHigh5m, SwingLow5m, 300 * SECOND) else Naming(SwingHigh1h, SwingLow1h, 3600 * SECOND)
  }

  /** Bars of timeframe tf in a 09:15-15:30 session, plus one. */
  function PerDay(tf: int): nat
    requires IsHtf(tf)
  {
    if tf == 300 then 375 * 60 / 300 + 1 else 375 * 60 / 3600 + 1
  }

  function LastOf<T>(s: seq<T>, n: nat): seq<T> { if |s| > n then s[|s| - n..] else s }

  predicate HtfOk(tf: int, h: Htf, k: nat, days: nat) {
    IsHtf(tf) && Increasing(h.bars) && |h.bars| <= days * PerDay(tf) && h.swings == Scan(h.bars, k, HtfNaming(tf))
  }

  predicate HtfsOk(htf: map<int, Htf>, k: nat, days: nat) { forall tf :: tf in htf ==> HtfOk(tf, htf[tf], k, days) }

  /** trimHTF: keep the last sessions and judge every bar again. */
  method TrimHtf(tf: int, h: Htf, k: nat, days: nat) returns (r: Htf)
    requires IsHtf(tf) && k >= 1 && Increasing(h.bars)
    ensures r.bars == LastOf(h.bars, days * PerDay(tf)) && HtfOk(tf, r, k, days)
  {
    hide SwingsAt, PerDay;
    var most := days * PerDay(tf);
    var bars := h.bars;
    if |bars| > most {
      bars := bars[|bars| - most..];
    }
    var naming, swings, i := HtfNaming(tf), [], k;
    while i + k < |bars|
      invariant k <= i && (|bars| >= 2 * k ==> i + k <= |bars|)
      invariant |bars| >= 2 * k ==> swings == ScanTo(bars, k, naming, i)
      invariant |bars| < 2 * k ==> i == k && swings == []
    {
      var hi, lo := FractalAt(bars, i, k);
      var since := bars[i + k].ts + naming.delay;
      var found := [];
      if hi { found := found + [Level(bars[i].high, naming.hi, since, false, [], 0)]; }
      if lo { found := found + [Level(bars[i].low, naming.lo, since, false, [], 0)]; }
      SwingsAtIs(bars, i, k, naming, found, hi, lo);
      swings, i := swings + found, i + 1;
    }
    return Htf(bars, swings);
  }

  method TrimAll(htf: map<int, Htf>, k: nat, days: nat) returns (r: map<int, Htf>)
    requires k >= 1 && exists k', days' :: HtfsOk(htf, k', days')
    ensures r.Keys == htf.Keys && HtfsOk(r, k, days)
    ensures forall tf :: tf in r && IsHtf(tf) ==> r[tf].bars == LastOf(htf[tf].bars, days * PerDay(tf))
  {
    hide Scan, LastOf, PerDay, Increasing, HtfNaming;
    r := htf;
    if 300 in htf {
      var h := TrimHtf(300, htf[300], k, days);
      r := r[300 := h];
    }
    if 3600 in htf {
      var h := TrimHtf(3600, htf[3600], k, days);
      r := r[3600 := h];
    }
  }

  lemma SwingsAtIs(bars: seq<Candle>, i: nat, k: nat, naming: Naming, found: seq<Level>, hi: bool, lo: bool)
    requires k <= i && i + k < |bars| && hi == IsHigh(bars, i, k) && lo == IsLow(bars, i, k)
    requires var since := bars[i + k].ts + naming.delay;
             found == (if hi then [Level(bars[i].high, naming.hi, since, false, [], 0)] else []) +
                      (if lo then [Level(bars[i].low, naming.lo, since, false, [], 0)] else [])
    ensures found == SwingsAt(bars, i, k, naming)
  {
  }

  // ----- Collecting and dating the raw levels -----

  /** Everything the merged list is made from. */
  datatype Parts = Parts(dayHigh: int, dayLow: int, orb: Orb, swings: seq<Level>, analyst: seq<Level>, ourSR: seq<Level>,
                         htf: map<int, Htf>)

  function Raw(price: int, typ: LType, since: int, touches: int): Level { Level(price, typ, since, false, [], touches) }

  function WithoutTouches(ls: seq<Level>): (r: seq<Level>)
    ensures |r| == |ls| && forall i :: 0 <= i < |r| ==> r[i] == Raw(ls[i].price, ls[i].typ, ls[i].since, 0)
  {
    seq(|ls|, i requires 0 <= i < |ls| => Raw(ls[i].price, ls[i].typ, ls[i].since, 0))
  }

  function WithTouches(ls: seq<Level>): (r: seq<Level>)
    ensures |r| == |ls| && forall i :: 0 <= i < |r| ==> r[i] == Raw(ls[i].price, ls[i].typ, ls[i].since, ls[i].touches)
  {
    seq(|ls|, i requires 0 <= i < |ls| => Raw(ls[i].price, ls[i].typ, ls[i].since, ls[i].touches))
  }

  function HtfSwings(htf: map<int, Htf>, tf: int): seq<Level> { if tf in htf then WithoutTouches(htf[tf].swings) else [] }

  /** The candidates in the order they are added. */
  function Candidates(p: Parts): seq<Level> {
    [Raw(p.dayHigh, DayHigh, 0, 0), Raw(p.dayLow, DayLow, 0, 0)] +
    (if p.orb.done then [Raw(p.orb.high, OrbHigh, 0, 0), Raw(p.orb.low, OrbLow, 0, 0)] else []) +
    WithoutTouches(p.swings) + WithoutTouches(p.analyst) + WithTouches(p.ourSR) +
    HtfSwings(p.htf, 300) + HtfSwings(p.htf, 3600)
  }

  /** The candidates with a positive price, each dated by the first sight of its price. */
  function Dated(cands: seq<Level>, seen: map<int, int>): seq<Level>
    requires forall l :: l in cands && l.price > 0 ==> l.price in seen
  {
    if cands == [] then []
    else
      var init, l := Dated(cands[..|cands| - 1], seen), cands[|cands| - 1];
      if l.price <= 0 then init else init + [l.(since := seen[l.price])]
  }

  ghost predicate Extends(seen: map<int, int>, more: map<int, int>) {
    forall p :: p in seen ==> p in more && more[p] == seen[p]
  }

  lemma {:induction false} DatedExtends(cands: seq<Level>, seen: map<int, int>, more: map<int, int>)
    requires Extends(seen, more) && forall l :: l in cands && l.price > 0 ==> l.price in seen
    ensures Dated(cands, more) == Dated(cands, seen)
  {
    if cands != [] { DatedExtends(cands[..|cands| - 1], seen, more); }
  }

  lemma DatedSnoc(cands: seq<Level>, l: Level, seen: map<int, int>)
    requires forall m :: m in cands + [l] && m.price > 0 ==> m.price in seen
    ensures (forall m :: m in cands && m.price > 0 ==> m.price in seen)
    ensures Dated(cands + [l], seen) ==
            Dated(cands, seen) + if l.price <= 0 then [] else [l.(since := seen[l.price])]
  {
    assert (cands + [l])[..|cands|] == cands;
    assert forall m :: m in cands ==> m in cands + [l];
  }

  /** Candidate i is the first of its price. */
  ghost predicate FirstOf(cands: seq<Level>, i: nat, p: int) {
    i < |cands| && cands[i].price == p && forall j :: 0 <= j < i ==> cands[j].price != p
  }

  /** A price seen before keeps its date; a new one has that of its first candidate, or now if that has none. */
  ghost predicate NewDates(seen0: map<int, int>, seen: map<int, int>, cands: seq<Level>, now: int) {
    && Extends(seen0, seen)
    && (forall l :: l in cands && l.price > 0 ==> l.price in seen)
    && forall p :: p in seen && p !in seen0 ==>
         p > 0 && exists i: nat :: FirstOf(cands, i, p) && seen[p] == if cands[i].since == 0 then now else cands[i].since
  }

  lemma NewDatesSnoc(seen0: map<int, int>, seen: map<int, int>, cands: seq<Level>, now: int, l: Level, more: map<int, int>)
    requires NewDates(seen0, seen, cands, now)
    requires more == if l.price <= 0 || l.price in seen then seen else seen[l.price := if l.since == 0 then now else l.since]
    ensures NewDates(seen0, more, cands + [l], now)
  {
    var all := cands + [l];
    assert all[|cands|] == l && forall i :: 0 <= i < |cands| ==> all[i] == cands[i];
    forall p | p in more && p !in seen0
      ensures p > 0 && exists i: nat :: FirstOf(all, i, p) && more[p] == if all[i].since == 0 then now else all[i].since
    {
      if p in seen {
        var i: nat :| FirstOf(cands, i, p) && seen[p] == if cands[i].since == 0 then now else cands[i].since;
        assert FirstOf(all, i, p);
      } else {
        assert FirstOf(all, |cands|, p) by {
          assert forall j :: 0 <= j < |cands| ==> cands[j] in cands;
        }
      }
    }
  }

  /** The add loop: a price seen before keeps its first date; a new one takes its own, or now. */
  method AddAll(cands: seq<Level>, seen0: map<int, int>, now: int) returns (raw: seq<Level>, seen: map<int, int>)
    ensures NewDates(seen0, seen, cands, now)
    ensures raw == Dated(cands, seen)
  {
    hide Dated;
    raw, seen := [], seen0;
    assert Dated(cands[..0], seen) == [] by { DatedNone(seen); }
    for i := 0 to |cands|
      invariant NewDates(seen0, seen, cands[..i], now)
      invariant raw == Dated(cands[..i], seen)
    {
      var l, was := cands[i], seen;
      assert cands[..i + 1] == cands[..i] + [l];
      if l.price > 0 {
        if l.price !in seen {
          seen := seen[l.price := if l.since == 0 then now else l.since];
        }
        raw := raw + [l.(since := seen[l.price])];
      }
      NewDatesSnoc(seen0, was, cands[..i], now, l, seen);
      DatedExtends(cands[..i], was, seen);
      DatedSnoc(cands[..i], l, seen);
    }
    assert cands[..|cands|] == cands;
  }

  lemma DatedNone(seen: map<int, int>)
    ensures Dated([], seen) == []
  {
  }

  /** Whether two merged lists agree in everything but age; strong follows from the tags. */
  predicate SameLevels(a: seq<Level>, b: seq<Level>) {
    && |a| == |b|
    && forall i :: 0 <= i < |a| ==>
         a[i].price == b[i].price && a[i].typ == b[i].typ && a[i].tags == b[i].tags && a[i].touches == b[i].touches
  }

  /** A merged level is strong exactly when one of its tags is. */
  lemma StrongFromTags(band: seq<Level>)
    requires band != []
    ensures var m := MergeBand(band); m.strong <==> exists t :: t in m.tags && StrongType(t)
  {
    var best := Best(band);
    var m := MergeBand(band);
    if x :| x in band && StrongType(x.typ) { assert x.typ in m.tags; }
    assert best in band;
  }

  /** strong says what the tags say, as StrongFromTags shows of every merged level. */
  ghost predicate StrongByTags(ls: seq<Level>) {
    forall l :: l in ls ==> l.strong == AnyStrongType(l.tags)
  }

  ghost predicate AnyStrongType(tags: seq<LType>) { exists t :: t in tags && StrongType(t) }

  lemma MergeStrong(raw: seq<Level>, tol: int)
    requires SortedByPrice(raw) && tol >= 0
    ensures StrongByTags(Merge(raw, tol))
  {
    hide MergeBand, Bands;
    forall i | 0 <= i < |Merge(raw, tol)| ensures Merge(raw, tol)[i].strong == AnyStrongType(Merge(raw, tol)[i].tags) {
      StrongFromTags(Bands(raw, tol)[i]);
    }
  }

  predicate SameAges(a: seq<Level>, b: seq<Level>)
    requires |a| == |b|
  {
    forall i :: 0 <= i < |a| ==> a[i].since == b[i].since
  }

  /** The list a rebuild leaves: the one it had when only ages differ. */
  function Kept(was: seq<Level>, out: seq<Level>): seq<Level> { if SameLevels(out, was) then was else out }

  /** It is the new merge if and only if the old list does not agree with it in everything but some age. */
  lemma KeptIsNew(was: seq<Level>, out: seq<Level>)
    requires StrongByTags(was) && StrongByTags(out)
    ensures Kept(was, out) == out <==> !SameLevels(out, was) || SameAges(out, was)
  {
    if SameLevels(out, was) && SameAges(out, was) {
      forall i | 0 <= i < |out| ensures out[i] == was[i] {
        assert out[i] in out && was[i] in was;
      }
      assert out == was;
    }
  }

  /** The parts of a book that holds only analyst levels. */
  function AnalystOnly(ls: seq<Level>): Parts { Parts(0, 0, NO_ORB, [], ls, [], map[]) }

  /** An older level joining a cluster under the same label dates the new merge only: the kept list says 5 for a cluster whose
      oldest member is from 3. */
  lemma KeptAgeIsStale(typ: LType)
    ensures var seen := map[100 := 5, 101 := 3];
            var before := Dated(Candidates(AnalystOnly([Raw(100, typ, 5, 0)])), seen);
            var after := Dated(Candidates(AnalystOnly([Raw(100, typ, 5, 0), Raw(101, typ, 3, 0)])), seen);
            && SortedByPrice(before) && SortedByPrice(after)
            && Kept(Merge(before, 2), Merge(after, 2)) == [Level(100, typ, 5, StrongType(typ), [typ], 0)]
            && Merge(after, 2) == [Level(100, typ, 3, StrongType(typ), [typ], 0)]
  {
    hide Merge, Dated, Candidates, StrongType;
    var seen, a, b := map[100 := 5, 101 := 3], Raw(100, typ, 5, 0), Raw(101, typ, 3, 0);
    OnlyAnalyst([a], seen);
    OnlyAnalyst([a, b], seen);
    DatedPair(a, b, seen);
    MergePair(a, b);
  }

  lemma DatedPair(a: Level, b: Level, seen: map<int, int>)
    requires a.price in seen && b.price in seen && seen[a.price] == a.since && seen[b.price] == b.since
    requires a.price > 0 && b.price > 0
    ensures Dated([a], seen) == [a] && Dated([a, b], seen) == [a, b]
  {
    assert [a, b][..1] == [a] && [a][..0] == [];
  }

  lemma MergePair(a: Level, b: Level)
    requires a.typ == b.typ && a.price <= b.price <= a.price + 2 && b.since < a.since && a.touches == b.touches == 0
    ensures Merge([a], 2) == [Level(a.price, a.typ, a.since, StrongType(a.typ), [a.typ], 0)]
    ensures Merge([a, b], 2) == [Level(a.price, a.typ, b.since, StrongType(a.typ), [a.typ], 0)]
  {
    hide Merge, Tags, AnyStrong, MostTouches, Best, Oldest, StrongType;
    MergeOneBand([a], 2);
    MergeOneBand([a, b], 2);
    assert [a, b] == [a] + [b];
    BestOne(a);
    BestSnoc([a], b);
    TagsOfOneType([a], a.typ);
    TagsOfOneType([a, b], a.typ);
  }

  /** Members of one type without touches give their band that tag alone. */
  lemma {:induction false} TagsOfOneType(band: seq<Level>, typ: LType)
    requires forall m :: m in band ==> m.typ == typ && m.touches == 0
    ensures Tags(band, typ) == [typ] && MostTouches(band) == 0 && (band != [] ==> AnyStrong(band) == StrongType(typ))
  {
    if band != [] {
      var init, last := band[..|band| - 1], band[|band| - 1];
      assert last in band;
      TagsOfOneType(init, typ);
    }
  }

  lemma MergeOneBand(raw: seq<Level>, tol: int)
    requires raw != [] && SortedByPrice(raw) && raw[|raw| - 1].price - raw[0].price <= tol
    ensures Merge(raw, tol) == [MergeBand(raw)]
  {
    hide MergeBand, Merge, BandEnd;
    BandEndIs(raw, tol, |raw|);
    MergeSplit(raw, tol);
    assert raw[..|raw|] == raw && raw[|raw|..] == [];
    NothingMerged(tol);
  }

  lemma OnlyAnalyst(ls: seq<Level>, seen: map<int, int>)
    requires forall l :: l in ls ==> l == Raw(l.price, l.typ, l.since, 0) && l.price in seen
    ensures Dated(Candidates(AnalystOnly(ls)), seen) == Dated(ls, seen)
  {
    var zero, zeros := [Raw(0, DayHigh, 0, 0)], [Raw(0, DayHigh, 0, 0), Raw(0, DayLow, 0, 0)];
    assert WithoutTouches(ls) == ls;
    assert Candidates(AnalystOnly(ls)) == zeros + ls;
    assert zeros[..1] == zero && zero[..0] == [];
    ZerosDated(zeros, ls, seen);
  }

  lemma {:induction false} ZerosDated(zeros: seq<Level>, ls: seq<Level>, seen: map<int, int>)
    requires forall l :: l in ls ==> l.price in seen
    requires forall l :: l in zeros ==> l.price <= 0
    ensures Dated(zeros + ls, seen) == Dated(ls, seen)
  {
    if ls != [] {
      assert (zeros + ls)[..|zeros + ls| - 1] == zeros + ls[..|ls| - 1];
      ZerosDated(zeros, ls[..|ls| - 1], seen);
    } else if zeros != [] {
      assert zeros + ls == zeros && zeros[..|zeros| - 1] + [] == zeros[..|zeros| - 1];
      ZerosDated(zeros[..|zeros| - 1], [], seen);
    }
  }

  /** merged is what merging the parts' levels gives, up to age. */
  ghost predicate Merges(merged: seq<Level>, p: Parts, seen: map<int, int>, tol: nat) {
    && (forall l :: l in Candidates(p) && l.price > 0 ==> l.price in seen)
    && exists raw: seq<Level> :: IsMergeOf(merged, raw, Dated(Candidates(p), seen), tol)
  }

  ghost predicate IsMergeOf(merged: seq<Level>, raw: seq<Level>, dated: seq<Level>, tol: nat) {
    SortedByPrice(raw) && multiset(raw) == multiset(dated) && SameLevels(merged, Merge(raw, tol))
  }

  /** merged is what a rebuild that finds was in place leaves: the new merge, unless only ages differ. */
  ghost predicate Rebuilt(merged: seq<Level>, was: seq<Level>, p: Parts, seen: map<int, int>, tol: nat) {
    && (forall l :: l in Candidates(p) && l.price > 0 ==> l.price in seen)
    && exists raw: seq<Level> :: IsRebuildOf(merged, was, raw, Dated(Candidates(p), seen), tol)
  }

  ghost predicate IsRebuildOf(merged: seq<Level>, was: seq<Level>, raw: seq<Level>, dated: seq<Level>, tol: nat) {
    && SortedByPrice(raw) && multiset(raw) == multiset(dated) && merged == Kept(was, Merge(raw, tol))
    && (merged == Merge(raw, tol) <==> !SameLevels(Merge(raw, tol), was) || SameAges(Merge(raw, tol), was))
  }

  // ----- The book -----

  /** Tuning: fractal windows, sessions kept, opening minutes and merge tolerance. */
  datatype Config = Config(k: nat, htfK: nat, htfDays: nat, orbMin: int, tol: nat)

  /** The state the day roll resets. */
  datatype Today = Today(day: Option<int>, bars: seq<Candle>, dayHigh: int, dayLow: int, orb: Orb, swings: seq<Level>)

  const NO_ORB := Orb(0, 0, false)

  function ConfigOf(k: int, htfK: int, days: int, orbMin: int, tol: nat): (c: Config)
    ensures c.k >= 1 && c.htfK >= 1 && c.htfDays >= 1
  {
    Config(if k < 1 then 2 else k, if htfK < 1 then 2 else htfK, if days < 1 then 5 else days, orbMin, tol)
  }

  predicate InOrder(t: Today) { Increasing(t.bars) && forall c :: c in t.bars ==> Some(IstDay(c.ts)) == t.day }

  /** The day's swings are what the day's bars alone give, all at once. */
  predicate SwingsExact(t: Today, k: nat) { t.swings == Scan(t.bars, k, ONE_MINUTE) }

  predicate OrbExact(t: Today, orbMin: int) { t.orb == OrbOf(t.bars, orbMin) }

  /** highs and lows are every price the day has shown: ticks, and bar highs and lows. */
  ghost predicate InRange(t: Today, highs: set<int>, lows: set<int>) {
    && ((forall x :: x in highs ==> x > 0) ==> IsMax(t.dayHigh, highs))
    && ((forall x :: x in lows ==> x > 0) ==> IsMin(t.dayLow, lows))
  }

  lemma NoBars(k: nat, orbMin: int, day: Option<int>)
    requires k >= 1
    ensures SwingsExact(Today(day, [], 0, 0, NO_ORB, []), k) && OrbExact(Today(day, [], 0, 0, NO_ORB, []), orbMin)
    ensures InOrder(Today(day, [], 0, 0, NO_ORB, []))
    ensures InRange(Today(day, [], 0, 0, NO_ORB, []), {}, {})
  {
  }

  class LevelBook {
    var cfg: Config
    var today: Today
    var analyst: seq<Level>
    var ourSR: seq<Level>
    var htf: map<int, Htf>
    var clock: int
    var seen: map<int, int>
    var merged: seq<Level>
    var dirty: bool
    var version: nat

    /** Whether the day's swings were the batch scan when the window was last set, and the opening range its bars' own. */
    ghost var steady: bool
    ghost var orbSteady: bool
    ghost var highs: set<int>
    ghost var lows: set<int>

    ghost function PartsNow(): Parts
      reads this
    {
      Parts(today.dayHigh, today.dayLow, today.orb, today.swings, analyst, ourSR, htf)
    }

    /** A list that is not dirty is the merge of what the book holds now. */
    ghost predicate Valid()
      reads this
    {
      && cfg.k >= 1 && cfg.htfK >= 1 && cfg.htfDays >= 1
      && InOrder(today)
      && (steady <==> SwingsExact(today, cfg.k)) && (orbSteady ==> OrbExact(today, cfg.orbMin))
      && InRange(today, highs, lows)
      && HtfsOk(htf, cfg.htfK, cfg.htfDays)
      && StrictlySorted(merged) && StrongByTags(merged)
      && (!dirty ==> Merges(merged, PartsNow(), seen, cfg.tol))
    }

    constructor (k: int, htfK: int, days: int, orbMin: int, tol: nat)
      ensures Valid() && cfg == ConfigOf(k, htfK, days, orbMin, tol) && merged == [] && version == 0 && htf == map[]
      ensures today == Today(None, [], 0, 0, NO_ORB, []) && steady && orbSteady
    {
      cfg, today := ConfigOf(k, htfK, days, orbMin, tol), Today(None, [], 0, 0, NO_ORB, []);
      analyst, ourSR, htf, clock, seen, merged, dirty, version := [], [], map[], 0, map[], [], true, 0;
      steady, orbSteady, highs, lows := true, true, {}, {};
      NoBars(ConfigOf(k, htfK, days, orbMin, tol).k, orbMin, None);
    }

    /** Reloaded tuning. A changed window keeps the swings already found: today's list is a batch scan from here on if and
        only if it is one now. */
    method Configure(k: int, htfK: int, days: int, orbMin: int, tol: nat)
      requires Valid()
      modifies this`cfg, this`htf, this`dirty, this`steady, this`orbSteady
      ensures Valid() && dirty && cfg == ConfigOf(k, htfK, days, orbMin, tol) && htf.Keys == old(htf).Keys
      ensures forall tf :: tf in htf && IsHtf(tf) ==> htf[tf].bars == LastOf(old(htf)[tf].bars, cfg.htfDays * PerDay(tf))
      ensures steady == SwingsExact(today, cfg.k) && orbSteady == OrbExact(today, cfg.orbMin)
    {
      hide SwingsExact, OrbExact, Merges, InRange, InOrder, StrictlySorted, StrongByTags;
      cfg := ConfigOf(k, htfK, days, orbMin, tol);
      htf := TrimAll(htf, cfg.htfK, cfg.htfDays);
      dirty := true;
      steady, orbSteady := SwingsExact(today, cfg.k), OrbExact(today, cfg.orbMin);
    }

    method RollDay(ts: int)
      requires Valid()
      modifies this`today, this`seen, this`dirty, this`steady, this`orbSteady, this`highs, this`lows
      ensures Valid() && today.day == Some(IstDay(ts))
      ensures old(today).day == today.day ==>
                today == old(today) && seen == old(seen) && dirty == old(dirty) && steady == old(steady) && orbSteady == old(orbSteady)
                && highs == old(highs) && lows == old(lows)
      ensures old(today).day != today.day ==>
                today == Today(Some(IstDay(ts)), [], 0, 0, NO_ORB, []) && seen == map[] && dirty && steady && orbSteady
                && highs == {} && lows == {}
    {
      hide SwingsExact, OrbExact, Merges, InRange, InOrder, StrictlySorted, StrongByTags, HtfsOk;
      var d := Some(IstDay(ts));
      if d == today.day {
        return;
      }
      today, seen, dirty := Today(d, [], 0, 0, NO_ORB, []), map[], true;
      steady, orbSteady, highs, lows := true, true, {}, {};
      NoBars(cfg.k, cfg.orbMin, d);
    }

    method OnTick(price: int, ts: int)
      requires Valid()
      modifies this`today, this`seen, this`dirty, this`steady, this`orbSteady, this`highs, this`lows, this`clock
      ensures Valid() && today.day == Some(IstDay(ts)) && clock == Max(old(clock), ts)
      ensures old(today).day == today.day ==>
                && highs == old(highs) + {price} && lows == old(lows) + {price} && seen == old(seen)
                && steady == old(steady) && orbSteady == old(orbSteady)
                && today.bars == old(today).bars && today.swings == old(today).swings && today.orb == old(today).orb
      ensures old(today).day != today.day ==> highs == lows == {price} && seen == map[] && today.bars == []
    {
      hide Merges, InRange, InOrder, SwingsExact, OrbExact, IstDay, StrictlySorted, StrongByTags, HtfsOk;
      RollDay(ts);
      var t, changed := Ticked(today, price);
      TickedOk(today, t, price, highs, lows, cfg);
      clock, today, dirty, highs, lows := Max(clock, ts), t, dirty || changed, highs + {price}, lows + {price};
    }

    /** One closed one-minute bar; forming bars, repeats and late bars are ignored. */
    method OnCandle(c: Candle)
      requires Valid()
      modifies this`today, this`seen, this`dirty, this`steady, this`orbSteady, this`highs, this`lows, this`clock
      ensures Valid()
      ensures c.forming ==> today == old(today) && seen == old(seen) && clock == old(clock)
      ensures !c.forming ==>
                var t := Rolled(old(today), c.ts);
                && (t == old(today) ==> seen == old(seen) && steady == old(steady) && orbSteady == old(orbSteady))
                && (t != old(today) ==> seen == map[] && steady && orbSteady)
                && today == (if Late(t.bars, c) then t else Extended(t, c, cfg))
                && clock == (if Late(t.bars, c) then old(clock) else Max(old(clock), c.ts + 60 * SECOND))
    {
      hide Merges, SwingsExact, OrbExact, InRange, InOrder, StrictlySorted, StrongByTags, HtfsOk, OrbStep, NewSwings, IstDay;
      if c.forming {
        return;
      }
      RollDay(c.ts);
      if today.bars != [] && c.ts <= today.bars[|today.bars| - 1].ts {
        return;
      }
      clock := Max(clock, c.ts + 60 * SECOND);
      ExtendedOk(today, c, cfg, highs, lows);
      var found := JudgeSwing(today.bars + [c], cfg.k);
      var o := AddToOrb(today.orb, c, cfg.orbMin);
      today := today.(bars := today.bars + [c], orb := o, swings := today.swings + found,
                      dayHigh := Raised(today.dayHigh, c.high), dayLow := Lowered(today.dayLow, c.low));
      dirty := true;
      highs, lows := highs + {c.high}, lows + {c.low};
    }

    /** One closed 5m or 1h bar; its swings survive the day roll. */
    method OnHtfCandle(c: Candle)
      requires Valid()
      modifies this`htf, this`dirty
      ensures Valid()
      ensures c.forming || !IsHtf(c.tf) || (c.tf in old(htf) && Late(old(htf)[c.tf].bars, c)) ==>
                htf == old(htf) && dirty == old(dirty)
      ensures !c.forming && IsHtf(c.tf) && !(c.tf in old(htf) && Late(old(htf)[c.tf].bars, c)) ==>
                && htf.Keys == old(htf).Keys + {c.tf} && dirty
                && (forall tf :: tf in old(htf) && tf != c.tf ==> htf[tf] == old(htf)[tf])
                && var before := if c.tf in old(htf) then old(htf)[c.tf].bars else [];
                   htf[c.tf].bars == LastOf(before + [c], cfg.htfDays * PerDay(c.tf))
    {
      hide Merges, SwingsExact, OrbExact, InRange, InOrder, StrictlySorted, StrongByTags, PerDay, LastOf, Scan;
      if c.forming || !IsHtf(c.tf) {
        return;
      }
      var h := if c.tf in htf then htf[c.tf] else Htf([], []);
      if h.bars != [] && c.ts <= h.bars[|h.bars| - 1].ts {
        return;
      }
      var r := TrimHtf(c.tf, Htf(h.bars + [c], h.swings), cfg.htfK, cfg.htfDays);
      htf, dirty := htf[c.tf := r], true;
    }

    method SetAnalyst(ls: seq<Level>)
      requires Valid()
      modifies this`analyst, this`dirty
      ensures Valid() && analyst == ls && dirty
    {
      hide Merges, SwingsExact, OrbExact, InRange, InOrder, StrictlySorted, StrongByTags, HtfsOk;
      analyst, dirty := ls, true;
    }

    method SetOurSR(ls: seq<Level>)
      requires Valid()
      modifies this`ourSR, this`dirty
      ensures Valid() && ourSR == ls && dirty
    {
      hide Merges, SwingsExact, OrbExact, InRange, InOrder, StrictlySorted, StrongByTags, HtfsOk;
      ourSR, dirty := ls, true;
    }

    /** wall is the clock used before any tick or bar has set the book's. Dates already given stay; the version moves
        exactly when the list does, and a list that would only change some age stays as it was. */
    method Rebuild(wall: int)
      requires Valid()
      modifies this`seen, this`merged, this`dirty, this`version
      ensures Valid() && !dirty
      ensures NewDates(old(seen), seen, Candidates(PartsNow()), if clock == 0 then wall else clock)
      ensures Merges(merged, PartsNow(), seen, cfg.tol)
      ensures old(dirty) ==> Rebuilt(merged, old(merged), PartsNow(), seen, cfg.tol)
      ensures old(version) <= version <= old(version) + 1
      ensures version == old(version) <==> merged == old(merged)
      ensures !old(dirty) ==> merged == old(merged) && seen == old(seen)
    {
      hide SwingsExact, OrbExact, InRange, InOrder, StrictlySorted, StrongByTags, HtfsOk, Dated, Merge, Candidates, SameAges,
           SortedByPrice;
      if !dirty {
        return;
      }
      var now := if clock == 0 then wall else clock;
      var out;
      ghost var raw;
      out, seen, raw := FreshMerge(today, analyst, ourSR, htf, seen, now, cfg.tol);
      KeptIsNew(merged, out);
      ghost var was := merged;
      dirty := false;
      if !SameLevels(out, merged) {
        merged, version := out, version + 1;
      }
      ghost var dated := Dated(Candidates(PartsNow()), seen);
      assert IsMergeOf(merged, raw, dated, cfg.tol) && IsRebuildOf(merged, was, raw, dated, cfg.tol);
    }

    /** The merged, price-sorted levels of what the book holds now. */
    method Levels(wall: int) returns (ls: seq<Level>)
      requires Valid()
      modifies this`seen, this`merged, this`dirty, this`version
      ensures Valid() && !dirty
      ensures NewDates(old(seen), seen, Candidates(PartsNow()), if clock == 0 then wall else clock)
      ensures StrictlySorted(ls) && Merges(ls, PartsNow(), seen, cfg.tol)
      ensures if old(dirty) then Rebuilt(ls, old(merged), PartsNow(), seen, cfg.tol) else ls == old(merged)
      ensures version == old(version) <==> ls == old(merged)
      ensures old(version) <= version && merged == ls
    {
      Rebuild(wall);
      return merged;
    }
  }

  /** The tick's price within the day's range, and whether it moved it. */
  method Ticked(t: Today, price: int) returns (u: Today, changed: bool)
    ensures u == t.(dayHigh := Raised(t.dayHigh, price), dayLow := Lowered(t.dayLow, price))
    ensures !changed ==> u == t
  {
    u, changed := t, false;
    if t.dayHigh == 0 || price > t.dayHigh {
      u, changed := u.(dayHigh := price), true;
    }
    if t.dayLow == 0 || price < t.dayLow {
      u, changed := u.(dayLow := price), true;
    }
  }

  lemma TickedOk(t: Today, u: Today, price: int, highs: set<int>, lows: set<int>, cfg: Config)
    requires InOrder(t) && InRange(t, highs, lows)
    requires u == t.(dayHigh := Raised(t.dayHigh, price), dayLow := Lowered(t.dayLow, price))
    ensures InOrder(u) && InRange(u, highs + {price}, lows + {price})
    ensures (SwingsExact(u, cfg.k) <==> SwingsExact(t, cfg.k)) && (OrbExact(u, cfg.orbMin) <==> OrbExact(t, cfg.orbMin))
  {
    RangeStep(t, price, price, highs, lows);
  }

  predicate Late(bars: seq<Candle>, c: Candle) { bars != [] && c.ts <= bars[|bars| - 1].ts }

  function Rolled(t: Today, ts: int): Today {
    if t.day == Some(IstDay(ts)) then t else Today(Some(IstDay(ts)), [], 0, 0, NO_ORB, [])
  }

  function Extended(t: Today, c: Candle, cfg: Config): Today {
    Today(t.day, t.bars + [c], Raised(t.dayHigh, c.high), Lowered(t.dayLow, c.low), OrbStep(t.orb, c, cfg.orbMin),
          t.swings + NewSwings(t.bars + [c], cfg.k, ONE_MINUTE))
  }

  lemma ExtendedOk(t: Today, c: Candle, cfg: Config, highs: set<int>, lows: set<int>)
    requires InOrder(t) && InRange(t, highs, lows) && t.day == Some(IstDay(c.ts)) && !Late(t.bars, c)
    ensures InOrder(Extended(t, c, cfg)) && InRange(Extended(t, c, cfg), highs + {c.high}, lows + {c.low})
    ensures SwingsExact(Extended(t, c, cfg), cfg.k) <==> SwingsExact(t, cfg.k)
    ensures OrbExact(t, cfg.orbMin) ==> OrbExact(Extended(t, c, cfg), cfg.orbMin)
  {
    hide IstDay, Scan, NewSwings, OrbStep, IsMax, IsMin, Raised, Lowered;
    var e := Extended(t, c, cfg);
    StepExact(t.swings, t.bars, c, cfg.k, ONE_MINUTE);
    OrbGrows(t.bars, c, cfg.orbMin);
    InRangeOfPrices(t.(dayHigh := e.dayHigh, dayLow := e.dayLow), e, highs + {c.high}, lows + {c.low}) by {
      RangeStep(t, c.high, c.low, highs, lows);
    }
  }

  lemma InRangeOfPrices(t: Today, u: Today, highs: set<int>, lows: set<int>)
    requires t.dayHigh == u.dayHigh && t.dayLow == u.dayLow && InRange(t, highs, lows)
    ensures InRange(u, highs, lows)
  {
  }

  lemma OrbGrows(bars: seq<Candle>, c: Candle, orbMin: int)
    ensures OrbOf(bars + [c], orbMin) == OrbStep(OrbOf(bars, orbMin), c, orbMin)
  {
    assert (bars + [c])[..|bars|] == bars;
  }

  /** The verdict on the bar k back of the last. */
  method JudgeSwing(bars: seq<Candle>, k: nat) returns (found: seq<Level>)
    requires bars != []
    ensures found == NewSwings(bars, k, ONE_MINUTE)
  {
    found := [];
    var i := |bars| - 1 - k;
    if i >= k {
      var hi, lo := FractalAt(bars, i, k);
      var since := bars[|bars| - 1].ts;
      if hi { found := found + [Level(bars[i].high, SwingHigh, since, false, [], 0)]; }
      if lo { found := found + [Level(bars[i].low, SwingLow, since, false, [], 0)]; }
    }
  }

  method AddToOrb(o: Orb, c: Candle, orbMin: int) returns (r: Orb)
    ensures r == OrbStep(o, c, orbMin)
  {
    r := o;
    var minute := IstMinute(c.ts);
    if minute >= OPEN && minute < OPEN + orbMin {
      if r.high == 0 || c.high > r.high { r := r.(high := c.high); }
      if r.low == 0 || c.low < r.low { r := r.(low := c.low); }
      if minute == OPEN + orbMin - 1 { r := r.(done := true); }
    } else if minute >= OPEN + orbMin && r.high > 0 {
      r := r.(done := true);
    }
  }

  /** The list a rebuild computes: every part's levels, dated, sorted and merged. */
  method FreshMerge(t: Today, analyst: seq<Level>, ourSR: seq<Level>, htf: map<int, Htf>, seen0: map<int, int>, now: int, tol: nat)
    returns (out: seq<Level>, seen: map<int, int>, ghost raw: seq<Level>)
    ensures var cands := Candidates(Parts(t.dayHigh, t.dayLow, t.orb, t.swings, analyst, ourSR, htf));
            && NewDates(seen0, seen, cands, now)
            && SortedByPrice(raw) && multiset(raw) == multiset(Dated(cands, seen)) && out == Merge(raw, tol)
    ensures StrictlySorted(out) && StrongByTags(out)
  {
    hide Dated, Merge, Candidates, StrictlySorted, StrongByTags;
    var cands := Collect(t, analyst, ourSR, htf);
    var found;
    found, seen := AddAll(cands, seen0, now);
    var sorted := SortBy(found, (l: Level) => l.price);
    assert SortedByPrice(sorted);
    raw := sorted;
    out := MergeLevels(sorted, tol);
    MergeSorted(sorted, tol);
    MergeStrong(sorted, tol);
  }

  /** The add calls of the rebuild, in order. */
  method Collect(t: Today, analyst: seq<Level>, ourSR: seq<Level>, htf: map<int, Htf>) returns (cands: seq<Level>)
    ensures cands == Candidates(Parts(t.dayHigh, t.dayLow, t.orb, t.swings, analyst, ourSR, htf))
  {
    hide WithoutTouches, WithTouches, Raw;
    cands := [Raw(t.dayHigh, DayHigh, 0, 0), Raw(t.dayLow, DayLow, 0, 0)];
    assert cands + [] == cands;
    if t.orb.done {
      cands := cands + [Raw(t.orb.high, OrbHigh, 0, 0), Raw(t.orb.low, OrbLow, 0, 0)];
    }
    cands := cands + WithoutTouches(t.swings) + WithoutTouches(analyst) + WithTouches(ourSR);
    assert cands + [] == cands;
    if 300 in htf {
      cands := cands + WithoutTouches(htf[300].swings);
    }
    assert cands + [] == cands;
    if 3600 in htf {
      cands := cands + WithoutTouches(htf[3600].swings);
    }
  }

  lemma RangeStep(t: Today, high: int, low: int, highs: set<int>, lows: set<int>)
    requires InRange(t, highs, lows)
    ensures InRange(t.(dayHigh := Raised(t.dayHigh, high), dayLow := Lowered(t.dayLow, low)), highs + {high}, lows + {low})
  {
    if forall x :: x in highs + {high} ==> x > 0 {
      assert forall x :: x in highs ==> x in highs + {high};
    }
    if forall x :: x in lows + {low} ==> x > 0 {
      assert forall x :: x in lows ==> x in lows + {low};
    }
  }
}
