/** What the level book shows: everything it holds, under the label of its cluster, and nothing else. */
module BookContents {
  import opened Common
  import opened Levels
  import opened LevelBook

  /** l is held under its own label: a price of the day, of its completed opening range, a swing of the day, an analyst level, one of
      our levels with its touches, or a swing of a higher timeframe. */
  ghost predicate Holds(p: Parts, l: Level) {
    || (l.typ == DayHigh && l.price == p.dayHigh && Undated(l))
    || (l.typ == DayLow && l.price == p.dayLow && Undated(l))
    || (p.orb.done && l.typ == OrbHigh && l.price == p.orb.high && Undated(l))
    || (p.orb.done && l.typ == OrbLow && l.price == p.orb.low && Undated(l))
    || (Plain(l) && l.touches == 0 && Known(l, p.swings))
    || (Plain(l) && l.touches == 0 && Known(l, p.analyst))
    || (Plain(l) && exists m :: m in p.ourSR && SameLevel(m, l) && m.touches == l.touches)
    || (Plain(l) && l.touches == 0 && exists tf :: tf in {300, 3600} && tf in p.htf && Known(l, p.htf[tf].swings))
  }

  predicate Plain(l: Level) { !l.strong && l.tags == [] }

  predicate Undated(l: Level) { Plain(l) && l.since == 0 && l.touches == 0 }

  predicate SameLevel(m: Level, l: Level) { m.price == l.price && m.typ == l.typ && m.since == l.since }

  ghost predicate Known(l: Level, ls: seq<Level>) { exists m :: m in ls && SameLevel(m, l) }

  lemma WithoutTouchesHas(ls: seq<Level>, l: Level)
    ensures l in WithoutTouches(ls) <==> Plain(l) && l.touches == 0 && Known(l, ls)
  {
    var r := WithoutTouches(ls);
    if l in r {
      var i :| 0 <= i < |r| && r[i] == l;
      assert ls[i] in ls;
    }
    if Plain(l) && l.touches == 0 && Known(l, ls) {
      var m :| m in ls && SameLevel(m, l);
      var i :| 0 <= i < |ls| && ls[i] == m;
      assert r[i] == l;
    }
  }

  lemma WithTouchesHas(ls: seq<Level>, l: Level)
    ensures l in WithTouches(ls) <==> Plain(l) && exists m :: m in ls && SameLevel(m, l) && m.touches == l.touches
  {
    var r := WithTouches(ls);
    if l in r {
      var i :| 0 <= i < |r| && r[i] == l;
      assert ls[i] in ls;
    }
    if m :| m in ls && SameLevel(m, l) && m.touches == l.touches {
      if Plain(l) {
        var i :| 0 <= i < |ls| && ls[i] == m;
        assert r[i] == l;
      }
    }
  }

  /** The candidates of a rebuild are exactly what the book holds. */
  lemma CandidatesAre(p: Parts, l: Level)
    ensures l in Candidates(p) <==> Holds(p, l)
  {
    WithoutTouchesHas(p.swings, l);
    WithoutTouchesHas(p.analyst, l);
    WithTouchesHas(p.ourSR, l);
    if 300 in p.htf { WithoutTouchesHas(p.htf[300].swings, l); }
    if 3600 in p.htf { WithoutTouchesHas(p.htf[3600].swings, l); }
    hide WithoutTouches, WithTouches, Known;
  }

  lemma {:induction false} DatedHas(cands: seq<Level>, seen: map<int, int>, r: Level)
    requires forall l :: l in cands && l.price > 0 ==> l.price in seen
    ensures r in Dated(cands, seen) <==> exists l :: l in cands && l.price > 0 && r == l.(since := seen[l.price])
  {
    if cands != [] {
      var init, last := cands[..|cands| - 1], cands[|cands| - 1];
      assert forall l :: l in cands <==> l in init || l == last;
      DatedHas(init, seen, r);
    }
  }

  lemma {:induction false} FlattenHas(bands: seq<seq<Level>>, l: Level)
    ensures l in Flatten(bands) <==> exists i :: 0 <= i < |bands| && l in bands[i]
  {
    if bands != [] {
      var rest := bands[1..];
      FlattenHas(rest, l);
      if i :| 0 <= i < |rest| && l in rest[i] { assert l in bands[i + 1]; }
      if i :| 0 < i < |bands| && l in bands[i] { assert l in rest[i - 1]; }
    }
  }

  /** Merged level m stands for level l: within tol of it, tagged with its type, with no fewer touches. */
  predicate StandsFor(m: Level, l: Level, tol: nat) {
    m.price - l.price <= tol && l.price - m.price <= tol && l.typ in m.tags && m.touches >= l.touches
  }

  /** A merged level has the price and label of some level, and its tags and touches are those of levels it stands for. */
  ghost predicate Grounded(m: Level, raw: iset<Level>, tol: nat) {
    && (exists l :: l in raw && l.price == m.price && l.typ == m.typ)
    && (forall t :: t in m.tags ==> exists l :: l in raw && l.typ == t && StandsFor(m, l, tol))
    && (m.touches > 0 ==> exists l :: l in raw && l.touches == m.touches && StandsFor(m, l, tol))
  }

  ghost function Those(ls: seq<Level>): iset<Level> { iset l | l in ls }

  lemma BandShows(band: seq<Level>, tol: nat)
    requires band != [] && forall i :: 0 <= i < |band| ==> 0 <= band[i].price - band[0].price <= tol
    ensures forall l :: l in band ==> StandsFor(MergeBand(band), l, tol)
    ensures Grounded(MergeBand(band), Those(band), tol)
  {
    hide Best, Oldest, MostTouches, Tags, AnyStrong;
    MergeBandPrice(band, tol);
    var best, m := Best(band), MergeBand(band);
    forall l | l in band ensures StandsFor(m, l, tol) {
      var i :| 0 <= i < |band| && band[i] == l;
    }
    assert best in Those(band);
    forall t | t in m.tags ensures exists l :: l in Those(band) && l.typ == t && StandsFor(m, l, tol) {
      if t == best.typ { assert best in band; } else { var l :| l in band && l.typ == t; assert l in Those(band); }
    }
  }

  lemma GroundedIn(m: Level, few: iset<Level>, more: iset<Level>, tol: nat)
    requires Grounded(m, few, tol) && few <= more
    ensures Grounded(m, more, tol)
  {
    hide StandsFor;
  }

  /** Every raw level has a merged level standing for it, and every merged level is grounded in the raw ones. */
  lemma MergeShows(raw: seq<Level>, tol: nat)
    requires SortedByPrice(raw)
    ensures forall l :: l in raw ==> exists m :: m in Merge(raw, tol) && StandsFor(m, l, tol)
    ensures forall m :: m in Merge(raw, tol) ==> Grounded(m, Those(raw), tol)
  {
    hide Bands, MergeBand, Flatten, StandsFor, Grounded, SortedByPrice;
    var bands: seq<seq<Level>> := Bands(raw, tol);
    BandsPartition(raw, tol);
    BandsApart(raw, tol);
    forall l | l in raw ensures exists m :: m in Merge(raw, tol) && StandsFor(m, l, tol) {
      FlattenHas(bands, l);
      var i :| 0 <= i < |bands| && l in bands[i];
      BandShows(bands[i], tol);
      assert Merge(raw, tol)[i] == MergeBand(bands[i]);
    }
    forall m | m in Merge(raw, tol) ensures Grounded(m, Those(raw), tol) {
      var i :| 0 <= i < |bands| && Merge(raw, tol)[i] == m;
      BandShows(bands[i], tol);
      forall l | l in bands[i] ensures l in raw { FlattenHas(bands, l); }
      GroundedIn(m, Those(bands[i]), Those(raw), tol);
    }
  }

  ghost function Held(p: Parts): iset<Level> { iset l | Holds(p, l) && l.price > 0 }

  /** A list a rebuild leaves shows everything the book holds at a positive price: for each there is a level within the tolerance tagged
      with its type and with no fewer touches. And it shows nothing else: every level has the price and label of something held,
      and its tags and touches are those of levels held within the tolerance. */
  lemma ListShows(merged: seq<Level>, p: Parts, seen: map<int, int>, tol: nat)
    requires Merges(merged, p, seen, tol)
    ensures forall l :: l in Held(p) ==> exists m :: m in merged && StandsFor(m, l, tol)
    ensures forall m :: m in merged ==> Grounded(m, Held(p), tol)
  {
    hide Dated, Candidates, Merge, Holds, StandsFor, Grounded, SortedByPrice;
    var dated := Dated(Candidates(p), seen);
    var raw: seq<Level> :| IsMergeOf(merged, raw, dated, tol);
    MergeShows(raw, tol);
    var out := Merge(raw, tol);
    forall l | l in Held(p) ensures exists m :: m in merged && StandsFor(m, l, tol) {
      CandidatesAre(p, l);
      var r := l.(since := seen[l.price]);
      DatedHas(Candidates(p), seen, r);
      InSame(raw, dated, r);
      var m :| m in out && StandsFor(m, r, tol);
      var i :| 0 <= i < |out| && out[i] == m;
      SameStands(m, merged[i], r, l, tol);
    }
    forall i | 0 <= i < |merged| ensures Grounded(merged[i], Held(p), tol) {
      assert out[i] in out;
      forall r | r in raw ensures exists l :: l in Held(p) && SameButAge(l, r) {
        InSame(raw, dated, r);
        DatedHas(Candidates(p), seen, r);
        var l :| l in Candidates(p) && l.price > 0 && r == l.(since := seen[l.price]);
        CandidatesAre(p, l);
        assert l in Held(p) && SameButAge(l, r);
      }
      SameGrounded(out[i], merged[i], raw, Held(p), tol);
    }
  }

  predicate SameButAge(l: Level, r: Level) { l.price == r.price && l.typ == r.typ && l.touches == r.touches }

  lemma InSame(a: seq<Level>, b: seq<Level>, l: Level)
    requires multiset(a) == multiset(b)
    ensures l in a <==> l in b
  {
    assert l in a <==> l in multiset(a);
  }

  lemma SameStands(m: Level, n: Level, r: Level, l: Level, tol: nat)
    requires m.price == n.price && m.tags == n.tags && m.touches == n.touches && SameButAge(l, r) && StandsFor(m, r, tol)
    ensures StandsFor(n, l, tol)
  {
  }

  lemma SameGrounded(m: Level, n: Level, raw: seq<Level>, held: iset<Level>, tol: nat)
    requires m.price == n.price && m.typ == n.typ && m.tags == n.tags && m.touches == n.touches && Grounded(m, Those(raw), tol)
    requires forall r :: r in raw ==> exists l :: l in held && SameButAge(l, r)
    ensures Grounded(n, held, tol)
  {
    hide StandsFor;
    var r :| r in Those(raw) && r.price == m.price && r.typ == m.typ;
    var l :| l in held && SameButAge(l, r);
    forall t | t in n.tags ensures exists l :: l in held && l.typ == t && StandsFor(n, l, tol) {
      var r :| r in Those(raw) && r.typ == t && StandsFor(m, r, tol);
      var l :| l in held && SameButAge(l, r);
      SameStands(m, n, r, l, tol);
    }
    if n.touches > 0 {
      var r :| r in Those(raw) && r.touches == m.touches && StandsFor(m, r, tol);
      var l :| l in held && SameButAge(l, r);
      SameStands(m, n, r, l, tol);
    }
  }

  // ----- Swings -----

  /** Bar j is another bar at most k away from bar i. */
  predicate Around(bars: seq<Candle>, i: nat, j: int, k: nat) { 0 <= j < |bars| && j != i && i - j <= k && j - i <= k }

  /** Bar i is a peak: higher than each of its k neighbours on both sides. */
  ghost predicate Peak(bars: seq<Candle>, i: nat, k: nat) {
    k <= i && i + k < |bars| && forall j :: Around(bars, i, j, k) ==> bars[j].high < bars[i].high
  }

  ghost predicate Trough(bars: seq<Candle>, i: nat, k: nat) {
    k <= i && i + k < |bars| && forall j :: Around(bars, i, j, k) ==> bars[j].low > bars[i].low
  }

  /** l is the swing of bar i: its high under the high's label if it is a peak or its low under the low's label if it is a trough,
      dated delay after the start of the bar that settles it. */
  ghost predicate SwingOf(l: Level, bars: seq<Candle>, i: nat, k: nat, hi: LType, lo: LType, delay: int) {
    && k <= i && i + k < |bars| && Plain(l) && l.touches == 0 && l.since == bars[i + k].ts + delay
    && ((Peak(bars, i, k) && l.price == bars[i].high && l.typ == hi) || (Trough(bars, i, k) && l.price == bars[i].low && l.typ == lo))
  }

  lemma HighIsPeak(bars: seq<Candle>, i: nat, k: nat)
    requires k <= i && i + k < |bars|
    ensures IsHigh(bars, i, k) <==> Peak(bars, i, k)
    ensures IsLow(bars, i, k) <==> Trough(bars, i, k)
  {
    assert forall j :: i - k <= j <= i + k && j != i <==> Around(bars, i, j, k);
  }

  lemma SwingsAtHas(bars: seq<Candle>, i: nat, k: nat, naming: Naming, l: Level)
    requires k <= i && i + k < |bars|
    ensures l in SwingsAt(bars, i, k, naming) <==> SwingOf(l, bars, i, k, naming.hi, naming.lo, naming.delay)
  {
    HighIsPeak(bars, i, k);
    hide IsHigh, IsLow, Peak, Trough;
  }

  ghost predicate SwingBefore(l: Level, bars: seq<Candle>, m: nat, k: nat, naming: Naming) {
    exists i: nat :: i < m && SwingOf(l, bars, i, k, naming.hi, naming.lo, naming.delay)
  }

  lemma {:induction false} ScanToHas(bars: seq<Candle>, k: nat, naming: Naming, m: nat, l: Level)
    requires m + k <= |bars|
    ensures l in ScanTo(bars, k, naming, m) <==> SwingBefore(l, bars, m, k, naming)
  {
    hide *;
    ScanToNext(bars, k, naming, m);
    if m > k {
      var n := m - 1;
      ScanToHas(bars, k, naming, n, l);
      SwingsAtHas(bars, n, k, naming, l);
      SwingBeforeOn(l, bars, n, k, naming);
      InJoin(ScanTo(bars, k, naming, n), SwingsAt(bars, n, k, naming), l);
    } else {
      NoSwingBefore(l, bars, m, k, naming);
    }
  }

  lemma InJoin(a: seq<Level>, b: seq<Level>, l: Level)
    ensures l in a + b <==> l in a || l in b
  {
  }

  lemma ScanToNext(bars: seq<Candle>, k: nat, naming: Naming, m: nat)
    requires m + k <= |bars|
    ensures ScanTo(bars, k, naming, m) == if m <= k then [] else ScanTo(bars, k, naming, m - 1) + SwingsAt(bars, m - 1, k, naming)
  {
  }

  lemma NoSwingBefore(l: Level, bars: seq<Candle>, m: nat, k: nat, naming: Naming)
    requires m <= k
    ensures !SwingBefore(l, bars, m, k, naming)
  {
    hide Peak, Trough;
  }

  lemma SwingBeforeOn(l: Level, bars: seq<Candle>, m: nat, k: nat, naming: Naming)
    ensures SwingBefore(l, bars, m + 1, k, naming) <==>
            SwingBefore(l, bars, m, k, naming) || SwingOf(l, bars, m, k, naming.hi, naming.lo, naming.delay)
  {
    hide SwingOf;
  }

  /** The swings of a series are those of its peaks and troughs. */
  lemma ScanExact(bars: seq<Candle>, k: nat, naming: Naming, l: Level)
    ensures l in Scan(bars, k, naming) <==> exists i: nat :: SwingOf(l, bars, i, k, naming.hi, naming.lo, naming.delay)
  {
    hide ScanTo, Peak, Trough;
    if |bars| >= k { ScanToHas(bars, k, naming, |bars| - k, l); }
  }

  /** A higher timeframe's swings carry its own labels and are dated by the close of the bar that settles them; the day's by the start of
      it. */
  lemma SwingLabels(tf: int, h: Htf, k: nat, days: nat, l: Level)
    requires HtfOk(tf, h, k, days)
    ensures tf == 300 ==> (l in h.swings <==> exists i: nat :: SwingOf(l, h.bars, i, k, SwingHigh5m, SwingLow5m, 300_000_000_000))
    ensures tf == 3600 ==> (l in h.swings <==> exists i: nat :: SwingOf(l, h.bars, i, k, SwingHigh1h, SwingLow1h, 3_600_000_000_000))
  {
    ScanExact(h.bars, k, HtfNaming(tf), l);
    hide Scan, SwingOf;
  }

  lemma DaySwings(t: Today, k: nat, l: Level)
    requires SwingsExact(t, k)
    ensures l in t.swings <==> exists i: nat :: SwingOf(l, t.bars, i, k, SwingHigh, SwingLow, 0)
  {
    ScanExact(t.bars, k, ONE_MINUTE, l);
    hide Scan, SwingOf;
  }

  // ----- The calendar -----

  /** The book's day is the IST day of the time, its minute the minute of that day. */
  lemma CalendarIs(ts: int)
    ensures OnIstDay(IstDay(ts), ts)
    ensures IstMidnight(IstDay(ts)) + IstMinute(ts) * 60_000_000_000 <= ts < IstMidnight(IstDay(ts)) + (IstMinute(ts) + 1) * 60_000_000_000
    ensures 0 <= IstMinute(ts) < 1440
  {
  }
}
