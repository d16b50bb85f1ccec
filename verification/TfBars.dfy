/** Timeframe bars: bucket arithmetic, batch aggregation, composition of timeframes, and streaming. */
module TfBars {
  import opened Common

  /** 09:15 IST in seconds after 00:00 UTC. */
  const SESSION_OPEN := 3 * 3600 + 45 * 60

  predicate SessionAligned(tf: int) { tf == 600 || tf == 1800 || tf == 3600 }

  function Offset(tf: int): int { if SessionAligned(tf) then SESSION_OPEN % tf else 0 }

  /** Start of the tf-second bar holding ts. */
  function Bucket(ts: int, tf: int): int {
    if tf <= 0 then ts
    else if SessionAligned(tf) then ts - GoMod(GoMod(ts - SESSION_OPEN % tf, tf) + tf, tf)
    else ts - GoMod(ts, tf)
  }

  /** Whether ts rounds down to its bar start: always for session-aligned bars; clock-aligned ones truncate toward zero. */
  predicate RoundsDown(ts: int, tf: int)
    requires tf > 0
  {
    SessionAligned(tf) || ts >= 0 || ts % tf == 0
  }

  /** Go's remainder, made non-negative. */
  lemma GoModUp(x: int, m: int)
    requires m > 0
    ensures GoMod(GoMod(x, m) + m, m) == x % m
  {
    if x < 0 {
      var q, r := (-x) / m, (-x) % m;
      assert -x == m * q + r;
      if r == 0 {
        ModUnique(m, m, 1, 0);
        ModUnique(x, m, -q, 0);
      } else {
        ModUnique(m - r, m, 0, m - r);
        ModUnique(x, m, -q - 1, m - r);
      }
    } else {
      ModUnique(x % m + m, m, 1, x % m);
    }
  }

  lemma SessionBucket(ts: int, tf: int)
    requires SessionAligned(tf)
    ensures Bucket(ts, tf) == ts - (ts - Offset(tf)) % tf
  {
    hide GoMod;
    GoModUp(ts - Offset(tf), tf);
  }

  /** A bar start is on the grid, at most ts and less than tf before it, exactly when ts rounds down. */
  lemma BucketHolds(ts: int, tf: int)
    requires tf > 0
    ensures var b := Bucket(ts, tf);
            && (b - Offset(tf)) % tf == 0
            && (b <= ts < b + tf <==> RoundsDown(ts, tf))
  {
    if SessionAligned(tf) {
      SessionBucket(ts, tf);
      var x := ts - Offset(tf);
      ModUnique(x - x % tf, tf, x / tf, 0);
    } else if ts >= 0 {
      ModUnique(ts - ts % tf, tf, ts / tf, 0);
    } else {
      var q, r := (-ts) / tf, (-ts) % tf;
      ModUnique(ts + r, tf, -q, 0);
      if r == 0 { ModUnique(ts, tf, -q, 0); } else { ModUnique(ts, tf, -q - 1, tf - r); }
    }
  }

  /** Later times have no earlier bar starts. */
  lemma BucketMonotone(a: int, b: int, tf: int)
    requires a <= b
    ensures Bucket(a, tf) <= Bucket(b, tf)
  {
    if tf > 0 {
      if SessionAligned(tf) {
        SessionBucket(a, tf);
        SessionBucket(b, tf);
        hide Bucket;
        FloorMonotone(a - Offset(tf), b - Offset(tf), tf);
      } else {
        TruncMonotone(a, b, tf);
      }
    }
  }

  lemma FloorMonotone(a: int, b: int, m: int)
    requires a <= b && m > 0
    ensures a - a % m <= b - b % m
  {
    var p, q := a / m, b / m;
    assert a - a % m == m * p && b - b % m == m * q;
    ScaleAway(m, q - p);
    assert m * (q - p) == m * q - m * p;
  }

  lemma TruncMonotone(a: int, b: int, m: int)
    requires a <= b && m > 0
    ensures a - GoMod(a, m) <= b - GoMod(b, m)
  {
    if a >= 0 {
      FloorMonotone(a, b, m);
    } else if b < 0 {
      FloorMonotone(-b, -a, m);
    } else {
      FloorMonotone(0, b, m);
      FloorMonotone(0, -a, m);
    }
  }

  // ----- Batch aggregation -----

  datatype Bar = Bar(ts: int, open: int, high: int, low: int, close: int, volume: int)

  function Join(o: Bar, c: Bar): Bar {
    Bar(o.ts, o.open, Max(o.high, c.high), Min(o.low, c.low), c.close, o.volume + c.volume)
  }

  function Add(out: seq<Bar>, c: Bar, tf: int): (r: seq<Bar>)
    ensures r != [] && r[|r| - 1].ts == Bucket(c.ts, tf)
  {
    var b, n := Bucket(c.ts, tf), |out|;
    if n > 0 && out[n - 1].ts == b then out[..n - 1] + [Join(out[n - 1], c)] else out + [c.(ts := b)]
  }

  /** The aggregation of bars taken in the given order. */
  function Aggregate(s: seq<Bar>, tf: int): seq<Bar> {
    if s == [] then [] else Add(Aggregate(s[..|s| - 1], tf), s[|s| - 1], tf)
  }

  lemma AggregateSnoc(s: seq<Bar>, c: Bar, tf: int)
    ensures Aggregate(s + [c], tf) == Add(Aggregate(s, tf), c, tf)
  {
    assert (s + [c])[..|s|] == s;
  }

  predicate InTimeOrder(s: seq<Bar>) { forall i, j :: 0 <= i < j < |s| ==> s[i].ts <= s[j].ts }

  predicate StrictlyLater(s: seq<Bar>) { forall i, j :: 0 <= i < j < |s| ==> s[i].ts < s[j].ts }

  /** The inputs of one bucket, in order. */
  function InBucket(s: seq<Bar>, b: int, tf: int): seq<Bar> {
    if s == [] then []
    else InBucket(s[..|s| - 1], b, tf) + if Bucket(s[|s| - 1].ts, tf) == b then [s[|s| - 1]] else []
  }

  lemma InBucketSnoc(s: seq<Bar>, c: Bar, b: int, tf: int)
    ensures InBucket(s + [c], b, tf) == InBucket(s, b, tf) + if Bucket(c.ts, tf) == b then [c] else []
  {
    assert (s + [c])[..|s|] == s;
  }

  function VolumeOf(s: seq<Bar>): int { if s == [] then 0 else VolumeOf(s[..|s| - 1]) + s[|s| - 1].volume }

  lemma VolumeSnoc(s: seq<Bar>, c: Bar)
    ensures VolumeOf(s + [c]) == VolumeOf(s) + c.volume
  {
    assert (s + [c])[..|s|] == s;
  }

  /** o sums up xs: first open, last close, highest high, lowest low, all the volume. */
  ghost predicate SumsUp(o: Bar, xs: seq<Bar>) {
    && xs != [] && o.open == xs[0].open && o.close == xs[|xs| - 1].close && o.volume == VolumeOf(xs)
    && (exists x :: x in xs && x.high == o.high) && (forall x :: x in xs ==> x.high <= o.high)
    && (exists x :: x in xs && x.low == o.low) && (forall x :: x in xs ==> o.low <= x.low)
  }

  lemma SumsUpOne(c: Bar, b: int)
    ensures SumsUp(c.(ts := b), [c])
  {
    assert VolumeOf([c]) == VolumeOf([]) + c.volume by { VolumeSnoc([], c); assert [] + [c] == [c]; }
    assert c in [c];
  }

  lemma SumsUpJoin(o: Bar, xs: seq<Bar>, c: Bar)
    requires SumsUp(o, xs)
    ensures SumsUp(Join(o, c), xs + [c])
  {
    VolumeSnoc(xs, c);
    assert c in xs + [c];
    var h :| h in xs && h.high == o.high;
    var l :| l in xs && l.low == o.low;
    assert h in xs + [c] && l in xs + [c];
  }

  /** out holds one bar per bucket that has inputs, in time order, each summing up exactly its bucket. */
  ghost predicate IsAggregation(out: seq<Bar>, s: seq<Bar>, tf: int) {
    && StrictlyLater(out)
    && (forall i :: 0 <= i < |out| ==> SumsUp(out[i], InBucket(s, out[i].ts, tf)))
    && (forall i :: 0 <= i < |s| ==> HasBar(out, Bucket(s[i].ts, tf)))
    && (out != [] ==> s != [] && out[|out| - 1].ts == Bucket(s[|s| - 1].ts, tf))
  }

  ghost predicate HasBar(out: seq<Bar>, b: int) { exists i :: 0 <= i < |out| && out[i].ts == b }

  /** Adding one later bar. */
  lemma AddAggregates(out: seq<Bar>, s: seq<Bar>, c: Bar, tf: int)
    requires IsAggregation(out, s, tf) && (s != [] ==> out != [] && s[|s| - 1].ts <= c.ts)
    ensures IsAggregation(Add(out, c, tf), s + [c], tf)
  {
    hide SumsUp, Bucket, InBucket;
    var b, n, r := Bucket(c.ts, tf), |out|, Add(out, c, tf);
    if s != [] { BucketMonotone(s[|s| - 1].ts, c.ts, tf); }
    forall i | 0 <= i < |out| && out[i].ts != b ensures InBucket(s + [c], out[i].ts, tf) == InBucket(s, out[i].ts, tf) {
      InBucketSnoc(s, c, out[i].ts, tf);
    }
    InBucketSnoc(s, c, b, tf);
    if n > 0 && out[n - 1].ts == b {
      SumsUpJoin(out[n - 1], InBucket(s, b, tf), c);
    } else {
      NoBarNoInput(out, s, b, tf);
      assert [] + [c] == [c];
      SumsUpOne(c, b);
    }
    forall i | 0 <= i < |s + [c]| ensures HasBar(r, Bucket((s + [c])[i].ts, tf)) {
      if i < |s| {
        var j :| 0 <= j < |out| && out[j].ts == Bucket(s[i].ts, tf);
        assert r[j].ts == out[j].ts;
      } else {
        assert r[|r| - 1].ts == b;
      }
    }
  }

  lemma {:induction false} NoBarNoInput(out: seq<Bar>, s: seq<Bar>, b: int, tf: int)
    requires forall i :: 0 <= i < |s| ==> HasBar(out, Bucket(s[i].ts, tf))
    requires forall i :: 0 <= i < |out| ==> out[i].ts != b
    ensures InBucket(s, b, tf) == []
  {
    hide Bucket;
    if s != [] {
      var init := s[..|s| - 1];
      forall i | 0 <= i < |init| ensures HasBar(out, Bucket(init[i].ts, tf)) {
        assert HasBar(out, Bucket(s[i].ts, tf));
      }
      NoBarNoInput(out, init, b, tf);
      assert HasBar(out, Bucket(s[|s| - 1].ts, tf));
    }
  }

  lemma NothingAggregates(tf: int)
    ensures IsAggregation(Aggregate([], tf), [], tf) && Aggregate([], tf) == []
  {
  }

  lemma OrderPrefix(s: seq<Bar>, c: Bar)
    requires InTimeOrder(s + [c])
    ensures InTimeOrder(s) && (s != [] ==> s[|s| - 1].ts <= c.ts)
  {
    var t := s + [c];
    assert forall i :: 0 <= i < |s| ==> t[i] == s[i];
    assert t[|s|] == c;
  }

  lemma AggregateStep(s: seq<Bar>, c: Bar, tf: int)
    requires IsAggregation(Aggregate(s, tf), s, tf) && (s != [] ==> Aggregate(s, tf) != [] && s[|s| - 1].ts <= c.ts)
    ensures IsAggregation(Aggregate(s + [c], tf), s + [c], tf) && Aggregate(s + [c], tf) != []
  {
    AggregateSnoc(s, c, tf);
    hide Bucket, IsAggregation, Aggregate;
    AddAggregates(Aggregate(s, tf), s, c, tf);
    hide Add;
  }

  /** For bars in time order the aggregation is strictly increasing and each bar sums up exactly its bucket's inputs. */
  lemma {:induction false} AggregateIs(s: seq<Bar>, tf: int)
    requires InTimeOrder(s)
    ensures IsAggregation(Aggregate(s, tf), s, tf) && (s != [] ==> Aggregate(s, tf) != [])
  {
    if s == [] {
      NothingAggregates(tf);
    } else {
      hide IsAggregation, Aggregate, InTimeOrder;
      var init, c := s[..|s| - 1], s[|s| - 1];
      OrderPrefix(init, c);
      assert init + [c] == s;
      AggregateIs(init, tf);
      AggregateStep(init, c, tf);
    }
  }

  lemma VolumeAdd(out: seq<Bar>, c: Bar, tf: int)
    ensures VolumeOf(Add(out, c, tf)) == VolumeOf(out) + c.volume
  {
    hide Bucket, VolumeOf;
    var b, n := Bucket(c.ts, tf), |out|;
    if n > 0 && out[n - 1].ts == b {
      assert out == out[..n - 1] + [out[n - 1]];
      VolumeSnoc(out[..n - 1], out[n - 1]);
      VolumeSnoc(out[..n - 1], Join(out[n - 1], c));
    } else {
      VolumeSnoc(out, c.(ts := b));
    }
  }

  lemma NoVolume(tf: int)
    ensures VolumeOf(Aggregate([], tf)) == VolumeOf([])
  {
  }

  /** Volume is conserved, whatever the order. */
  lemma {:induction false} VolumeConserved(s: seq<Bar>, tf: int)
    ensures VolumeOf(Aggregate(s, tf)) == VolumeOf(s)
  {
    hide VolumeOf, Aggregate, Add;
    if s == [] {
      NoVolume(tf);
    } else {
      var init, c := s[..|s| - 1], s[|s| - 1];
      VolumeConserved(init, tf);
      AggregateSnoc(init, c, tf);
      VolumeAdd(Aggregate(init, tf), c, tf);
      VolumeSnoc(init, c);
      assert init + [c] == s;
    }
  }

  // ----- Composition -----

  /** Every bar start of tf2 is one of tf1's grid. */
  predicate Refines(tf1: int, tf2: int) {
    tf1 > 0 && tf2 > 0 && tf2 % tf1 == 0 && (Offset(tf2) - Offset(tf1)) % tf1 == 0
  }

  lemma BucketIs(ts: int, tf: int)
    requires tf > 0 && RoundsDown(ts, tf)
    ensures Bucket(ts, tf) == ts - (ts - Offset(tf)) % tf
  {
    if SessionAligned(tf) {
      SessionBucket(ts, tf);
    } else if ts < 0 {
      var q := ts / tf;
      assert ts == tf * q;
      ModUnique(-ts, tf, -q, 0);
    }
  }

  /** A clock-aligned coarse grid has only clock-aligned grids refining it. */
  lemma ClockRefinedByClock(tf1: int, tf2: int)
    requires Refines(tf1, tf2) && !SessionAligned(tf2)
    ensures !SessionAligned(tf1)
  {
  }

  /** Rounding to the finer grid first loses nothing: a time that the fine grid rounds up must not land on a start of a
      coarse grid that rounds down. */
  predicate Nests(ts: int, tf1: int, tf2: int)
    requires tf1 > 0 && tf2 > 0
  {
    !SessionAligned(tf2) || RoundsDown(ts, tf1) || (Bucket(ts, tf1) - Offset(tf2)) % tf2 != 0
  }

  lemma BucketComposes(ts: int, tf1: int, tf2: int)
    requires Refines(tf1, tf2)
    ensures Bucket(Bucket(ts, tf1), tf2) == Bucket(ts, tf2) <==> Nests(ts, tf1, tf2)
  {
    hide Bucket, SessionAligned, Offset;
    if SessionAligned(tf2) && !RoundsDown(ts, tf1) {
      RoundedUp(ts, tf1, tf2);
    } else if ts >= 0 || SessionAligned(tf2) {
      FloorComposes(ts, tf1, tf2);
    } else {
      ClockComposes(ts, tf1, tf2);
    }
  }

  /** A quarter of an hour and a second before 1970: five-minute bars round it up to the start of an hour bar, so two steps
      put it one hour bar late. */
  lemma TwoStepsMisplace()
    ensures var c := Bar(-901, 1, 1, 1, 1, 1);
            && Refines(300, 3600) && Bucket(-901, 300) == -900 && Bucket(-901, 3600) == -4500
            && Aggregate(Aggregate([c], 300), 3600) == [c.(ts := -900)] && Aggregate([c], 3600) == [c.(ts := -4500)]
  {
    var c := Bar(-901, 1, 1, 1, 1, 1);
    var fine := c.(ts := -900);
    assert [c][..0] == [] && [fine][..0] == [];
    assert Aggregate([c], 300) == [fine];
  }

  lemma ClockComposes(ts: int, tf1: int, tf2: int)
    requires Refines(tf1, tf2) && !SessionAligned(tf2) && ts < 0
    ensures Bucket(Bucket(ts, tf1), tf2) == Bucket(ts, tf2)
  {
    ClockRefinedByClock(tf1, tf2);
    FloorComposes(-ts, tf1, tf2);
    BucketMirrors(ts, tf1);
    BucketMirrors(ts, tf2);
    hide Bucket, GoMod, SessionAligned;
    var b := Bucket(ts, tf1);
    BucketMonotone(ts, 0, tf1);
    if b < 0 { BucketMirrors(b, tf2); }
  }

  lemma FloorComposes(ts: int, tf1: int, tf2: int)
    requires Refines(tf1, tf2) && RoundsDown(ts, tf1) && (ts >= 0 || SessionAligned(tf2))
    ensures Bucket(Bucket(ts, tf1), tf2) == Bucket(ts, tf2)
  {
    var o1, o2 := Offset(tf1), Offset(tf2);
    var b := Bucket(ts, tf1);
    BucketIs(ts, tf1);
    BucketIs(ts, tf2);
    if !SessionAligned(tf2) { ClockRefinedByClock(tf1, tf2); }
    assert b >= 0 || SessionAligned(tf2) by {
      if !SessionAligned(tf1) && ts >= 0 { ModBounds(ts, tf1); }
    }
    BucketIs(b, tf2);
    NestedFloor(ts, tf1, tf2, o1, o2);
  }

  /** Truncation toward zero is symmetric. */
  lemma BucketMirrors(ts: int, tf: int)
    requires tf > 0 && !SessionAligned(tf) && ts < 0
    ensures Bucket(ts, tf) == -Bucket(-ts, tf) && Bucket(0, tf) == 0
  {
  }

  /** The fine grid rounds ts up; the coarse grid rounds down. */
  lemma RoundedUp(ts: int, tf1: int, tf2: int)
    requires Refines(tf1, tf2) && SessionAligned(tf2) && !RoundsDown(ts, tf1)
    ensures Bucket(Bucket(ts, tf1), tf2) == Bucket(ts, tf2) <==> (Bucket(ts, tf1) - Offset(tf2)) % tf2 != 0
  {
    var o2, b := Offset(tf2), Bucket(ts, tf1);
    var c := b - (b - o2) % tf2;
    SessionBucket(ts, tf2);
    SessionBucket(b, tf2);
    var q := UpBy(ts, tf1);
    hide Bucket, GoMod;
    NextBelow(ts, b, q, tf1, tf2, o2);
  }

  /** b is m's first grid point after ts: it is one of n's too, or n's last grid point before it is also the last one before
      ts. */
  lemma NextBelow(ts: int, b: int, q: int, m: int, n: int, o: int)
    requires m > 0 && n > 0 && n % m == 0 && o % m == 0 && b == m * q && b - m < ts < b
    ensures b - (b - o) % n == ts - (ts - o) % n <==> (b - o) % n != 0
  {
    var c := b - (b - o) % n;
    if c < b {
      var p := Floor(b - o, n);
      var e := GridPoint(m, n, 0, o, p);
      FineStart(b - 1, b - m, c, m, 0, q - 1, e);
      ModUnique(ts - o, n, p, ts - c);
    } else {
      ModNotNegative(ts - o, n);
    }
  }

  lemma ModNotNegative(a: int, n: int)
    requires n > 0
    ensures a % n >= 0
  {
  }

  lemma UpBy(ts: int, m: int) returns (q: int)
    requires m > 0 && !SessionAligned(m) && ts < 0 && ts % m != 0
    ensures Bucket(ts, m) == m * q && ts < m * q < ts + m
  {
    var k, r := (-ts) / m, (-ts) % m;
    assert -ts == m * k + r;
    if r == 0 { ModUnique(ts, m, -k, 0); }
    q := -k;
  }

  lemma ModBounds(a: int, m: int)
    requires a >= 0 && m > 0
    ensures 0 <= a % m <= a
  {
    var q := a / m;
    assert a == m * q + a % m;
    assert q >= 0;
    assert m * q >= 0;
  }

  /** A point of the coarse grid lies on the fine one. */
  lemma GridPoint(m: int, n: int, o1: int, o2: int, p: int) returns (e: int)
    requires m > 0 && n > 0 && n % m == 0 && (o2 - o1) % m == 0
    ensures o2 + n * p == o1 + m * e
  {
    var k, d := n / m, (o2 - o1) / m;
    assert n == m * k && o2 - o1 == m * d;
    e := d + k * p;
    Factor(m, d, k, p);
  }

  lemma Factor(m: int, d: int, k: int, p: int)
    ensures m * (d + k * p) == m * d + (m * k) * p
  {
  }

  lemma Floor(x: int, n: int) returns (p: int)
    requires n > 0
    ensures x == n * p + x % n
  {
    p := x / n;
  }

  lemma NestedFloor(ts: int, m: int, n: int, o1: int, o2: int)
    requires m > 0 && n > 0 && n % m == 0 && (o2 - o1) % m == 0
    ensures var b := ts - (ts - o1) % m; b - (b - o2) % n == ts - (ts - o2) % n
  {
    var b := ts - (ts - o1) % m;
    var q := Floor(ts - o1, m);
    var p := Floor(ts - o2, n);
    var e := GridPoint(m, n, o1, o2, p);
    var c := o2 + n * p;
    FineStart(ts, b, c, m, o1, q, e);
    ModUnique(b - o2, n, p, b - c);
  }

  /** The last grid point at most ts is not before any other grid point at most ts. */
  lemma FineStart(ts: int, b: int, c: int, m: int, o: int, q: int, e: int)
    requires m > 0 && b == o + m * q && b <= ts < b + m && c == o + m * e && c <= ts
    ensures c <= b
  {
    ScaleAway(m, e - q);
    assert m * (e - q) == m * e - m * q;
  }

  /** Every bar nests: always for bars from 1970 on, and for two clock-aligned or two session-aligned timeframes. */
  predicate AllNest(s: seq<Bar>, tf1: int, tf2: int)
    requires tf1 > 0 && tf2 > 0
  {
    forall c :: c in s ==> Nests(c.ts, tf1, tf2)
  }

  /** Aggregating to tf1 and then to tf2 is aggregating straight to tf2, for bars in any order, whenever tf1's grid refines
      tf2's and every bar nests. */
  lemma {:induction false} AggregationComposes(s: seq<Bar>, tf1: int, tf2: int)
    requires Refines(tf1, tf2) && AllNest(s, tf1, tf2)
    ensures Aggregate(Aggregate(s, tf1), tf2) == Aggregate(s, tf2)
  {
    hide Bucket, Add, Nests;
    if s == [] {
      assert Aggregate([], tf1) == [];
    } else {
      var init, c := s[..|s| - 1], s[|s| - 1];
      AggregationComposes(init, tf1, tf2);
      assert Aggregate(s, tf1) == Add(Aggregate(init, tf1), c, tf1);
      assert Aggregate(s, tf2) == Add(Aggregate(init, tf2), c, tf2);
      AddComposes(Aggregate(init, tf1), c, tf1, tf2);
    }
  }

  /** One more input, seen through both timeframes. */
  lemma AddComposes(fine: seq<Bar>, c: Bar, tf1: int, tf2: int)
    requires Refines(tf1, tf2) && Nests(c.ts, tf1, tf2)
    ensures Aggregate(Add(fine, c, tf1), tf2) == Add(Aggregate(fine, tf2), c, tf2)
  {
    var b1, n := Bucket(c.ts, tf1), |fine|;
    BucketComposes(c.ts, tf1, tf2);
    hide Bucket, Refines, Aggregate, Add, Join, Nests;
    if n > 0 && fine[n - 1].ts == b1 {
      var p, x := fine[..n - 1], fine[n - 1];
      assert fine == p + [x];
      AddLast(p, x, c, tf1);
      AggregateSnoc(p, x, tf2);
      AggregateSnoc(p, Join(x, c), tf2);
      AddTwice(Aggregate(p, tf2), x, c, tf2);
    } else {
      AddNew(fine, c, tf1);
      AggregateSnoc(fine, c.(ts := b1), tf2);
      AddByBucket(Aggregate(fine, tf2), c, b1, tf2);
    }
  }

  lemma AddNew(out: seq<Bar>, c: Bar, tf: int)
    requires out != [] ==> out[|out| - 1].ts != Bucket(c.ts, tf)
    ensures Add(out, c, tf) == out + [c.(ts := Bucket(c.ts, tf))]
  {
  }

  /** A bar's time matters only through its bucket. */
  lemma AddByBucket(out: seq<Bar>, c: Bar, ts: int, tf: int)
    requires Bucket(ts, tf) == Bucket(c.ts, tf)
    ensures Add(out, c.(ts := ts), tf) == Add(out, c, tf)
  {
    hide Bucket;
  }

  /** Joining two bars of one bucket first, or adding them one after the other. */
  lemma AddTwice(out: seq<Bar>, x: Bar, c: Bar, tf: int)
    requires Bucket(x.ts, tf) == Bucket(c.ts, tf)
    ensures Add(out, Join(x, c), tf) == Add(Add(out, x, tf), c, tf)
  {
    hide Bucket;
    var b, n := Bucket(x.ts, tf), |out|;
    if n > 0 && out[n - 1].ts == b {
      JoinAssociates(out[n - 1], x, c);
      AddLast(out[..n - 1], Join(out[n - 1], x), c, tf);
    } else {
      JoinAssociates(x.(ts := b), x.(ts := b), c);
      AddLast(out, x.(ts := b), c, tf);
    }
  }

  lemma JoinAssociates(o: Bar, x: Bar, c: Bar)
    ensures Join(o, Join(x, c)) == Join(Join(o, x), c)
  {
  }

  /** Adding to a list whose last bar is of the same bucket joins it. */
  lemma AddLast(p: seq<Bar>, o: Bar, c: Bar, tf: int)
    requires o.ts == Bucket(c.ts, tf)
    ensures Add(p + [o], c, tf) == p + [Join(o, c)]
  {
    assert (p + [o])[..|p|] == p;
  }

  // ----- The batch method -----

  /** A bar with the number of one-second candles it stands for. */
  datatype TfBar = TfBar(bar: Bar, count: nat)

  /** out is the aggregation of s, each bar with 60 per input. */
  ghost predicate Counted(out: seq<TfBar>, s: seq<Bar>, tf: int) {
    && |out| == |Aggregate(s, tf)|
    && forall j :: 0 <= j < |out| ==>
         out[j].bar == Aggregate(s, tf)[j] && out[j].count == 60 * |InBucket(s, out[j].bar.ts, tf)|
  }

  /** The bar joins the last one, in place, or starts the next. */
  method AddBar(out: seq<TfBar>, c: Bar, tf: int, ghost s: seq<Bar>) returns (r: seq<TfBar>)
    requires Counted(out, s, tf) && IsAggregation(Aggregate(s, tf), s, tf)
    requires s != [] ==> Aggregate(s, tf) != [] && s[|s| - 1].ts <= c.ts
    ensures Counted(r, s + [c], tf)
  {
    hide IsAggregation, Bucket, InBucket, Add;
    CountsGrow(s, c, tf);
    AggregateSnoc(s, c, tf);
    hide Aggregate;
    var b, n := Bucket(c.ts, tf), |out|;
    if n > 0 && out[n - 1].bar.ts == b {
      var o := out[n - 1];
      r := out[..n - 1] + [TfBar(Join(o.bar, c), o.count + 60)];
    } else {
      r := out + [TfBar(c.(ts := b), 60)];
    }
  }

  /** Sort, then one pass. */
  method AggregateBars(bars: seq<Bar>, tf: int) returns (out: seq<TfBar>, ghost sorted: seq<Bar>)
    ensures InTimeOrder(sorted) && multiset(sorted) == multiset(bars)
    ensures Counted(out, sorted, tf)
  {
    hide IsAggregation, Aggregate, Counted;
    var s := SortBy(bars, (c: Bar) => c.ts);
    assert InTimeOrder(s);
    sorted, out := s, [];
    NothingCounted(tf);
    assert s[..0] == [];
    for i := 0 to |s|
      invariant Counted(out, s[..i], tf)
    {
      assert s[..i + 1] == s[..i] + [s[i]];
      PrefixInOrder(s, i);
      AggregateIs(s[..i], tf);
      out := AddBar(out, s[i], tf, s[..i]);
    }
    assert s[..|s|] == s;
  }

  lemma NothingCounted(tf: int)
    ensures Counted([], [], tf)
  {
  }

  lemma PrefixInOrder(s: seq<Bar>, i: nat)
    requires InTimeOrder(s) && i < |s|
    ensures InTimeOrder(s[..i]) && (i > 0 ==> s[..i][i - 1].ts <= s[i].ts)
  {
  }

  /** What one more input does to the bars and to their input counts. */
  lemma CountsGrow(s: seq<Bar>, c: Bar, tf: int)
    requires IsAggregation(Aggregate(s, tf), s, tf) && (s != [] ==> Aggregate(s, tf) != [] && s[|s| - 1].ts <= c.ts)
    ensures var out, b := Aggregate(s, tf), Bucket(c.ts, tf);
            var n, r := |out|, Add(out, c, tf);
            && (n > 0 && out[n - 1].ts == b ==> r == out[..n - 1] + [Join(out[n - 1], c)])
            && (!(n > 0 && out[n - 1].ts == b) ==> r == out + [c.(ts := b)] && InBucket(s, b, tf) == [])
            && (forall j :: 0 <= j < n - 1 ==> out[j].ts != b)
            && (forall j :: 0 <= j < n && out[j].ts != b ==> |InBucket(s + [c], out[j].ts, tf)| == |InBucket(s, out[j].ts, tf)|)
            && |InBucket(s + [c], b, tf)| == |InBucket(s, b, tf)| + 1
  {
    hide Bucket, InBucket, SumsUp;
    var out, b := Aggregate(s, tf), Bucket(c.ts, tf);
    forall j | 0 <= j < |out| ensures out[j].ts != b ==> |InBucket(s + [c], out[j].ts, tf)| == |InBucket(s, out[j].ts, tf)| {
      InBucketSnoc(s, c, out[j].ts, tf);
    }
    InBucketSnoc(s, c, b, tf);
    if s != [] { BucketMonotone(s[|s| - 1].ts, c.ts, tf); }
    if !(|out| > 0 && out[|out| - 1].ts == b) { NoBarNoInput(out, s, b, tf); }
  }

  // ----- Streaming -----

  /** A bar as the stream keeps it: without volume. */
  function Ohlc(b: Bar): Bar { b.(volume := 0) }

  function OhlcAll(s: seq<Bar>): (r: seq<Bar>)
    ensures |r| == |s| && forall i :: 0 <= i < |r| ==> r[i] == Ohlc(s[i])
  {
    seq(|s|, i requires 0 <= i < |s| => Ohlc(s[i]))
  }

  /** Bars handed on so far, and the forming one. */
  datatype Stream = Stream(emitted: seq<Bar>, forming: Option<Bar>)

  function OnBar(st: Stream, c: Bar, tf: int): Stream {
    var b := Bucket(c.ts, tf);
    match st.forming
    case Some(f) =>
      if f.ts == b then Stream(st.emitted, Some(f.(high := Max(f.high, c.high), low := Min(f.low, c.low), close := c.close)))
      else Stream(st.emitted + [f], Some(Ohlc(c).(ts := b)))
    case None => Stream(st.emitted, Some(Ohlc(c).(ts := b)))
  }

  function Streamed(s: seq<Bar>, tf: int): Stream {
    if s == [] then Stream([], None) else OnBar(Streamed(s[..|s| - 1], tf), s[|s| - 1], tf)
  }

  /** The stream emits exactly the batch's OHLC bars except the last, which is the forming one. */
  lemma {:induction false} StreamIsBatch(s: seq<Bar>, tf: int)
    ensures var st, batch := Streamed(s, tf), OhlcAll(Aggregate(s, tf));
            && (s == [] <==> st.forming.None?)
            && (s == [] ==> batch == [] && st.emitted == [])
            && (s != [] ==> batch != [] && st.emitted == batch[..|batch| - 1] && st.forming == Some(batch[|batch| - 1]))
  {
    hide Bucket;
    if s != [] {
      var c := s[|s| - 1];
      StreamIsBatch(s[..|s| - 1], tf);
      StreamStep(Streamed(s[..|s| - 1], tf), Aggregate(s[..|s| - 1], tf), c, tf);
    }
  }

  lemma StreamStep(st: Stream, out: seq<Bar>, c: Bar, tf: int)
    requires out == [] ==> st == Stream([], None)
    requires out != [] ==> st == Stream(OhlcAll(out)[..|out| - 1], Some(Ohlc(out[|out| - 1])))
    ensures var r := Add(out, c, tf); OnBar(st, c, tf) == Stream(OhlcAll(r)[..|r| - 1], Some(Ohlc(r[|r| - 1])))
  {
    hide Bucket;
    var r := Add(out, c, tf);
    assert OhlcAll(r)[..|r| - 1] == OnBar(st, c, tf).emitted;
  }

  /** The replay's 5m and 1h streams. */
  class Replay {
    var forming: map<int, Bar>
    var emitted: map<int, seq<Bar>>

    ghost function StreamOf(tf: int): Stream
      reads this
    {
      Stream(if tf in emitted then emitted[tf] else [], if tf in forming then Some(forming[tf]) else None)
    }

    constructor ()
      ensures forall tf :: StreamOf(tf) == Stream([], None)
    {
      forming, emitted := map[], map[];
    }

    /** One closed 1m bar goes into both timeframes' forming bars; a bar it leaves behind is handed on. */
    method AddMinute(c: Bar)
      modifies this
      ensures StreamOf(300) == OnBar(old(StreamOf(300)), c, 300) && StreamOf(3600) == OnBar(old(StreamOf(3600)), c, 3600)
    {
      hide Bucket;
      var tfs := [300, 3600];
      for i := 0 to 2
        invariant forall j :: 0 <= j < 2 ==>
                    StreamOf(tfs[j]) == if j < i then OnBar(old(StreamOf(tfs[j])), c, tfs[j]) else old(StreamOf(tfs[j]))
      {
        var tf := tfs[i];
        var start := Bucket(c.ts, tf);
        if tf in forming && forming[tf].ts != start {
          emitted := emitted[tf := (if tf in emitted then emitted[tf] else []) + [forming[tf]]];
          forming := forming - {tf};
        }
        if tf !in forming {
          forming := forming[tf := Bar(start, c.open, c.high, c.low, c.close, 0)];
        }
        var f := forming[tf];
        if c.high > f.high {
          f := f.(high := c.high);
        }
        if c.low < f.low {
          f := f.(low := c.low);
        }
        forming := forming[tf := f.(close := c.close)];
      }
      assert tfs[0] == 300 && tfs[1] == 3600;
    }
  }
}
