/** Support/resistance levels: swing detection, merging into one price-sorted list, and the next level ahead. */
module Levels {
  import opened Common

  datatype LType =
    | DayHigh | DayLow | OrbHigh | OrbLow | SwingHigh | SwingLow | MicroHigh | MicroLow
    | SwingHigh5m | SwingLow5m | SwingHigh1h | SwingLow1h
    | OurSR(source: string) | Analyst(detail: string)

  datatype Source = SrSource | FiveMin | OneHour

  /** One level; since 0 stands for the zero time. tags lists the member types of a merged level, label first. */
  datatype Level = Level(price: int, typ: LType, since: int, strong: bool, tags: seq<LType>, touches: int)

  const NO_LEVEL := Level(0, DayHigh, 0, false, [], 0)

  datatype Candle = Candle(tf: int, ts: int, open: int, high: int, low: int, close: int, forming: bool)

  function Priority(t: LType): int {
    match t
    case OurSR(_) => 50
    case SwingHigh1h => 46 case SwingLow1h => 46
    case SwingHigh5m => 43 case SwingLow5m => 43
    case SwingHigh => 40 case SwingLow => 40
    case OrbHigh => 30 case OrbLow => 30
    case Analyst(_) => 20
    case _ => 10
  }

  function SourceOf(t: LType): Option<Source> {
    match t
    case SwingHigh5m => Some(FiveMin) case SwingLow5m => Some(FiveMin)
    case SwingHigh1h => Some(OneHour) case SwingLow1h => Some(OneHour)
    case OurSR(_) => Some(SrSource)
    case _ => None
  }

  predicate StrongType(t: LType) { SourceOf(t).Some? }

  // ----- Swings -----

  predicate IsHigh(bars: seq<Candle>, i: nat, k: nat)
    requires k <= i && i + k < |bars|
  {
    forall j :: i - k <= j <= i + k && j != i ==> bars[j].high < bars[i].high
  }

  predicate IsLow(bars: seq<Candle>, i: nat, k: nat)
    requires k <= i && i + k < |bars|
  {
    forall j :: i - k <= j <= i + k && j != i ==> bars[j].low > bars[i].low
  }

  /** One pass over the window decides both predicates at once; either may drop out early without ending the loop. */
  method FractalAt(bars: seq<Candle>, i: nat, k: nat) returns (hi: bool, lo: bool)
    requires k <= i && i + k < |bars|
    ensures hi == IsHigh(bars, i, k) && lo == IsLow(bars, i, k)
  {
    hi, lo := true, true;
    for j := i - k to i + k + 1
      invariant hi <==> forall m :: i - k <= m < j && m != i ==> bars[m].high < bars[i].high
      invariant lo <==> forall m :: i - k <= m < j && m != i ==> bars[m].low > bars[i].low
    {
      if j == i {
        continue;
      }
      if bars[j].high >= bars[i].high {
        hi := false;
      }
      if bars[j].low <= bars[i].low {
        lo := false;
      }
    }
  }

  /** How the swings of one series are named and dated: by its confirming bar plus delay. */
  datatype Naming = Naming(hi: LType, lo: LType, delay: int)

  function SwingsAt(bars: seq<Candle>, i: nat, k: nat, naming: Naming): seq<Level>
    requires k <= i && i + k < |bars|
  {
    var since := bars[i + k].ts + naming.delay;
    (if IsHigh(bars, i, k) then [Level(bars[i].high, naming.hi, since, false, [], 0)] else []) +
    (if IsLow(bars, i, k) then [Level(bars[i].low, naming.lo, since, false, [], 0)] else [])
  }

  /** The batch scan of bars k..m. */
  function ScanTo(bars: seq<Candle>, k: nat, naming: Naming, m: nat): seq<Level>
    requires m + k <= |bars|
  {
    if m <= k then [] else ScanTo(bars, k, naming, m - 1) + SwingsAt(bars, m - 1, k, naming)
  }

  /** The swings of the whole series: every bar with k neighbours on each side is judged. */
  function Scan(bars: seq<Candle>, k: nat, naming: Naming): seq<Level> {
    if |bars| < k then [] else ScanTo(bars, k, naming, |bars| - k)
  }

  /** A later bar changes no verdict already given. */
  lemma {:induction false} ScanToStable(bars: seq<Candle>, c: Candle, k: nat, naming: Naming, m: nat)
    requires m + k <= |bars|
    ensures ScanTo(bars + [c], k, naming, m) == ScanTo(bars, k, naming, m)
  {
    hide IsHigh, IsLow, SwingsAt;
    if m > k {
      ScanToStable(bars, c, k, naming, m - 1);
      VerdictStable(bars, c, m - 1, k, naming);
    }
  }

  lemma VerdictStable(bars: seq<Candle>, c: Candle, i: nat, k: nat, naming: Naming)
    requires k <= i && i + k < |bars|
    ensures SwingsAt(bars + [c], i, k, naming) == SwingsAt(bars, i, k, naming)
  {
    var more := bars + [c];
    assert forall j :: i - k <= j <= i + k ==> more[j] == bars[j];
    assert IsHigh(more, i, k) == IsHigh(bars, i, k);
    assert IsLow(more, i, k) == IsLow(bars, i, k);
  }

  /** One more bar adds exactly the verdict on the bar k back, once it has k bars before it. */
  lemma ScanSnoc(bars: seq<Candle>, c: Candle, k: nat, naming: Naming)
    ensures var more := bars + [c];
            Scan(more, k, naming) ==
            Scan(bars, k, naming) + if |bars| >= 2 * k then SwingsAt(more, |bars| - k, k, naming) else []
  {
    hide SwingsAt, IsHigh, IsLow;
    var m, more := |bars| - k, bars + [c];
    if m >= 0 {
      ScanToStable(bars, c, k, naming, m);
    }
    if m >= k {
      assert ScanTo(more, k, naming, m + 1) == ScanTo(more, k, naming, m) + SwingsAt(more, m, k, naming);
    }
  }

  // ----- Merging -----

  predicate SortedByPrice(ls: seq<Level>) {
    forall i, j :: 0 <= i < j < |ls| ==> ls[i].price <= ls[j].price
  }

  predicate StrictlySorted(ls: seq<Level>) {
    forall i, j :: 0 <= i < j < |ls| ==> ls[i].price < ls[j].price
  }

  /** First index past the band that starts at raw[0]. */
  function BandEnd(raw: seq<Level>, tol: int): (j: nat)
    requires raw != [] && SortedByPrice(raw) && tol >= 0
    ensures 1 <= j <= |raw|
    ensures forall i :: 0 <= i < j ==> raw[i].price - raw[0].price <= tol
    ensures forall i :: j <= i < |raw| ==> raw[i].price - raw[0].price > tol
  {
    BandEndFrom(raw, tol, 1)
  }

  function BandEndFrom(raw: seq<Level>, tol: int, i: nat): (j: nat)
    requires 1 <= i <= |raw| && SortedByPrice(raw) && tol >= 0
    requires forall m :: 0 <= m < i ==> raw[m].price - raw[0].price <= tol
    ensures i <= j <= |raw|
    ensures forall m :: 0 <= m < j ==> raw[m].price - raw[0].price <= tol
    ensures forall m :: j <= m < |raw| ==> raw[m].price - raw[0].price > tol
    decreases |raw| - i
  {
    if i < |raw| && raw[i].price - raw[0].price <= tol then BandEndFrom(raw, tol, i + 1) else i
  }

  /** The bands of a sorted list: each reaches as far as tol from its first price. */
  function Bands(raw: seq<Level>, tol: int): (bands: seq<seq<Level>>)
    requires SortedByPrice(raw) && tol >= 0
    ensures forall i :: 0 <= i < |bands| ==> bands[i] != []
    decreases |raw|
  {
    if raw == [] then [] else var j := BandEnd(raw, tol); [raw[..j]] + Bands(raw[j..], tol)
  }

  /** First member of the highest priority. */
  function Best(band: seq<Level>): (best: Level)
    requires band != []
    ensures best in band && forall m :: m in band ==> Priority(m.typ) <= Priority(best.typ)
  {
    if |band| == 1 then band[0]
    else
      var b, last := Best(band[..|band| - 1]), band[|band| - 1];
      assert forall m :: m in band <==> m in band[..|band| - 1] || m == last;
      if Priority(last.typ) > Priority(b.typ) then last else b
  }

  function Oldest(band: seq<Level>): (since: int)
    requires band != []
    ensures (exists m :: m in band && m.since == since) && forall m :: m in band ==> since <= m.since
  {
    if |band| == 1 then band[0].since
    else
      var s, last := Oldest(band[..|band| - 1]), band[|band| - 1];
      assert forall m :: m in band <==> m in band[..|band| - 1] || m == last;
      if last.since < s then last.since else s
  }

  function MostTouches(band: seq<Level>): (n: int)
    ensures n >= 0 && (n == 0 || exists m :: m in band && m.touches == n) && forall m :: m in band ==> m.touches <= n
  {
    if band == [] then 0
    else
      var n', last := MostTouches(band[..|band| - 1]), band[|band| - 1];
      assert forall m :: m in band <==> m in band[..|band| - 1] || m == last;
      Max(n', last.touches)
  }

  /** The distinct member types, the label first. */
  function Tags(band: seq<Level>, name: LType): (tags: seq<LType>)
    ensures |tags| >= 1 && tags[0] == name
    ensures forall t :: t in tags <==> t == name || exists m :: m in band && m.typ == t
    ensures forall i, j :: 0 <= i < j < |tags| ==> tags[i] != tags[j]
  {
    if band == [] then [name]
    else
      var tags', last := Tags(band[..|band| - 1], name), band[|band| - 1];
      assert forall m :: m in band <==> m in band[..|band| - 1] || m == last;
      if last.typ in tags' then tags' else tags' + [last.typ]
  }

  predicate AnyStrong(band: seq<Level>) { exists m :: m in band && StrongType(m.typ) }

  function MergeBand(band: seq<Level>): Level
    requires band != []
  {
    var best := Best(band);
    Level(best.price, best.typ, Oldest(band), AnyStrong(band), Tags(band, best.typ), MostTouches(band))
  }

  function MergeBands(bands: seq<seq<Level>>): (merged: seq<Level>)
    requires forall i :: 0 <= i < |bands| ==> bands[i] != []
    ensures |merged| == |bands| && forall i :: 0 <= i < |merged| ==> merged[i] == MergeBand(bands[i])
  {
    seq(|bands|, i requires 0 <= i < |bands| => MergeBand(bands[i]))
  }

  function Merge(raw: seq<Level>, tol: int): seq<Level>
    requires SortedByPrice(raw) && tol >= 0
  {
    MergeBands(Bands(raw, tol))
  }

  function Flatten(bands: seq<seq<Level>>): seq<Level> {
    if bands == [] then [] else bands[0] + Flatten(bands[1..])
  }

  lemma BandsSplit(raw: seq<Level>, tol: int)
    requires raw != [] && SortedByPrice(raw) && tol >= 0
    ensures var j := BandEnd(raw, tol); Bands(raw, tol) == [raw[..j]] + Bands(raw[j..], tol)
  {
  }

  /** Every raw level falls in exactly one band, in order. */
  lemma {:induction false} BandsPartition(raw: seq<Level>, tol: int)
    requires SortedByPrice(raw) && tol >= 0
    ensures Flatten(Bands(raw, tol)) == raw
    decreases |raw|
  {
    hide Bands, BandEnd;
    if raw == [] {
      NoBands(tol);
    } else {
      var j := BandEnd(raw, tol);
      BandsPartition(raw[j..], tol);
      BandsSplit(raw, tol);
      assert Bands(raw, tol)[1..] == Bands(raw[j..], tol);
    }
  }

  lemma NoBands(tol: int)
    requires tol >= 0
    ensures Bands([], tol) == []
  {
  }

  /** Bands are at most tol wide and start more than tol apart. */
  lemma {:induction false} BandsApart(raw: seq<Level>, tol: int)
    requires SortedByPrice(raw) && tol >= 0
    ensures var bands := Bands(raw, tol);
            && (raw == [] <==> bands == [])
            && (raw != [] ==> bands[0][0] == raw[0])
            && (forall i, m :: 0 <= i < |bands| && 0 <= m < |bands[i]| ==> 0 <= bands[i][m].price - bands[i][0].price <= tol)
            && forall i, j :: 0 <= i < j < |bands| ==> bands[i][0].price + tol < bands[j][0].price
    decreases |raw|
  {
    hide Bands, BandEnd;
    if raw == [] {
      NoBands(tol);
    } else {
      var j := BandEnd(raw, tol);
      var bands: seq<seq<Level>> := Bands(raw, tol);
      var rest: seq<seq<Level>> := Bands(raw[j..], tol);
      BandsApart(raw[j..], tol);
      BandsSplit(raw, tol);
      forall i | 0 <= i < |rest| ensures rest[i][0].price > raw[0].price + tol {
        assert rest[0][0] == raw[j..][0] == raw[j];
      }
    }
  }

  /** The merged list is strictly increasing in price. */
  lemma MergeSorted(raw: seq<Level>, tol: int)
    requires SortedByPrice(raw) && tol >= 0
    ensures StrictlySorted(Merge(raw, tol))
  {
    hide Bands, MergeBand, BandEnd;
    BandsApart(raw, tol);
    var bands: seq<seq<Level>> := Bands(raw, tol);
    forall i | 0 <= i < |bands| ensures bands[i][0].price <= MergeBand(bands[i]).price <= bands[i][0].price + tol {
      MergeBandPrice(bands[i], tol);
    }
  }

  lemma MergeBandPrice(band: seq<Level>, tol: int)
    requires band != [] && forall m :: 0 <= m < |band| ==> 0 <= band[m].price - band[0].price <= tol
    ensures band[0].price <= MergeBand(band).price <= band[0].price + tol
  {
    var a :| 0 <= a < |band| && band[a] == Best(band);
  }

  /** tol-wide intervals starting at each element of starts cover every price of raw. */
  ghost predicate Covered(raw: seq<Level>, tol: int, starts: set<int>) {
    forall i :: 0 <= i < |raw| ==> CoveredPrice(raw[i].price, tol, starts)
  }

  ghost predicate CoveredPrice(price: int, tol: int, starts: set<int>) {
    exists s :: s in starts && s <= price <= s + tol
  }

  lemma MergeSplit(raw: seq<Level>, tol: int)
    requires raw != [] && SortedByPrice(raw) && tol >= 0
    ensures Merge(raw, tol) == [MergeBand(raw[..BandEnd(raw, tol)])] + Merge(raw[BandEnd(raw, tol)..], tol)
  {
    hide MergeBand, Bands, BandEnd;
    BandsSplit(raw, tol);
  }

  /** No cover of the raw prices by intervals of width tol uses fewer of them than the merge uses bands. */
  lemma {:induction false} MergeOptimal(raw: seq<Level>, tol: int, starts: set<int>)
    requires SortedByPrice(raw) && tol >= 0 && Covered(raw, tol, starts)
    ensures |Merge(raw, tol)| <= |starts|
    decreases |raw|
  {
    hide Merge, BandEnd;
    if raw == [] {
      NothingMerged(tol);
    } else {
      var j := BandEnd(raw, tol);
      MergeSplit(raw, tol);
      assert CoveredPrice(raw[0].price, tol, starts);
      var s :| s in starts && s <= raw[0].price <= s + tol;
      forall i | 0 <= i < |raw[j..]| ensures CoveredPrice(raw[j..][i].price, tol, starts - {s}) {
        assert CoveredPrice(raw[j + i].price, tol, starts);
        var t :| t in starts && t <= raw[j + i].price <= t + tol;
        assert t in starts - {s};
      }
      MergeOptimal(raw[j..], tol, starts - {s});
    }
  }

  lemma NothingMerged(tol: int)
    requires tol >= 0
    ensures Merge([], tol) == []
  {
  }

  /** The bands themselves are a cover, so the bound is attained. */
  lemma {:induction false} MergeIsCover(raw: seq<Level>, tol: int) returns (starts: set<int>)
    requires SortedByPrice(raw) && tol >= 0
    ensures Covered(raw, tol, starts) && |starts| <= |Merge(raw, tol)|
    decreases |raw|
  {
    hide Merge, BandEnd;
    if raw == [] {
      starts := {};
    } else {
      var j := BandEnd(raw, tol);
      MergeSplit(raw, tol);
      var rest := MergeIsCover(raw[j..], tol);
      starts := {raw[0].price} + rest;
      forall i | 0 <= i < |raw| ensures CoveredPrice(raw[i].price, tol, starts) {
        if i < j {
          assert raw[0].price in starts;
        } else {
          assert CoveredPrice(raw[j..][i - j].price, tol, rest);
          var s :| s in rest && s <= raw[i].price <= s + tol;
          assert s in starts;
        }
      }
    }
  }

  /** The clustering loop of the level book. */
  method MergeLevels(raw: seq<Level>, tol: int) returns (out: seq<Level>)
    requires SortedByPrice(raw) && tol >= 0
    ensures out == Merge(raw, tol)
  {
    hide Merge, BandEnd, MergeBand;
    out := [];
    var i := 0;
    NothingMerged(tol);
    assert raw[0..] == raw;
    while i < |raw|
      invariant 0 <= i <= |raw| && out + Merge(raw[i..], tol) == Merge(raw, tol)
    {
      var merged, n := MergeOne(raw[i..], tol);
      MergeSplit(raw[i..], tol);
      assert raw[i..][n..] == raw[i + n..];
      assert out + ([merged] + Merge(raw[i + n..], tol)) == (out + [merged]) + Merge(raw[i + n..], tol);
      out := out + [merged];
      i := i + n;
    }
  }

  /** One round of the clustering loop: the band at the head of raw and its length. */
  method MergeOne(raw: seq<Level>, tol: int) returns (merged: Level, j: nat)
    requires raw != [] && SortedByPrice(raw) && tol >= 0
    ensures j == BandEnd(raw, tol) && merged == MergeBand(raw[..j])
  {
    hide Best, Oldest, Tags, AnyStrong, MostTouches, BandEnd, MergeBand, SortedByPrice;
    var best, oldest;
    best, oldest, j := ScanBand(raw, tol);
    BandEndIs(raw, tol, j);
    var strong, tags := ClusterTags(raw[..j], best.typ);
    var touches := FindMostTouches(raw[..j]);
    merged := Level(best.price, best.typ, oldest, strong, tags, touches);
    MergeBandIs(raw[..j]);
  }

  /** The loop's state after j members: all within the band, with the first of the highest priority and the oldest age. */
  ghost predicate Scanned(raw: seq<Level>, tol: int, j: nat, best: Level, oldest: int) {
    && 1 <= j <= |raw| && best == Best(raw[..j]) && oldest == Oldest(raw[..j])
    && forall m :: 0 <= m < j ==> raw[m].price - raw[0].price <= tol
  }

  method ScanBand(raw: seq<Level>, tol: int) returns (best: Level, oldest: int, j: nat)
    requires raw != [] && tol >= 0
    ensures Scanned(raw, tol, j, best, oldest) && (j == |raw| || raw[j].price - raw[0].price > tol)
  {
    ScanStarts(raw, tol);
    hide Scanned;
    best, oldest, j := raw[0], raw[0].since, 1;
    while j < |raw| && raw[j].price - raw[0].price <= tol
      invariant j <= |raw| && Scanned(raw, tol, j, best, oldest)
      decreases |raw| - j
    {
      best, oldest := BestWith(raw, tol, j, best, oldest);
      j := j + 1;
    }
  }

  lemma ScanStarts(raw: seq<Level>, tol: int)
    requires raw != [] && tol >= 0
    ensures Scanned(raw, tol, 1, raw[0], raw[0].since)
  {
    BestOne(raw[0]);
    assert raw[..1] == [raw[0]];
  }

  /** One more member of a band. */
  method BestWith(raw: seq<Level>, ghost tol: int, j: nat, best: Level, oldest: int) returns (b: Level, o: int)
    requires Scanned(raw, tol, j, best, oldest) && j < |raw| && raw[j].price - raw[0].price <= tol
    ensures Scanned(raw, tol, j + 1, b, o)
  {
    hide Best, Oldest, Priority;
    BestSnoc(raw[..j], raw[j]);
    assert raw[..j + 1] == raw[..j] + [raw[j]];
    b := if Priority(raw[j].typ) > Priority(best.typ) then raw[j] else best;
    o := if raw[j].since < oldest then raw[j].since else oldest;
  }

  lemma BestOne(l: Level)
    ensures Best([l]) == l && Oldest([l]) == l.since
  {
  }

  lemma BestSnoc(band: seq<Level>, l: Level)
    requires band != []
    ensures Best(band + [l]) == if Priority(l.typ) > Priority(Best(band).typ) then l else Best(band)
    ensures Oldest(band + [l]) == if l.since < Oldest(band) then l.since else Oldest(band)
  {
    assert (band + [l])[..|band|] == band;
  }

  lemma MergeBandIs(band: seq<Level>)
    requires band != []
    ensures var best := Best(band);
            MergeBand(band) == Level(best.price, best.typ, Oldest(band), AnyStrong(band), Tags(band, best.typ), MostTouches(band))
  {
  }

  method FindMostTouches(band: seq<Level>) returns (touches: int)
    ensures touches == MostTouches(band)
  {
    touches := 0;
    for m := 0 to |band|
      invariant touches == MostTouches(band[..m])
    {
      assert band[..m + 1][..m] == band[..m];
      if band[m].touches > touches {
        touches := band[m].touches;
      }
    }
    assert band[..|band|] == band;
  }

  lemma BandEndIs(raw: seq<Level>, tol: int, j: nat)
    requires raw != [] && SortedByPrice(raw) && tol >= 0 && 1 <= j <= |raw|
    requires forall m :: 0 <= m < j ==> raw[m].price - raw[0].price <= tol
    requires j == |raw| || raw[j].price - raw[0].price > tol
    ensures BandEnd(raw, tol) == j
  {
    var e := BandEnd(raw, tol);
    assert e < |raw| ==> raw[e].price - raw[0].price > tol;
  }

  method ClusterTags(band: seq<Level>, name: LType) returns (strong: bool, tags: seq<LType>)
    ensures strong == AnyStrong(band) && tags == Tags(band, name)
  {
    strong, tags := false, [name];
    for i := 0 to |band|
      invariant strong == AnyStrong(band[..i]) && tags == Tags(band[..i], name)
    {
      var init := band[..i];
      assert band[..i + 1][..i] == init;
      assert forall m :: m in band[..i + 1] <==> m in init || m == band[i];
      strong := strong || StrongType(band[i].typ);
      var dup := band[i].typ in tags;
      if !dup {
        tags := tags + [band[i].typ];
      }
    }
    assert band[..|band|] == band;
  }

  // ----- The next level ahead -----

  /** First level more than tol above price. */
  function NextUp(ls: seq<Level>, price: int, tol: int): Option<Level> {
    if ls == [] then None else if ls[0].price > price + tol then Some(ls[0]) else NextUp(ls[1..], price, tol)
  }

  /** Last level more than tol below price. */
  function NextDown(ls: seq<Level>, price: int, tol: int): Option<Level> {
    if ls == [] then None
    else var l := ls[|ls| - 1]; if l.price < price - tol then Some(l) else NextDown(ls[..|ls| - 1], price, tol)
  }

  function NextLevel(ls: seq<Level>, price: int, sign: int, tol: int): Option<Level> {
    if sign > 0 then NextUp(ls, price, tol) else NextDown(ls, price, tol)
  }

  method FindNextLevel(ls: seq<Level>, price: int, sign: int, tol: int) returns (next: Option<Level>)
    ensures next == NextLevel(ls, price, sign, tol)
  {
    if sign > 0 {
      for i := 0 to |ls|
        invariant NextUp(ls, price, tol) == NextUp(ls[i..], price, tol)
      {
        if ls[i].price > price + tol {
          return Some(ls[i]);
        }
        assert ls[i..][1..] == ls[i + 1..];
      }
      return None;
    }
    assert ls[..|ls|] == ls;
    for i := |ls| downto 0
      invariant NextDown(ls, price, tol) == NextDown(ls[..i], price, tol)
    {
      assert ls[..i + 1][..i] == ls[..i];
      if ls[i].price < price - tol {
        return Some(ls[i]);
      }
    }
    return None;
  }

  /** How far l lies beyond price in the favourable direction. */
  function Ahead(l: Level, price: int, sign: int): int { if sign > 0 then l.price - price else price - l.price }

  /** next is the nearest level of ls more than tol ahead of price; None when there is none. */
  ghost predicate Nearest(next: Option<Level>, ls: seq<Level>, price: int, sign: int, tol: int) {
    if next.None? then forall l :: l in ls ==> Ahead(l, price, sign) <= tol
    else && next.value in ls && Ahead(next.value, price, sign) > tol
         && forall l :: l in ls && Ahead(l, price, sign) > tol ==> Ahead(next.value, price, sign) <= Ahead(l, price, sign)
  }

  /** On a price-sorted list NextLevel is the nearest level more than tol ahead, and None only when there is none. */
  lemma NextLevelNearest(ls: seq<Level>, price: int, sign: int, tol: int)
    requires SortedByPrice(ls)
    ensures Nearest(NextLevel(ls, price, sign, tol), ls, price, sign, tol)
  {
    if sign > 0 { NextUpNearest(ls, price, sign, tol); } else { NextDownNearest(ls, price, sign, tol); }
  }

  lemma {:induction false} NextUpNearest(ls: seq<Level>, price: int, sign: int, tol: int)
    requires SortedByPrice(ls) && sign > 0
    ensures Nearest(NextUp(ls, price, tol), ls, price, sign, tol)
  {
    if ls != [] {
      if ls[0].price > price + tol {
        forall l | l in ls ensures ls[0].price <= l.price {
          var i :| 0 <= i < |ls| && ls[i] == l;
        }
      } else {
        NextUpNearest(ls[1..], price, sign, tol);
        assert forall l :: l in ls <==> l == ls[0] || l in ls[1..];
      }
    }
  }

  lemma {:induction false} NextDownNearest(ls: seq<Level>, price: int, sign: int, tol: int)
    requires SortedByPrice(ls) && sign <= 0
    ensures Nearest(NextDown(ls, price, tol), ls, price, sign, tol)
  {
    if ls != [] {
      var init, last := ls[..|ls| - 1], ls[|ls| - 1];
      if last.price < price - tol {
        forall l | l in ls ensures l.price <= last.price {
          var i :| 0 <= i < |ls| && ls[i] == l;
        }
      } else {
        NextDownNearest(init, price, sign, tol);
        assert forall l :: l in ls <==> l == last || l in init;
      }
    }
  }
}
