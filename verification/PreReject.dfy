/** The pre-target rejection rule: watch the nearest strong level between entry and target, and exit when
    price touched it, was not let through, and pulled back. */
module PreReject {
  import opened Common
  import opened Levels

  const MINUTE_NS := 60_000_000_000

  datatype Params = Params(minRoomPct: real, minMove: int, confirmClose: bool, sources: seq<Source>, maxADX: real, minTouches: int)

  /** One evaluation: moves are favourable, prices are index prices, times are positive nanoseconds.
      bar is the latest closed 1m bar: its close and start time. */
  datatype In = In(levels: seq<Level>, price: int, move: int, entry: int, sign: int, targetMove: int, tol: int, rej: int,
                   breakN: int, adx: real, bar: Option<(int, int)>, now: int, p: Params)
  {
    function MoveOf(q: int): int { (q - entry) * sign }

    function Room(): int { Trunc(p.minRoomPct * targetMove as real) }

    /** In a strong trend the rule neither watches nor fires. */
    predicate Active() { !(p.maxADX > 0.0 && adx >= p.maxADX) }

    predicate Beyond(l: Level) { MoveOf(l.price) - move < -tol }

    /** The level counts for the rule and lies ahead of price, past entry. */
    predicate Watchable(l: Level) {
      l.strong && Qualifies(l, p.sources, p.minTouches) && MoveOf(l.price) >= move - tol && MoveOf(l.price) >= tol
    }

    predicate HasRoom(l: Level) { targetMove - MoveOf(l.price) >= Room() }
  }

  datatype State = State(level: Level, has: bool, touched: bool, touchNs: int, peak: int, beyondSince: int)

  const INITIAL := State(NO_LEVEL, false, false, 0, 0, 0)

  /** A member from one of the sources; our own levels need minTouches touches. */
  predicate Qualifies(l: Level, sources: seq<Source>, minTouches: int) {
    exists t :: t in l.tags && SourceOf(t).Some? && !(SourceOf(t).value == SrSource && l.touches < minTouches)
                && SourceOf(t).value in sources
  }

  // ----- Picking the level -----

  /** The scan in order of distance, stopping at the first watchable level too near the target. */
  function PickUp(ls: seq<Level>, x: In): Option<Level> {
    if ls == [] then None
    else if !x.Watchable(ls[0]) then PickUp(ls[1..], x)
    else if !x.HasRoom(ls[0]) then None
    else Some(ls[0])
  }

  function PickDown(ls: seq<Level>, x: In): Option<Level> {
    if ls == [] then None
    else
      var l := ls[|ls| - 1];
      if !x.Watchable(l) then PickDown(ls[..|ls| - 1], x)
      else if !x.HasRoom(l) then None
      else Some(l)
  }

  function Pick(x: In): Option<Level> {
    if x.sign > 0 then PickUp(x.levels, x) else PickDown(x.levels, x)
  }

  /** l is the nearest watchable level of ls that leaves the room. */
  ghost predicate NearestWithRoom(l: Option<Level>, ls: seq<Level>, x: In) {
    if l.None? then forall m :: m in ls ==> !(x.Watchable(m) && x.HasRoom(m))
    else && l.value in ls && x.Watchable(l.value) && x.HasRoom(l.value)
         && forall m :: m in ls && x.Watchable(m) && x.HasRoom(m) ==> x.MoveOf(l.value.price) <= x.MoveOf(m.price)
  }

  /** Stopping early loses nothing: on a sorted list the scan finds exactly the nearest level that qualifies and
      leaves the required room, and none exactly when there is none. */
  lemma PickExact(x: In)
    requires x.sign in {1, -1} && SortedByPrice(x.levels)
    ensures NearestWithRoom(Pick(x), x.levels, x)
  {
    if x.sign == 1 { PickUpExact(x.levels, x); } else { PickDownExact(x.levels, x); }
  }

  lemma {:induction false} PickUpExact(ls: seq<Level>, x: In)
    requires x.sign == 1 && SortedByPrice(ls)
    ensures NearestWithRoom(PickUp(ls, x), ls, x)
  {
    hide In.Watchable;
    if ls != [] {
      PickUpExact(ls[1..], x);
      assert forall m :: m in ls <==> m == ls[0] || m in ls[1..];
      forall m | m in ls ensures x.MoveOf(ls[0].price) <= x.MoveOf(m.price) {
        var i :| 0 <= i < |ls| && ls[i] == m;
      }
    }
  }

  lemma {:induction false} PickDownExact(ls: seq<Level>, x: In)
    requires x.sign == -1 && SortedByPrice(ls)
    ensures NearestWithRoom(PickDown(ls, x), ls, x)
  {
    hide In.Watchable;
    if ls != [] {
      var init, last := ls[..|ls| - 1], ls[|ls| - 1];
      PickDownExact(init, x);
      assert forall m :: m in ls <==> m == last || m in init;
      forall m | m in ls ensures x.MoveOf(last.price) <= x.MoveOf(m.price) {
        var i :| 0 <= i < |ls| && ls[i] == m;
      }
    }
  }

  // ----- One step -----

  predicate Confirmed(r: State, x: In) {
    x.p.confirmClose ==>
      && x.bar.Some? && x.bar.value.1 + MINUTE_NS > r.touchNs
      && x.MoveOf(x.bar.value.0) < x.MoveOf(r.level.price) - x.tol
  }

  /** After the level has been picked or kept. */
  function StepWatched(r: State, x: In): (State, bool) {
    var dist := x.MoveOf(r.level.price) - x.move;
    if !r.touched && (dist > x.tol || x.move < x.p.minMove) then (r, false)
    else
      var t := if r.touched then r else r.(touched := true, touchNs := x.now, peak := x.move, beyondSince := 0);
      var u := t.(peak := Max(t.peak, x.move));
      if dist < -x.tol then
        var since := if u.beyondSince == 0 then x.now else u.beyondSince;
        if x.now - since >= x.breakN then (u.(touched := false, has := false, beyondSince := 0), false)
        else (u.(beyondSince := since), false)
      else
        var v := u.(beyondSince := 0);
        (v, v.peak - x.move >= x.rej && Confirmed(v, x))
  }

  function Step(r: State, x: In): (State, bool) {
    if !x.Active() then (r, false)
    else if r.touched then StepWatched(r, x)
    else
      var picked := Pick(x);
      if picked.None? then (r.(level := NO_LEVEL, has := false), false)
      else StepWatched(r.(level := picked.value, has := true), x)
  }

  /** The rule as the object that keeps its state between evaluations. */
  class Rule {
    var level: Level
    var has: bool
    var touched: bool
    var touchNs: int
    var peak: int
    var beyondSince: int

    ghost function View(): State
      reads this
    {
      State(level, has, touched, touchNs, peak, beyondSince)
    }

    constructor ()
      ensures View() == INITIAL
    {
      level, has, touched, touchNs, peak, beyondSince := NO_LEVEL, false, false, 0, 0, 0;
    }

    method PickLevel(x: In) returns (picked: Option<Level>)
      ensures picked == Pick(x)
    {
      hide In.Watchable, In.HasRoom;
      if x.sign > 0 {
        assert x.levels[0..] == x.levels;
        for i := 0 to |x.levels|
          invariant PickUp(x.levels, x) == PickUp(x.levels[i..], x)
        {
          assert x.levels[i..][1..] == x.levels[i + 1..];
          if x.Watchable(x.levels[i]) {
            return if x.HasRoom(x.levels[i]) then Some(x.levels[i]) else None;
          }
        }
        return None;
      }
      assert x.levels[..|x.levels|] == x.levels;
      for i := |x.levels| downto 0
        invariant PickDown(x.levels, x) == PickDown(x.levels[..i], x)
      {
        assert x.levels[..i + 1][..i] == x.levels[..i];
        if x.Watchable(x.levels[i]) {
          return if x.HasRoom(x.levels[i]) then Some(x.levels[i]) else None;
        }
      }
      return None;
    }

    method Advance(x: In) returns (exit: bool)
      modifies this
      ensures (View(), exit) == Step(old(View()), x)
    {
      hide In.Watchable, In.HasRoom, Pick;
      if x.p.maxADX > 0.0 && x.adx >= x.p.maxADX {
        return false;
      }
      if !touched {
        var picked := PickLevel(x);
        has := picked.Some?;
        level := if picked.Some? then picked.value else NO_LEVEL;
        if !has {
          return false;
        }
      }
      var lm := x.MoveOf(level.price);
      var dist := lm - x.move;
      if !touched {
        if dist > x.tol || x.move < x.p.minMove {
          return false;
        }
        touched, touchNs, peak, beyondSince := true, x.now, x.move, 0;
      }
      if x.move > peak {
        peak := x.move;
      }
      if dist < -x.tol {
        if beyondSince == 0 {
          beyondSince := x.now;
        }
        if x.now - beyondSince >= x.breakN {
          touched, has, beyondSince := false, false, 0;
        }
        return false;
      }
      beyondSince := 0;
      if peak - x.move < x.rej {
        return false;
      }
      if x.p.confirmClose &&
         (x.bar.None? || x.bar.value.1 + MINUTE_NS <= touchNs || x.MoveOf(x.bar.value.0) >= lm - x.tol) {
        return false;
      }
      return true;
    }
  }

  // ----- Runs: an exit is justified by its history -----

  function Run(h: seq<In>): State {
    if h == [] then INITIAL else Step(Run(h[..|h| - 1]), h[|h| - 1]).0
  }

  /** The clock never goes back. */
  predicate Timed(h: seq<In>) {
    && (forall i :: 0 <= i < |h| ==> h[i].now > 0)
    && (forall i, j :: 0 <= i < j < |h| ==> h[i].now <= h[j].now)
  }

  /** Evaluation j picked l and touched it: within tolerance, with the minimum move behind it. */
  predicate TouchedAt(h: seq<In>, j: nat, l: Level)
    requires j < |h|
  {
    && h[j].Active() && Pick(h[j]) == Some(l)
    && h[j].MoveOf(l.price) - h[j].move <= h[j].tol && h[j].move >= h[j].p.minMove
  }

  /** Every active evaluation from a to b found price beyond l. */
  ghost predicate BeyondRun(h: seq<In>, l: Level, a: nat, b: nat)
    requires b < |h|
  {
    forall i :: a <= i <= b && h[i].Active() ==> h[i].Beyond(l)
  }

  /** l was never held beyond for the break time since evaluation j. */
  ghost predicate NotBroken(h: seq<In>, l: Level, j: nat) {
    forall a, b :: j <= a <= b < |h| && h[a].Active() && h[b].Active() && BeyondRun(h, l, a, b) ==>
      h[b].now - h[a].now < h[b].breakN
  }

  /** p is the best move of the active evaluations since j. */
  ghost predicate PeakSince(h: seq<In>, j: nat, p: int) {
    && (forall i :: j <= i < |h| && h[i].Active() ==> h[i].move <= p)
    && (exists i :: j <= i < |h| && h[i].Active() && h[i].move == p)
  }

  /** since is when the current stay beyond l began, 0 when price is not beyond. */
  ghost predicate BeyondSince(h: seq<In>, l: Level, j: nat, since: int)
    requires h != []
  {
    if since == 0 then forall a :: j <= a < |h| && h[a].Active() ==> !BeyondRun(h, l, a, |h| - 1)
    else exists s: nat :: StayBegan(h, l, j, since, s)
  }

  /** Evaluation s is the first of the unbroken stay beyond l that reaches the end of h. */
  ghost predicate StayBegan(h: seq<In>, l: Level, j: nat, since: int, s: nat)
    requires h != []
  {
    && j <= s < |h| && h[s].Active() && h[s].now == since && BeyondRun(h, l, s, |h| - 1)
    && forall a :: j <= a < |h| && h[a].Active() && BeyondRun(h, l, a, |h| - 1) ==> s <= a
  }

  ghost predicate Watching(h: seq<In>, r: State, j: nat) {
    && j < |h| && TouchedAt(h, j, r.level) && r.touchNs == h[j].now
    && NotBroken(h, r.level, j) && PeakSince(h, j, r.peak) && BeyondSince(h, r.level, j, r.beyondSince)
  }

  lemma BeyondRunSnoc(h: seq<In>, x: In, l: Level, a: nat)
    requires a < |h|
    ensures BeyondRun(h + [x], l, a, |h|) <==> BeyondRun(h, l, a, |h| - 1) && (x.Active() ==> x.Beyond(l))
    ensures forall b :: a <= b < |h| ==> (BeyondRun(h + [x], l, a, b) <==> BeyondRun(h, l, a, b))
  {
    var more := h + [x];
    assert forall i :: 0 <= i < |h| ==> more[i] == h[i];
    assert more[|h|] == x;
  }

  lemma Earlier(h: seq<In>, x: In)
    ensures (forall i :: 0 <= i < |h| ==> (h + [x])[i] == h[i]) && (h + [x])[|h|] == x
  {
  }

  /** A stay beyond l goes on through x unless x is active and not beyond. */
  lemma StayGoesOn(h: seq<In>, x: In, l: Level, j: nat, since: int, s: nat)
    requires h != [] && StayBegan(h, l, j, since, s) && (x.Active() ==> x.Beyond(l))
    ensures StayBegan(h + [x], l, j, since, s)
  {
    hide In.Beyond, In.Active, BeyondRun;
    Earlier(h, x);
    forall a | j <= a < |h| { BeyondRunSnoc(h, x, l, a); }
  }

  /** When no stay reached the end of h, none but x itself can. */
  lemma NoStayGoesOn(h: seq<In>, x: In, l: Level, j: nat)
    requires h != [] && BeyondSince(h, l, j, 0)
    ensures forall a :: j <= a < |h| && (h + [x])[a].Active() ==> !BeyondRun(h + [x], l, a, |h|)
  {
    hide In.Beyond, In.Active, BeyondRun;
    Earlier(h, x);
    forall a | j <= a < |h| { BeyondRunSnoc(h, x, l, a); }
  }

  lemma NotBrokenSnoc(h: seq<In>, x: In, l: Level, j: nat)
    requires NotBroken(h, l, j)
    requires forall a :: j <= a <= |h| && x.Active() && (h + [x])[a].Active() && BeyondRun(h + [x], l, a, |h|) ==>
               x.now - (h + [x])[a].now < x.breakN
    ensures NotBroken(h + [x], l, j)
  {
    hide In.Beyond, In.Active, BeyondRun;
    var more := h + [x];
    Earlier(h, x);
    forall a, b | j <= a <= b < |more| && more[a].Active() && more[b].Active() && BeyondRun(more, l, a, b)
      ensures more[b].now - more[a].now < more[b].breakN
    {
      if b < |h| { BeyondRunSnoc(h, x, l, a); }
    }
  }

  /** An evaluation skipped for the trend leaves the watch as it was. */
  lemma WatchIdle(h: seq<In>, x: In, r: State, j: nat)
    requires Watching(h, r, j) && !x.Active()
    ensures Watching(h + [x], r, j)
  {
    hide In.Beyond, In.Active, BeyondRun, Pick, NotBroken, StayBegan;
    var more := h + [x];
    Earlier(h, x);
    NotBrokenSnoc(h, x, r.level, j);
    if r.beyondSince == 0 {
      NoStayGoesOn(h, x, r.level, j);
    } else {
      var s: nat :| StayBegan(h, r.level, j, r.beyondSince, s);
      StayGoesOn(h, x, r.level, j, r.beyondSince, s);
    }
    var i :| j <= i < |h| && h[i].Active() && h[i].move == r.peak;
    assert more[i] == h[i];
  }

  /** A watched evaluation that does not break the level keeps the watch. */
  lemma WatchKept(h: seq<In>, x: In, r: State, j: nat)
    requires Timed(h + [x]) && Watching(h, r, j) && r.touched && x.Active() && Step(r, x).0.touched
    ensures Watching(h + [x], Step(r, x).0, j)
  {
    hide Pick, Step, NotBroken, PeakSince, BeyondRun, In.Active, In.Beyond, BeyondSince;
    StepParts(r, x);
    Earlier(h, x);
    KeptPeak(h, x, j, r.peak);
    KeptStay(h, x, r, j);
  }

  lemma KeptStay(h: seq<In>, x: In, r: State, j: nat)
    requires Timed(h + [x]) && j < |h| && x.Active() && r.touched && Step(r, x).0.touched
    requires NotBroken(h, r.level, j) && BeyondSince(h, r.level, j, r.beyondSince)
    ensures NotBroken(h + [x], r.level, j) && BeyondSince(h + [x], r.level, j, Step(r, x).0.beyondSince)
  {
    hide Pick, Step, BeyondRun, In.Active, In.Beyond, NotBroken, StayBegan;
    var more, l := h + [x], r.level;
    StepParts(r, x);
    Earlier(h, x);
    if !x.Beyond(l) {
      EndsStay(h, x, l);
    } else if r.beyondSince == 0 {
      NoStayGoesOn(h, x, l, j);
      StayOfOne(h, x, l, j);
    } else {
      var s: nat :| StayBegan(h, l, j, r.beyondSince, s);
      StayGoesOn(h, x, l, j, r.beyondSince, s);
      StayTimes(more, l, j, r.beyondSince, s);
    }
    NotBrokenSnoc(h, x, l, j);
  }

  lemma EndsStay(h: seq<In>, x: In, l: Level)
    requires x.Active() && !x.Beyond(l)
    ensures forall a :: 0 <= a <= |h| ==> !BeyondRun(h + [x], l, a, |h|)
  {
    Earlier(h, x);
  }

  lemma StayOfOne(h: seq<In>, x: In, l: Level, j: nat)
    requires j <= |h| && x.Active() && x.Beyond(l)
    requires forall a :: j <= a < |h| && (h + [x])[a].Active() ==> !BeyondRun(h + [x], l, a, |h|)
    ensures StayBegan(h + [x], l, j, x.now, |h|)
  {
    Earlier(h, x);
  }

  /** No evaluation of a stay is older than its beginning. */
  lemma StayTimes(h: seq<In>, l: Level, j: nat, since: int, s: nat)
    requires h != [] && Timed(h) && StayBegan(h, l, j, since, s)
    ensures forall a :: j <= a < |h| && h[a].Active() && BeyondRun(h, l, a, |h| - 1) ==> since <= h[a].now
  {
    hide In.Active, BeyondRun;
  }

  lemma KeptPeak(h: seq<In>, x: In, j: nat, p: int)
    requires PeakSince(h, j, p) && x.Active() && j < |h|
    ensures PeakSince(h + [x], j, Max(p, x.move))
  {
    var more := h + [x];
    if x.move > p {
      assert more[|h|] == x;
    } else {
      var i :| j <= i < |h| && h[i].Active() && h[i].move == p;
      assert more[i] == h[i];
    }
  }

  /** What a watched step does to each field. */
  lemma StepParts(r: State, x: In)
    requires r.touched && x.Active() && Step(r, x).0.touched
    ensures var next := Step(r, x).0;
            && next.level == r.level && next.touchNs == r.touchNs && next.peak == Max(r.peak, x.move)
            && next.beyondSince == (if !x.Beyond(r.level) then 0 else if r.beyondSince == 0 then x.now else r.beyondSince)
            && (x.Beyond(r.level) ==> x.now - next.beyondSince < x.breakN)
  {
  }

  /** A first touch starts a watch at the evaluation itself. */
  lemma WatchStarts(h: seq<In>, x: In, r: State)
    requires x.now > 0 && !r.touched && Step(r, x).0.touched
    ensures Watching(h + [x], Step(r, x).0, |h|)
  {
    hide Pick;
    var more, next := h + [x], Step(r, x).0;
    assert more[|h|] == x;
    assert BeyondRun(more, next.level, |h|, |h|) <==> x.Beyond(next.level);
    assert PeakSince(more, |h|, next.peak);
    assert NotBroken(more, next.level, |h|);
    if next.beyondSince != 0 {
      assert StayBegan(more, next.level, |h|, x.now, |h|);
    }
  }

  // ----- Which touch is watched -----

  /** The touch of l at evaluation j is being watched after h: none was being watched when it came, and l is not broken since. */
  ghost predicate Watches(h: seq<In>, j: nat, l: Level)
    decreases |h|, 0
  {
    j < |h| && TouchedAt(h, j, l) && NotBroken(h, l, j) && Free(h[..j])
  }

  /** No touch is being watched after h. */
  ghost predicate Free(h: seq<In>)
    decreases |h|, 1
  {
    forall j: nat, l :: j < |h| && TouchedAt(h, j, l) ==> !Watches(h, j, l)
  }

  lemma TouchedSnoc(h: seq<In>, x: In, j: nat, l: Level)
    requires j < |h|
    ensures TouchedAt(h + [x], j, l) == TouchedAt(h, j, l) && (h + [x])[..j] == h[..j]
    ensures NotBroken(h + [x], l, j) ==> NotBroken(h, l, j)
    ensures Watches(h + [x], j, l) ==> Watches(h, j, l)
  {
    hide Pick, In.Active, In.Beyond, BeyondRun, Free;
    Earlier(h, x);
    assert (h + [x])[..j] == h[..j];
    var more := h + [x];
    if NotBroken(more, l, j) {
      forall a, b | j <= a <= b < |h| && h[a].Active() && h[b].Active() && BeyondRun(h, l, a, b) ensures h[b].now - h[a].now < h[b].breakN {
        BeyondRunSnoc(h, x, l, a);
        assert more[a] == h[a] && more[b] == h[b] && BeyondRun(more, l, a, b);
      }
    }
  }

  /** At most one touch is watched. */
  lemma WatchedOnce(h: seq<In>, i: nat, l: Level, j: nat, m: Level)
    requires Watches(h, i, l) && Watches(h, j, m)
    ensures i == j && l == m
  {
    hide Pick, NotBroken;
    if i < j { WatchedThen(h, i, l, j); }
    if j < i { WatchedThen(h, j, m, i); }
  }

  lemma WatchedThen(h: seq<In>, i: nat, l: Level, j: nat)
    requires i < j < |h| && Watches(h, i, l)
    ensures !Free(h[..j])
  {
    hide Pick, In.Active, In.Beyond, Free;
    var part := h[..j];
    assert part[..i] == h[..i] && part[i] == h[i];
    assert NotBroken(part, l, i) by {
      assert forall a: nat, b: nat :: a <= b < j && BeyondRun(part, l, a, b) ==> BeyondRun(h, l, a, b);
    }
    assert Watches(part, i, l);
    NotFree(part, i, l);
  }

  lemma NotFree(h: seq<In>, j: nat, l: Level)
    requires Watches(h, j, l)
    ensures !Free(h)
  {
    hide NotBroken;
  }

  /** Held beyond for the break time, the watched level is given up and nothing is watched. */
  lemma BreakFrees(h: seq<In>, x: In, r: State, j: nat)
    requires Watching(h, r, j) && Free(h[..j]) && r.touched && !Step(r, x).0.touched
    ensures Free(h + [x])
  {
    hide Pick, In.Active, BeyondRun, Free, StayBegan, PeakSince;
    var more, l := h + [x], r.level;
    Earlier(h, x);
    BreakParts(r, x);
    assert !NotBroken(more, l, j) by {
      if r.beyondSince == 0 {
        OneLong(h, x, l);
      } else {
        var s: nat :| StayBegan(h, l, j, r.beyondSince, s);
        BreakStay(h, x, l, j, r.beyondSince, s);
      }
    }
    assert Watches(h, j, l);
    NotFree(h, j, l);
    hide NotBroken, Watching;
    assert more[..|h|] == h;
    forall i: nat, m | i < |more| && TouchedAt(more, i, m) ensures !Watches(more, i, m) {
      if Watches(more, i, m) {
        if i < |h| {
          TouchedSnoc(h, x, i, m);
          WatchedOnce(h, i, m, j, l);
        }
      }
    }
    AllFree(more);
  }

  lemma AllFree(h: seq<In>)
    requires forall j: nat, l :: j < |h| && TouchedAt(h, j, l) ==> !Watches(h, j, l)
    ensures Free(h)
  {
    hide TouchedAt, Watches;
  }

  lemma OneLong(h: seq<In>, x: In, l: Level)
    requires x.Active() && x.Beyond(l)
    ensures BeyondRun(h + [x], l, |h|, |h|)
  {
    Earlier(h, x);
  }

  lemma BreakStay(h: seq<In>, x: In, l: Level, j: nat, since: int, s: nat)
    requires h != [] && StayBegan(h, l, j, since, s) && x.Active() && x.Beyond(l) && x.now - since >= x.breakN
    ensures !NotBroken(h + [x], l, j)
  {
    hide In.Active, In.Beyond;
    StayGoesOn(h, x, l, j, since, s);
    Earlier(h, x);
  }

  lemma BreakParts(r: State, x: In)
    requires r.touched && !Step(r, x).0.touched
    ensures x.Active() && x.Beyond(r.level) && x.now - (if r.beyondSince == 0 then x.now else r.beyondSince) >= x.breakN
  {
    hide Pick, Confirmed;
  }

  /** An evaluation that touches nothing, or breaks what it touches, starts no watch. */
  lemma StaysFree(h: seq<In>, x: In, r: State)
    requires Free(h) && !r.touched && !Step(r, x).0.touched
    ensures Free(h + [x])
  {
    hide Pick, Free, Step;
    var more := h + [x];
    Earlier(h, x);
    forall i: nat, m | i < |more| && TouchedAt(more, i, m) ensures !Watches(more, i, m) {
      if i < |h| {
        TouchedSnoc(h, x, i, m);
        if Watches(h, i, m) { NotFree(h, i, m); }
      } else {
        UntouchedParts(r, x, m);
        OneLong(h, x, m);
      }
    }
    AllFree(more);
  }

  lemma UntouchedParts(r: State, x: In, l: Level)
    requires !r.touched && !Step(r, x).0.touched && x.Active() && Pick(x) == Some(l)
    requires x.MoveOf(l.price) - x.move <= x.tol && x.move >= x.p.minMove
    ensures x.Beyond(l) && 0 >= x.breakN
  {
    hide Pick, Confirmed;
  }

  /** The rule is touched exactly while a touch is being watched, and then it watches that touch's level. */
  lemma {:induction false} RunWatches(h: seq<In>) returns (j: nat)
    requires Timed(h)
    ensures if Run(h).touched then Watching(h, Run(h), j) && Free(h[..j]) else Free(h)
  {
    hide Pick, Step, Watching, Free;
    j := 0;
    if h == [] { AllFree(h); }
    if h != [] {
      var init, x := h[..|h| - 1], h[|h| - 1];
      assert h == init + [x];
      var r := Run(init);
      j := RunWatches(init);
      if Run(h).touched {
        if !r.touched {
          WatchStarts(init, x, r);
          j := |init|;
        } else if x.Active() {
          WatchKept(init, x, r, j);
        } else {
          WatchIdle(init, x, r, j);
          Skipped(r, x);
        }
        WatchedFrom(h, j);
        assert h[..j] == init[..j];
      } else if r.touched {
        BreakFrees(init, x, r, j);
      } else {
        StaysFree(init, x, r);
      }
    }
  }

  lemma Skipped(r: State, x: In)
    requires !x.Active()
    ensures Step(r, x) == (r, false)
  {
  }

  lemma WatchedFrom(h: seq<In>, j: nat)
    requires Watching(h, Run(h), j)
    ensures j < |h|
  {
  }

  /** Price reached p, the best move since the watched touch of l at j, and has come back from it by the rejection points on the
      near side of the level; with confirmation on, a bar ending after the touch closed there too. */
  ghost predicate Justified(h: seq<In>, j: nat, l: Level, p: int) {
    h != [] && var x := h[|h| - 1];
    && x.Active() && Watches(h, j, l) && PeakSince(h, j, p) && p - x.move >= x.rej && !x.Beyond(l)
    && (x.p.confirmClose ==>
          && x.bar.Some? && x.bar.value.1 + MINUTE_NS > h[j].now
          && x.MoveOf(x.bar.value.0) < x.MoveOf(l.price) - x.tol)
  }

  ghost predicate Rejected(h: seq<In>) { exists j: nat, l, p :: Justified(h, j, l, p) }

  /** The rule exits exactly when a rejection is justified by the run: at the level it watches, and not otherwise. */
  lemma ExitExactly(h: seq<In>, x: In)
    requires Timed(h + [x])
    ensures Step(Run(h), x).1 <==> Rejected(h + [x])
    ensures forall j: nat, l, p :: Justified(h + [x], j, l, p) ==> Step(Run(h), x).0.level == l
  {
    hide Pick, Step, Free, NotBroken, TouchedAt, PeakSince, BeyondSince, In.Active, In.Beyond;
    var more := h + [x];
    var j := RunWatches(more);
    assert more[..|h|] == h && more[|h|] == x;
    var next := Run(more);
    assert next == Step(Run(h), x).0;
    ExitParts(Run(h), x);
    hide Run;
    if next.touched {
      assert Step(Run(h), x).1 <==> Justified(more, j, next.level, next.peak);
      hide Confirmed;
      forall i: nat, l, p | Justified(more, i, l, p) ensures i == j && l == next.level && p == next.peak {
        OneJustified(more, j, next.level, next.peak, i, l, p);
      }
    } else {
      NoneJustified(more);
    }
  }

  lemma OneJustified(h: seq<In>, j: nat, l: Level, p: int, i: nat, m: Level, q: int)
    requires Watches(h, j, l) && PeakSince(h, j, p) && Justified(h, i, m, q)
    ensures i == j && l == m && p == q
  {
    hide Watches, In.Active, In.Beyond;
    WatchedOnce(h, i, m, j, l);
  }

  lemma NoneJustified(h: seq<In>)
    requires Free(h)
    ensures forall j: nat, l, p :: !Justified(h, j, l, p)
  {
    hide Watches, Free, In.Active, In.Beyond, PeakSince;
    forall j: nat, l, p ensures !Justified(h, j, l, p) {
      if Watches(h, j, l) { NotFree(h, j, l); }
    }
  }

  lemma ExitParts(r: State, x: In)
    ensures var (next, exit) := Step(r, x);
            exit <==> x.Active() && next.touched && next.peak - x.move >= x.rej && !x.Beyond(next.level) && Confirmed(next, x)
  {
    hide Pick, Confirmed;
  }
}
