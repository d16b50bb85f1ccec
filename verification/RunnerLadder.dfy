/** The level ladder of the target runner: over a run, each level broken lies farther in favour than every one
    broken before it, as long as the tolerance never shrinks by more than one paisa. */
module RunnerLadder {
  import opened Common
  import opened Levels
  import opened Runner

  /** Inputs of one position, whose moves are measured from its entry. */
  predicate OnePosition(h: seq<In>, entry: int, sign: int) {
    && sign in {1, -1}
    && forall i :: 0 <= i < |h| ==>
         h[i].entry == entry && h[i].sign == sign && h[i].tol >= 0 && h[i].move == h[i].MoveOf(h[i].price)
  }

  predicate ShrinksByOneAtMost(h: seq<In>) {
    forall i, j :: 0 <= i < j < |h| ==> h[j].tol >= h[i].tol - 1
  }

  /** Evaluation x of a running, unlatched tracker in state r breaks the level it was heading for. */
  predicate Breaks(r: State, x: In) {
    r.phase == Running &&
    var b := BookStep(PeakStep(r, x).st, x).st;
    b.next.Some? && LadderStep(b, x).events != []
  }

  function BrokenMove(r: State, x: In): int
    requires Breaks(r, x)
  {
    x.MoveOf(BookStep(PeakStep(r, x).st, x).st.next.value.price)
  }

  /** Evaluation i of the run broke a level. */
  predicate BreaksAt(h: seq<In>, i: nat)
    requires i < |h|
  {
    Run(h[..i]).1.None? && Breaks(Run(h[..i]).0, h[i])
  }

  function BrokenAt(h: seq<In>, i: nat): int
    requires i < |h| && BreaksAt(h, i)
  {
    BrokenMove(Run(h[..i]).0, h[i])
  }

  lemma {:induction false} NextIsAhead(ls: seq<Level>, price: int, sign: int, tol: int)
    ensures var next := NextLevel(ls, price, sign, tol); next.Some? ==> Ahead(next.value, price, sign) > tol
    decreases |ls|
  {
    if ls != [] {
      if sign > 0 { NextIsAhead(ls[1..], price, sign, tol); } else { NextIsAhead(ls[..|ls| - 1], price, sign, tol); }
    }
  }

  /** The next level is more than the tolerance ahead of the move. */
  lemma NextMove(x: In)
    requires x.sign in {1, -1} && x.move == x.MoveOf(x.price)
    ensures x.Next().Some? ==> x.MoveOf(x.Next().value.price) > x.move + x.tol
  {
    NextIsAhead(x.levels, x.price, x.sign, x.tol);
    if x.sign == -1 && x.Next().Some? {
      assert x.MoveOf(x.Next().value.price) == x.entry - x.Next().value.price;
      assert x.move == x.entry - x.price;
    }
  }

  /** What one unlatched running evaluation does to the target level and the lock. */
  lemma StepTarget(r: State, x: In)
    requires r.phase == Running && Sound(r) && x.sign in {1, -1} && x.tol >= 0 && x.move == x.MoveOf(x.price)
    ensures var s := Step(r, x).st;
            if Breaks(r, x) then
              && r.next.Some? && BrokenMove(r, x) == x.MoveOf(r.next.value.price)
              && s.lock >= BrokenMove(r, x) - x.tol
              && (s.next.Some? ==> x.MoveOf(s.next.value.price) > BrokenMove(r, x))
            else s.next.Some? ==> s.next == r.next || x.MoveOf(s.next.value.price) > x.move + x.tol
  {
    hide NextLevel, BehindStep, ExitReason, In.MoveOf;
    NextMove(x);
    BehindKeepsNext(r, x);
  }

  lemma BehindKeepsNext(r: State, x: In)
    ensures forall s :: BehindStep(s, x).st.next == s.next
    ensures PeakStep(r, x).st.next == r.next
  {
  }

  /** After h: the lock is within the tolerance of every level broken, and the target lies beyond all of them. */
  ghost predicate Climbing(h: seq<In>, r: State) {
    forall i :: 0 <= i < |h| && BreaksAt(h, i) ==>
      && r.lock >= BrokenAt(h, i) - h[i].tol
      && (r.next.Some? ==> h[i].MoveOf(r.next.value.price) > BrokenAt(h, i))
  }

  lemma BreaksPrefix(h: seq<In>, x: In, i: nat)
    requires i < |h|
    ensures BreaksAt(h + [x], i) == BreaksAt(h, i)
    ensures BreaksAt(h, i) ==> BrokenAt(h + [x], i) == BrokenAt(h, i)
  {
    assert (h + [x])[..i] == h[..i] && (h + [x])[i] == h[i];
  }

  lemma BreaksLast(h: seq<In>, x: In)
    ensures BreaksAt(h + [x], |h|) <==> Run(h).1.None? && Breaks(Run(h).0, x)
    ensures BreaksAt(h + [x], |h|) ==> BrokenAt(h + [x], |h|) == BrokenMove(Run(h).0, x)
  {
    assert (h + [x])[..|h|] == h && (h + [x])[|h|] == x;
  }

  /** Over any run of one position whose tolerance is never more than one paisa under an earlier one, every level broken
      lies strictly farther in favour than every level broken before it. */
  lemma {:induction false} RunClimbs(h: seq<In>, entry: int, sign: int, lockPct: real, targetMove: int)
    requires Fair(h, lockPct, targetMove) && OnePosition(h, entry, sign) && ShrinksByOneAtMost(h)
    ensures forall i, j :: 0 <= i < j < |h| && BreaksAt(h, i) && BreaksAt(h, j) ==> BrokenAt(h, i) < BrokenAt(h, j)
    ensures Run(h).1.None? ==> Climbing(h, Run(h).0)
  {
    hide BreaksAt, BrokenAt, Breaks, BrokenMove, Enter, RunStep, Climbing, Fair, OnePosition, ShrinksByOneAtMost;
    if h == [] {
      NothingClimbed(h);
    } else {
      var init, x := h[..|h| - 1], h[|h| - 1];
      assert h == init + [x];
      Prefix(h, entry, sign, lockPct, targetMove);
      RunClimbs(init, entry, sign, lockPct, targetMove);
      forall i | 0 <= i < |init| { BreaksPrefix(init, x, i); }
      BreaksLast(init, x);
      var (r, exit) := Run(init);
      if exit.None? {
        if r.phase == Running {
          RunRatchet(init, lockPct, targetMove);
          BreaksFarther(init, x, r, entry, sign);
          if Step(r, x).exit.None? { StillClimbing(init, x, r, entry, sign); }
        } else {
          NoneBroken(init);
          NotRunning(r, x);
          NothingClimbed(h);
        }
      }
    }
  }

  lemma Prefix(h: seq<In>, entry: int, sign: int, lockPct: real, targetMove: int)
    requires Fair(h, lockPct, targetMove) && OnePosition(h, entry, sign) && ShrinksByOneAtMost(h) && h != []
    ensures var init := h[..|h| - 1];
            Fair(init, lockPct, targetMove) && OnePosition(init, entry, sign) && ShrinksByOneAtMost(init)
  {
  }

  lemma NothingClimbed(h: seq<In>)
    requires forall i :: 0 <= i < |h| ==> !BreaksAt(h, i)
    ensures Climbing(h, Run(h).0)
  {
  }

  /** A level broken now lies beyond every level broken before. */
  lemma BreaksFarther(init: seq<In>, x: In, r: State, entry: int, sign: int)
    requires OnePosition(init + [x], entry, sign)
    requires Run(init) == (r, None) && r.phase == Running && Sound(r) && Climbing(init, r)
    ensures var h := init + [x];
            BreaksAt(h, |init|) ==> forall i :: 0 <= i < |init| && BreaksAt(h, i) ==> BrokenAt(h, i) < BrokenAt(h, |init|)
  {
    hide BreaksAt, BrokenAt, Breaks, BrokenMove, Step, In.MoveOf;
    var h := init + [x];
    assert h[|init|] == x;
    BreaksLast(init, x);
    StepTarget(r, x);
    SameMoves(h, entry, sign);
    forall i | 0 <= i < |init| && BreaksAt(h, i) && BreaksAt(h, |init|) ensures BrokenAt(h, i) < BrokenAt(h, |init|) {
      BreaksPrefix(init, x, i);
      assert h[i] == init[i] && h[i].MoveOf(r.next.value.price) == x.MoveOf(r.next.value.price);
    }
  }

  lemma NotRunning(r: State, x: In)
    requires r.phase != Running
    ensures !Breaks(r, x)
  {
  }

  lemma SameMoves(h: seq<In>, entry: int, sign: int)
    requires OnePosition(h, entry, sign)
    ensures forall i, j, q :: 0 <= i < |h| && 0 <= j < |h| ==> h[i].MoveOf(q) == h[j].MoveOf(q)
  {
  }

  /** A tracker that is not running yet has broken nothing. */
  lemma {:induction false} NoneBroken(h: seq<In>)
    requires Run(h).0.phase != Running
    ensures forall i :: 0 <= i < |h| ==> !BreaksAt(h, i)
  {
    hide Breaks, BrokenMove, PeakStep, BookStep, LadderStep, Enter, ExitReason;
    if h != [] {
      var init, x := h[..|h| - 1], h[|h| - 1];
      assert h == init + [x];
      StaysRunning(Run(init).0, x);
      NoneBroken(init);
      forall i | 0 <= i < |init| { BreaksPrefix(init, x, i); }
      BreaksLast(init, x);
      NotRunning(Run(init).0, x);
    }
  }

  lemma StaysRunning(r: State, x: In)
    ensures r.phase == Running ==> Step(r, x).st.phase == Running
  {
    hide NextLevel, BestBehind, ExitReason, Enter;
  }

  lemma StillClimbing(init: seq<In>, x: In, r: State, entry: int, sign: int)
    requires OnePosition(init + [x], entry, sign) && ShrinksByOneAtMost(init + [x])
    requires Run(init) == (r, None) && r.phase == Running && Sound(r) && Climbing(init, r) && Step(r, x).exit.None?
    ensures Climbing(init + [x], Step(r, x).st)
  {
    hide BreaksAt, BrokenAt, Breaks, BrokenMove, RunStep, Ratcheted, In.MoveOf;
    var h, s := init + [x], Step(r, x).st;
    assert h[|init|] == x;
    assert x.tol >= 0;
    Ratchet(r, x);
    RatchetedMeans(r, s, x);
    StepTarget(r, x);
    BreaksLast(init, x);
    SameMoves(h, entry, sign);
    forall i | 0 <= i < |h| && BreaksAt(h, i)
      ensures s.lock >= BrokenAt(h, i) - h[i].tol
      ensures s.next.Some? ==> h[i].MoveOf(s.next.value.price) > BrokenAt(h, i)
    {
      if i < |init| {
        BreaksPrefix(init, x, i);
        assert h[i] == init[i];
        if s.next.Some? { assert h[i].MoveOf(s.next.value.price) == x.MoveOf(s.next.value.price); }
        if r.next.Some? { assert h[i].MoveOf(r.next.value.price) == x.MoveOf(r.next.value.price); }
      }
    }
  }

  // ----- The bound on the tolerance is exact -----

  function SlipLevel(price: int): Level { Level(price, SwingHigh, 0, false, [], 0) }

  function SlipIn(price: int, version: int, move: int, tol: int, rej: int, now: int): In {
    In([SlipLevel(price)], Some(version), move, move, 0, 1, 1000, tol, rej, 0, now, true, Params(0.0, 0.0, 1.0))
  }

  /** Break a level at tolerance tol1, fall back to just over the lock, and break a new level at tolerance tol2. */
  function SlipRun(tol1: int, tol2: int): (h: seq<In>)
    ensures |h| == 4
  {
    var p1, p2, rej := 1001 + tol1, 1003 + tol2, 100_000 + 100 * tol1;
    [SlipIn(p1, 0, 1000, tol1, rej, 1), SlipIn(p1, 0, p1 + tol1 + 1, tol1, rej, 2),
     SlipIn(p2, 1, 1002, tol2, rej, 3), SlipIn(p2, 1, p2 + tol2 + 1, tol2, rej, 4)]
  }

  lemma NextOfOne(l: Level, price: int, tol: int)
    ensures NextLevel([l], price, 1, tol) == if l.price > price + tol then Some(l) else None
  {
    assert NextUp([l][1..], price, tol) == None;
  }

  lemma BestOfOne(l: Level, r: State, x: In)
    ensures !Raises(l, r, x) ==> BestBehind([l], r, x) == None
  {
    assert BestBehind([l][..0], r, x) == None;
  }

  lemma SlipEnter(tol1: int, tol2: int)
    requires 0 <= tol2 <= tol1 - 2
    ensures var h := SlipRun(tol1, tol2);
            Step(INITIAL, h[0]) ==
            Out(State(Running, true, 1, 0, Some(SlipLevel(1001 + tol1)), 1000, 1000, false, 0, 0, []),
                [Event(TargetRun, Some(SlipLevel(1001 + tol1)), 0)], None)
  {
    NextOfOne(SlipLevel(1001 + tol1), 1000, tol1);
  }

  lemma SlipBreak(tol1: int, tol2: int)
    requires 0 <= tol2 <= tol1 - 2
    ensures var x, l := SlipRun(tol1, tol2)[1], SlipLevel(1001 + tol1);
            var r := State(Running, true, 1, 0, Some(l), 1000, 1000, false, 0, 0, []);
            && Breaks(r, x) && BrokenMove(r, x) == 1001 + tol1
            && Step(r, x) == Out(State(Running, true, 1, 1001, None, 1002 + 2 * tol1, 1002 + 2 * tol1, false, 0, 0, []),
                                 [Event(SrBreak, Some(l), 1001)], None)
  {
    NextOfOne(SlipLevel(1001 + tol1), 1002 + 2 * tol1, tol1);
  }

  lemma SlipAim(tol1: int, tol2: int)
    requires 0 <= tol2 <= tol1 - 2
    ensures var x, l := SlipRun(tol1, tol2)[2], SlipLevel(1003 + tol2);
            var r := State(Running, true, 1, 1001, None, 1002 + 2 * tol1, 1002 + 2 * tol1, false, 0, 0, []);
            Step(r, x) == Out(State(Running, true, 1, 1001, Some(l), 1002 + 2 * tol1, 1002, false, 0, 1, []),
                              [Event(NewAhead, Some(l), 1001)], None)
  {
    var x, l := SlipRun(tol1, tol2)[2], SlipLevel(1003 + tol2);
    NextOfOne(l, 1002, tol2);
    BestOfOne(l, State(Running, true, 1, 1001, Some(l), 1002 + 2 * tol1, 1002, false, 0, 1, []), x);
  }

  lemma SlipAgain(tol1: int, tol2: int)
    requires 0 <= tol2 <= tol1 - 2
    ensures var x, l := SlipRun(tol1, tol2)[3], SlipLevel(1003 + tol2);
            var r := State(Running, true, 1, 1001, Some(l), 1002 + 2 * tol1, 1002, false, 0, 1, []);
            Breaks(r, x) && BrokenMove(r, x) == 1003 + tol2
  {
    NextOfOne(SlipLevel(1003 + tol2), 1004 + 2 * tol2, tol2);
  }

  /** Once the tolerance falls by two paise or more the ladder can go backwards: for every such pair of tolerances
      there is a run that breaks a level and then one no farther in favour. */
  lemma LadderSlips(tol1: int, tol2: int)
    requires 0 <= tol2 <= tol1 - 2
    ensures var h := SlipRun(tol1, tol2);
            && Fair(h, 0.0, 1000) && OnePosition(h, 0, 1)
            && (forall i :: 0 <= i < |h| ==> h[i].tol in {tol1, tol2})
            && BreaksAt(h, 1) && BreaksAt(h, 3) && BrokenAt(h, 3) <= BrokenAt(h, 1)
  {
    hide Breaks, BrokenMove, Step;
    var h := SlipRun(tol1, tol2);
    assert h[..1][..0] == [] && h[..2][..1] == h[..1] && h[..3][..2] == h[..2];
    assert Run([]) == (INITIAL, None);
    SlipEnter(tol1, tol2);
    assert Run(h[..1]) == (Step(INITIAL, h[0]).st, None);
    SlipBreak(tol1, tol2);
    assert Run(h[..2]) == (Step(Run(h[..1]).0, h[1]).st, None);
    SlipAim(tol1, tol2);
    assert Run(h[..3]) == (Step(Run(h[..2]).0, h[2]).st, None);
    SlipAgain(tol1, tol2);
  }
}
