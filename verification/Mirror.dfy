/** Side symmetry: a PUT on prices mirrored about the entry, with the level list mirrored and reversed, takes the
    same steps as the CALL, for the target runner and for the pre-target rejection rule. */
module Mirror {
  import opened Common
  import opened Levels
  import R = Runner
  import P = PreReject

  function MirrorType(t: LType): LType {
    match t
    case DayHigh => DayLow case DayLow => DayHigh
    case OrbHigh => OrbLow case OrbLow => OrbHigh
    case SwingHigh => SwingLow case SwingLow => SwingHigh
    case MicroHigh => MicroLow case MicroLow => MicroHigh
    case SwingHigh5m => SwingLow5m case SwingLow5m => SwingHigh5m
    case SwingHigh1h => SwingLow1h case SwingLow1h => SwingHigh1h
    case _ => t
  }

  function MirrorTags(tags: seq<LType>): (m: seq<LType>)
    ensures |m| == |tags| && forall i :: 0 <= i < |m| ==> m[i] == MirrorType(tags[i])
  {
    seq(|tags|, i requires 0 <= i < |tags| => MirrorType(tags[i]))
  }

  function MirrorLevel(l: Level, entry: int): Level {
    l.(price := 2 * entry - l.price, typ := MirrorType(l.typ), tags := MirrorTags(l.tags))
  }

  function MirrorOption(l: Option<Level>, entry: int): Option<Level> {
    if l.None? then None else Some(MirrorLevel(l.value, entry))
  }

  /** Mirrored, in reverse order. */
  function MirrorList(ls: seq<Level>, entry: int): (m: seq<Level>)
    ensures |m| == |ls| && forall i :: 0 <= i < |m| ==> m[i] == MirrorLevel(ls[|ls| - 1 - i], entry)
  {
    seq(|ls|, i requires 0 <= i < |ls| => MirrorLevel(ls[|ls| - 1 - i], entry))
  }

  function MirrorEach(ls: seq<Level>, entry: int): (m: seq<Level>)
    ensures |m| == |ls| && forall i :: 0 <= i < |m| ==> m[i] == MirrorLevel(ls[i], entry)
  {
    seq(|ls|, i requires 0 <= i < |ls| => MirrorLevel(ls[i], entry))
  }

  lemma MirrorListHead(ls: seq<Level>, entry: int)
    requires ls != []
    ensures var m := MirrorList(ls, entry);
            && m[|m| - 1] == MirrorLevel(ls[0], entry) && m[..|m| - 1] == MirrorList(ls[1..], entry)
            && m[0] == MirrorLevel(ls[|ls| - 1], entry) && m[1..] == MirrorList(ls[..|ls| - 1], entry)
  {
  }

  // ----- The next level ahead -----

  lemma {:induction false} NextUpMirrors(ls: seq<Level>, price: int, tol: int, entry: int)
    ensures NextDown(MirrorList(ls, entry), 2 * entry - price, tol) == MirrorOption(NextUp(ls, price, tol), entry)
  {
    hide MirrorList;
    if ls == [] {
      assert MirrorList(ls, entry) == [];
    } else {
      MirrorListHead(ls, entry);
      NextUpMirrors(ls[1..], price, tol, entry);
    }
  }

  lemma {:induction false} NextDownMirrors(ls: seq<Level>, price: int, tol: int, entry: int)
    ensures NextUp(MirrorList(ls, entry), 2 * entry - price, tol) == MirrorOption(NextDown(ls, price, tol), entry)
  {
    hide MirrorList;
    if ls == [] {
      assert MirrorList(ls, entry) == [];
    } else {
      MirrorListHead(ls, entry);
      NextDownMirrors(ls[..|ls| - 1], price, tol, entry);
    }
  }

  lemma NextMirrors(ls: seq<Level>, price: int, sign: int, tol: int, entry: int)
    requires sign in {1, -1}
    ensures NextLevel(MirrorList(ls, entry), 2 * entry - price, -sign, tol) == MirrorOption(NextLevel(ls, price, sign, tol), entry)
  {
    if sign == 1 { NextUpMirrors(ls, price, tol, entry); } else { NextDownMirrors(ls, price, tol, entry); }
  }

  // ----- The runner -----

  function MirrorIn(x: R.In): R.In {
    x.(levels := MirrorList(x.levels, x.entry), price := 2 * x.entry - x.price, sign := -x.sign)
  }

  function MirrorState(r: R.State, entry: int): R.State {
    r.(next := MirrorOption(r.next, entry), micro := MirrorEach(r.micro, entry))
  }

  function MirrorEvent(e: R.Event, entry: int): R.Event { e.(level := MirrorOption(e.level, entry)) }

  function MirrorEvents(es: seq<R.Event>, entry: int): (m: seq<R.Event>)
    ensures |m| == |es| && forall i :: 0 <= i < |m| ==> m[i] == MirrorEvent(es[i], entry)
  {
    seq(|es|, i requires 0 <= i < |es| => MirrorEvent(es[i], entry))
  }

  function MirrorOut(o: R.Out, entry: int): R.Out {
    R.Out(MirrorState(o.st, entry), MirrorEvents(o.events, entry), o.exit)
  }

  /** A favourable move is the same on both sides. */
  lemma MoveMirrors(x: R.In, q: int)
    ensures MirrorIn(x).MoveOf(2 * x.entry - q) == x.MoveOf(q)
  {
    assert (x.entry - q) * (-x.sign) == (q - x.entry) * x.sign;
  }

  lemma LevelMoveMirrors(x: R.In, l: Level)
    ensures MirrorIn(x).MoveOf(MirrorLevel(l, x.entry).price) == x.MoveOf(l.price)
  {
    MoveMirrors(x, l.price);
  }

  lemma MirrorEventsAppend(a: seq<R.Event>, b: seq<R.Event>, entry: int)
    ensures MirrorEvents(a + b, entry) == MirrorEvents(a, entry) + MirrorEvents(b, entry)
  {
  }

  lemma EnterMirrors(r: R.State, x: R.In)
    requires x.sign in {1, -1}
    ensures R.Enter(MirrorState(r, x.entry), MirrorIn(x)) == MirrorOut(R.Enter(r, x), x.entry)
  {
    hide R.HasRoom, R.LockShare, MirrorLevel, MirrorList, R.In.MoveOf, NextLevel;
    NextMirrors(x.levels, x.price, x.sign, x.tol, x.entry);
    if x.Next().Some? { RoomMirrors(x.Next().value, x); }
    ShareMirrors(x);
  }

  lemma ShareMirrors(x: R.In)
    ensures R.LockShare(MirrorIn(x)) == R.LockShare(x)
  {
  }

  lemma RoomMirrors(l: Level, x: R.In)
    ensures R.HasRoom(MirrorLevel(l, x.entry), MirrorIn(x)) == R.HasRoom(l, x)
  {
    hide MirrorLevel, MirrorIn, R.In.MoveOf;
    LevelMoveMirrors(x, l);
    MirrorKeeps(x);
  }

  lemma MirrorKeeps(x: R.In)
    ensures var m := MirrorIn(x); m == x.(levels := m.levels, price := m.price, sign := m.sign)
  {
  }

  lemma PeakMirrors(r: R.State, x: R.In)
    requires x.sign in {1, -1}
    ensures R.PeakStep(MirrorState(r, x.entry), MirrorIn(x)) == MirrorOut(R.PeakStep(r, x), x.entry)
  {
    hide MirrorList;
    var lvl := Level(x.PriceAt(r.pbLow), if x.sign < 0 then MicroHigh else MicroLow, x.now, false, [], 0);
    var m := MirrorIn(x);
    assert m.PriceAt(r.pbLow) == 2 * x.entry - x.PriceAt(r.pbLow) by {
      assert (-x.sign) * r.pbLow == -(x.sign * r.pbLow);
    }
    assert MirrorLevel(lvl, x.entry) == Level(m.PriceAt(r.pbLow), if m.sign < 0 then MicroHigh else MicroLow, x.now, false, [], 0);
    assert MirrorEach(r.micro + [lvl], x.entry) == MirrorEach(r.micro, x.entry) + [MirrorLevel(lvl, x.entry)];
  }

  lemma RaisesMirrors(l: Level, r: R.State, x: R.In)
    ensures R.Raises(MirrorLevel(l, x.entry), MirrorState(r, x.entry), MirrorIn(x)) == R.Raises(l, r, x)
  {
    hide R.In.MoveOf;
    LevelMoveMirrors(x, l);
  }

  /** A level of the mirrored list is the mirror image of one of the list, with the same move and the same right to raise. */
  lemma Original(r: R.State, x: R.In, l: Level) returns (i: nat)
    requires l in MirrorIn(x).levels
    ensures i < |x.levels| && l == MirrorLevel(x.levels[i], x.entry) && x.levels[i] in x.levels
    ensures R.Raises(l, MirrorState(r, x.entry), MirrorIn(x)) == R.Raises(x.levels[i], r, x)
    ensures MirrorIn(x).MoveOf(l.price) == x.MoveOf(x.levels[i].price)
  {
    hide MirrorLevel, R.Raises, R.In.MoveOf;
    var ls := MirrorList(x.levels, x.entry);
    var j :| 0 <= j < |ls| && ls[j] == l;
    i := |ls| - 1 - j;
    RaisesMirrors(x.levels[i], r, x);
    LevelMoveMirrors(x, x.levels[i]);
  }

  lemma Image(r: R.State, x: R.In, i: nat)
    requires i < |x.levels|
    ensures var l := MirrorLevel(x.levels[i], x.entry);
            && l in MirrorIn(x).levels
            && R.Raises(l, MirrorState(r, x.entry), MirrorIn(x)) == R.Raises(x.levels[i], r, x)
            && MirrorIn(x).MoveOf(l.price) == x.MoveOf(x.levels[i].price)
  {
    hide MirrorLevel, R.Raises, R.In.MoveOf;
    assert MirrorList(x.levels, x.entry)[|x.levels| - 1 - i] in MirrorIn(x).levels;
    RaisesMirrors(x.levels[i], r, x);
    LevelMoveMirrors(x, x.levels[i]);
  }

  /** The furthest raising level is unique on a strictly sorted list, so the scan order does not matter. */
  lemma BestMirrors(r: R.State, x: R.In)
    requires x.sign in {1, -1} && StrictlySorted(x.levels)
    ensures R.BestBehind(MirrorIn(x).levels, MirrorState(r, x.entry), MirrorIn(x)) ==
            MirrorOption(R.BestBehind(x.levels, r, x), x.entry)
  {
    hide R.BestBehind, R.Raises, MirrorLevel, R.In.MoveOf, MirrorState, MirrorIn;
    R.BestBehindRaises(x.levels, r, x);
    R.BestBehindRaises(MirrorIn(x).levels, MirrorState(r, x.entry), MirrorIn(x));
    var a := R.BestBehind(x.levels, r, x);
    var b := R.BestBehind(MirrorIn(x).levels, MirrorState(r, x.entry), MirrorIn(x));
    if a.Some? {
      var i :| 0 <= i < |x.levels| && x.levels[i] == a.value;
      Image(r, x, i);
      var j := Original(r, x, b.value);
      SameMoveSameLevel(x, i, j);
    } else if b.Some? {
      var j := Original(r, x, b.value);
    }
  }

  lemma SameMoveSameLevel(x: R.In, i: nat, j: nat)
    requires x.sign in {1, -1} && StrictlySorted(x.levels) && i < |x.levels| && j < |x.levels|
    requires x.MoveOf(x.levels[i].price) == x.MoveOf(x.levels[j].price)
    ensures i == j
  {
    if x.sign == -1 {
      assert x.MoveOf(x.levels[i].price) == x.entry - x.levels[i].price;
      assert x.MoveOf(x.levels[j].price) == x.entry - x.levels[j].price;
    }
  }

  lemma AheadMirrors(r: R.State, x: R.In)
    requires x.sign in {1, -1}
    ensures R.AheadStep(MirrorState(r, x.entry), MirrorIn(x)) == MirrorOut(R.AheadStep(r, x), x.entry)
  {
    hide MirrorLevel, MirrorList, R.In.MoveOf, NextLevel;
    NextMirrors(x.levels, x.price, x.sign, x.tol, x.entry);
    if x.Next().Some? { LevelMoveMirrors(x, x.Next().value); }
    if r.next.Some? { LevelMoveMirrors(x, r.next.value); }
  }

  lemma BehindMirrors(r: R.State, x: R.In)
    requires x.sign in {1, -1} && StrictlySorted(x.levels)
    ensures R.BehindStep(MirrorState(r, x.entry), MirrorIn(x)) == MirrorOut(R.BehindStep(r, x), x.entry)
  {
    hide MirrorLevel, MirrorList, R.In.MoveOf, R.BestBehind;
    BestMirrors(r, x);
    var best := R.BestBehind(x.levels, r, x);
    if best.Some? { LevelMoveMirrors(x, best.value); }
  }

  lemma BookMirrors(r: R.State, x: R.In)
    requires x.sign in {1, -1} && StrictlySorted(x.levels)
    ensures R.BookStep(MirrorState(r, x.entry), MirrorIn(x)) == MirrorOut(R.BookStep(r, x), x.entry)
  {
    hide R.AheadStep, R.BehindStep, MirrorList, MirrorLevel;
    if x.version.Some? && x.version.value != r.bookVer {
      var s := r.(bookVer := x.version.value);
      AheadMirrors(s, x);
      var a := R.AheadStep(s, x);
      BehindMirrors(a.st, x);
      MirrorEventsAppend(a.events, R.BehindStep(a.st, x).events, x.entry);
    }
  }

  lemma LadderMirrors(r: R.State, x: R.In)
    requires x.sign in {1, -1}
    ensures R.LadderStep(MirrorState(r, x.entry), MirrorIn(x)) == MirrorOut(R.LadderStep(r, x), x.entry)
  {
    hide MirrorLevel, MirrorList, R.In.MoveOf, NextLevel;
    NextMirrors(x.levels, x.price, x.sign, x.tol, x.entry);
    if r.next.Some? { LevelMoveMirrors(x, r.next.value); }
  }

  lemma ExitMirrors(r: R.State, x: R.In)
    ensures R.ExitReason(MirrorState(r, x.entry), MirrorIn(x)) == R.ExitReason(r, x)
  {
    hide MirrorList, MirrorLevel, MirrorEach;
  }

  /** One evaluation of the mirrored runner is the mirror image of the evaluation: phase, lock, next level, touch,
      break timer, events and exit reason. */
  lemma StepMirrors(r: R.State, x: R.In)
    requires x.sign in {1, -1} && StrictlySorted(x.levels)
    ensures R.Step(MirrorState(r, x.entry), MirrorIn(x)) == MirrorOut(R.Step(r, x), x.entry)
  {
    hide R.Enter, R.PeakStep, R.BookStep, R.LadderStep, R.ExitReason, MirrorIn, MirrorEach, MirrorOption, MirrorEvents;
    EnterMirrors(r, x);
    PeakMirrors(r, x);
    var a := R.PeakStep(r, x);
    BookMirrors(a.st, x);
    var b := R.BookStep(a.st, x);
    LadderMirrors(b.st, x);
    var c := R.LadderStep(b.st, x);
    ExitMirrors(c.st, x);
    MirrorEventsAppend(a.events, b.events, x.entry);
    MirrorEventsAppend(a.events + b.events, c.events, x.entry);
  }

  function MirrorRun(h: seq<R.In>): (m: seq<R.In>)
    ensures |m| == |h| && forall i :: 0 <= i < |m| ==> m[i] == MirrorIn(h[i])
  {
    seq(|h|, i requires 0 <= i < |h| => MirrorIn(h[i]))
  }

  /** Over a whole run of one position the mirrored side is in the mirrored state and latches for the same reason,
      after every evaluation. */
  lemma {:induction false} RunMirrors(h: seq<R.In>, entry: int)
    requires forall i :: 0 <= i < |h| ==> h[i].entry == entry && h[i].sign in {1, -1} && StrictlySorted(h[i].levels)
    ensures R.Run(MirrorRun(h)) == (MirrorState(R.Run(h).0, entry), R.Run(h).1)
  {
    hide R.Step, MirrorIn, StrictlySorted;
    if h == [] {
      assert MirrorEach([], entry) == [];
    } else {
      var init, x := h[..|h| - 1], h[|h| - 1];
      RunMirrors(init, entry);
      assert MirrorRun(h)[..|h| - 1] == MirrorRun(init);
      StepMirrors(R.Run(init).0, x);
    }
  }

  // ----- The pre-target rejection rule -----

  function MirrorPre(x: P.In): P.In {
    x.(levels := MirrorList(x.levels, x.entry), price := 2 * x.entry - x.price, sign := -x.sign,
       bar := if x.bar.None? then None else Some((2 * x.entry - x.bar.value.0, x.bar.value.1)))
  }

  function MirrorWatch(r: P.State, entry: int): P.State {
    r.(level := if r.level == NO_LEVEL then NO_LEVEL else MirrorLevel(r.level, entry))
  }

  lemma PreMoveMirrors(x: P.In, q: int)
    ensures MirrorPre(x).MoveOf(2 * x.entry - q) == x.MoveOf(q)
  {
    assert (x.entry - q) * (-x.sign) == (q - x.entry) * x.sign;
  }

  lemma SourceMirrors(t: LType)
    ensures SourceOf(MirrorType(t)) == SourceOf(t)
  {
  }

  lemma QualifiesMirrors(l: Level, entry: int, sources: seq<Source>, minTouches: int)
    ensures P.Qualifies(MirrorLevel(l, entry), sources, minTouches) == P.Qualifies(l, sources, minTouches)
  {
    hide SourceOf, MirrorType;
    var m := MirrorLevel(l, entry);
    forall i | 0 <= i < |l.tags| ensures SourceOf(m.tags[i]) == SourceOf(l.tags[i]) {
      SourceMirrors(l.tags[i]);
    }
    if P.Qualifies(l, sources, minTouches) {
      var t :| t in l.tags && SourceOf(t).Some? && !(SourceOf(t).value == SrSource && l.touches < minTouches)
               && SourceOf(t).value in sources;
      var i :| 0 <= i < |l.tags| && l.tags[i] == t;
      assert m.tags[i] in m.tags;
    }
    if P.Qualifies(m, sources, minTouches) {
      var t :| t in m.tags && SourceOf(t).Some? && !(SourceOf(t).value == SrSource && m.touches < minTouches)
               && SourceOf(t).value in sources;
      var i :| 0 <= i < |m.tags| && m.tags[i] == t;
      assert l.tags[i] in l.tags;
    }
  }

  lemma WatchableMirrors(l: Level, x: P.In)
    ensures MirrorPre(x).Watchable(MirrorLevel(l, x.entry)) == x.Watchable(l)
    ensures MirrorPre(x).HasRoom(MirrorLevel(l, x.entry)) == x.HasRoom(l)
  {
    hide P.In.MoveOf, P.Qualifies;
    PreMoveMirrors(x, l.price);
    QualifiesMirrors(l, x.entry, x.p.sources, x.p.minTouches);
    assert MirrorPre(x).Room() == x.Room();
  }

  lemma {:induction false} PickUpMirrors(ls: seq<Level>, x: P.In)
    ensures P.PickDown(MirrorList(ls, x.entry), MirrorPre(x)) == MirrorOption(P.PickUp(ls, x), x.entry)
  {
    hide MirrorList, P.In.Watchable, P.In.HasRoom, MirrorLevel;
    if ls == [] {
      assert MirrorList(ls, x.entry) == [];
    } else {
      MirrorListHead(ls, x.entry);
      WatchableMirrors(ls[0], x);
      PickUpMirrors(ls[1..], x);
    }
  }

  lemma {:induction false} PickDownMirrors(ls: seq<Level>, x: P.In)
    ensures P.PickUp(MirrorList(ls, x.entry), MirrorPre(x)) == MirrorOption(P.PickDown(ls, x), x.entry)
  {
    hide MirrorList, P.In.Watchable, P.In.HasRoom, MirrorLevel;
    if ls == [] {
      assert MirrorList(ls, x.entry) == [];
    } else {
      MirrorListHead(ls, x.entry);
      WatchableMirrors(ls[|ls| - 1], x);
      PickDownMirrors(ls[..|ls| - 1], x);
    }
  }

  lemma PickMirrors(x: P.In)
    requires x.sign in {1, -1}
    ensures P.Pick(MirrorPre(x)) == MirrorOption(P.Pick(x), x.entry)
  {
    hide P.PickUp, P.PickDown, MirrorOption;
    if x.sign == 1 { PickUpMirrors(x.levels, x); } else { PickDownMirrors(x.levels, x); }
  }

  lemma PreLevelMove(x: P.In, l: Level)
    ensures MirrorPre(x).MoveOf(MirrorLevel(l, x.entry).price) == x.MoveOf(l.price)
  {
    PreMoveMirrors(x, l.price);
  }

  lemma ConfirmedMirrors(r: P.State, x: P.In)
    requires r.level != NO_LEVEL
    ensures P.Confirmed(MirrorWatch(r, x.entry), MirrorPre(x)) == P.Confirmed(r, x)
  {
    hide P.In.MoveOf, MirrorLevel;
    PreLevelMove(x, r.level);
    if x.bar.Some? { PreMoveMirrors(x, x.bar.value.0); }
  }

  lemma WatchedMirrors(r: P.State, x: P.In)
    requires r.level != NO_LEVEL
    ensures P.StepWatched(MirrorWatch(r, x.entry), MirrorPre(x)) ==
            (MirrorWatch(P.StepWatched(r, x).0, x.entry), P.StepWatched(r, x).1)
  {
    hide P.In.MoveOf, MirrorLevel, P.Confirmed;
    PreLevelMove(x, r.level);
    forall s: P.State | s.level == r.level ensures P.Confirmed(MirrorWatch(s, x.entry), MirrorPre(x)) == P.Confirmed(s, x) {
      ConfirmedMirrors(s, x);
    }
  }

  lemma PickIsStrong(x: P.In)
    ensures P.Pick(x).Some? ==> P.Pick(x).value.strong
  {
    if x.sign > 0 { PickUpStrong(x.levels, x); } else { PickDownStrong(x.levels, x); }
  }

  lemma {:induction false} PickUpStrong(ls: seq<Level>, x: P.In)
    ensures P.PickUp(ls, x).Some? ==> P.PickUp(ls, x).value.strong
  {
    hide P.Qualifies, P.In.HasRoom, P.In.MoveOf;
    if ls != [] { PickUpStrong(ls[1..], x); }
  }

  lemma {:induction false} PickDownStrong(ls: seq<Level>, x: P.In)
    ensures P.PickDown(ls, x).Some? ==> P.PickDown(ls, x).value.strong
  {
    hide P.Qualifies, P.In.HasRoom, P.In.MoveOf;
    if ls != [] { PickDownStrong(ls[..|ls| - 1], x); }
  }

  /** One evaluation of the mirrored rule is the mirror image of the evaluation: level, touch, peak, break timer and exit. */
  lemma PreStepMirrors(r: P.State, x: P.In)
    requires x.sign in {1, -1} && (r.touched ==> r.level != NO_LEVEL)
    ensures P.Step(MirrorWatch(r, x.entry), MirrorPre(x)) == (MirrorWatch(P.Step(r, x).0, x.entry), P.Step(r, x).1)
  {
    hide P.Pick, P.StepWatched, MirrorLevel, MirrorList;
    if x.Active() {
      PickMirrors(x);
      PickIsStrong(x);
      if r.touched {
        WatchedMirrors(r, x);
      } else if P.Pick(x).Some? {
        PickIsStrong(MirrorPre(x));
        WatchedMirrors(r.(level := P.Pick(x).value, has := true), x);
      }
    }
  }

  function MirrorPreRun(h: seq<P.In>): (m: seq<P.In>)
    ensures |m| == |h| && forall i :: 0 <= i < |m| ==> m[i] == MirrorPre(h[i])
  {
    seq(|h|, i requires 0 <= i < |h| => MirrorPre(h[i]))
  }

  lemma TouchedLevel(r: P.State, x: P.In)
    requires r.touched ==> r.level != NO_LEVEL
    ensures P.Step(r, x).0.touched ==> P.Step(r, x).0.level != NO_LEVEL
  {
    hide P.Pick, P.Confirmed, P.In.MoveOf;
    PickIsStrong(x);
  }

  /** Over a whole run of one position the mirrored side watches the mirrored level and exits at the same evaluations. */
  lemma {:induction false} PreRunMirrors(h: seq<P.In>, entry: int)
    requires forall i :: 0 <= i < |h| ==> h[i].entry == entry && h[i].sign in {1, -1}
    ensures P.Run(h).touched ==> P.Run(h).level != NO_LEVEL
    ensures P.Run(MirrorPreRun(h)) == MirrorWatch(P.Run(h), entry)
    ensures forall x: P.In :: x.entry == entry && x.sign in {1, -1} ==>
              P.Step(P.Run(MirrorPreRun(h)), MirrorPre(x)).1 == P.Step(P.Run(h), x).1
  {
    hide P.Step, MirrorPre, MirrorWatch;
    if h == [] {
      assert P.Run(MirrorPreRun(h)) == P.INITIAL;
      InitialMirrors(entry);
    } else {
      var init, x := h[..|h| - 1], h[|h| - 1];
      PreRunMirrors(init, entry);
      assert MirrorPreRun(h)[..|h| - 1] == MirrorPreRun(init);
      PreStepMirrors(P.Run(init), x);
      TouchedLevel(P.Run(init), x);
    }
    forall x: P.In | x.entry == entry && x.sign in {1, -1}
      ensures P.Step(P.Run(MirrorPreRun(h)), MirrorPre(x)).1 == P.Step(P.Run(h), x).1
    {
      PreStepMirrors(P.Run(h), x);
    }
  }

  lemma InitialMirrors(entry: int)
    ensures MirrorWatch(P.INITIAL, entry) == P.INITIAL
  {
  }
}
