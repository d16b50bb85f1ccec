/** The target runner: hold past target, ratchet a lock behind price, climb the level ladder, exit on rejection. */
module Runner {
  import opened Common
  import opened Levels

  datatype Phase = Unset | Normal | Running

  datatype Reason = TargetTake | Lock | SrReject | RunTrail

  datatype EventKind = TargetRun | NewSupport | NewAhead | SrBreak

  /** A WATCH_HOLD event: the level it names, if any, and the lock after it. */
  datatype Event = Event(kind: EventKind, level: Option<Level>, lock: int)

  /** One evaluation. levels is empty and version None when the tracker has no book; strong says the
      momentum features allow holding. */
  datatype In = In(levels: seq<Level>, version: Option<int>, price: int, move: int, entry: int, sign: int, targetMove: int,
                   tol: int, rej: int, breakN: int, now: int, strong: bool, p: Params)
  {
    function MoveOf(q: int): int { (q - entry) * sign }

    function PriceAt(mv: int): int { entry + sign * mv }

    function Next(): Option<Level> { NextLevel(levels, price, sign, tol) }
  }

  datatype Params = Params(lockPct: real, minRoomPct: real, giveback: real)

  datatype State = State(phase: Phase, decided: bool, start: int, lock: int, next: Option<Level>, runPeak: int, pbLow: int,
                         touched: bool, beyondSince: int, bookVer: int, micro: seq<Level>)

  const INITIAL := State(Unset, false, 0, 0, None, 0, 0, false, 0, 0, [])

  /** A step's new state, its events and the reason it latched EXIT, if it did. */
  datatype Out = Out(st: State, events: seq<Event>, exit: Option<Reason>)

  // ----- Before the runner: the target-hit decision -----

  predicate RoomOk(x: In) {
    var next := x.Next();
    next.None? || HasRoom(next.value, x)
  }

  predicate HasRoom(l: Level, x: In) {
    (x.MoveOf(l.price) - x.move) as real >= x.p.minRoomPct * x.targetMove as real
  }

  function LockShare(x: In): int { Trunc(x.p.lockPct * x.targetMove as real) }

  function Enter(r0: State, x: In): Out {
    var r := r0.(phase := Normal);
    if r.decided || x.move < x.targetMove then Out(r, [], None)
    else if !x.strong || !RoomOk(x) then Out(r.(decided := true), [], Some(TargetTake))
    else Out(RunFrom(r, x, x.Next()), [Event(TargetRun, x.Next(), LockShare(x))], None)
  }

  /** The running state a position starts its run in. */
  function RunFrom(r: State, x: In, ahead: Option<Level>): State {
    r.(decided := true, phase := Running, start := x.now, lock := LockShare(x), next := ahead, runPeak := x.move,
       pbLow := x.move, bookVer := if x.version.Some? then x.version.value else r.bookVer)
  }

  lemma EnterIs(r: State, x: In, roomOk: bool)
    requires roomOk == (x.Next().None? || HasRoom(x.Next().value, x))
    ensures r.decided || x.move < x.targetMove ==> Enter(r, x) == Out(r.(phase := Normal), [], None)
    ensures !(r.decided || x.move < x.targetMove) && (!x.strong || !roomOk) ==>
              Enter(r, x) == Out(r.(phase := Normal, decided := true), [], Some(TargetTake))
    ensures !(r.decided || x.move < x.targetMove) && x.strong && roomOk ==>
              Enter(r, x) == Out(RunFrom(r, x, x.Next()), [Event(TargetRun, x.Next(), LockShare(x))], None)
  {
    hide HasRoom, LockShare, NextLevel;
  }

  // ----- The running steps -----

  /** A new peak settles the low of the pullback before it: from rej down it becomes a support and lifts the lock to tol
      under it, unless the lock is there already; any other evaluation only tracks the low. */
  function PeakStep(r: State, x: In): Out {
    if x.move > r.runPeak then
      if r.runPeak - r.pbLow >= x.rej && r.pbLow - x.tol > r.lock then
        var lock := r.pbLow - x.tol;
        var lvl := Level(x.PriceAt(r.pbLow), if x.sign < 0 then MicroHigh else MicroLow, x.now, false, [], 0);
        Out(r.(lock := lock, micro := r.micro + [lvl], runPeak := x.move, pbLow := x.move),
            [Event(NewSupport, Some(lvl), lock)], None)
      else Out(r.(runPeak := x.move, pbLow := x.move), [], None)
    else Out(r.(pbLow := Min(r.pbLow, x.move)), [], None)
  }

  /** A level of the book that can raise the lock: formed during the run, behind price, above the lock. */
  predicate Raises(l: Level, r: State, x: In) {
    && l.typ !in {DayHigh, DayLow} && l.since >= r.start
    && r.lock + x.tol < x.MoveOf(l.price) < x.move - x.tol
  }

  /** The furthest raising level, the first of its move. */
  function BestBehind(ls: seq<Level>, r: State, x: In): Option<Level> {
    if ls == [] then None
    else
      var best, l := BestBehind(ls[..|ls| - 1], r, x), ls[|ls| - 1];
      if Raises(l, r, x) && (best.None? || x.MoveOf(l.price) > x.MoveOf(best.value.price)) then Some(l) else best
  }

  function AheadStep(r: State, x: In): Out {
    var cand := x.Next();
    if cand.Some? && (r.next.None? || x.MoveOf(cand.value.price) < x.MoveOf(r.next.value.price)) then
      Out(r.(next := cand, touched := false, beyondSince := 0), [Event(NewAhead, cand, r.lock)], None)
    else Out(r, [], None)
  }

  function BehindStep(r: State, x: In): Out {
    var best := BestBehind(x.levels, r, x);
    if best.None? then Out(r, [], None)
    else var lock := x.MoveOf(best.value.price) - x.tol; Out(r.(lock := lock), [Event(NewSupport, best, lock)], None)
  }

  function BookStep(r: State, x: In): Out {
    if x.version.None? || x.version.value == r.bookVer then Out(r, [], None)
    else
      var a := AheadStep(r.(bookVer := x.version.value), x);
      var b := BehindStep(a.st, x);
      Out(b.st, a.events + b.events, None)
  }

  /** Touch and ladder: a level held beyond for the break time locks in behind it and gives way to the next. */
  function LadderStep(r: State, x: In): Out {
    if r.next.None? then Out(r, [], None)
    else
      var dist := x.MoveOf(r.next.value.price) - x.move;
      var t := r.(touched := r.touched || dist <= x.tol);
      if dist >= -x.tol then Out(t.(beyondSince := 0), [], None)
      else
        var since := if t.beyondSince == 0 then x.now else t.beyondSince;
        if x.now - since < x.breakN then Out(t.(beyondSince := since), [], None)
        else
          var lock := Max(t.lock, x.MoveOf(r.next.value.price) - x.tol);
          Out(t.(lock := lock, next := x.Next(), touched := false, beyondSince := 0), [Event(SrBreak, r.next, lock)], None)
  }

  function ExitReason(r: State, x: In): Option<Reason> {
    var ext := r.runPeak - x.targetMove;
    if x.move <= r.lock then Some(Lock)
    else if r.touched && r.runPeak - x.move >= x.rej then Some(SrReject)
    else if ext >= x.rej && (r.runPeak - x.move) as real >= x.p.giveback * ext as real then Some(RunTrail)
    else None
  }

  function RunStep(r: State, x: In): Out {
    var a := PeakStep(r, x);
    var b := BookStep(a.st, x);
    var c := LadderStep(b.st, x);
    Out(c.st, a.events + b.events + c.events, ExitReason(c.st, x))
  }

  /** One evaluation of an unlatched tracker. */
  function Step(r: State, x: In): Out {
    if r.phase == Running then RunStep(r, x) else Enter(r, x)
  }

  // ----- The runner object -----

  class RunnerObject {
    var phase: Phase
    var decided: bool
    var start: int
    var lockMove: int
    var next: Option<Level>
    var runPeak: int
    var pbLow: int
    var touched: bool
    var beyondSince: int
    var bookVer: int
    var micro: seq<Level>
    var events: seq<Event>
    var latched: Option<Reason>

    ghost function View(): State
      reads this
    {
      State(phase, decided, start, lockMove, next, runPeak, pbLow, touched, beyondSince, bookVer, micro)
    }

    constructor ()
      ensures View() == INITIAL && events == [] && latched == None
    {
      phase, decided, start, lockMove, next := Unset, false, 0, 0, None;
      runPeak, pbLow, touched, beyondSince, bookVer := 0, 0, false, 0, 0;
      micro, events, latched := [], [], None;
    }

    /** One evaluation; nothing happens once EXIT is latched. */
    method Evaluate(x: In)
      modifies this
      ensures old(latched).Some? ==> View() == old(View()) && events == old(events) && latched == old(latched)
      ensures old(latched).None? ==>
                var out := Step(old(View()), x);
                View() == out.st && events == old(events) + out.events && latched == out.exit
    {
      hide Enter, RunStep, NextLevel;
      if latched.Some? {
        return;
      }
      var ahead := FindNextLevel(x.levels, x.price, x.sign, x.tol);
      if phase != Running {
        TargetHit(x, ahead);
        return;
      }
      Follow(x, ahead);
    }

    /** The running part of an evaluation. */
    method Follow(x: In, ahead: Option<Level>)
      requires phase == Running && latched.None? && ahead == x.Next()
      modifies this
      ensures var out := RunStep(old(View()), x);
              View() == out.st && events == old(events) + out.events && latched == out.exit
    {
      hide PeakStep, BookStep, LadderStep, ExitReason, NextLevel;
      TrackPeak(x);
      CheckBook(x, ahead);
      Ladder(x, ahead);
      CheckExit(x);
    }

    method CheckBook(x: In, ahead: Option<Level>)
      requires ahead == x.Next()
      modifies `bookVer, `next, `touched, `beyondSince, `lockMove, `events
      ensures var out := BookStep(old(View()), x); View() == out.st && events == old(events) + out.events
    {
      hide AheadStep, BehindStep, NextLevel;
      if x.version.Some? && x.version.value != bookVer {
        bookVer := x.version.value;
        OnNewLevels(x, ahead);
      }
    }

    method TargetHit(x: In, ahead: Option<Level>)
      requires phase != Running && latched.None? && ahead == x.Next()
      modifies this
      ensures var out := Enter(old(View()), x);
              View() == out.st && events == old(events) + out.events && latched == out.exit
    {
      var roomOk := ahead.None? || HasRoom(ahead.value, x);
      EnterIs(View(), x, roomOk);
      hide Enter, RoomOk, HasRoom, LockShare, NextLevel, In.MoveOf;
      if decided || x.move < x.targetMove {
        phase := Normal;
        assert events + [] == events;
      } else if !x.strong || !roomOk {
        phase, decided, latched := Normal, true, Some(TargetTake);
        assert events + [] == events;
      } else {
        StartRun(x, ahead);
      }
    }

    /** The target is handed to the runner. */
    method StartRun(x: In, ahead: Option<Level>)
      modifies `phase, `decided, `start, `lockMove, `next, `runPeak, `pbLow, `bookVer, `events
      ensures View() == RunFrom(old(View()), x, ahead)
      ensures events == old(events) + [Event(TargetRun, ahead, LockShare(x))]
    {
      hide LockShare;
      phase, decided, start, lockMove, next := Running, true, x.now, LockShare(x), ahead;
      runPeak, pbLow, bookVer := x.move, x.move, if x.version.Some? then x.version.value else bookVer;
      events := events + [Event(TargetRun, next, lockMove)];
    }

    method TrackPeak(x: In)
      modifies `lockMove, `micro, `events, `runPeak, `pbLow
      ensures var out := PeakStep(old(View()), x); View() == out.st && events == old(events) + out.events
    {
      if x.move > runPeak {
        if runPeak - pbLow >= x.rej && pbLow - x.tol > lockMove {
          lockMove := pbLow - x.tol;
          var lvl := Level(x.PriceAt(pbLow), if x.sign < 0 then MicroHigh else MicroLow, x.now, false, [], 0);
          micro := micro + [lvl];
          events := events + [Event(NewSupport, Some(lvl), lockMove)];
        }
        runPeak, pbLow := x.move, x.move;
      } else if x.move < pbLow {
        pbLow := x.move;
      }
    }

    method Ladder(x: In, ahead: Option<Level>)
      requires ahead == x.Next()
      modifies `touched, `beyondSince, `lockMove, `next, `events
      ensures var out := LadderStep(old(View()), x); View() == out.st && events == old(events) + out.events
    {
      hide NextLevel;
      if next.None? {
        return;
      }
      var dist := x.MoveOf(next.value.price) - x.move;
      if dist <= x.tol {
        touched := true;
      }
      if dist < -x.tol {
        if beyondSince == 0 {
          beyondSince := x.now;
        }
        if x.now - beyondSince >= x.breakN {
          var broken := next;
          var l := x.MoveOf(broken.value.price) - x.tol;
          if l > lockMove {
            lockMove := l;
          }
          next, touched, beyondSince := ahead, false, 0;
          events := events + [Event(SrBreak, broken, lockMove)];
        }
      } else {
        beyondSince := 0;
      }
    }

    method CheckExit(x: In)
      requires latched.None?
      modifies `latched
      ensures latched == ExitReason(View(), x)
    {
      var ext := runPeak - x.targetMove;
      if x.move <= lockMove {
        latched := Some(Lock);
      } else if touched && runPeak - x.move >= x.rej {
        latched := Some(SrReject);
      } else if ext >= x.rej && (runPeak - x.move) as real >= x.p.giveback * ext as real {
        latched := Some(RunTrail);
      }
    }

    /** A closer level ahead becomes the target; the furthest level formed behind price raises the lock. */
    method OnNewLevels(x: In, cand: Option<Level>)
      requires cand == x.Next()
      modifies `next, `touched, `beyondSince, `lockMove, `events
      ensures var a := AheadStep(old(View()), x);
              var b := BehindStep(a.st, x);
              View() == b.st && events == old(events) + a.events + b.events
    {
      hide BehindStep, NextLevel;
      if cand.Some? && (next.None? || x.MoveOf(cand.value.price) < x.MoveOf(next.value.price)) {
        next, touched, beyondSince := cand, false, 0;
        events := events + [Event(NewAhead, cand, lockMove)];
      }
      RaiseLock(x);
    }

    method RaiseLock(x: In)
      modifies `lockMove, `events
      ensures var out := BehindStep(old(View()), x); View() == out.st && events == old(events) + out.events
    {
      hide Raises, BestBehind;
      ghost var r := View();
      var best: Option<Level>, bestMove := None, lockMove + x.tol;
      NoneBehind(r, x);
      for i := 0 to |x.levels|
        invariant View() == r && events == old(events) && best == BestBehind(x.levels[..i], r, x)
        invariant bestMove == if best.Some? then x.MoveOf(best.value.price) else lockMove + x.tol
        invariant best.Some? ==> bestMove > lockMove + x.tol
      {
        var l := x.levels[i];
        assert x.levels[..i + 1] == x.levels[..i] + [l];
        BestBehindSnoc(x.levels[..i], l, r, x);
        RaisesMeans(l, r, x);
        if l.typ == DayHigh || l.typ == DayLow || l.since < start {
          continue;
        }
        var lm := x.MoveOf(l.price);
        if lm > bestMove && lm < x.move - x.tol {
          best, bestMove := Some(l), lm;
        }
      }
      assert x.levels[..|x.levels|] == x.levels;
      if best.Some? {
        lockMove := bestMove - x.tol;
        events := events + [Event(NewSupport, best, lockMove)];
      }
    }
  }

  lemma NoneBehind(r: State, x: In)
    ensures BestBehind([], r, x) == None
  {
  }

  lemma BestBehindSnoc(ls: seq<Level>, l: Level, r: State, x: In)
    ensures BestBehind(ls + [l], r, x) ==
            var best := BestBehind(ls, r, x);
            if Raises(l, r, x) && (best.None? || x.MoveOf(l.price) > x.MoveOf(best.value.price)) then Some(l) else best
  {
    assert (ls + [l])[..|ls|] == ls;
  }

  lemma RaisesMeans(l: Level, r: State, x: In)
    ensures Raises(l, r, x) <==>
            l.typ != DayHigh && l.typ != DayLow && l.since >= r.start && r.lock + x.tol < x.MoveOf(l.price) < x.move - x.tol
  {
  }

  // ----- The ratchet -----

  lemma {:induction false} BestBehindRaises(ls: seq<Level>, r: State, x: In)
    ensures var best := BestBehind(ls, r, x);
            && (best.Some? ==> best.value in ls && Raises(best.value, r, x))
            && forall l :: l in ls && Raises(l, r, x) ==> best.Some? && x.MoveOf(l.price) <= x.MoveOf(best.value.price)
  {
    hide Raises;
    if ls != [] {
      var init, last := ls[..|ls| - 1], ls[|ls| - 1];
      BestBehindRaises(init, r, x);
      assert forall l :: l in ls <==> l == last || l in init;
    }
  }

  /** Facts every reachable running state has: the peak bounds the pullback low, and the lock lies under the low
      of what an unlatched evaluation has seen. */
  predicate Sound(r: State) { r.phase == Running ==> r.decided && r.pbLow <= r.runPeak }

  /** The lock has not fallen from r to s, and if it rose it is behind the move. */
  predicate Ratcheted(r: State, s: State, x: In) {
    && s.phase == r.phase && s.decided == r.decided && s.runPeak >= r.runPeak && Sound(s)
    && s.lock >= r.lock && (s.lock > r.lock ==> s.lock < x.move)
  }

  lemma PeakRatchets(r: State, x: In)
    requires r.phase == Running && Sound(r) && x.tol >= 0
    ensures Ratcheted(r, PeakStep(r, x).st, x)
  {
  }

  lemma BookRatchets(r: State, x: In)
    requires r.phase == Running && Sound(r) && x.tol >= 0
    ensures Ratcheted(r, BookStep(r, x).st, x)
  {
    hide BestBehind;
    if x.version.Some? && x.version.value != r.bookVer {
      BestBehindRaises(x.levels, AheadStep(r.(bookVer := x.version.value), x).st, x);
    }
  }

  lemma LadderRatchets(r: State, x: In)
    requires r.phase == Running && Sound(r) && x.tol >= 0
    ensures Ratcheted(r, LadderStep(r, x).st, x)
  {
  }

  /** One step of the ratchet: the lock never falls, and when it rises it lands strictly behind the move. */
  lemma Ratchet(r: State, x: In)
    requires r.phase == Running && Sound(r) && x.tol >= 0
    ensures var out := Step(r, x);
            Ratcheted(r, out.st, x) && (out.exit.None? ==> x.move > out.st.lock)
  {
    hide PeakStep, BookStep, LadderStep;
    PeakRatchets(r, x);
    var a := PeakStep(r, x).st;
    BookRatchets(a, x);
    LadderRatchets(BookStep(a, x).st, x);
  }

  lemma ShareOfPositive(a: real, t: real)
    requires 0.0 <= a < 1.0 && t > 0.0
    ensures 0.0 <= a * t < t
  {
    assert t - a * t == (1.0 - a) * t;
  }

  lemma BelowInt(a: int, b: int)
    requires a as real < b as real
    ensures a < b
  {
  }

  lemma LockStart(x: In)
    requires 0.0 <= x.p.lockPct < 1.0 && x.targetMove > 0
    ensures 0 <= LockShare(x) < x.targetMove
  {
    var y := x.p.lockPct * x.targetMove as real;
    ShareOfPositive(x.p.lockPct, x.targetMove as real);
    TruncBounds(y);
    BelowInt(Trunc(y), x.targetMove);
  }

  /** The runner starts sound, locked at its share of the target and past the lock. */
  lemma EnterStarts(r: State, x: In)
    requires r.phase != Running && 0.0 <= x.p.lockPct < 1.0 && x.targetMove > 0
    ensures var out := Enter(r, x);
            && Sound(out.st)
            && (out.st.phase == Running ==> out.st.lock == LockShare(x) >= 0 && x.move > out.st.lock && out.exit.None?)
  {
    hide LockShare, RoomOk;
    LockStart(x);
  }

  /** A position's run: the state after h and the reason it latched; no step changes anything after that. */
  function Run(h: seq<In>): (State, Option<Reason>) {
    if h == [] then (INITIAL, None)
    else
      var (r, exit) := Run(h[..|h| - 1]);
      if exit.Some? then (r, exit) else var out := Step(r, h[|h| - 1]); (out.st, out.exit)
  }

  /** Inputs of one position under one lock share: target positive, tolerances not negative. */
  predicate Fair(h: seq<In>, lockPct: real, targetMove: int) {
    && 0.0 <= lockPct < 1.0 && targetMove > 0
    && forall i :: 0 <= i < |h| ==> h[i].p.lockPct == lockPct && h[i].targetMove == targetMove && h[i].tol >= 0
  }

  lemma SameShare(x: In, y: In)
    requires x.p.lockPct == y.p.lockPct && x.targetMove == y.targetMove
    ensures LockShare(x) == LockShare(y)
  {
  }

  lemma RatchetedMeans(r: State, s: State, x: In)
    requires Ratcheted(r, s, x)
    ensures s.phase == r.phase && Sound(s) && s.lock >= r.lock
  {
  }

  /** Over any run of ticks and levels, every unlatched running evaluation has
      move > lock >= the lock share of the target. */
  lemma {:induction false} RunRatchet(h: seq<In>, lockPct: real, targetMove: int)
    requires Fair(h, lockPct, targetMove) && h != []
    ensures var (r, exit) := Run(h);
            && Sound(r)
            && (r.phase == Running ==> r.lock >= LockShare(h[0]) >= 0)
            && (r.phase == Running && exit.None? ==> h[|h| - 1].move > r.lock)
  {
    hide Enter, RunStep, LockShare, Ratcheted;
    var init, x := h[..|h| - 1], h[|h| - 1];
    SameShare(x, h[0]);
    if init != [] { RunRatchet(init, lockPct, targetMove); }
    var (r, exit) := Run(init);
    if exit.None? {
      if r.phase == Running {
        Ratchet(r, x);
        RatchetedMeans(r, Step(r, x).st, x);
      } else {
        EnterStarts(r, x);
      }
    }
  }

  /** The lock never falls over a run, however far apart the two evaluations are. */
  lemma {:induction false} LockNeverFalls(h: seq<In>, n: nat, lockPct: real, targetMove: int)
    requires Fair(h, lockPct, targetMove) && n <= |h| && Run(h[..n]).0.phase == Running
    ensures Run(h).0.phase == Running && Run(h).0.lock >= Run(h[..n]).0.lock
  {
    hide Enter, RunStep, Ratcheted;
    if n == |h| {
      assert h[..n] == h;
    } else {
      var init := h[..|h| - 1];
      assert init[..n] == h[..n];
      LockNeverFalls(init, n, lockPct, targetMove);
      RunRatchet(init, lockPct, targetMove);
      if Run(init).1.None? {
        var r, x := Run(init).0, h[|h| - 1];
        Ratchet(r, x);
        RatchetedMeans(r, Step(r, x).st, x);
      }
    }
  }
}
