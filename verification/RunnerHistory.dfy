/** The target runner told from its evaluations alone: when it starts, what it holds to, where its lock is and why it exits. */
module RunnerHistory {
  import opened Common
  import opened Levels
  import opened Runner
  import L = RunnerLadder

  /** The state before evaluation i. */
  function Before(h: seq<In>, i: nat): State
    requires i <= |h|
  {
    Run(h[..i]).0
  }

  predicate Unlatched(h: seq<In>, i: nat)
    requires i <= |h|
  {
    Run(h[..i]).1.None?
  }

  lemma RunNext(h: seq<In>, i: nat)
    requires i < |h| && Unlatched(h, i)
    ensures var out := Step(Before(h, i), h[i]); Before(h, i + 1) == out.st && Run(h[..i + 1]).1 == out.exit
  {
    assert h[..i + 1][..i] == h[..i];
  }

  lemma LatchedStays(h: seq<In>, i: nat)
    requires i < |h| && !Unlatched(h, i)
    ensures Run(h[..i + 1]) == Run(h[..i])
  {
    assert h[..i + 1][..i] == h[..i];
  }

  // ----- The three parts of a running evaluation -----

  predicate StepNews(r: State, x: In) { x.version.Some? && x.version.value != r.bookVer }

  lemma PeakKeeps(r: State, x: In)
    ensures var s := PeakStep(r, x).st;
            && s.next == r.next && s.touched == r.touched && s.beyondSince == r.beyondSince && s.bookVer == r.bookVer
            && s.phase == r.phase && s.start == r.start
            && s.runPeak == Max(r.runPeak, x.move) && s.pbLow == (if x.move > r.runPeak then x.move else Min(r.pbLow, x.move))
  {
  }

  lemma BookKeeps(r: State, x: In)
    ensures var s := BookStep(r, x).st;
            && s.phase == r.phase && s.start == r.start && s.runPeak == r.runPeak && s.pbLow == r.pbLow
            && s.bookVer == if x.version.Some? then x.version.value else r.bookVer
  {
    hide NextLevel, BestBehind, In.MoveOf;
  }

  lemma LadderKeeps(r: State, x: In)
    ensures var s := LadderStep(r, x).st;
            && s.phase == r.phase && s.start == r.start && s.runPeak == r.runPeak && s.pbLow == r.pbLow && s.bookVer == r.bookVer
  {
    hide NextLevel, In.MoveOf;
  }

  /** A running evaluation goes on running since the same time, moves its peak and pullback low and takes over the book version. */
  lemma StepKeeps(r: State, x: In)
    requires r.phase == Running
    ensures var s := Step(r, x).st;
            && s.phase == r.phase && s.start == r.start
            && s.runPeak == Max(r.runPeak, x.move) && s.pbLow == (if x.move > r.runPeak then x.move else Min(r.pbLow, x.move))
            && s.bookVer == if x.version.Some? then x.version.value else r.bookVer
  {
    hide PeakStep, BookStep, LadderStep, ExitReason;
    PeakKeeps(r, x);
    var a := PeakStep(r, x).st;
    BookKeeps(a, x);
    LadderKeeps(BookStep(a, x).st, x);
  }

  // ----- How the runner starts -----

  /** No level more than tol ahead of price is closer than the room asked for. */
  ghost predicate Roomy(x: In) {
    forall l :: l in x.levels && Levels.Ahead(l, x.price, x.sign) > x.tol ==>
      (x.MoveOf(l.price) - x.move) as real >= x.p.minRoomPct * x.targetMove as real
  }

  /** One evaluation of one position: its move is measured from its entry, its levels are in price order. */
  ghost predicate WellFormed(x: In) {
    x.sign in {1, -1} && x.move == x.MoveOf(x.price) && SortedByPrice(x.levels) && x.tol >= 0 && x.now > 0
  }

  /** Evaluation b is the first at or past the target. */
  ghost predicate FirstHit(h: seq<In>, b: nat) {
    b < |h| && h[b].move >= h[b].targetMove && forall i :: 0 <= i < b ==> h[i].move < h[i].targetMove
  }

  lemma {:induction false} WaitsForTarget(h: seq<In>, n: nat)
    requires n <= |h| && forall i :: 0 <= i < n ==> h[i].move < h[i].targetMove
    ensures Unlatched(h, n) && Before(h, n) == INITIAL.(phase := if n == 0 then Unset else Normal)
  {
    if n == 0 {
      assert h[..0] == [];
    } else {
      hide Run, Step;
      WaitsForTarget(h, n - 1);
      RunNext(h, n - 1);
      WaitStep(Before(h, n - 1), h[n - 1]);
    }
  }

  lemma WaitStep(r: State, x: In)
    requires !r.decided && r.phase != Running && x.move < x.targetMove
    ensures Step(r, x) == Out(r.(phase := Normal), [], None)
  {
    hide RoomOk, RunFrom;
  }

  lemma RoomIs(x: In)
    requires WellFormed(x)
    ensures Roomy(x) <==> RoomOk(x)
  {
    NextLevelNearest(x.levels, x.price, x.sign, x.tol);
    hide NextLevel;
    var next := x.Next();
    forall l | l in x.levels ensures x.MoveOf(l.price) - x.move == Levels.Ahead(l, x.price, x.sign) { AheadIsMove(x, l); }
  }

  lemma AheadIsMove(x: In, l: Level)
    requires x.sign in {1, -1} && x.move == x.MoveOf(x.price)
    ensures x.MoveOf(l.price) - x.move == Levels.Ahead(l, x.price, x.sign)
  {
  }

  /** At the first evaluation at or past the target the position is handed to the runner if momentum is strong and no level ahead
      is too close, locked at the lock share, and is otherwise exited there; before it nothing happens. */
  lemma StartsExactly(h: seq<In>, b: nat)
    requires FirstHit(h, b) && WellFormed(h[b])
    ensures Unlatched(h, b) && Before(h, b).phase != Running
    ensures if h[b].strong && Roomy(h[b])
            then Unlatched(h, b + 1) && Before(h, b + 1).phase == Running && Before(h, b + 1).lock == LockShare(h[b])
            else Run(h[..b + 1]).1 == Some(TargetTake)
  {
    hide Roomy, RoomOk, NextLevel, LockShare;
    WaitsForTarget(h, b);
    RunNext(h, b);
    RoomIs(h[b]);
  }

  /** The position was handed to the runner at evaluation b and not latched before the last of the first n evaluations. */
  ghost predicate RunsFrom(h: seq<In>, b: nat, n: nat) {
    && FirstHit(h, b) && b < n <= |h| && h[b].strong && Roomy(h[b]) && Unlatched(h, n - 1)
    && forall i :: 0 <= i < |h| ==> WellFormed(h[i])
  }

  lemma RunsBefore(h: seq<In>, b: nat, n: nat)
    requires RunsFrom(h, b, n) && b + 1 < n
    ensures RunsFrom(h, b, n - 1)
  {
    if !Unlatched(h, n - 2) { LatchedStays(h, n - 2); }
  }

  lemma {:induction false} StaysRunning(h: seq<In>, b: nat, n: nat)
    requires RunsFrom(h, b, n)
    ensures Before(h, n).phase == Running && Before(h, n).start == h[b].now
    decreases n
  {
    hide Roomy, WellFormed, Step, LockShare;
    if n == b + 1 {
      StartsExactly(h, b);
      StartState(h, b);
    } else {
      RunsBefore(h, b, n);
      StaysRunning(h, b, n - 1);
      RunNext(h, n - 1);
      StepKeeps(Before(h, n - 1), h[n - 1]);
    }
  }

  lemma StartState(h: seq<In>, b: nat)
    requires FirstHit(h, b) && WellFormed(h[b]) && h[b].strong && Roomy(h[b])
    ensures Unlatched(h, b + 1)
    ensures var r, x := Before(h, b + 1), h[b];
            && r.phase == Running && r.start == x.now && r.next == x.Next() && r.runPeak == r.pbLow == x.move
            && !r.touched && r.beyondSince == 0 && r.lock == LockShare(x)
            && r.bookVer == (if x.version.Some? then x.version.value else 0)
    ensures Step(Before(h, b), h[b]).events == [Event(TargetRun, h[b].Next(), LockShare(h[b]))]
  {
    hide Roomy, RoomOk, NextLevel, LockShare;
    WaitsForTarget(h, b);
    RunNext(h, b);
    RoomIs(h[b]);
  }

  // ----- Best move and pullback low -----

  /** best is the largest move since evaluation b. */
  ghost predicate BestMove(h: seq<In>, b: nat, n: nat, best: int)
    requires n <= |h|
  {
    (exists i :: b <= i < n && h[i].move == best) && forall i :: b <= i < n ==> h[i].move <= best
  }

  /** Evaluation p went past every one since b. */
  ghost predicate NewBest(h: seq<In>, b: nat, p: nat)
    requires p < |h|
  {
    forall i :: b <= i < p ==> h[i].move < h[p].move
  }

  ghost predicate LowFrom(h: seq<In>, p: nat, n: nat, low: int)
    requires n <= |h|
  {
    (exists i :: p <= i < n && h[i].move == low) && forall i :: p <= i < n ==> h[i].move >= low
  }

  /** low is the smallest move since the last new best. */
  ghost predicate LowSinceBest(h: seq<In>, b: nat, n: nat, low: int)
    requires n <= |h|
  {
    exists p: nat :: LastNewBest(h, b, n, p) && LowFrom(h, p, n, low)
  }

  ghost predicate LastNewBest(h: seq<In>, b: nat, n: nat, p: nat)
    requires n <= |h|
  {
    b <= p < n && NewBest(h, b, p) && forall i :: p < i < n ==> !NewBest(h, b, i)
  }

  /** The peak is the best move since the run began, the low the smallest since that best was new. */
  lemma {:induction false} MovesMean(h: seq<In>, b: nat, n: nat)
    requires RunsFrom(h, b, n)
    ensures BestMove(h, b, n, Before(h, n).runPeak) && LowSinceBest(h, b, n, Before(h, n).pbLow)
    decreases n
  {
    hide Roomy, WellFormed, Step;
    if n == b + 1 {
      StartState(h, b);
      assert LastNewBest(h, b, n, b);
    } else {
      RunsBefore(h, b, n);
      MovesMean(h, b, n - 1);
      RunNext(h, n - 1);
      StaysRunning(h, b, n - 1);
      StepKeeps(Before(h, n - 1), h[n - 1]);
      hide RunsFrom, Run;
      MovesOn(h, b, n - 1, Before(h, n - 1).runPeak, Before(h, n - 1).pbLow);
    }
  }

  lemma MovesOn(h: seq<In>, b: nat, n: nat, best: int, low: int)
    requires b < n < |h| && BestMove(h, b, n, best) && LowSinceBest(h, b, n, low)
    ensures BestMove(h, b, n + 1, Max(best, h[n].move))
    ensures LowSinceBest(h, b, n + 1, if h[n].move > best then h[n].move else Min(low, h[n].move))
  {
    hide LastNewBest, NewBest, LowFrom;
    var j :| b <= j < n && h[j].move == best;
    if h[n].move > best {
      NewBestAt(h, b, n, best);
    } else {
      var p: nat :| LastNewBest(h, b, n, p) && LowFrom(h, p, n, low);
      NoNewBest(h, b, n, j, p);
      LowOn(h, p, n, low);
    }
  }

  lemma NewBestAt(h: seq<In>, b: nat, n: nat, best: int)
    requires b < n < |h| && BestMove(h, b, n, best) && h[n].move > best
    ensures LastNewBest(h, b, n + 1, n) && LowFrom(h, n, n + 1, h[n].move)
  {
  }

  lemma NoNewBest(h: seq<In>, b: nat, n: nat, j: nat, p: nat)
    requires b <= j < n < |h| && h[j].move >= h[n].move && LastNewBest(h, b, n, p)
    ensures b <= p < n && LastNewBest(h, b, n + 1, p)
  {
    assert !NewBest(h, b, n);
  }

  lemma LowOn(h: seq<In>, p: nat, n: nat, low: int)
    requires p < n < |h| && LowFrom(h, p, n, low)
    ensures LowFrom(h, p, n + 1, Min(low, h[n].move))
  {
    var i :| p <= i < n && h[i].move == low;
  }

  // ----- The target in force -----

  /** The book version last seen since evaluation b, 0 when there was none. */
  function LastVersion(h: seq<In>, b: nat, n: nat): int
    requires n <= |h|
  {
    if n <= b then 0 else if h[n - 1].version.Some? then h[n - 1].version.value else LastVersion(h, b, n - 1)
  }

  /** Evaluation i sees a book version it has not seen. */
  predicate NewsAt(h: seq<In>, b: nat, i: nat)
    requires i < |h|
  {
    h[i].version.Some? && h[i].version.value != LastVersion(h, b, i)
  }

  /** A closer level ahead of price than the target, or one where there was no target. */
  predicate CloserAhead(x: In, target: Option<Level>) {
    x.Next().Some? && (target.None? || x.MoveOf(x.Next().value.price) < x.MoveOf(target.value.price))
  }

  ghost predicate AimsAhead(h: seq<In>, b: nat, i: nat)
    requires b < i < |h|
    decreases i, 0
  {
    NewsAt(h, b, i) && CloserAhead(h[i], Target(h, b, i))
  }

  /** The evaluation's move is more than its tolerance past the level. */
  predicate LeftBehind(x: In, l: Level) { x.move - x.MoveOf(l.price) > x.tol }

  /** The evaluation came within its tolerance of the level, or past it. */
  predicate Reached(x: In, l: Level) { x.MoveOf(l.price) - x.move <= x.tol }

  /** Every evaluation from j to i left the level behind, j being the first of them since the target was set at s. */
  ghost predicate HeldBeyond(h: seq<In>, s: nat, j: nat, i: nat, l: Level)
    requires i < |h|
  {
    s < j <= i && (forall m :: j <= m <= i ==> LeftBehind(h[m], l)) && (j == s + 1 || !LeftBehind(h[j - 1], l))
  }

  /** Evaluation i breaks the target: it has been left behind for the break time. */
  ghost predicate BreaksHere(h: seq<In>, b: nat, i: nat)
    requires b < i < |h|
    decreases i, 1
  {
    && Target(h, b, i).Some? && !AimsAhead(h, b, i)
    && exists j: nat :: HeldBeyond(h, SetIdx(h, b, i), j, i, Target(h, b, i).value) && h[i].now - h[j].now >= h[i].breakN
  }

  ghost predicate SetsTarget(h: seq<In>, b: nat, i: nat)
    requires b < i < |h|
    decreases i, 2
  {
    AimsAhead(h, b, i) || BreaksHere(h, b, i)
  }

  /** The target in force after n evaluations: the level ahead at the evaluation that set it. */
  ghost function Target(h: seq<In>, b: nat, n: nat): Option<Level>
    requires b < n <= |h|
    decreases n - 1, 4
  {
    h[SetIdx(h, b, n)].Next()
  }

  /** The last of the first n evaluations to set a target. */
  ghost function SetIdx(h: seq<In>, b: nat, n: nat): (s: nat)
    requires b < n <= |h|
    ensures b <= s < n
    decreases n - 1, 3
  {
    if n == b + 1 then b else if SetsTarget(h, b, n - 1) then n - 1 else SetIdx(h, b, n - 1)
  }

  /** How one running evaluation breaks its target, in terms of the state. */
  predicate StepBreaks(r: State, x: In, news: bool) {
    && r.next.Some? && !(news && CloserAhead(x, r.next)) && LeftBehind(x, r.next.value)
    && x.now - (if r.beyondSince == 0 then x.now else r.beyondSince) >= x.breakN
  }

  lemma BookTarget(r: State, x: In)
    ensures var s := BookStep(r, x).st;
            if StepNews(r, x) && CloserAhead(x, r.next) then s.next == x.Next() && !s.touched && s.beyondSince == 0
            else s.next == r.next && s.touched == r.touched && s.beyondSince == r.beyondSince
  {
    hide NextLevel, BestBehind, In.MoveOf;
  }

  lemma LadderTarget(r: State, x: In)
    requires x.tol >= 0
    ensures var s := LadderStep(r, x).st;
            if StepBreaks(r, x, false) then s.next == x.Next() && !s.touched && s.beyondSince == 0
            else TargetKept(r, x, s)
  {
    hide NextLevel, In.MoveOf;
  }

  /** An evaluation that leaves the target as it is: whether it was reached, and since when it has been left behind. */
  predicate TargetKept(r: State, x: In, s: State) {
    && s.next == r.next
    && s.touched == (r.touched || (r.next.Some? && Reached(x, r.next.value)))
    && (r.next.Some? ==> s.beyondSince == if !LeftBehind(x, r.next.value) then 0
                                          else if r.beyondSince == 0 then x.now else r.beyondSince)
    && (r.next.None? ==> s.beyondSince == r.beyondSince)
  }

  lemma TargetStep(r: State, x: In)
    requires r.phase == Running && WellFormed(x)
    ensures var s, news := Step(r, x).st, StepNews(r, x);
            if (news && CloserAhead(x, r.next)) || StepBreaks(r, x, news) then s.next == x.Next() && !s.touched && s.beyondSince == 0
            else TargetKept(r, x, s)
  {
    hide PeakStep, BookStep, LadderStep, NextLevel, ExitReason, In.MoveOf, SortedByPrice;
    L.NextMove(x);
    PeakKeeps(r, x);
    var a := PeakStep(r, x).st;
    BookTarget(a, x);
    LadderTarget(BookStep(a, x).st, x);
  }

  /** Touched means some evaluation since the target was set came within its tolerance of it; the time beyond is that of the first
      of the evaluations, up to the last, that left it behind. */
  ghost predicate TargetOk(h: seq<In>, b: nat, n: nat)
    requires b < n <= |h|
  {
    var r, s := Before(h, n), SetIdx(h, b, n);
    && r.bookVer == LastVersion(h, b, n) && r.next == Target(h, b, n)
    && (r.touched <==> r.next.Some? && ReachedSince(h, s, n, r.next.value))
    && (if r.next.Some? && n - 1 > s && LeftBehind(h[n - 1], r.next.value)
        then exists j: nat :: HeldBeyond(h, s, j, n - 1, r.next.value) && r.beyondSince == h[j].now
        else r.beyondSince == 0)
  }

  ghost predicate ReachedSince(h: seq<In>, s: nat, n: nat, l: Level)
    requires n <= |h|
  {
    exists j: nat :: s < j < n && Reached(h[j], l)
  }

  lemma {:induction false} TargetMeans(h: seq<In>, b: nat, n: nat)
    requires RunsFrom(h, b, n)
    ensures TargetOk(h, b, n)
    decreases n
  {
    hide Roomy, WellFormed, Step, Run, TargetOk;
    if n == b + 1 {
      StartState(h, b);
      TargetStarts(h, b);
    } else {
      RunsBefore(h, b, n);
      TargetMeans(h, b, n - 1);
      RunNext(h, n - 1);
      StaysRunning(h, b, n - 1);
      TargetStep(Before(h, n - 1), h[n - 1]);
      StepKeeps(Before(h, n - 1), h[n - 1]);
      Positive(h, b, n);
      TargetOn(h, b, n - 1);
    }
  }

  lemma Positive(h: seq<In>, b: nat, n: nat)
    requires RunsFrom(h, b, n)
    ensures forall i :: 0 <= i < |h| ==> h[i].now > 0
  {
  }

  lemma TargetStarts(h: seq<In>, b: nat)
    requires b < |h|
    requires var r := Before(h, b + 1);
             r.next == h[b].Next() && !r.touched && r.beyondSince == 0 && r.bookVer == if h[b].version.Some? then h[b].version.value else 0
    ensures TargetOk(h, b, b + 1)
  {
    hide Run;
    assert LastVersion(h, b, b) == 0;
  }

  /** StepBreaks is BreaksHere. */
  lemma BreaksMean(h: seq<In>, b: nat, n: nat)
    requires b < n < |h| && TargetOk(h, b, n) && forall i :: 0 <= i < |h| ==> h[i].now > 0
    ensures StepNews(Before(h, n), h[n]) == NewsAt(h, b, n)
    ensures StepBreaks(Before(h, n), h[n], NewsAt(h, b, n)) <==> BreaksHere(h, b, n)
  {
    hide Run, CloserAhead;
    var r, x, s := Before(h, n), h[n], SetIdx(h, b, n);
    if r.next.Some? && LeftBehind(x, r.next.value) {
      var j := BeyondRun(h, s, n, r.next.value, r.beyondSince);
      assert HeldBeyond(h, s, j, n, r.next.value);
      forall k: nat | HeldBeyond(h, s, k, n, r.next.value) ensures k == j { OneRun(h, s, j, k, n, r.next.value); }
    }
  }

  /** The run of evaluations beyond the level that ends with n. */
  lemma BeyondRun(h: seq<In>, s: nat, n: nat, l: Level, since: int) returns (j: nat)
    requires s < n < |h| && LeftBehind(h[n], l)
    requires if n - 1 > s && LeftBehind(h[n - 1], l) then exists j: nat :: HeldBeyond(h, s, j, n - 1, l) && since == h[j].now
             else since == 0
    requires forall i :: 0 <= i < |h| ==> h[i].now > 0
    ensures HeldBeyond(h, s, j, n, l) && h[j].now == if since == 0 then h[n].now else since
  {
    hide LeftBehind;
    if n - 1 > s && LeftBehind(h[n - 1], l) {
      j :| HeldBeyond(h, s, j, n - 1, l) && since == h[j].now;
    } else {
      j := n;
    }
  }

  lemma OneRun(h: seq<In>, s: nat, j: nat, k: nat, n: nat, l: Level)
    requires n < |h| && HeldBeyond(h, s, j, n, l) && HeldBeyond(h, s, k, n, l)
    ensures j == k
  {
    hide LeftBehind;
  }

  lemma TargetOn(h: seq<In>, b: nat, n: nat)
    requires b < n < |h| && TargetOk(h, b, n) && forall i :: 0 <= i < |h| ==> h[i].now > 0
    requires var r, x, s := Before(h, n), h[n], Before(h, n + 1);
             var news := StepNews(r, x);
             && s.bookVer == (if x.version.Some? then x.version.value else r.bookVer)
             && if (news && CloserAhead(x, r.next)) || StepBreaks(r, x, news) then s.next == x.Next() && !s.touched && s.beyondSince == 0
                else TargetKept(r, x, s)
    ensures TargetOk(h, b, n + 1)
  {
    hide Run, CloserAhead, LeftBehind, Reached, TargetKept;
    BreaksMean(h, b, n);
    hide StepBreaks, BreaksHere, StepNews, NewsAt, HeldBeyond, ReachedSince;
    var r, x := Before(h, n), h[n];
    assert SetsTarget(h, b, n) <==> (StepNews(r, x) && CloserAhead(x, r.next)) || StepBreaks(r, x, StepNews(r, x));
    hide Before;
    if SetsTarget(h, b, n) { TargetReset(h, b, n); } else { TargetStays(h, b, n); }
  }

  lemma TargetReset(h: seq<In>, b: nat, n: nat)
    requires b < n < |h| && TargetOk(h, b, n) && SetsTarget(h, b, n)
    requires var r, x, s := Before(h, n), h[n], Before(h, n + 1);
             && s.bookVer == (if x.version.Some? then x.version.value else r.bookVer)
             && s.next == x.Next() && !s.touched && s.beyondSince == 0
    ensures TargetOk(h, b, n + 1)
  {
    hide Before, SetsTarget, CloserAhead, LeftBehind, Reached, HeldBeyond, NextLevel;
    assert SetIdx(h, b, n + 1) == n && Target(h, b, n + 1) == h[n].Next();
  }

  lemma TargetStays(h: seq<In>, b: nat, n: nat)
    requires b < n < |h| && TargetOk(h, b, n) && !SetsTarget(h, b, n) && forall i :: 0 <= i < |h| ==> h[i].now > 0
    requires var r, x, s := Before(h, n), h[n], Before(h, n + 1);
             s.bookVer == (if x.version.Some? then x.version.value else r.bookVer) && TargetKept(r, x, s)
    ensures TargetOk(h, b, n + 1)
  {
    hide Before, SetsTarget, CloserAhead, LeftBehind, Reached, HeldBeyond, NextLevel;
    var r, x, s := Before(h, n), h[n], SetIdx(h, b, n);
    assert SetIdx(h, b, n + 1) == s && Target(h, b, n + 1) == Target(h, b, n);
    hide SetIdx, Target;
    if r.next.Some? {
      assert ReachedSince(h, s, n + 1, r.next.value) <==> ReachedSince(h, s, n, r.next.value) || Reached(x, r.next.value);
      if LeftBehind(x, r.next.value) {
        var j := BeyondRun(h, s, n, r.next.value, r.beyondSince);
      }
    }
  }

  // ----- The lock -----

  /** A level that became known during the run and lies more than the tolerance behind price. */
  predicate FormedBehind(l: Level, start: int, x: In) {
    l.typ !in {DayHigh, DayLow} && l.since >= start && x.MoveOf(l.price) < x.move - x.tol
  }

  /** A lock one running evaluation offers, in terms of the state: under a settled pullback, behind the levels of a new book,
      behind the level it breaks. */
  ghost predicate StepOffer(r: State, x: In, v: int) {
    || PeakOffer(r, x, v)
    || (StepNews(r, x) && LevelOffer(r.start, x, v))
    || (StepBreaks(r, x, StepNews(r, x)) && v == x.MoveOf(r.next.value.price) - x.tol)
  }

  predicate PeakOffer(r: State, x: In, v: int) {
    x.move > r.runPeak && r.runPeak - r.pbLow >= x.rej && v == r.pbLow - x.tol
  }

  ghost predicate LevelOffer(start: int, x: In, v: int) {
    exists l :: l in x.levels && FormedBehind(l, start, x) && v == x.MoveOf(l.price) - x.tol
  }

  lemma PeakLock(r: State, x: In)
    ensures var s := PeakStep(r, x).st;
            s.lock >= r.lock && (s.lock == r.lock || PeakOffer(r, x, s.lock)) && forall v :: PeakOffer(r, x, v) ==> v <= s.lock
  {
  }

  lemma BookLock(r: State, x: In)
    ensures var s := BookStep(r, x).st;
            if StepNews(r, x)
            then s.lock >= r.lock && (s.lock == r.lock || LevelOffer(r.start, x, s.lock)) && forall v :: LevelOffer(r.start, x, v) ==> v <= s.lock
            else s.lock == r.lock
  {
    hide NextLevel, BestBehind, In.MoveOf;
    if StepNews(r, x) {
      var a := AheadStep(r.(bookVer := x.version.value), x).st;
      BestBehindRaises(x.levels, a, x);
      hide AheadStep;
      AheadKeeps(r.(bookVer := x.version.value), x);
      var s := BookStep(r, x).st;
      assert s == BehindStep(a, x).st;
      forall v | LevelOffer(r.start, x, v) ensures v <= s.lock {
        var l :| l in x.levels && FormedBehind(l, r.start, x) && v == x.MoveOf(l.price) - x.tol;
        assert v > a.lock ==> Raises(l, a, x);
      }
    }
  }

  lemma AheadKeeps(r: State, x: In)
    ensures AheadStep(r, x).st.lock == r.lock && AheadStep(r, x).st.start == r.start
  {
    hide NextLevel, In.MoveOf;
  }

  lemma LadderLock(r: State, x: In)
    ensures LadderStep(r, x).st.lock ==
            if StepBreaks(r, x, false) then Max(r.lock, x.MoveOf(r.next.value.price) - x.tol) else r.lock
  {
    hide NextLevel, In.MoveOf;
  }

  /** What the ladder breaks is what the evaluation breaks: a level just aimed for lies ahead. */
  lemma BreaksAfterBook(r: State, x: In)
    requires r.phase == Running && WellFormed(x)
    ensures var b := BookStep(PeakStep(r, x).st, x).st;
            StepBreaks(b, x, false) == StepBreaks(r, x, StepNews(r, x)) && (StepBreaks(b, x, false) ==> b.next == r.next)
  {
    hide PeakStep, BookStep, LadderStep, NextLevel, In.MoveOf, SortedByPrice;
    L.NextMove(x);
    PeakKeeps(r, x);
    BookTarget(PeakStep(r, x).st, x);
  }

  /** One evaluation raises the lock to the largest offer above it. */
  lemma StepLock(r: State, x: In)
    requires r.phase == Running && WellFormed(x)
    ensures var s := Step(r, x).st;
            s.lock >= r.lock && (s.lock == r.lock || StepOffer(r, x, s.lock)) && forall v :: StepOffer(r, x, v) ==> v <= s.lock
  {
    BreaksAfterBook(r, x);
    hide PeakStep, BookStep, LadderStep, NextLevel, ExitReason, In.MoveOf, WellFormed, StepBreaks, PeakOffer, LevelOffer;
    var a := PeakStep(r, x).st;
    PeakKeeps(r, x);
    PeakLock(r, x);
    BookLock(a, x);
    LadderLock(BookStep(a, x).st, x);
    assert StepNews(a, x) == StepNews(r, x);
    assert forall v :: PeakOffer(r, x, v) ==> v <= a.lock;
  }

  /** Evaluation i settles a pullback: it goes past a best from which price had fallen by its rejection points. */
  ghost predicate PullbackOffer(h: seq<In>, b: nat, i: nat, v: int)
    requires b < i < |h|
  {
    exists best, low :: BestMove(h, b, i, best) && LowSinceBest(h, b, i, low) && h[i].move > best && best - low >= h[i].rej && v == low - h[i].tol
  }

  /** Evaluation i breaks its target: the lock goes behind it. */
  ghost predicate BreakOffer(h: seq<In>, b: nat, i: nat, v: int)
    requires b < i < |h|
  {
    BreaksHere(h, b, i) && v == h[i].MoveOf(Target(h, b, i).value.price) - h[i].tol
  }

  /** Evaluation i offers a lock under a settled pullback or behind a level of a new book. */
  ghost predicate Supported(h: seq<In>, b: nat, i: nat, v: int)
    requires b < i < |h|
  {
    PullbackOffer(h, b, i, v) || (NewsAt(h, b, i) && LevelOffer(h[b].now, h[i], v))
  }

  ghost predicate Offered(h: seq<In>, b: nat, i: nat, v: int)
    requires b < i < |h|
  {
    Supported(h, b, i, v) || BreakOffer(h, b, i, v)
  }

  /** The lock share or an offer since, none of which is larger. */
  ghost predicate LockIs(h: seq<In>, b: nat, n: nat, lock: int)
    requires b < n <= |h|
  {
    && lock >= LockShare(h[b])
    && (lock == LockShare(h[b]) || exists i: nat :: b < i < n && Offered(h, b, i, lock))
    && forall i: nat, v :: b < i < n && Offered(h, b, i, v) ==> v <= lock
  }

  lemma BestIsUnique(h: seq<In>, b: nat, n: nat, best: int, low: int, best': int, low': int)
    requires b < n <= |h| && BestMove(h, b, n, best) && BestMove(h, b, n, best') && LowSinceBest(h, b, n, low) && LowSinceBest(h, b, n, low')
    ensures best == best' && low == low'
  {
    var p: nat, q: nat :| LastNewBest(h, b, n, p) && LowFrom(h, p, n, low) && LastNewBest(h, b, n, q) && LowFrom(h, q, n, low');
    assert p == q by { hide NewBest; }
  }

  lemma PullbackIs(h: seq<In>, b: nat, n: nat, v: int)
    requires RunsFrom(h, b, n) && n < |h|
    ensures PeakOffer(Before(h, n), h[n], v) <==> PullbackOffer(h, b, n, v)
  {
    MovesMean(h, b, n);
    var r := Before(h, n);
    hide RunsFrom, Before, BestMove, LowSinceBest;
    if PullbackOffer(h, b, n, v) {
      var best, low :| BestMove(h, b, n, best) && LowSinceBest(h, b, n, low) && h[n].move > best && best - low >= h[n].rej && v == low - h[n].tol;
      BestIsUnique(h, b, n, best, low, r.runPeak, r.pbLow);
    }
  }

  lemma OfferIs(h: seq<In>, b: nat, n: nat, v: int)
    requires RunsFrom(h, b, n) && n < |h|
    ensures StepOffer(Before(h, n), h[n], v) <==> Offered(h, b, n, v)
  {
    PullbackIs(h, b, n, v);
    TargetMeans(h, b, n);
    StaysRunning(h, b, n);
    Positive(h, b, n);
    BreaksMean(h, b, n);
    var r := Before(h, n);
    assert r.next == Target(h, b, n);
    hide RunsFrom, Before, TargetOk, StepBreaks, BreaksHere, StepNews, NewsAt, PeakOffer, PullbackOffer, LevelOffer, In.MoveOf, AimsAhead, Target;
  }

  /** After every evaluation of a run the lock is the largest of the lock share and everything offered since. */
  lemma {:induction false} LockMeans(h: seq<In>, b: nat, n: nat)
    requires RunsFrom(h, b, n)
    ensures LockIs(h, b, n, Before(h, n).lock)
    decreases n
  {
    hide Roomy, WellFormed, Step, Run, Offered, StepOffer;
    if n == b + 1 {
      StartState(h, b);
    } else {
      RunsBefore(h, b, n);
      LockMeans(h, b, n - 1);
      var m := n - 1;
      var r := Before(h, m);
      RunNext(h, m);
      StaysRunning(h, b, m);
      StepLock(r, h[m]);
      forall v ensures StepOffer(r, h[m], v) <==> Offered(h, b, m, v) { OfferIs(h, b, m, v); }
      hide RunsFrom, Before;
      LockOn(h, b, m, r.lock, Before(h, n).lock);
    }
  }

  lemma LockOn(h: seq<In>, b: nat, n: nat, lock: int, next: int)
    requires b < n < |h| && LockIs(h, b, n, lock)
    requires next >= lock && (next == lock || Offered(h, b, n, next)) && forall v :: Offered(h, b, n, v) ==> v <= next
    ensures LockIs(h, b, n + 1, next)
  {
    hide Offered, LockShare;
  }

  // ----- Why a running evaluation exits -----

  /** The best move is the rejection points past the position's target, and that share of the extension has been given back. */
  predicate GaveBack(x: In, best: int) {
    var ext := best - x.targetMove;
    ext >= x.rej && (best - x.move) as real >= x.p.giveback * ext as real
  }

  lemma ExitStep(r: State, x: In)
    requires r.phase == Running
    ensures var out := Step(r, x);
            var s := out.st;
            && (out.exit == Some(Lock) <==> x.move <= s.lock)
            && (out.exit == Some(SrReject) <==> x.move > s.lock && s.touched && s.runPeak - x.move >= x.rej)
            && (out.exit == Some(RunTrail) <==>
                  x.move > s.lock && !(s.touched && s.runPeak - x.move >= x.rej) && GaveBack(x, s.runPeak))
            && out.exit != Some(TargetTake)
  {
    hide PeakStep, BookStep, LadderStep;
  }

  /** Some evaluation since the target in force was set came within its tolerance of it. */
  ghost predicate TargetReached(h: seq<In>, b: nat, n: nat)
    requires b < n <= |h|
  {
    Target(h, b, n).Some? && ReachedSince(h, SetIdx(h, b, n), n, Target(h, b, n).value)
  }

  /** A running evaluation exits at the lock if its move is not above it; above it, on rejection if the target was reached and the
      move is the rejection points under the best of the run; otherwise on the trail if the best is the rejection points past the
      position's target and that share of the extension has been given back; and in no other case. */
  lemma ExitsExactly(h: seq<In>, b: nat, n: nat, best: int, lock: int)
    requires RunsFrom(h, b, n) && b + 1 < n && BestMove(h, b, n, best) && LockIs(h, b, n, lock)
    ensures var x, exit := h[n - 1], Run(h[..n]).1;
            var rejected := TargetReached(h, b, n) && best - x.move >= x.rej;
            && (exit == Some(Lock) <==> x.move <= lock)
            && (exit == Some(SrReject) <==> x.move > lock && rejected)
            && (exit == Some(RunTrail) <==> x.move > lock && !rejected && GaveBack(x, best))
            && exit != Some(TargetTake)
  {
    hide Roomy, WellFormed, Step, Run, GaveBack;
    RunsBefore(h, b, n);
    RunNext(h, n - 1);
    StaysRunning(h, b, n - 1);
    ExitStep(Before(h, n - 1), h[n - 1]);
    MovesMean(h, b, n);
    TargetMeans(h, b, n);
    LockMeans(h, b, n);
    hide Before, RunsFrom;
    LockIsUnique(h, b, n, lock, Before(h, n).lock);
    assert best == Before(h, n).runPeak;
  }

  lemma LockIsUnique(h: seq<In>, b: nat, n: nat, lock: int, lock': int)
    requires b < n <= |h| && LockIs(h, b, n, lock) && LockIs(h, b, n, lock')
    ensures lock == lock'
  {
    hide Offered, LockShare;
  }

  // ----- What a running evaluation reports -----

  /** A reported support is what the lock was raised behind: the low of a settled pullback or a level of the new book. */
  ghost predicate SupportReport(r: State, x: In, e: Event) {
    e.level.Some? && e.lock > r.lock && x.MoveOf(e.level.value.price) - x.tol == e.lock && (PeakOffer(r, x, e.lock) || LevelReport(r, x, e))
  }

  ghost predicate LevelReport(r: State, x: In, e: Event) {
    && e.level.Some? && e.lock > r.lock && x.MoveOf(e.level.value.price) - x.tol == e.lock
    && StepNews(r, x) && e.level.value in x.levels && FormedBehind(e.level.value, r.start, x)
  }

  ghost predicate Supports(r: State, x: In, v: int) { PeakOffer(r, x, v) || (StepNews(r, x) && LevelOffer(r.start, x, v)) }

  /** The events of one evaluation: each is about what happened, and whatever happened is reported. */
  ghost predicate Reports(r: State, x: In, events: seq<Event>, lock: int) {
    && (forall e :: e in events ==> e.kind != TargetRun)
    && (forall e :: e in events && e.kind == NewSupport ==> SupportReport(r, x, e))
    && (forall e :: e in events && e.kind == SrBreak ==> e.level == r.next && e.lock == lock)
    && (forall e :: e in events && e.kind == NewAhead ==> e.level == x.Next())
    && (Told(events, SrBreak) <==> StepBreaks(r, x, StepNews(r, x)))
    && (Told(events, NewAhead) <==> StepNews(r, x) && CloserAhead(x, r.next))
    && (Told(events, NewSupport) <==> exists v :: v > r.lock && Supports(r, x, v))
  }

  predicate Told(events: seq<Event>, kind: EventKind) { exists e :: e in events && e.kind == kind }

  lemma PeakReports(r: State, x: In)
    requires x.sign in {1, -1}
    ensures var out := PeakStep(r, x);
            && (forall e :: e in out.events ==> e.kind == NewSupport && SupportReport(r, x, e))
            && (out.events != [] <==> exists v :: v > r.lock && PeakOffer(r, x, v))
            && out.st.micro == r.micro + (if out.events == [] then [] else [out.events[0].level.value])
  {
    hide StepNews;
    assert x.MoveOf(x.PriceAt(r.pbLow)) == r.pbLow;
    assert PeakStep(r, x).events != [] ==> PeakOffer(r, x, r.pbLow - x.tol);
  }

  lemma BehindReports(r: State, x: In)
    ensures var out := BehindStep(r, x);
            && out.st.micro == r.micro
            && (out.events != [] <==> exists v :: v > r.lock && LevelOffer(r.start, x, v))
            && forall e :: e in out.events ==>
                 && e.kind == NewSupport && e.level.Some? && e.lock > r.lock && x.MoveOf(e.level.value.price) - x.tol == e.lock
                 && e.level.value in x.levels && FormedBehind(e.level.value, r.start, x)
  {
    hide BestBehind, In.MoveOf;
    BestBehindRaises(x.levels, r, x);
    var out := BehindStep(r, x);
    if out.events != [] {
      assert LevelOffer(r.start, x, out.events[0].lock);
    }
    forall v | v > r.lock && LevelOffer(r.start, x, v) ensures out.events != [] {
      var l :| l in x.levels && FormedBehind(l, r.start, x) && v == x.MoveOf(l.price) - x.tol;
      assert Raises(l, r, x);
    }
  }

  lemma BookReports(r: State, x: In)
    ensures var out := BookStep(r, x);
            && out.st.micro == r.micro
            && (forall e :: e in out.events ==> e.kind in {NewSupport, NewAhead})
            && (forall e :: e in out.events && e.kind == NewSupport ==> LevelReport(r, x, e))
            && (forall e :: e in out.events && e.kind == NewAhead ==> e.level == x.Next())
            && (Told(out.events, NewAhead) <==> StepNews(r, x) && CloserAhead(x, r.next))
            && (Told(out.events, NewSupport) <==> StepNews(r, x) && exists v :: v > r.lock && LevelOffer(r.start, x, v))
  {
    hide NextLevel, BestBehind, In.MoveOf, BehindStep, LevelOffer, FormedBehind;
    if StepNews(r, x) {
      var a := AheadStep(r.(bookVer := x.version.value), x);
      var b := BehindStep(a.st, x);
      BehindReports(a.st, x);
      var ev := BookStep(r, x).events;
      assert ev == a.events + b.events;
      assert forall e :: e in ev <==> e in a.events || e in b.events;
      if CloserAhead(x, r.next) { assert a.events[0] in ev && a.events[0].kind == NewAhead; }
      if b.events != [] { assert b.events[0] in ev && b.events[0].kind == NewSupport; }
    }
  }

  lemma LadderReports(r: State, x: In)
    ensures var out := LadderStep(r, x);
            && out.st.micro == r.micro
            && out.events == if StepBreaks(r, x, false) then [Event(SrBreak, r.next, out.st.lock)] else []
  {
    hide NextLevel, In.MoveOf;
  }

  lemma StepReports(r: State, x: In)
    requires r.phase == Running && WellFormed(x)
    ensures var out := Step(r, x);
            && Reports(r, x, out.events, out.st.lock)
            && out.st.micro == r.micro + (if exists v :: v > r.lock && PeakOffer(r, x, v) then [out.events[0].level.value] else [])
  {
    BreaksAfterBook(r, x);
    PeakReports(r, x);
    PeakKeeps(r, x);
    PeakLock(r, x);
    hide PeakStep, BookStep, LadderStep, NextLevel, ExitReason, In.MoveOf, WellFormed, StepBreaks, PeakOffer, LevelOffer, CloserAhead, FormedBehind;
    var a := PeakStep(r, x);
    var b := BookStep(a.st, x);
    var c := LadderStep(b.st, x);
    BookReports(a.st, x);
    LadderReports(b.st, x);
    assert StepNews(a.st, x) == StepNews(r, x);
    assert Step(r, x).events == a.events + b.events + c.events;
    Join(r, x, a.st, a.events, b.events, c.events, c.st.lock);
  }

  lemma Join(r: State, x: In, a: State, aev: seq<Event>, bev: seq<Event>, cev: seq<Event>, lock: int)
    requires a.next == r.next && a.start == r.start && a.lock >= r.lock && StepNews(a, x) == StepNews(r, x)
    requires forall e :: e in aev ==> e.kind == NewSupport && SupportReport(r, x, e)
    requires aev != [] <==> exists v :: v > r.lock && PeakOffer(r, x, v)
    requires a.lock == r.lock || aev != []
    requires forall e :: e in bev ==> e.kind in {NewSupport, NewAhead}
    requires forall e :: e in bev && e.kind == NewSupport ==> LevelReport(a, x, e)
    requires forall e :: e in bev && e.kind == NewAhead ==> e.level == x.Next()
    requires Told(bev, NewAhead) <==> StepNews(a, x) && CloserAhead(x, a.next)
    requires Told(bev, NewSupport) <==> StepNews(a, x) && exists v :: v > a.lock && LevelOffer(a.start, x, v)
    requires cev == if StepBreaks(r, x, StepNews(r, x)) then [Event(SrBreak, r.next, lock)] else []
    ensures Reports(r, x, aev + bev + cev, lock)
  {
    hide NextLevel, In.MoveOf, StepBreaks, PeakOffer, LevelOffer, CloserAhead, FormedBehind, StepNews;
    var ev := aev + bev + cev;
    assert forall e :: e in ev <==> e in aev || e in bev || e in cev;
    if aev != [] { assert aev[0] in ev && aev[0].kind == NewSupport; }
    if cev != [] { assert cev[0] in ev && cev[0].kind == SrBreak; }
    assert forall e :: e in bev && e.kind == NewSupport ==> SupportReport(r, x, e);
    assert Told(ev, NewSupport) <==> aev != [] || Told(bev, NewSupport);
    if v :| v > r.lock && Supports(r, x, v) {
      assert aev != [] || LevelOffer(r.start, x, v);
    }
    if aev != [] {
      var v :| v > r.lock && PeakOffer(r, x, v);
      assert Supports(r, x, v);
    } else if Told(bev, NewSupport) {
      var v :| v > a.lock && LevelOffer(a.start, x, v);
      assert Supports(r, x, v);
    }
  }

  /** In a run the events tell exactly what happened: a break of the target, a closer target ahead, a lock raised behind a settled
      pullback or a level of a new book. */
  lemma ReportsExactly(h: seq<In>, b: nat, n: nat)
    requires RunsFrom(h, b, n) && n < |h| && Unlatched(h, n)
    ensures var events, lock := Step(Before(h, n), h[n]).events, Before(h, n).lock;
            && (Told(events, SrBreak) <==> BreaksHere(h, b, n))
            && (Told(events, NewAhead) <==> AimsAhead(h, b, n))
            && (Told(events, NewSupport) <==> exists v :: v > lock && Supported(h, b, n, v))
            && forall e :: e in events ==>
                 && (e.kind == SrBreak ==> e.level == Target(h, b, n) && e.lock == Before(h, n + 1).lock)
                 && (e.kind == NewAhead ==> e.level == h[n].Next())
                 && (e.kind == NewSupport ==> e.level.Some? && e.lock > lock && Supported(h, b, n, e.lock)
                                              && h[n].MoveOf(e.level.value.price) == e.lock + h[n].tol)
                 && e.kind != TargetRun
  {
    var r, x := Before(h, n), h[n];
    StaysRunning(h, b, n);
    TargetMeans(h, b, n);
    Positive(h, b, n);
    BreaksMean(h, b, n);
    StepReports(r, x);
    RunNext(h, n);
    forall v ensures Supports(r, x, v) <==> Supported(h, b, n, v) { PullbackIs(h, b, n, v); }
    assert r.next == Target(h, b, n);
    assert AimsAhead(h, b, n) <==> NewsAt(h, b, n) && CloserAhead(x, r.next);
    hide Run, Step, TargetOk, RunsFrom, Before;
    ReportsMean(h, b, n, r, Step(r, x).events, Step(r, x).st.lock);
  }

  lemma ReportsMean(h: seq<In>, b: nat, n: nat, r: State, events: seq<Event>, lock: int)
    requires b < n < |h| && Reports(r, h[n], events, lock)
    requires r.next == Target(h, b, n) && StepNews(r, h[n]) == NewsAt(h, b, n)
    requires StepBreaks(r, h[n], StepNews(r, h[n])) <==> BreaksHere(h, b, n)
    requires AimsAhead(h, b, n) <==> NewsAt(h, b, n) && CloserAhead(h[n], r.next)
    requires forall v :: Supports(r, h[n], v) <==> Supported(h, b, n, v)
    ensures Told(events, SrBreak) <==> BreaksHere(h, b, n)
    ensures Told(events, NewAhead) <==> AimsAhead(h, b, n)
    ensures Told(events, NewSupport) <==> exists v :: v > r.lock && Supported(h, b, n, v)
    ensures forall e :: e in events ==>
              && (e.kind == SrBreak ==> e.level == Target(h, b, n) && e.lock == lock)
              && (e.kind == NewAhead ==> e.level == h[n].Next())
              && (e.kind == NewSupport ==> e.level.Some? && e.lock > r.lock && Supported(h, b, n, e.lock)
                                           && h[n].MoveOf(e.level.value.price) == e.lock + h[n].tol)
              && e.kind != TargetRun
  {
    hide StepBreaks, BreaksHere, StepNews, NewsAt, Supported, PeakOffer, In.MoveOf, AimsAhead, Target, Told, NextLevel, CloserAhead;
    forall e | e in events && e.kind == NewSupport ensures Supports(r, h[n], e.lock) {
      assert LevelReport(r, h[n], e) ==> LevelOffer(r.start, h[n], e.lock);
    }
  }

  lemma MicroStep(r: State, x: In)
    requires r.phase == Running && x.sign in {1, -1}
    ensures var m := Step(r, x).st.micro;
            if exists v :: v > r.lock && PeakOffer(r, x, v)
            then |m| == |r.micro| + 1 && m[..|r.micro|] == r.micro && MicroOf(m[|r.micro|], x) && PeakOffer(r, x, x.MoveOf(m[|r.micro|].price) - x.tol)
            else m == r.micro
  {
    PeakReports(r, x);
    assert x.MoveOf(x.PriceAt(r.pbLow)) == r.pbLow;
    var a := PeakStep(r, x);
    assert a.events != [] ==> MicroOf(a.events[0].level.value, x) && PeakOffer(r, x, r.pbLow - x.tol);
    hide PeakStep, BookStep, LadderStep, ExitReason, PeakOffer, In.MoveOf, MicroOf;
    BookReports(a.st, x);
    LadderReports(BookStep(a.st, x).st, x);
  }

  /** A support or resistance the run found itself: of the side price came back to, dated by the evaluation that settled it. */
  predicate MicroOf(l: Level, x: In) {
    (l.typ == if x.sign == 1 then MicroLow else MicroHigh) && l.since == x.now && !l.strong && l.tags == [] && l.touches == 0
  }

  /** A run finds one level at each evaluation that settles a pullback above the lock, at the pullback's low, and no others. */
  lemma MicroExactly(h: seq<In>, b: nat, n: nat)
    requires RunsFrom(h, b, n) && n < |h| && Unlatched(h, n)
    ensures var was, micro, lock := Before(h, n).micro, Before(h, n + 1).micro, Before(h, n).lock;
            if exists v :: v > lock && PullbackOffer(h, b, n, v)
            then |micro| == |was| + 1 && micro[..|was|] == was && MicroOf(micro[|was|], h[n])
                 && PullbackOffer(h, b, n, h[n].MoveOf(micro[|was|].price) - h[n].tol)
            else micro == was
  {
    hide Step, Run, PullbackOffer, PeakOffer, MicroOf, In.MoveOf;
    StaysRunning(h, b, n);
    RunNext(h, n);
    var r, x := Before(h, n), h[n];
    MicroStep(r, x);
    forall v ensures PeakOffer(r, x, v) <==> PullbackOffer(h, b, n, v) { PullbackIs(h, b, n, v); }
  }
}
