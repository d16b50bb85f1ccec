/** The tracker told from its steps alone: what its rules are shown, and which of them latches EXIT at an evaluation. */
module TrackerHistory {
  import opened Common
  import opened Levels
  import opened Tracker
  import R = Runner
  import P = PreReject

  // ----- What the rules are shown -----

  /** y cut to a whole number toward zero. */
  predicate WholePart(n: int, y: real) {
    if y >= 0.0 then n as real <= y < n as real + 1.0 else n as real - 1.0 < y <= n as real
  }

  /** v is the whole paise of y, or low when that is more. */
  ghost predicate WholeFrom(v: int, y: real, low: int) {
    v >= low && exists n :: WholePart(n, y) && v >= n && (v == n || v == low)
  }

  lemma TruncIs(y: real)
    ensures WholePart(Trunc(y), y)
  {
  }

  lemma MaxIsFrom(y: real, low: int)
    ensures WholeFrom(Max(Trunc(y), low), y, low)
  {
    TruncIs(y);
  }

  /** Both rules see the same position, levels and clock, a tolerance that is its share of the ATR but not under its least value, and
      rejection points that are theirs. */
  lemma RulesSee(t: State, x: Env)
    ensures var r, p := RunnerIn(t, x), PreIn(t, x);
            && WholeFrom(r.tol, x.atr as real * x.m.tolATR, x.m.tolMin) && p.tol == r.tol
            && WholeFrom(r.rej, x.atr as real * x.m.rejectATR, x.m.rejectMin) && p.rej == r.rej
            && p.levels == r.levels == x.levels && p.price == r.price == t.price && p.move == r.move == t.move
            && p.entry == r.entry == t.entry && p.sign == r.sign == t.sign && p.targetMove == r.targetMove == t.targetMove
            && p.breakN == r.breakN == x.m.breakN && p.now == r.now == x.now
            && r.version == x.version && r.strong == x.strong && p.adx == x.adx && p.bar == x.bar
  {
    MaxIsFrom(x.atr as real * x.m.tolATR, x.m.tolMin);
    MaxIsFrom(x.atr as real * x.m.rejectATR, x.m.rejectMin);
  }

  /** The entry in force after the steps. */
  function EntryAfter(entry: int, ops: seq<Op>): int {
    if ops == [] then entry
    else if ops[|ops| - 1].Moved? then ops[|ops| - 1].entry
    else EntryAfter(entry, ops[..|ops| - 1])
  }

  /** Step j is the last tick. */
  ghost predicate LastTick(ops: seq<Op>, j: nat) {
    j < |ops| && ops[j].Tick? && forall i :: j < i < |ops| ==> !ops[i].Tick?
  }

  ghost predicate NoTick(ops: seq<Op>) { forall op :: op in ops ==> !op.Tick? }

  /** The price is that of the last tick and the move was measured from the entry then in force; the position is a ghost exactly if
      its trade was closed. */
  ghost predicate Sees(t: State, entry: int, sign: int, targetMove: int, ops: seq<Op>) {
    && t.entry == EntryAfter(entry, ops) && t.sign == sign && t.targetMove == targetMove
    && (t.isGhost <==> Ghosted in ops)
    && (t.haveIdx <==> !NoTick(ops))
    && forall j: nat :: LastTick(ops, j) ==> t.price == ops[j].price && t.move == (ops[j].price - EntryAfter(entry, ops[..j])) * sign
  }

  lemma {:induction false} SeesLastTick(entry: int, sign: int, targetMove: int, ops: seq<Op>)
    ensures Sees(Run(NewTracker(entry, sign, targetMove), ops), entry, sign, targetMove, ops)
  {
    if ops != [] {
      hide Apply, Sees;
      var init, op := ops[..|ops| - 1], ops[|ops| - 1];
      SeesLastTick(entry, sign, targetMove, init);
      assert ops == init + [op];
      SeesOn(Run(NewTracker(entry, sign, targetMove), init), entry, sign, targetMove, init, op);
    }
  }

  lemma SeesOn(b: State, entry: int, sign: int, targetMove: int, init: seq<Op>, op: Op)
    requires Sees(b, entry, sign, targetMove, init)
    ensures Sees(Apply(b, op), entry, sign, targetMove, init + [op])
  {
    hide Evaluate, NoTick;
    var ops, t := init + [op], Apply(b, op);
    if op.Assess? { KeepsPosition(b, op.x); }
    assert ops[..|init|] == init && ops[|init|] == op;
    assert forall o :: o in ops <==> o in init || o == op;
    NoTickOn(init, op);
    forall j: nat | LastTick(ops, j)
      ensures t.price == ops[j].price && t.move == (ops[j].price - EntryAfter(entry, ops[..j])) * sign
    {
      LastTickOn(init, op, j);
    }
  }

  lemma NoTickOn(init: seq<Op>, op: Op)
    ensures NoTick(init + [op]) <==> NoTick(init) && !op.Tick?
  {
  }

  lemma LastTickOn(init: seq<Op>, op: Op, j: nat)
    requires LastTick(init + [op], j)
    ensures if op.Tick? then j == |init| else j < |init| && LastTick(init, j)
    ensures j <= |init| && (init + [op])[..j] == init[..j] && (j < |init| ==> (init + [op])[j] == init[j])
  {
    assert (init + [op])[|init|] == op;
    assert forall i :: 0 <= i < |init| ==> (init + [op])[i] == init[i];
  }

  lemma KeepsPosition(t: State, x: Env)
    ensures var next := Evaluate(t, x).0;
            && next.entry == t.entry && next.sign == t.sign && next.targetMove == t.targetMove && next.isGhost == t.isGhost
            && next.haveIdx == t.haveIdx && next.price == t.price && next.move == t.move
  {
    hide P.Step, R.Step, Tolerance, PreIn, RunnerIn;
  }

  // ----- The rules' own runs -----

  /** The target was reached at an evaluation. */
  ghost predicate HitBefore(t: State, ops: seq<Op>) {
    exists j: nat :: HitAt(t, ops, j)
  }

  predicate HitAt(t: State, ops: seq<Op>, j: nat) {
    j < |ops| && ops[j].Assess? && var b := Run(t, ops[..j]); b.haveIdx && b.move >= b.targetMove
  }

  /** The pre-target rule applies to the next evaluation: enabled, on a live trade, the target not reached before. */
  ghost predicate PreApplies(t: State, ops: seq<Op>, x: Env) {
    x.m.preRejectEnabled && !Run(t, ops).isGhost && !HitBefore(t, ops)
  }

  /** What the evaluations showed the runner. */
  function ToRunner(t: State, ops: seq<Op>): seq<R.In> {
    if ops == [] then []
    else
      var init, op := ops[..|ops| - 1], ops[|ops| - 1];
      if op.Assess? && Run(t, init).haveIdx then ToRunner(t, init) + [RunnerIn(Run(t, init), op.x)] else ToRunner(t, init)
  }

  /** What they showed the pre-target rule while it applied. */
  ghost function ToPre(t: State, ops: seq<Op>): seq<P.In> {
    if ops == [] then []
    else
      var init, op := ops[..|ops| - 1], ops[|ops| - 1];
      if op.Assess? && Run(t, init).haveIdx && PreApplies(t, init, op.x) then ToPre(t, init) + [PreIn(Run(t, init), op.x)] else ToPre(t, init)
  }

  lemma DecidedStep(r: R.State, x: R.In)
    requires r.phase == R.Running ==> r.decided
    ensures var next := R.Step(r, x).st;
            (next.phase == R.Running ==> next.decided) && (next.decided <==> r.decided || x.move >= x.targetMove)
  {
    hide NextLevel, R.BestBehind, R.ExitReason, R.RoomOk, R.HasRoom;
    if r.phase == R.Running { RunningDecided(r, x); }
  }

  lemma RunningDecided(r: R.State, x: R.In)
    requires r.phase == R.Running
    ensures R.Step(r, x).st.decided == r.decided && R.Step(r, x).st.phase == r.phase
  {
    hide R.PeakStep, R.BookStep, R.LadderStep, R.ExitReason;
    PartsDecided(r, x);
    var a := R.PeakStep(r, x).st;
    PartsDecided(a, x);
    PartsDecided(R.BookStep(a, x).st, x);
  }

  lemma PartsDecided(r: R.State, x: R.In)
    ensures R.PeakStep(r, x).st.decided == r.decided && R.PeakStep(r, x).st.phase == r.phase
    ensures R.BookStep(r, x).st.decided == r.decided && R.BookStep(r, x).st.phase == r.phase
    ensures R.LadderStep(r, x).st.decided == r.decided && R.LadderStep(r, x).st.phase == r.phase
  {
    hide NextLevel, R.BestBehind, R.In.MoveOf;
  }

  /** What one evaluation of an unlatched tracker does to its rules, and which of them latches it. */
  lemma AssessParts(t: State, x: Env)
    requires t.haveIdx && t.latched.None?
    ensures var next := Evaluate(t, x).0;
            var (pre, rejected) := if PreActive(t, x.m) then P.Step(t.pre, PreIn(t, x)) else (t.pre, false);
            var out := R.Step(t.run, RunnerIn(t, x));
            && (next.latched == Some(PreRejected) <==> rejected)
            && (!rejected && out.exit.Some? ==> next.latched == Some(OfRunner(out.exit.value)))
            && (!rejected && out.exit.None? ==>
                  var (d, decision) := Decide(t.(pre := pre, run := out.st), x);
                  next == Relabel(d, x))
            && (next.latched.None? ==> !rejected && out.exit.None? && next.pre == pre && next.run == out.st)
  {
    hide P.Step, R.Step, Tolerance, Rejection;
  }

  predicate Fresh(t: State) {
    t.run == R.INITIAL && t.pre == P.INITIAL && t.latched.None? && !t.hasText && t.aboveSince == 0 && !t.haveIdx
  }

  /** While unlatched, both rules are in the state their own runs over what they were shown end in, and the runner has decided exactly
      if the target was reached. */
  ghost predicate RulesAre(t: State, ops: seq<Op>, b: State) {
    && b.run == R.Run(ToRunner(t, ops)).0 && R.Run(ToRunner(t, ops)).1.None?
    && b.pre == P.Run(ToPre(t, ops))
    && (b.run.phase == R.Running ==> b.run.decided) && (b.run.decided <==> HitBefore(t, ops)) && !b.hasText
  }

  lemma HitOn(t: State, init: seq<Op>, op: Op)
    ensures HitBefore(t, init + [op]) <==> HitBefore(t, init) || (op.Assess? && Run(t, init).haveIdx && Run(t, init).move >= Run(t, init).targetMove)
  {
    hide Run;
    var ops := init + [op];
    assert ops[..|init|] == init && ops[|init|] == op;
    forall j: nat | j < |init| ensures HitAt(t, ops, j) == HitAt(t, init, j) {
      assert ops[..j] == init[..j] && ops[j] == init[j];
    }
    if op.Assess? && Run(t, init).haveIdx && Run(t, init).move >= Run(t, init).targetMove { assert HitAt(t, ops, |init|); }
    if HitBefore(t, init) {
      var j: nat :| HitAt(t, init, j);
      assert HitAt(t, ops, j);
    }
  }

  lemma {:induction false} RulesRun(t: State, ops: seq<Op>)
    requires Fresh(t)
    ensures Run(t, ops).latched.None? ==> RulesAre(t, ops, Run(t, ops))
  {
    hide Evaluate, RulesAre;
    if ops == [] {
      RulesStart(t);
    } else {
      var init, op := ops[..|ops| - 1], ops[|ops| - 1];
      assert ops == init + [op];
      RulesRun(t, init);
      var b := Run(t, init);
      if Run(t, ops).latched.None? {
        if op.Assess? { StaysUnlatched(b, op.x); } else { AboveKept(b, op); }
        hide Run;
        if op.Assess? && b.haveIdx { RulesFed(t, init, b, op.x); } else { RulesIdle(t, init, b, op); }
      }
    }
  }

  lemma RulesStart(t: State)
    requires Fresh(t)
    ensures RulesAre(t, [], t)
  {
    assert !HitBefore(t, []);
  }

  lemma RulesFed(t: State, init: seq<Op>, b: State, x: Env)
    requires b == Run(t, init) && RulesAre(t, init, b) && b.haveIdx && b.latched.None? && Evaluate(b, x).0.latched.None?
    ensures RulesAre(t, init + [Op.Assess(x)], Evaluate(b, x).0)
  {
    hide P.Step, R.Step, Run, Evaluate, HitBefore, PreIn, RunnerIn, Decide, Relabel;
    AssessParts(b, x);
    HitOn(t, init, Op.Assess(x));
    DecidedStep(b.run, RunnerIn(b, x));
    ApplyIs(t, init, b, x);
    Untold(b, x);
    assert RunnerIn(b, x).move == b.move && RunnerIn(b, x).targetMove == b.targetMove by { RulesSee(b, x); }
    RunSnoc(ToRunner(t, init), RunnerIn(b, x));
    PreSnoc(ToPre(t, init), PreIn(b, x));
  }

  lemma Untold(t: State, x: Env)
    requires !t.hasText && t.latched.None? && Evaluate(t, x).0.latched.None?
    ensures !Evaluate(t, x).0.hasText
  {
    hide P.Step, R.Step, Tolerance;
  }

  lemma RunSnoc(h: seq<R.In>, x: R.In)
    ensures var (r, exit) := R.Run(h);
            exit.None? ==> R.Run(h + [x]) == (R.Step(r, x).st, R.Step(r, x).exit)
  {
    hide R.Step;
    assert (h + [x])[..|h|] == h;
  }

  lemma PreSnoc(h: seq<P.In>, x: P.In)
    ensures P.Run(h + [x]) == P.Step(P.Run(h), x).0
  {
    hide P.Step;
    assert (h + [x])[..|h|] == h;
  }

  /** What the next evaluation adds to the rules' runs. */
  lemma ApplyIs(t: State, init: seq<Op>, b: State, x: Env)
    requires b == Run(t, init) && b.haveIdx
    ensures var ops := init + [Op.Assess(x)];
            && ToRunner(t, ops) == ToRunner(t, init) + [RunnerIn(b, x)]
            && ToPre(t, ops) == (if PreApplies(t, init, x) then ToPre(t, init) + [PreIn(b, x)] else ToPre(t, init))
  {
    hide Run, RunnerIn, PreIn, PreApplies;
    assert (init + [Op.Assess(x)])[..|init|] == init;
  }

  lemma RulesIdle(t: State, init: seq<Op>, b: State, op: Op)
    requires b == Run(t, init) && RulesAre(t, init, b) && (op.Assess? ==> !b.haveIdx)
    ensures RulesAre(t, init + [op], Apply(b, op))
  {
    hide P.Step, R.Step, Run, HitBefore;
    HitOn(t, init, op);
    assert (init + [op])[..|init|] == init;
  }

  // ----- The score -----

  /** The clock is positive and never goes back. */
  predicate Clock(ops: seq<Op>) {
    && (forall i :: 0 <= i < |ops| && ops[i].Assess? ==> ops[i].x.now > 0)
    && forall i, j :: 0 <= i < j < |ops| && ops[i].Assess? && ops[j].Assess? ==> ops[i].x.now <= ops[j].x.now
  }

  /** since is no later than any evaluation from which the score stayed over the threshold. */
  ghost predicate Earliest(t: State, ops: seq<Op>, n: nat, since: int)
    requires n <= |ops|
  {
    forall j: nat :: j < n && OverSince(t, ops, j, n) ==> since != 0 && since <= ops[j].x.now
  }

  /** What one evaluation does to the time the score first reached the threshold. */
  lemma AboveBecomes(t: State, x: Env)
    requires t.haveIdx && t.latched.None? && Evaluate(t, x).0.latched.None?
    ensures Evaluate(t, x).0.aboveSince == if x.score < x.m.exitP then 0 else if t.aboveSince == 0 then x.now else t.aboveSince
  {
    hide P.Step, R.Step, Tolerance, PreIn, RunnerIn, PreActive;
  }

  lemma OverOn(t: State, ops: seq<Op>, j: nat, n: nat)
    requires j < n < |ops|
    ensures OverSince(t, ops, j, n + 1) <==> OverSince(t, ops, j, n) && (ops[n].Assess? ==> OverAt(t, ops, n))
  {
    hide OverAt;
  }

  /** While unlatched, the recorded time is the earliest from which the score stayed over the threshold. */
  lemma {:induction false} AboveIsFirst(t: State, ops: seq<Op>, n: nat)
    requires n <= |ops| && Fresh(t) && Clock(ops)
    ensures Run(t, ops[..n]).latched.None? ==> Earliest(t, ops, n, Run(t, ops[..n]).aboveSince)
  {
    if n > 0 {
      hide Run, Evaluate, OverSince, Earliest;
      var m := n - 1;
      AboveIsFirst(t, ops, m);
      RunNext(t, ops, m);
      var b := Run(t, ops[..m]);
      if Run(t, ops[..n]).latched.None? {
        if ops[m].Assess? {
          StaysUnlatched(b, ops[m].x);
          AboveSinceBegan(t, ops, m);
          EarliestOn(t, ops, m, b);
        } else {
          AboveKept(b, ops[m]);
          EarliestKept(t, ops, m, b.aboveSince);
        }
      }
    }
  }

  lemma EarliestKept(t: State, ops: seq<Op>, n: nat, since: int)
    requires n < |ops| && Earliest(t, ops, n, since) && !ops[n].Assess?
    ensures Earliest(t, ops, n + 1, since)
  {
    assert !OverAt(t, ops, n);
    hide OverAt;
    forall j: nat | j < n { OverOn(t, ops, j, n); }
  }

  lemma EarliestOn(t: State, ops: seq<Op>, n: nat, b: State)
    requires n < |ops| && ops[n].Assess? && Clock(ops) && b == Run(t, ops[..n]) && Earliest(t, ops, n, b.aboveSince)
    requires b.latched.None? && Evaluate(b, ops[n].x).0.latched.None?
    requires b.aboveSince != 0 ==> b.haveIdx && Began(t, ops, n, b.aboveSince)
    ensures Earliest(t, ops, n + 1, Evaluate(b, ops[n].x).0.aboveSince)
  {
    hide Run, Evaluate;
    var x := ops[n].x;
    if b.haveIdx && x.score >= x.m.exitP {
      AboveBecomes(b, x);
      assert b.aboveSince <= x.now by {
        if b.aboveSince != 0 { var i :| 0 <= i < n && BeganAt(t, ops, i, n, b.aboveSince); }
      }
      hide OverAt;
      forall j: nat | j < n { OverOn(t, ops, j, n); }
    } else {
      assert !OverAt(t, ops, n);
      hide OverAt;
    }
  }

  /** The score was over the threshold at the evaluation and has been for the confirmation time, with the least progress reached and
      the premium standing. */
  ghost predicate ScoreConfirmed(t: State, ops: seq<Op>, n: nat)
    requires n < |ops| && ops[n].Assess?
  {
    var x := ops[n].x;
    x.peakProgress >= x.m.minPeakProgress && x.premOk && Confirmed(t, ops, n + 1, x.now, x.m.confirmN)
  }

  lemma ConfirmedIs(t: State, ops: seq<Op>, n: nat)
    requires n < |ops| && ops[n].Assess? && Fresh(t) && Clock(ops)
    requires Run(t, ops[..n]).latched.None? && Run(t, ops[..n]).haveIdx
    ensures var x, above := ops[n].x, Run(t, ops[..n]).aboveSince;
            Confirmed(t, ops, n + 1, x.now, x.m.confirmN) <==>
            x.score >= x.m.exitP && x.now - (if above == 0 then x.now else above) >= x.m.confirmN
  {
    AboveIsFirst(t, ops, n);
    AboveSinceBegan(t, ops, n);
    var b, x := Run(t, ops[..n]), ops[n].x;
    assert OverAt(t, ops, n) <==> x.score >= x.m.exitP;
    hide Run, OverAt, Clock;
    var wait := x.m.confirmN;
    if Confirmed(t, ops, n + 1, x.now, wait) {
      var j :| 0 <= j < n + 1 && HeldFor(t, ops, j, n + 1, x.now, wait);
      assert OverAt(t, ops, n);
      if j < n { OverOn(t, ops, j, n); }
    }
    if OverAt(t, ops, n) {
      if b.aboveSince == 0 {
        OverNow(t, ops, n);
        assert x.now - x.now >= wait ==> HeldFor(t, ops, n, n + 1, x.now, wait);
      } else {
        var j :| 0 <= j < n && BeganAt(t, ops, j, n, b.aboveSince);
        BeganGoesOn(t, ops, j, n, b.aboveSince);
        assert x.now - b.aboveSince >= wait ==> HeldFor(t, ops, j, n + 1, x.now, wait);
      }
    }
  }

  // ----- Why a position exits -----

  lemma {:induction false} PreTimed(t: State, ops: seq<Op>, last: int)
    requires Clock(ops) && forall i :: 0 <= i < |ops| && ops[i].Assess? ==> ops[i].x.now <= last
    ensures P.Timed(ToPre(t, ops)) && forall y :: y in ToPre(t, ops) ==> y.now <= last
  {
    if ops != [] {
      hide Run, PreApplies;
      var init, op := ops[..|ops| - 1], ops[|ops| - 1];
      if op.Assess? { PreTimed(t, init, op.x.now); } else { PreTimed(t, init, last); }
    }
  }

  /** The pre-target rule applies at evaluation n, and the run of what it was shown while it applied justifies a rejection. */
  ghost predicate PreRejects(t: State, ops: seq<Op>, n: nat)
    requires n < |ops| && ops[n].Assess?
  {
    PreApplies(t, ops[..n], ops[n].x) && P.Rejected(ToPre(t, ops[..n + 1]))
  }

  /** The reason the runner's own run over what it was shown gives at evaluation n. */
  function RunnerExit(t: State, ops: seq<Op>, n: nat): Option<R.Reason>
    requires n < |ops| && ops[n].Assess?
  {
    R.Run(ToRunner(t, ops[..n + 1])).1
  }

  predicate Protects(x: Env) { x.peakProgress >= x.m.protectPeak && x.giveback >= x.m.protectGiveback }

  /** The runner holds to a level at most twice the tolerance ahead of the move. */
  predicate NearTarget(r: R.State, y: R.In) { r.phase == R.Running && r.next.Some? && y.MoveOf(r.next.value.price) - y.move <= 2 * y.tol }

  predicate AtLevel(t: State, ops: seq<Op>, n: nat)
    requires n < |ops| && ops[n].Assess?
  {
    NearTarget(R.Run(ToRunner(t, ops[..n + 1])).0, RunnerIn(Run(t, ops[..n]), ops[n].x))
  }

  /** The first evaluation to latch EXIT does so for the first of these that holds: a justified pre-target rejection, an exit of the
      runner, profit to protect, a confirmed score, the last reported as a rejection when the runner's level is near. If none
      holds nothing is latched. */
  lemma ReasonExactly(entry: int, sign: int, targetMove: int, ops: seq<Op>, n: nat)
    requires n < |ops| && ops[n].Assess? && Clock(ops)
    requires var b := Run(NewTracker(entry, sign, targetMove), ops[..n]); b.latched.None? && b.haveIdx
    ensures var t, x := NewTracker(entry, sign, targetMove), ops[n].x;
            var reason, run := ReasonAfter(t, ops, n), RunnerExit(t, ops, n);
            if PreRejects(t, ops, n) then reason == Some(PreRejected)
            else if run.Some? then reason == Some(OfRunner(run.value))
            else if Protects(x) then reason == Some(Protect)
            else if !ScoreConfirmed(t, ops, n) then reason == None
            else reason == Some(if AtLevel(t, ops, n) then SrReject else Score)
  {
    hide P.Step, R.Step, Evaluate, RunnerIn, PreIn, Tolerance, Clock, R.Run, ToRunner, ToPre, Run, ScoreConfirmed, RunnerExit, AtLevel, PreRejects, PreActive, Protects;
    var t, x := NewTracker(entry, sign, targetMove), ops[n].x;
    var b := Run(t, ops[..n]);
    RunNext(t, ops, n);
    RulesRun(t, ops[..n]);
    PreIs(t, ops, n, b);
    RunnerIs(t, ops, n, b);
    ScoreIs(t, ops, n);
    ReasonParts(b, x);
  }

  /** The score has been over the threshold for the confirmation time, by the recorded time. */
  predicate ScoreHeld(t: State, x: Env) {
    && x.score >= x.m.exitP && x.now - (if t.aboveSince == 0 then x.now else t.aboveSince) >= x.m.confirmN
    && x.peakProgress >= x.m.minPeakProgress && x.premOk
  }

  lemma ReasonParts(b: State, x: Env)
    requires b.haveIdx && b.latched.None? && !b.hasText
    ensures var reason, out := Evaluate(b, x).0.latched, R.Step(b.run, RunnerIn(b, x));
            if PreActive(b, x.m) && P.Step(b.pre, PreIn(b, x)).1 then reason == Some(PreRejected)
            else if out.exit.Some? then reason == Some(OfRunner(out.exit.value))
            else if Protects(x) then reason == Some(Protect)
            else if !ScoreHeld(b, x) then reason == None
            else reason == Some(if NearTarget(out.st, RunnerIn(b, x)) then SrReject else Score)
  {
    hide P.Step, R.Step, Evaluate, RunnerIn, PreIn, Tolerance, PreActive;
    AssessParts(b, x);
    PhaseAfter(b.run, RunnerIn(b, x));
    LevelIs(b, x);
  }

  lemma RunnerIs(t: State, ops: seq<Op>, n: nat, b: State)
    requires n < |ops| && ops[n].Assess? && b == Run(t, ops[..n]) && b.haveIdx && RulesAre(t, ops[..n], b)
    ensures var x := ops[n].x;
            var out := R.Step(b.run, RunnerIn(b, x));
            && RunnerExit(t, ops, n) == out.exit && (AtLevel(t, ops, n) <==> NearTarget(out.st, RunnerIn(b, x)))
            && (PreActive(b, x.m) <==> PreApplies(t, ops[..n], x) && b.latched.None?)
  {
    hide P.Step, R.Step, R.Run, ToRunner, ToPre, Run, RunnerIn, R.In.MoveOf, HitBefore;
    var init, x := ops[..n], ops[n].x;
    assert ops[..n + 1] == init + [Op.Assess(x)];
    ApplyIs(t, init, b, x);
    RunSnoc(ToRunner(t, init), RunnerIn(b, x));
  }

  lemma ScoreIs(t: State, ops: seq<Op>, n: nat)
    requires n < |ops| && ops[n].Assess? && Fresh(t) && Clock(ops)
    requires Run(t, ops[..n]).latched.None? && Run(t, ops[..n]).haveIdx
    ensures ScoreConfirmed(t, ops, n) <==> ScoreHeld(Run(t, ops[..n]), ops[n].x)
  {
    hide Run, Confirmed, Clock;
    ConfirmedIs(t, ops, n);
  }

  lemma PhaseAfter(r: R.State, x: R.In)
    ensures R.Step(r, x).st.phase in {R.Normal, R.Running}
  {
    hide R.RunStep, R.RoomOk;
    if r.phase == R.Running { RunningDecided(r, x); }
  }

  lemma LevelIs(t: State, x: Env)
    ensures var y := RunnerIn(t, x);
            y.tol == Tolerance(x.m, x.atr) && y.move == t.move && forall q :: y.MoveOf(q) == (q - t.entry) * t.sign
  {
    hide Tolerance, Rejection;
  }

  lemma PreIs(t: State, ops: seq<Op>, n: nat, b: State)
    requires n < |ops| && ops[n].Assess? && Clock(ops) && b == Run(t, ops[..n]) && b.haveIdx && b.pre == P.Run(ToPre(t, ops[..n]))
    ensures PreRejects(t, ops, n) <==> PreApplies(t, ops[..n], ops[n].x) && P.Step(b.pre, PreIn(b, ops[n].x)).1
  {
    hide P.Step, Run, PreIn, PreApplies, P.Rejected, P.Run, ToPre, ToRunner, P.Timed;
    var init, x := ops[..n], ops[n].x;
    assert ops[..n + 1] == init + [Op.Assess(x)];
    ApplyIs(t, init, b, x);
    PreTimed(t, ops[..n + 1], x.now);
    hide Clock;
    if PreApplies(t, init, x) { P.ExitExactly(ToPre(t, init), PreIn(b, x)); }
  }
}
