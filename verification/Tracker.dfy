/** One tracked position: the pre-target rule, the runner and the score decider share one permanent EXIT latch. */
module Tracker {
  import opened Common
  import opened Levels
  import R = Runner
  import P = PreReject

  datatype Decision = Hold | Tighten | Exit

  datatype Reason = TargetTake | Lock | SrReject | RunTrail | PreRejected | Protect | Score

  datatype Model = Model(exitP: real, tightenP: real, confirmN: int, minPeakProgress: real, protectPeak: real,
                         protectGiveback: real, preRejectEnabled: bool, breakN: int, tolATR: real, tolMin: int,
                         rejectATR: real, rejectMin: int, runner: R.Params, pre: P.Params)

  /** What an evaluation sees beside the tracker: the book, the clock, the score and the momentum features, all arbitrary. */
  datatype Env = Env(levels: seq<Level>, version: Option<int>, adx: real, now: int, atr: int, score: real, peakProgress: real,
                     giveback: real, premOk: bool, strong: bool, bar: Option<(int, int)>, m: Model)

  /** hasText says a latch gave its detail text; ghost positions follow a closed trade. */
  datatype State = State(entry: int, sign: int, targetMove: int, haveIdx: bool, price: int, move: int, isGhost: bool,
                         run: R.State, pre: P.State, aboveSince: int, latched: Option<Reason>, hasText: bool)

  function Tolerance(m: Model, atr: int): int { Max(Trunc(atr as real * m.tolATR), m.tolMin) }

  function Rejection(m: Model, atr: int): int { Max(Trunc(atr as real * m.rejectATR), m.rejectMin) }

  function RunnerIn(t: State, x: Env): R.In {
    R.In(x.levels, x.version, t.price, t.move, t.entry, t.sign, t.targetMove, Tolerance(x.m, x.atr), Rejection(x.m, x.atr),
         x.m.breakN, x.now, x.strong, x.m.runner)
  }

  function PreIn(t: State, x: Env): P.In {
    P.In(x.levels, t.price, t.move, t.entry, t.sign, t.targetMove, Tolerance(x.m, x.atr), Rejection(x.m, x.atr),
         x.m.breakN, x.adx, x.bar, x.now, x.m.pre)
  }

  function OfRunner(r: R.Reason): Reason {
    match r
    case TargetTake => TargetTake
    case Lock => Lock
    case SrReject => SrReject
    case RunTrail => RunTrail
  }

  /** The rule applies while enabled, before target, unlatched and not on a ghost. */
  predicate PreActive(t: State, m: Model) {
    m.preRejectEnabled && t.latched.None? && !t.isGhost && !t.run.decided && t.run.phase != R.Running
  }

  function PreStep(t: State, x: Env): State {
    if !PreActive(t, x.m) then t
    else
      var (pre, exit) := P.Step(t.pre, PreIn(t, x));
      if exit then t.(pre := pre, latched := Some(PreRejected), hasText := true) else t.(pre := pre)
  }

  function RunStep(t: State, x: Env): State {
    if t.latched.Some? then t
    else
      var out := R.Step(t.run, RunnerIn(t, x));
      if out.exit.Some? then t.(run := out.st, latched := Some(OfRunner(out.exit.value)), hasText := true)
      else t.(run := out.st)
  }

  /** HOLD / TIGHTEN / EXIT with hysteresis; EXIT latches. */
  function Decide(t: State, x: Env): (State, Decision) {
    if t.latched.Some? then (t, Exit)
    else if x.peakProgress >= x.m.protectPeak && x.giveback >= x.m.protectGiveback then (t.(latched := Some(Protect)), Exit)
    else
      var over := x.score >= x.m.exitP;
      var since := if !over then 0 else if t.aboveSince == 0 then x.now else t.aboveSince;
      if over && x.now - since >= x.m.confirmN && x.peakProgress >= x.m.minPeakProgress && x.premOk then
        (t.(aboveSince := since, latched := Some(Score)), Exit)
      else (t.(aboveSince := since), if x.score >= x.m.tightenP then Tighten else Hold)
  }

  /** A score exit at the runner's level is reported as a rejection there, once. */
  function Relabel(t: State, x: Env): State {
    if t.latched == Some(Score) && t.run.phase != R.Normal && t.run.next.Some? && !t.hasText &&
       (t.run.next.value.price - t.entry) * t.sign - t.move <= 2 * Tolerance(x.m, x.atr)
    then t.(latched := Some(SrReject), hasText := true) else t
  }

  function Evaluate(t: State, x: Env): (State, Decision) {
    if !t.haveIdx then (t, Hold)
    else
      var (d, decision) := Decide(RunStep(PreStep(t, x), x), x);
      (Relabel(d, x), decision)
  }

  function IndexTick(t: State, price: int): State {
    t.(haveIdx := true, price := price, move := (price - t.entry) * t.sign)
  }

  /** The decider as the object that keeps the latch. */
  class Decider {
    var aboveSince: int
    var latched: Option<Reason>

    constructor ()
      ensures aboveSince == 0 && latched == None
    {
      aboveSince, latched := 0, None;
    }

    method Step(x: Env) returns (decision: Decision)
      modifies this
      ensures forall t: State :: t.aboveSince == old(aboveSince) && t.latched == old(latched) ==>
                Decide(t, x) == (t.(aboveSince := aboveSince, latched := latched), decision)
    {
      if latched.Some? {
        return Exit;
      }
      if x.peakProgress >= x.m.protectPeak && x.giveback >= x.m.protectGiveback {
        latched := Some(Protect);
        return Exit;
      }
      if x.score >= x.m.exitP {
        if aboveSince == 0 {
          aboveSince := x.now;
        }
        if x.now - aboveSince >= x.m.confirmN && x.peakProgress >= x.m.minPeakProgress && x.premOk {
          latched := Some(Score);
          return Exit;
        }
      } else {
        aboveSince := 0;
      }
      return if x.score >= x.m.tightenP then Tighten else Hold;
    }
  }

  /** The tracker object: each Evaluate runs the pre-target rule, then the runner, then the decider. */
  class TrackerObject {
    var t: State

    constructor (entry: int, sign: int, targetMove: int)
      ensures t == NewTracker(entry, sign, targetMove)
    {
      t := NewTracker(entry, sign, targetMove);
    }

    method OnIndexTick(price: int)
      modifies this
      ensures t == IndexTick(old(t), price)
    {
      t := t.(haveIdx := true, price := price, move := (price - t.entry) * t.sign);
    }

    method Assess(x: Env) returns (decision: Decision)
      modifies this
      ensures (t, decision) == Evaluate(old(t), x)
    {
      hide P.Step, R.Step, Tolerance, Rejection;
      if !t.haveIdx {
        return Hold;
      }
      if PreActive(t, x.m) {
        var (pre, exit) := P.Step(t.pre, PreIn(t, x));
        t := t.(pre := pre);
        if exit {
          t := t.(latched := Some(PreRejected), hasText := true);
        }
      }
      if t.latched.None? {
        var out := R.Step(t.run, RunnerIn(t, x));
        t := t.(run := out.st);
        if out.exit.Some? {
          t := t.(latched := Some(OfRunner(out.exit.value)), hasText := true);
        }
      }
      var (d, v) := Decide(t, x);
      t, decision := Relabel(d, x), v;
    }
  }

  function NewTracker(entry: int, sign: int, targetMove: int): State {
    State(entry, sign, targetMove, false, 0, 0, false, R.INITIAL, P.INITIAL, 0, None, false)
  }

  // ----- The latch -----

  /** reason next may follow reason r on one position. */
  predicate Follows(r: Reason, next: Reason) { next == r || (r == Score && next == SrReject) }

  /** Once latched, every later evaluation says EXIT; only a plain score exit can still be relabelled. */
  lemma LatchHolds(t: State, x: Env)
    requires t.haveIdx && t.latched.Some?
    ensures var (next, decision) := Evaluate(t, x);
            && decision == Exit && next.haveIdx && next.latched.Some? && Follows(t.latched.value, next.latched.value)
  {
    hide P.Step, R.Step;
  }

  /** EXIT is decided only by latching. */
  lemma ExitLatches(t: State, x: Env)
    ensures var (next, decision) := Evaluate(t, x);
            && next.haveIdx == t.haveIdx
            && (decision == Exit <==> next.latched.Some? && t.haveIdx)
            && (decision == Tighten <==> t.haveIdx && next.latched.None? && x.score >= x.m.tightenP)
  {
    hide P.Step, R.Step, Tolerance;
  }

  /** A step of a position: an index tick, the strategy closing it in the runner, an update of its context, or an evaluation. */
  datatype Op = Tick(price: int) | Ghosted | Moved(entry: int) | Assess(x: Env)

  function Apply(t: State, op: Op): State {
    match op
    case Tick(price) => IndexTick(t, price)
    case Ghosted => t.(isGhost := true)
    case Moved(entry) => t.(entry := entry)
    case Assess(x) => Evaluate(t, x).0
  }

  function Run(t: State, ops: seq<Op>): State {
    if ops == [] then t else Apply(Run(t, ops[..|ops| - 1]), ops[|ops| - 1])
  }

  /** The decision and reason of evaluation i. */
  function DecisionAt(t: State, ops: seq<Op>, i: nat): Decision
    requires i < |ops| && ops[i].Assess?
  {
    Evaluate(Run(t, ops[..i]), ops[i].x).1
  }

  function ReasonAfter(t: State, ops: seq<Op>, i: nat): Option<Reason>
    requires i < |ops|
  {
    Run(t, ops[..i + 1]).latched
  }

  lemma RunNext(t: State, ops: seq<Op>, i: nat)
    requires i < |ops|
    ensures Run(t, ops[..i + 1]) == Apply(Run(t, ops[..i]), ops[i])
  {
    assert ops[..i + 1][..i] == ops[..i];
  }

  /** From a latched state on, the state stays latched with a reason that follows. */
  lemma {:induction false} StaysLatched(t: State, ops: seq<Op>, i: nat, j: nat)
    requires i <= j <= |ops| && Run(t, ops[..i]).haveIdx && Run(t, ops[..i]).latched.Some?
    ensures var s := Run(t, ops[..j]);
            s.haveIdx && s.latched.Some? && Follows(Run(t, ops[..i]).latched.value, s.latched.value)
    decreases j
  {
    hide Run, Evaluate;
    if i < j {
      StaysLatched(t, ops, i, j - 1);
      RunNext(t, ops, j - 1);
      var s := Run(t, ops[..j - 1]);
      if ops[j - 1].Assess? { LatchHolds(s, ops[j - 1].x); }
    }
  }

  /** Over any run of one position: once EXIT is decided every later evaluation decides EXIT, and its reason is the
      same or went from a score exit to a level rejection. */
  lemma ExitIsPermanent(t: State, ops: seq<Op>, i: nat, j: nat)
    requires i <= j < |ops| && ops[i].Assess? && ops[j].Assess? && DecisionAt(t, ops, i) == Exit
    ensures DecisionAt(t, ops, j) == Exit
    ensures ReasonAfter(t, ops, i).Some? && ReasonAfter(t, ops, j).Some?
    ensures Follows(ReasonAfter(t, ops, i).value, ReasonAfter(t, ops, j).value)
  {
    hide Run, Evaluate, Follows;
    var a := Run(t, ops[..i]);
    ExitLatches(a, ops[i].x);
    RunNext(t, ops, i);
    FollowsSelf();
    StaysLatched(t, ops, i + 1, j + 1);
    RunNext(t, ops, j);
    if i < j { StaysLatched(t, ops, i + 1, j); }
    ExitLatches(Run(t, ops[..j]), ops[j].x);
  }

  lemma FollowsSelf()
    ensures forall r :: Follows(r, r)
  {
  }

  /** The reason changes at most once. */
  lemma ReasonChangesOnce(t: State, ops: seq<Op>, i: nat, j: nat, k: nat)
    requires i <= j <= k < |ops| && ops[i].Assess? && ops[j].Assess? && ops[k].Assess? && DecisionAt(t, ops, i) == Exit
    ensures ReasonAfter(t, ops, i) == ReasonAfter(t, ops, j) || ReasonAfter(t, ops, j) == ReasonAfter(t, ops, k)
  {
    ExitIsPermanent(t, ops, i, j);
    ExitIsPermanent(t, ops, j, k);
  }

  // ----- A score exit was confirmed -----

  /** Evaluation j saw a score over its exit threshold. */
  predicate OverAt(t: State, ops: seq<Op>, j: nat)
    requires j < |ops|
  {
    ops[j].Assess? && Run(t, ops[..j]).haveIdx && ops[j].x.score >= ops[j].x.m.exitP
  }

  /** Every evaluation from j to before n saw one. */
  predicate OverSince(t: State, ops: seq<Op>, j: nat, n: nat)
    requires j < n <= |ops|
  {
    OverAt(t, ops, j) && forall i :: j <= i < n && ops[i].Assess? ==> OverAt(t, ops, i)
  }

  /** Evaluation j began the stay over the threshold that reaches n, at time since. */
  predicate BeganAt(t: State, ops: seq<Op>, j: nat, n: nat, since: int)
    requires n <= |ops|
  {
    j < n && OverSince(t, ops, j, n) && ops[j].x.now == since
  }

  predicate Began(t: State, ops: seq<Op>, n: nat, since: int)
    requires n <= |ops|
  {
    exists j | 0 <= j < n :: BeganAt(t, ops, j, n, since)
  }

  /** The score was over the threshold at evaluation j and ever since, and j is at least wait before now. */
  predicate HeldFor(t: State, ops: seq<Op>, j: nat, n: nat, now: int, wait: int)
    requires n <= |ops|
  {
    j < n && OverSince(t, ops, j, n) && now - ops[j].x.now >= wait
  }

  predicate Confirmed(t: State, ops: seq<Op>, n: nat, now: int, wait: int)
    requires n <= |ops|
  {
    exists j | 0 <= j < n :: HeldFor(t, ops, j, n, now, wait)
  }

  /** What one evaluation does to the time the score first reached the threshold. */
  lemma AboveStep(t: State, x: Env)
    requires t.haveIdx && t.latched.None?
    ensures var next := Evaluate(t, x).0;
            var since := if t.aboveSince == 0 then x.now else t.aboveSince;
            && (next.latched.None? && next.aboveSince != 0 ==> x.score >= x.m.exitP && next.aboveSince == since)
            && (next.latched == Some(Score) ==>
                  && x.score >= x.m.exitP && x.now - since >= x.m.confirmN
                  && x.peakProgress >= x.m.minPeakProgress && x.premOk)
  {
    hide P.Step, R.Step, Tolerance, PreIn, RunnerIn, PreActive;
  }

  /** The other steps leave it alone. */
  lemma AboveKept(t: State, op: Op)
    requires !op.Assess?
    ensures Apply(t, op).aboveSince == t.aboveSince && Apply(t, op).latched == t.latched
    ensures t.haveIdx ==> Apply(t, op).haveIdx
  {
  }

  lemma BeganGoesOn(t: State, ops: seq<Op>, j: nat, n: nat, since: int)
    requires n < |ops| && BeganAt(t, ops, j, n, since) && (ops[n].Assess? ==> OverAt(t, ops, n))
    ensures BeganAt(t, ops, j, n + 1, since)
  {
    hide OverAt;
  }

  /** While unlatched, the recorded time is that of an evaluation since which the score never fell back. */
  lemma {:induction false} AboveSinceBegan(t: State, ops: seq<Op>, n: nat)
    requires n <= |ops| && t.aboveSince == 0
    ensures var s := Run(t, ops[..n]);
            s.latched.None? && s.aboveSince != 0 ==> s.haveIdx && Began(t, ops, n, s.aboveSince)
  {
    if n == 0 {
      assert ops[..0] == [];
    } else {
      hide Run, Apply, Began;
      AboveSinceBegan(t, ops, n - 1);
      RunNext(t, ops, n - 1);
      var s := Run(t, ops[..n]);
      if s.latched.None? && s.aboveSince != 0 {
        AboveCase(t, ops, n - 1);
      }
    }
  }

  lemma AboveCase(t: State, ops: seq<Op>, n: nat)
    requires n < |ops|
    requires var b := Run(t, ops[..n]);
             b.latched.None? && b.aboveSince != 0 ==> b.haveIdx && Began(t, ops, n, b.aboveSince)
    requires var s := Apply(Run(t, ops[..n]), ops[n]); s.latched.None? && s.aboveSince != 0
    ensures var s := Apply(Run(t, ops[..n]), ops[n]);
            s.haveIdx && Began(t, ops, n + 1, s.aboveSince)
  {
    hide Run;
    var b, op := Run(t, ops[..n]), ops[n];
    var s := Apply(b, op);
    if !op.Assess? {
      AboveKept(b, op);
      hide Apply;
      var j :| 0 <= j < n && BeganAt(t, ops, j, n, b.aboveSince);
      BeganGoesOn(t, ops, j, n, b.aboveSince);
    } else {
      StaysUnlatched(b, op.x);
      if b.haveIdx {
        AboveStep(b, op.x);
        hide Evaluate;
        assert OverAt(t, ops, n);
        if b.aboveSince == 0 {
          assert BeganAt(t, ops, n, n + 1, s.aboveSince);
        } else {
          var j :| 0 <= j < n && BeganAt(t, ops, j, n, b.aboveSince);
          BeganGoesOn(t, ops, j, n, b.aboveSince);
        }
      }
    }
  }

  /** A latch is never taken back, and without an index price nothing changes. */
  lemma StaysUnlatched(t: State, x: Env)
    requires Evaluate(t, x).0.latched.None?
    ensures t.latched.None? && Evaluate(t, x).0.haveIdx == t.haveIdx && (!t.haveIdx ==> Evaluate(t, x).0 == t)
  {
    hide P.Step, R.Step;
    ExitLatches(t, x);
    if t.haveIdx && t.latched.Some? { LatchHolds(t, x); }
  }

  lemma OverNow(t: State, ops: seq<Op>, n: nat)
    requires n < |ops| && OverAt(t, ops, n)
    ensures OverSince(t, ops, n, n + 1)
  {
    hide OverAt;
  }

  /** A score exit was confirmed: some evaluation at least confirmN earlier, and every one since, saw a score over its
      threshold; the move had reached the least progress and the premium stood. */
  lemma ScoreExitConfirmed(t: State, ops: seq<Op>, n: nat)
    requires n < |ops| && t.aboveSince == 0 && ops[n].Assess?
    requires Run(t, ops[..n]).latched.None? && Run(t, ops[..n + 1]).latched == Some(Score)
    ensures var x := ops[n].x;
            && x.peakProgress >= x.m.minPeakProgress && x.premOk
            && Confirmed(t, ops, n + 1, x.now, x.m.confirmN)
  {
    hide Evaluate, OverSince;
    RunNext(t, ops, n);
    AboveSinceBegan(t, ops, n);
    var b, x := Run(t, ops[..n]), ops[n].x;
    if b.haveIdx {
      AboveStep(b, x);
      hide Run;
      assert OverAt(t, ops, n);
      if b.aboveSince == 0 {
        OverNow(t, ops, n);
        assert HeldFor(t, ops, n, n + 1, x.now, x.m.confirmN);
      } else {
        var j :| 0 <= j < n && BeganAt(t, ops, j, n, b.aboveSince);
        BeganGoesOn(t, ops, j, n, b.aboveSince);
        assert HeldFor(t, ops, j, n + 1, x.now, x.m.confirmN);
      }
    } else {
      StaysLatchedWithout(b, x);
    }
  }

  lemma StaysLatchedWithout(t: State, x: Env)
    requires !t.haveIdx
    ensures Evaluate(t, x).0 == t
  {
  }
}
