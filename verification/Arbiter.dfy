/** The exit-policy arbiter: positions under plans of rules, evaluated once a minute in two locked phases. */
module Arbiter {
  import opened Common

  const MINUTE := 60_000_000_000
  const SESSION_MINUTES := 375

  datatype Greeks = Greeks(deltaMilli: int, decayPerDay: int, expGain: int)

  /** key is the strategy and side; entryTS is None for the zero time. */
  datatype Position = Position(key: string, indexToken: string, fnoToken: string, entryTS: Option<int>, indexEntry: int,
                               premEntry: int, greeks: Option<Greeks>)

  datatype Snapshot = Snapshot(now: int, indexLTP: int, premLTP: int, premBest: int, premBestTS: Option<int>, armed: bool)

  datatype ThetaConfig = ThetaConfig(confirm: int, flatProgressPct: int, fallbackFlatPremPct: int, maxFlatMin: int,
                                     decayPctOfGain: int, givebackMin: int)

  /** Go's integer division, truncating toward zero. */
  function Quo(a: int, b: int): int
    requires b > 0
  {
    if a >= 0 then a / b else -((-a) / b)
  }

  /** Go's math.Round: half away from zero. */
  function Round(x: real): int { if x >= 0.0 then (x + 0.5).Floor else -((0.5 - x).Floor) }

  function AbsReal(x: real): real { if x < 0.0 then -x else x }

  /** The pick's greeks in integers; None without a delta or a target. */
  function NewEntryGreeks(delta: real, thetaPerDay: real, targetMove: int): Option<Greeks> {
    if delta == 0.0 || targetMove <= 0 then None
    else Some(Greeks(Round(delta * 1000.0), Round(AbsReal(thetaPerDay) * 100.0), Round(AbsReal(delta) * targetMove as real)))
  }

  /** The expected gain is never negative, and is 0 exactly when it rounds there. */
  lemma ExpectedGain(delta: real, thetaPerDay: real, targetMove: int)
    requires delta != 0.0 && targetMove > 0
    ensures var gain := NewEntryGreeks(delta, thetaPerDay, targetMove).value.expGain;
            gain >= 0 && (gain == 0 <==> AbsReal(delta) * targetMove as real < 0.5)
  {
    var x := AbsReal(delta) * targetMove as real;
    assert x > 0.0;
    assert (x + 0.5).Floor == 0 <==> x < 0.5;
  }

  /** The greeks are the delta, the decay and the gain a full target move would bring, each rounded to the nearest integer in its
      unit; there are none without a delta or a target. */
  lemma EntryGreeks(delta: real, thetaPerDay: real, targetMove: int)
    ensures var g := NewEntryGreeks(delta, thetaPerDay, targetMove);
            && (g.None? <==> delta == 0.0 || targetMove <= 0)
            && (g.Some? ==>
                  && Nearest(g.value.deltaMilli, 1000.0 * delta) && Nearest(g.value.decayPerDay, 100.0 * AbsReal(thetaPerDay))
                  && Nearest(g.value.expGain, AbsReal(delta) * targetMove as real))
  {
    RoundNearest(delta * 1000.0);
    RoundNearest(AbsReal(thetaPerDay) * 100.0);
    RoundNearest(AbsReal(delta) * targetMove as real);
  }

  predicate Nearest(n: int, x: real) { -0.5 <= n as real - x <= 0.5 }

  lemma RoundNearest(x: real)
    ensures Nearest(Round(x), x)
  {
  }

  // ----- The theta rule -----

  /** A rule's verdict; Panics is a division by a zero expected gain. */
  datatype Verdict = Silent | Fires | Panics

  predicate Applies(p: Position, s: Snapshot) { p.premEntry > 0 && s.premLTP > 0 && !s.armed && p.entryTS.Some? }

  function GaveBack(c: ThetaConfig, p: Position, g: Greeks, s: Snapshot): Verdict {
    if c.givebackMin <= 0 || s.premBestTS.None? then Silent
    else if (s.premLTP - p.premEntry) * 100 >= g.expGain * c.flatProgressPct ||
            Quo(s.now - s.premBestTS.value, MINUTE) < c.givebackMin then Silent
    else Fires
  }

  /** What the premium lacks of its entry value after the delta share of the index move; never negative, so no gain of the
      premium offsets the clock's share in Decay. */
  function Realized(p: Position, g: Greeks, s: Snapshot): int {
    if s.indexLTP > 0 && p.indexEntry > 0 then
      Max(0, p.premEntry + Quo(g.deltaMilli * (s.indexLTP - p.indexEntry), 1000) - s.premLTP)
    else 0
  }

  function Decay(p: Position, g: Greeks, s: Snapshot, held: int): int {
    Max(Quo(g.decayPerDay * held, SESSION_MINUTES), Realized(p, g, s))
  }

  function Theta(c: ThetaConfig, p: Position, s: Snapshot): Verdict {
    if !Applies(p, s) then Silent
    else
      var held := Quo(s.now - p.entryTS.value, MINUTE);
      var bestGain := s.premBest - p.premEntry;
      if p.greeks.None? then
        if bestGain * 100 >= p.premEntry * c.fallbackFlatPremPct || held < c.maxFlatMin then Silent else Fires
      else
        var g := p.greeks.value;
        if bestGain * 100 >= g.expGain * c.flatProgressPct then GaveBack(c, p, g, s)
        else if !(Decay(p, g, s, held) * 100 >= g.expGain * c.decayPctOfGain) && held < c.maxFlatMin then Silent
        else if g.expGain == 0 then Panics
        else Fires
  }

  /** The division by the expected gain is by zero exactly for a flat position with a zero gain whose recorded best premium
      lies under its entry; a best at or over the entry rules it out. */
  lemma ThetaPanics(c: ThetaConfig, p: Position, s: Snapshot)
    ensures Theta(c, p, s) == Panics ==> s.premBest < p.premEntry
    ensures Applies(p, s) && p.greeks.Some? && p.greeks.value.expGain == 0 ==>
              (Theta(c, p, s) == Panics <==> s.premBest < p.premEntry)
  {
    if Applies(p, s) && p.greeks.Some? {
      DecayNotNegative(p, p.greeks.value, s, Quo(s.now - p.entryTS.value, MINUTE));
    }
    hide Decay, Quo;
  }

  lemma DecayNotNegative(p: Position, g: Greeks, s: Snapshot, held: int)
    ensures Decay(p, g, s, held) >= 0
  {
    hide Quo;
  }

  // ----- Plans and positions -----

  /** A rule of a plan: the theta rule, or any other, with its name and verdicts. */
  datatype Rule = ThetaRule(c: ThetaConfig) | OtherRule(name: nat, confirm: int, fires: (Position, Snapshot) -> bool)

  function NameOf(r: Rule): nat { if r.ThetaRule? then 0 else r.name }

  function Needed(r: Rule): nat { Max(1, if r.ThetaRule? then r.c.confirm else r.confirm) }

  function VerdictOf(r: Rule, p: Position, s: Snapshot): Verdict {
    match r
    case ThetaRule(c) => Theta(c, p, s)
    case OtherRule(_, _, fires) => if fires(p, s) then Fires else Silent
  }

  datatype Mode = Off | Shadow | Act

  datatype Plan = Plan(mode: Mode, rules: seq<Rule>)

  predicate DistinctNames(rules: seq<Rule>) {
    forall i, j :: 0 <= i < j < |rules| ==> NameOf(rules[i]) != NameOf(rules[j])
  }

  /** A tracked position. seen belongs to the model: every snapshot it was evaluated on. */
  datatype Tracked = Tracked(pos: Position, plan: Plan, indexLTP: int, premLTP: int, premBest: int, bestSeen: int,
                             bestTS: Option<int>, streak: map<nat, nat>, latched: bool, seen: seq<Snapshot>)

  function StreakOf(t: Tracked, r: Rule): nat { if NameOf(r) in t.streak then t.streak[NameOf(r)] else 0 }

  function SetStreak(t: Tracked, r: Rule, n: nat): Tracked { t.(streak := t.streak[NameOf(r) := n]) }

  /** The rules from i on, in plan order, until one has held long enough: that one decides and latches. */
  function JudgeFrom(t: Tracked, s: Snapshot, i: nat): (Tracked, Option<nat>)
    requires i <= |t.plan.rules|
    decreases |t.plan.rules| - i
  {
    if i == |t.plan.rules| then (t, None)
    else
      var r := t.plan.rules[i];
      if VerdictOf(r, t.pos, s) != Fires then JudgeFrom(SetStreak(t, r, 0), s, i + 1)
      else
        var n := StreakOf(t, r) + 1;
        if n < Needed(r) then JudgeFrom(SetStreak(t, r, n), s, i + 1)
        else (SetStreak(t, r, n).(latched := true), Some(i))
  }

  function BestOf(t: Tracked): int { Max(t.premBest, t.pos.premEntry) }

  /** The best premium and the minute it was first seen. */
  function NoteBest(t: Tracked, now: int): Tracked {
    if BestOf(t) > t.bestSeen || t.bestTS.None? then t.(bestSeen := BestOf(t), bestTS := Some(now)) else t
  }

  function SnapshotOf(t: Tracked, now: int, armed: bool): Snapshot {
    Snapshot(now, t.indexLTP, t.premLTP, BestOf(t), NoteBest(t, now).bestTS, armed)
  }

  function EvaluateOne(t: Tracked, now: int, armed: bool): (Tracked, Option<nat>) {
    var s := SnapshotOf(t, now, armed);
    JudgeFrom(NoteBest(t, now).(seen := t.seen + [s]), s, 0)
  }

  // ----- The arbiter's steps -----

  /** A decision on tracked object id by rule number rule. */
  datatype Decision = Decision(id: nat, rule: nat, shadow: bool, now: int)

  /** objs are the tracked objects ever made, pos the live one of each key; flights are the minute evaluations between
      their two phases, each with the objects it took. */
  datatype Arb = Arb(objs: map<nat, Tracked>, pos: map<string, nat>, nextId: nat, flights: map<nat, seq<nat>>,
                     decisions: seq<Decision>)

  const EMPTY := Arb(map[], map[], 0, map[], [])

  datatype Step =
    | Open(p: Position, plan: Plan)
    | Close(key: string)
    | Tick(token: string, price: int)
    | Begin(flight: nat, order: seq<nat>)
    | Finish(flight: nat, now: int, armed: set<nat>)

  predicate Live(a: Arb, id: nat) { id in a.objs && a.objs[id].pos.key in a.pos && a.pos[a.objs[id].pos.key] == id }

  /** The unlatched live objects, each once, in whatever order the map yields. */
  predicate IsSnapshotOf(order: seq<nat>, a: Arb) {
    && (forall id :: id in order ==> id in a.objs && Live(a, id) && !a.objs[id].latched)
    && (forall id :: id in a.objs && Live(a, id) && !a.objs[id].latched ==> id in order)
    && (forall i, j :: 0 <= i < j < |order| ==> order[i] != order[j])
  }

  predicate Enabled(a: Arb, s: Step) {
    match s
    case Begin(flight, order) => flight !in a.flights && IsSnapshotOf(order, a)
    case Finish(flight, _, _) => flight in a.flights && forall id :: id in a.flights[flight] ==> id in a.objs
    case _ => true
  }

  function Track(p: Position, plan: Plan): Tracked {
    Tracked(p, plan, 0, 0, 0, p.premEntry, p.entryTS, map[], false, [])
  }

  function OpenAt(a: Arb, p: Position, plan: Plan): Arb {
    if plan.mode == Off || plan.rules == [] then a.(pos := a.pos - {p.key})
    else a.(objs := a.objs[a.nextId := Track(p, plan)], pos := a.pos[p.key := a.nextId], nextId := a.nextId + 1)
  }

  function TickOne(t: Tracked, token: string, price: int): Tracked {
    if token == t.pos.indexToken then t.(indexLTP := price)
    else if token == t.pos.fnoToken then t.(premLTP := price, premBest := Max(t.premBest, price))
    else t
  }

  function TickAll(a: Arb, token: string, price: int): Arb {
    if price <= 0 then a
    else a.(objs := map id | id in a.objs :: if Live(a, id) then TickOne(a.objs[id], token, price) else a.objs[id])
  }

  /** One object of a finishing evaluation; one closed or replaced meanwhile is skipped. */
  function FinishOne(a: Arb, id: nat, now: int, armed: set<nat>): Arb {
    if !Live(a, id) then a
    else
      var (t, hit) := EvaluateOne(a.objs[id], now, id in armed);
      a.(objs := a.objs[id := t],
         decisions := if hit.None? then a.decisions
                      else a.decisions + [Decision(id, hit.value, t.plan.mode != Act, now)])
  }

  function FinishAll(a: Arb, ids: seq<nat>, now: int, armed: set<nat>): Arb {
    if ids == [] then a else FinishOne(FinishAll(a, ids[..|ids| - 1], now, armed), ids[|ids| - 1], now, armed)
  }

  function Apply(a: Arb, s: Step): Arb
    requires Enabled(a, s)
  {
    match s
    case Open(p, plan) => OpenAt(a, p, plan)
    case Close(key) => a.(pos := a.pos - {key})
    case Tick(token, price) => TickAll(a, token, price)
    case Begin(flight, order) => a.(flights := a.flights[flight := order])
    case Finish(flight, now, armed) => FinishAll(a.(flights := a.flights - {flight}), a.flights[flight], now, armed)
  }

  predicate Apart(x: seq<nat>, y: seq<nat>) { forall id :: id in x ==> id !in y }

  /** An evaluation takes no position another one still in flight has taken. */
  predicate Tame(a: Arb, s: Step) { s.Begin? ==> forall f :: f in a.flights ==> Apart(a.flights[f], s.order) }

  predicate IsRun(a: Arb, steps: seq<Step>)
    decreases |steps|, 0
  {
    steps == [] || (IsRun(a, steps[..|steps| - 1]) && Enabled(After(a, steps[..|steps| - 1]), steps[|steps| - 1]))
  }

  function After(a: Arb, steps: seq<Step>): Arb
    requires IsRun(a, steps)
    decreases |steps|, 1
  {
    if steps == [] then a else Apply(After(a, steps[..|steps| - 1]), steps[|steps| - 1])
  }

  predicate TameRun(a: Arb, steps: seq<Step>)
    requires IsRun(a, steps)
    decreases |steps|
  {
    steps == [] || (TameRun(a, steps[..|steps| - 1]) && Tame(After(a, steps[..|steps| - 1]), steps[|steps| - 1]))
  }

  // ----- What every run keeps -----

  /** On how many of the last evaluations, without a break, the rule fired. */
  function Trailing(r: Rule, p: Position, seen: seq<Snapshot>): nat {
    if seen == [] || VerdictOf(r, p, seen[|seen| - 1]) != Fires then 0 else Trailing(r, p, seen[..|seen| - 1]) + 1
  }

  predicate StreakOk(t: Tracked, k: nat, seen: seq<Snapshot>)
    requires k < |t.plan.rules|
  {
    StreakOf(t, t.plan.rules[k]) == Trailing(t.plan.rules[k], t.pos, seen)
  }

  /** Under distinct names the streaks count the evaluations; no evaluation saw a best premium under the entry. */
  predicate TrackedOk(t: Tracked) {
    && (!t.latched && DistinctNames(t.plan.rules) ==> forall k :: 0 <= k < |t.plan.rules| ==> StreakOk(t, k, t.seen))
    && (forall s :: s in t.seen ==> s.premBest >= t.pos.premEntry)
    && t.bestSeen >= t.pos.premEntry
  }

  /** The deciding rule, when no other shares its name, fired on each of the position's last evaluations, as many as it must
      confirm. */
  predicate DecisionOk(a: Arb, d: Decision) {
    && d.id in a.objs && a.objs[d.id].latched && d.rule < |a.objs[d.id].plan.rules|
    && var t := a.objs[d.id];
       DistinctNames(t.plan.rules) ==> Trailing(t.plan.rules[d.rule], t.pos, t.seen) >= Needed(t.plan.rules[d.rule])
  }

  predicate Ok(a: Arb) {
    && (forall id :: id in a.objs ==> id < a.nextId && TrackedOk(a.objs[id]))
    && (forall key :: key in a.pos ==> a.pos[key] in a.objs && a.objs[a.pos[key]].pos.key == key)
    && (forall d :: d in a.decisions ==> DecisionOk(a, d))
    && (forall i, j :: 0 <= i < j < |a.decisions| ==> a.decisions[i].id != a.decisions[j].id)
    && (forall f, g :: f in a.flights && g in a.flights && f != g ==> Apart(a.flights[f], a.flights[g]))
    && (forall f :: f in a.flights ==> FlightOk(a, a.flights[f]))
  }

  /** The objects of an evaluation in flight are distinct and undecided. */
  predicate FlightOk(a: Arb, ids: seq<nat>) {
    && (forall id :: id in ids ==> id in a.objs && !a.objs[id].latched && forall d :: d in a.decisions ==> d.id != id)
    && (forall i, j :: 0 <= i < j < |ids| ==> ids[i] != ids[j])
  }

  lemma TrailingSnoc(r: Rule, p: Position, seen: seq<Snapshot>, s: Snapshot)
    ensures Trailing(r, p, seen + [s]) == if VerdictOf(r, p, s) == Fires then Trailing(r, p, seen) + 1 else 0
  {
    assert (seen + [s])[..|seen|] == seen;
  }

  /** Judging from rule i on: the earlier rules' streaks count the new snapshot already, the later ones' not yet. */
  lemma {:induction false} JudgeOk(t: Tracked, s: Snapshot, i: nat, seen: seq<Snapshot>)
    requires i <= |t.plan.rules| && t.seen == seen + [s] && DistinctNames(t.plan.rules)
    requires forall k :: 0 <= k < i ==> StreakOk(t, k, t.seen)
    requires forall k :: i <= k < |t.plan.rules| ==> StreakOk(t, k, seen)
    ensures var (u, hit) := JudgeFrom(t, s, i);
            && u.plan == t.plan
            && (hit.None? ==> forall k :: 0 <= k < |t.plan.rules| ==> StreakOk(u, k, t.seen))
            && (hit.Some? ==>
                  hit.value < |t.plan.rules| &&
                  Trailing(t.plan.rules[hit.value], t.pos, t.seen) >= Needed(t.plan.rules[hit.value]))
    decreases |t.plan.rules| - i
  {
    hide VerdictOf, Trailing, Needed;
    if i < |t.plan.rules| {
      var r := t.plan.rules[i];
      TrailingSnoc(r, t.pos, seen, s);
      var n := if VerdictOf(r, t.pos, s) == Fires then StreakOf(t, r) + 1 else 0;
      var u := SetStreak(t, r, n);
      assert StreakOk(t, i, seen);
      forall k | 0 <= k <= i ensures StreakOk(u, k, t.seen) {
        if k < i { assert StreakOk(t, k, t.seen) && NameOf(t.plan.rules[k]) != NameOf(r); }
      }
      forall k | i < k < |t.plan.rules| ensures StreakOk(u, k, seen) {
        assert StreakOk(t, k, seen) && NameOf(r) != NameOf(t.plan.rules[k]);
      }
      JudgeOk(u, s, i + 1, seen);
    }
  }

  /** Judging changes the streaks only, and latches exactly when a rule decides. */
  lemma {:induction false} JudgeFrame(t: Tracked, s: Snapshot, i: nat)
    requires i <= |t.plan.rules|
    ensures var (u, hit) := JudgeFrom(t, s, i);
            && u == t.(streak := u.streak, latched := u.latched) && u.latched == (t.latched || hit.Some?)
            && (hit.Some? ==> hit.value < |t.plan.rules|)
    decreases |t.plan.rules| - i
  {
    hide VerdictOf, Needed;
    if i < |t.plan.rules| {
      var r := t.plan.rules[i];
      JudgeFrame(SetStreak(t, r, 0), s, i + 1);
      JudgeFrame(SetStreak(t, r, StreakOf(t, r) + 1), s, i + 1);
    }
  }

  lemma EvaluateFrame(t: Tracked, now: int, armed: bool)
    ensures var (u, hit) := EvaluateOne(t, now, armed);
            && u.pos == t.pos && u.plan == t.plan && u.latched == (t.latched || hit.Some?)
            && u.seen == t.seen + [SnapshotOf(t, now, armed)] && u.bestSeen == NoteBest(t, now).bestSeen
            && (hit.Some? ==> hit.value < |t.plan.rules|)
  {
    hide JudgeFrom;
    JudgeFrame(NoteBest(t, now).(seen := t.seen + [SnapshotOf(t, now, armed)]), SnapshotOf(t, now, armed), 0);
  }

  lemma EvaluateStreaks(t: Tracked, now: int, armed: bool)
    requires DistinctNames(t.plan.rules) && forall k :: 0 <= k < |t.plan.rules| ==> StreakOk(t, k, t.seen)
    ensures var (u, hit) := EvaluateOne(t, now, armed);
            && u.plan == t.plan
            && (hit.None? ==> forall k :: 0 <= k < |u.plan.rules| ==> StreakOk(u, k, u.seen))
            && (hit.Some? ==>
                  hit.value < |t.plan.rules| &&
                  Trailing(t.plan.rules[hit.value], t.pos, u.seen) >= Needed(t.plan.rules[hit.value]))
  {
    hide VerdictOf, Trailing, Needed, JudgeFrom;
    var s := SnapshotOf(t, now, armed);
    var v := NoteBest(t, now).(seen := t.seen + [s]);
    forall k | 0 <= k < |t.plan.rules| ensures StreakOk(v, k, t.seen) { assert StreakOk(t, k, t.seen); }
    JudgeOk(v, s, 0, t.seen);
    JudgeFrame(v, s, 0);
  }

  lemma EvaluateOk(t: Tracked, now: int, armed: bool)
    requires TrackedOk(t) && !t.latched
    ensures var (u, hit) := EvaluateOne(t, now, armed);
            && TrackedOk(u) && u.pos == t.pos && u.plan == t.plan && (u.latched <==> hit.Some?)
            && (hit.Some? ==>
                  hit.value < |t.plan.rules| &&
                  (DistinctNames(t.plan.rules) ==>
                     Trailing(t.plan.rules[hit.value], t.pos, u.seen) >= Needed(t.plan.rules[hit.value])))
  {
    hide VerdictOf, Trailing, Needed, EvaluateOne, StreakOk;
    EvaluateFrame(t, now, armed);
    if DistinctNames(t.plan.rules) {
      EvaluateStreaks(t, now, armed);
    }
    var (u, hit) := EvaluateOne(t, now, armed);
    assert forall x :: x in u.seen ==> x in t.seen || x == SnapshotOf(t, now, armed);
  }

  /** No rule of a tracked position ever divides by zero. */
  lemma NeverPanics(t: Tracked, k: nat, i: nat)
    requires TrackedOk(t) && k < |t.plan.rules| && i < |t.seen|
    ensures VerdictOf(t.plan.rules[k], t.pos, t.seen[i]) != Panics
  {
    if t.plan.rules[k].ThetaRule? { ThetaPanics(t.plan.rules[k].c, t.pos, t.seen[i]); }
  }

  /** Everything a decision or an evaluation in flight rests on is as before. */
  ghost predicate Carries(a: Arb, b: Arb) {
    && b.decisions == a.decisions && b.flights == a.flights
    && forall id :: id in a.objs ==>
         && id in b.objs && b.objs[id].pos == a.objs[id].pos && b.objs[id].plan == a.objs[id].plan
         && b.objs[id].latched == a.objs[id].latched && b.objs[id].seen == a.objs[id].seen
  }

  lemma CarryOver(a: Arb, b: Arb)
    requires Ok(a) && Carries(a, b)
    ensures forall d :: d in b.decisions ==> DecisionOk(b, d)
    ensures forall f :: f in b.flights ==> FlightOk(b, b.flights[f])
  {
    hide TrackedOk, Trailing, Needed;
    forall d | d in b.decisions ensures DecisionOk(b, d) { assert DecisionOk(a, d); }
    forall f | f in b.flights ensures FlightOk(b, b.flights[f]) { assert FlightOk(a, a.flights[f]); }
  }

  lemma OpenKeeps(a: Arb, p: Position, plan: Plan)
    requires Ok(a)
    ensures Ok(OpenAt(a, p, plan))
  {
    NewOk(p, plan);
    TrackPos(p, plan);
    hide TrackedOk, DecisionOk, FlightOk, Track;
    OpenCarries(a, p, plan);
    CarryOver(a, OpenAt(a, p, plan));
    hide Carries;
  }

  lemma OpenCarries(a: Arb, p: Position, plan: Plan)
    requires forall id :: id in a.objs ==> id < a.nextId
    ensures Carries(a, OpenAt(a, p, plan))
  {
    hide Track;
  }

  lemma TrackPos(p: Position, plan: Plan)
    ensures Track(p, plan).pos == p
  {
  }

  lemma NewOk(p: Position, plan: Plan)
    ensures TrackedOk(Track(p, plan))
  {
  }

  lemma CloseKeeps(a: Arb, key: string)
    requires Ok(a)
    ensures Ok(a.(pos := a.pos - {key}))
  {
    hide TrackedOk, DecisionOk, FlightOk;
    CarryOver(a, a.(pos := a.pos - {key}));
  }

  /** A tick changes prices only. */
  lemma TickOk(t: Tracked, token: string, price: int)
    ensures var u := TickOne(t, token, price);
            && u == t.(indexLTP := u.indexLTP, premLTP := u.premLTP, premBest := u.premBest)
            && (TrackedOk(t) ==> TrackedOk(u))
  {
    hide Trailing;
    var u := TickOne(t, token, price);
    assert forall r :: StreakOf(u, r) == StreakOf(t, r);
    if TrackedOk(t) && !t.latched && DistinctNames(t.plan.rules) {
      forall k | 0 <= k < |u.plan.rules| ensures StreakOk(u, k, u.seen) { assert StreakOk(t, k, t.seen); }
    }
  }

  lemma TickCarries(a: Arb, token: string, price: int)
    requires forall id :: id in a.objs ==> TrackedOk(a.objs[id])
    ensures var b := TickAll(a, token, price);
            && Carries(a, b) && b.pos == a.pos && b.nextId == a.nextId && b.objs.Keys == a.objs.Keys
            && forall id :: id in b.objs ==> TrackedOk(b.objs[id])
  {
    hide TrackedOk, TickOne, Live;
    var b := TickAll(a, token, price);
    forall id | id in a.objs
      ensures TrackedOk(b.objs[id]) && b.objs[id].pos == a.objs[id].pos && b.objs[id].plan == a.objs[id].plan
      ensures b.objs[id].latched == a.objs[id].latched && b.objs[id].seen == a.objs[id].seen
    {
      TickOk(a.objs[id], token, price);
    }
  }

  lemma TickKeeps(a: Arb, token: string, price: int)
    requires Ok(a)
    ensures Ok(TickAll(a, token, price))
  {
    hide TrackedOk, TickAll, DecisionOk, FlightOk;
    TickCarries(a, token, price);
    CarryOver(a, TickAll(a, token, price));
  }

  lemma BeginKeeps(a: Arb, flight: nat, order: seq<nat>)
    requires Ok(a) && Enabled(a, Begin(flight, order)) && Tame(a, Begin(flight, order))
    ensures Ok(a.(flights := a.flights[flight := order]))
  {
    hide TrackedOk, Trailing;
    var b := a.(flights := a.flights[flight := order]);
    forall d | d in b.decisions ensures DecisionOk(b, d) { assert DecisionOk(a, d); }
    assert FlightOk(b, order);
    forall f | f in b.flights ensures FlightOk(b, b.flights[f]) {
      if f != flight { assert FlightOk(a, a.flights[f]); }
    }
  }

  /** ids are judged by no evaluation still in flight. */
  predicate Alone(a: Arb, ids: seq<nat>) { forall f :: f in a.flights ==> Apart(ids, a.flights[f]) }

  lemma FinishOneKeeps(a: Arb, id: nat, rest: seq<nat>, now: int, armed: set<nat>)
    requires Ok(a) && FlightOk(a, [id] + rest) && Alone(a, [id] + rest)
    ensures var b := FinishOne(a, id, now, armed); Ok(b) && FlightOk(b, rest) && Alone(b, rest)
  {
    hide TrackedOk, Trailing, EvaluateOne, DecisionOk;
    assert ([id] + rest)[0] == id;
    assert forall i :: 0 <= i < |rest| ==> rest[i] == ([id] + rest)[i + 1];
    assert id in [id] + rest;
    if Live(a, id) {
      EvaluateOk(a.objs[id], now, id in armed);
      DecisionsKept(a, id, now, armed);
      forall f | f in a.flights ensures FlightOk(FinishOne(a, id, now, armed), a.flights[f]) {
        assert FlightOk(a, a.flights[f]) && Apart([id] + rest, a.flights[f]);
        FlightKept(a, id, a.flights[f], now, armed);
      }
      FlightKept(a, id, rest, now, armed);
      hide FlightOk, Apart;
    }
  }

  /** Judging a position leaves an evaluation that has not taken it as it was. */
  lemma FlightKept(a: Arb, id: nat, ids: seq<nat>, now: int, armed: set<nat>)
    requires FlightOk(a, ids) && id !in ids && Live(a, id)
    ensures FlightOk(FinishOne(a, id, now, armed), ids)
  {
    hide TrackedOk, Trailing, EvaluateOne, DecisionOk;
    EvaluateFrame(a.objs[id], now, id in armed);
  }

  lemma DecisionsKept(a: Arb, id: nat, now: int, armed: set<nat>)
    requires Ok(a) && Live(a, id) && TrackedOk(a.objs[id]) && !a.objs[id].latched
    requires forall d :: d in a.decisions ==> d.id != id
    ensures var b := FinishOne(a, id, now, armed); forall d :: d in b.decisions ==> DecisionOk(b, d)
  {
    hide TrackedOk, Trailing, EvaluateOne;
    var b := FinishOne(a, id, now, armed);
    EvaluateOk(a.objs[id], now, id in armed);
    var (t, hit) := EvaluateOne(a.objs[id], now, id in armed);
    forall d | d in b.decisions ensures DecisionOk(b, d) {
      if d in a.decisions {
        assert DecisionOk(a, d);
      } else {
        assert hit.Some? && d == Decision(id, hit.value, t.plan.mode != Act, now);
        assert b.objs[id] == t;
      }
    }
  }

  /** ids still to be judged, in this order. */
  lemma {:induction false} FinishKeeps(a: Arb, ids: seq<nat>, todo: seq<nat>, now: int, armed: set<nat>)
    requires Ok(a) && FlightOk(a, ids + todo) && Alone(a, ids + todo)
    ensures var b := FinishAll(a, ids, now, armed); Ok(b) && FlightOk(b, todo) && Alone(b, todo)
  {
    hide Ok, FlightOk, Alone, FinishOne;
    if ids == [] {
      assert ids + todo == todo;
    } else {
      var init, last := ids[..|ids| - 1], ids[|ids| - 1];
      assert init + ([last] + todo) == ids + todo;
      FinishKeeps(a, init, [last] + todo, now, armed);
      FinishOneKeeps(FinishAll(a, init, now, armed), last, todo, now, armed);
    }
  }

  lemma LandKeeps(a: Arb, flight: nat)
    requires Ok(a) && flight in a.flights
    ensures var b := a.(flights := a.flights - {flight});
            Ok(b) && FlightOk(b, a.flights[flight]) && Alone(b, a.flights[flight])
  {
    hide TrackedOk, Trailing;
    var b := a.(flights := a.flights - {flight});
    forall d | d in b.decisions ensures DecisionOk(b, d) { assert DecisionOk(a, d); }
    forall f | f in a.flights ensures FlightOk(b, a.flights[f]) { assert FlightOk(a, a.flights[f]); }
  }

  lemma StepKeeps(a: Arb, s: Step)
    requires Ok(a) && Enabled(a, s) && Tame(a, s)
    ensures Ok(Apply(a, s))
  {
    hide Ok, FinishAll, OpenAt, TickAll;
    match s
    case Open(p, plan) => OpenKeeps(a, p, plan);
    case Close(key) => CloseKeeps(a, key);
    case Tick(token, price) => TickKeeps(a, token, price);
    case Begin(flight, order) => BeginKeeps(a, flight, order);
    case Finish(flight, now, armed) =>
      LandKeeps(a, flight);
      var ids := a.flights[flight];
      assert ids + [] == ids;
      FinishKeeps(a.(flights := a.flights - {flight}), ids, [], now, armed);
  }

  /** As long as no two evaluations in flight have taken the same position, whatever is opened, closed or ticked between their
      phases: every position decides at most once, a rule that decides fired on each of its last evaluations for as long as
      it must confirm unless another rule of the plan shares its name, and no evaluation sees a best premium under the
      entry. */
  lemma {:induction false} DecidesOnce(steps: seq<Step>)
    requires IsRun(EMPTY, steps) && TameRun(EMPTY, steps)
    ensures Ok(After(EMPTY, steps))
  {
    if steps != [] {
      hide Ok, Apply, Enabled, Tame;
      DecidesOnce(steps[..|steps| - 1]);
      StepKeeps(After(EMPTY, steps[..|steps| - 1]), steps[|steps| - 1]);
    }
  }

  // ----- Closed positions -----

  lemma FinishOneFrame(a: Arb, id: nat, now: int, armed: set<nat>)
    ensures var b := FinishOne(a, id, now, armed);
            && b.pos == a.pos && b.objs.Keys == a.objs.Keys && b.nextId == a.nextId
            && (forall i :: i in a.objs ==> b.objs[i].pos == a.objs[i].pos)
            && (b.decisions == a.decisions || (Live(a, id) && exists d: Decision :: d.id == id && b.decisions == a.decisions + [d]))
  {
    hide EvaluateOne;
    if Live(a, id) {
      EvaluateFrame(a.objs[id], now, id in armed);
      var (t, hit) := EvaluateOne(a.objs[id], now, id in armed);
      if hit.Some? {
        var d := Decision(id, hit.value, t.plan.mode != Act, now);
        assert d.id == id && FinishOne(a, id, now, armed).decisions == a.decisions + [d];
      }
    }
  }

  /** Only live objects decide: gone is an object that is not live. */
  lemma {:induction false} FinishFrame(a: Arb, ids: seq<nat>, now: int, armed: set<nat>, gone: nat)
    requires gone in a.objs && !Live(a, gone)
    ensures var b := FinishAll(a, ids, now, armed);
            && gone in b.objs && !Live(b, gone) && b.nextId == a.nextId && b.pos == a.pos && b.objs.Keys == a.objs.Keys
            && (forall d :: d in b.decisions && d.id == gone ==> d in a.decisions)
  {
    if ids != [] {
      hide FinishOne;
      FinishFrame(a, ids[..|ids| - 1], now, armed, gone);
      FinishOneFrame(FinishAll(a, ids[..|ids| - 1], now, armed), ids[|ids| - 1], now, armed);
    }
  }

  lemma GoneStaysGone(a: Arb, s: Step, gone: nat)
    requires Enabled(a, s) && gone in a.objs && gone < a.nextId && !Live(a, gone)
    ensures var b := Apply(a, s);
            && gone in b.objs && gone < b.nextId && !Live(b, gone)
            && (forall d :: d in b.decisions && d.id == gone ==> d in a.decisions)
  {
    match s
    case Finish(flight, now, armed) =>
      FinishFrame(a.(flights := a.flights - {flight}), a.flights[flight], now, armed, gone);
    case Tick(token, price) => hide VerdictOf;
    case _ =>
  }

  /** A position closed, or replaced by a new Open on its key, decides no more, even when an evaluation that took it is still
      in flight. */
  lemma {:induction false} ClosedNeverDecides(a: Arb, steps: seq<Step>, gone: nat)
    requires IsRun(a, steps) && gone in a.objs && gone < a.nextId && !Live(a, gone)
    ensures var b := After(a, steps);
            && gone in b.objs && gone < b.nextId && !Live(b, gone)
            && (forall d :: d in b.decisions && d.id == gone ==> d in a.decisions)
  {
    if steps != [] {
      hide Apply, Enabled, Live;
      ClosedNeverDecides(a, steps[..|steps| - 1], gone);
      GoneStaysGone(After(a, steps[..|steps| - 1]), steps[|steps| - 1], gone);
    }
  }

  // ----- Two evaluations in flight -----

  lemma RunSnoc(a: Arb, steps: seq<Step>, s: Step)
    requires IsRun(a, steps) && Enabled(After(a, steps), s)
    ensures IsRun(a, steps + [s]) && After(a, steps + [s]) == Apply(After(a, steps), s)
  {
    assert (steps + [s])[..|steps|] == steps;
  }

  function DecisionsOn(ds: seq<Decision>, id: nat): nat {
    if ds == [] then 0 else DecisionsOn(ds[..|ds| - 1], id) + if ds[|ds| - 1].id == id then 1 else 0
  }

  /** Judging a position for the given minute decides it. */
  predicate Decides(t: Tracked, now: int, armed: bool) { EvaluateOne(t, now, armed).1.Some? }

  predicate Once(ids: seq<nat>, id: nat) {
    id in ids && forall i, j :: 0 <= i < j < |ids| ==> ids[i] != ids[j]
  }

  /** Finishing an evaluation judges each position it took once, and no other. */
  lemma {:induction false} FinishCounts(a: Arb, ids: seq<nat>, now: int, armed: set<nat>, id: nat)
    requires Live(a, id) && forall i, j :: 0 <= i < j < |ids| ==> ids[i] != ids[j]
    ensures var b, t := FinishAll(a, ids, now, armed), a.objs[id];
            && Live(b, id) && b.flights == a.flights && b.pos == a.pos && b.objs.Keys == a.objs.Keys
            && b.objs[id] == (if id in ids then EvaluateOne(t, now, id in armed).0 else t)
            && DecisionsOn(b.decisions, id) ==
               DecisionsOn(a.decisions, id) + if id in ids && Decides(t, now, id in armed) then 1 else 0
  {
    hide EvaluateOne, Live, DecisionsOn;
    if ids != [] {
      hide FinishOne;
      var init, last := ids[..|ids| - 1], ids[|ids| - 1];
      FinishCounts(a, init, now, armed, id);
      var m := FinishAll(a, init, now, armed);
      assert FinishAll(a, ids, now, armed) == FinishOne(m, last, now, armed);
      LiveFinish(m, last, now, armed, id);
      DecisionsSnoc(m, last, now, armed, id);
      assert id in ids <==> id in init || id == last;
      assert last !in init;
    }
  }

  lemma LiveFinish(m: Arb, last: nat, now: int, armed: set<nat>, id: nat)
    requires Live(m, id)
    ensures var b := FinishOne(m, last, now, armed);
            && Live(b, id) && b.flights == m.flights && b.pos == m.pos && b.objs.Keys == m.objs.Keys
            && b.objs[id] == if last == id then EvaluateOne(m.objs[id], now, id in armed).0 else m.objs[id]
  {
    hide EvaluateOne;
    if Live(m, last) { EvaluateFrame(m.objs[last], now, last in armed); }
  }

  lemma DecisionsSnoc(m: Arb, last: nat, now: int, armed: set<nat>, id: nat)
    ensures DecisionsOn(FinishOne(m, last, now, armed).decisions, id) ==
            DecisionsOn(m.decisions, id) +
            if last == id && Live(m, last) && Decides(m.objs[last], now, last in armed) then 1 else 0
  {
    hide EvaluateOne;
    if Live(m, last) && Decides(m.objs[last], now, last in armed) {
      var (t, hit) := EvaluateOne(m.objs[last], now, last in armed);
      var d := Decision(last, hit.value, t.plan.mode != Act, now);
      assert (m.decisions + [d])[..|m.decisions|] == m.decisions;
    }
  }

  /** Two evaluations that both took a live position judge it one after the other, latched or not: when they finish it has
      decided once more for each of the two judgements that decides. */
  lemma SharedDecides(a: Arb, f: nat, g: nat, id: nat, nowF: int, armedF: set<nat>, nowG: int, armedG: set<nat>)
    requires f != g && Enabled(a, Finish(f, nowF, armedF)) && Enabled(a, Finish(g, nowG, armedG)) && Live(a, id)
    requires Once(a.flights[f], id) && Once(a.flights[g], id)
    ensures var b, t := Apply(a, Finish(f, nowF, armedF)), a.objs[id];
            var t' := EvaluateOne(t, nowF, id in armedF).0;
            && Enabled(b, Finish(g, nowG, armedG))
            && DecisionsOn(Apply(b, Finish(g, nowG, armedG)).decisions, id) ==
               DecisionsOn(a.decisions, id) + (if Decides(t, nowF, id in armedF) then 1 else 0)
               + if Decides(t', nowG, id in armedG) then 1 else 0
  {
    hide EvaluateOne, Decides, FinishAll, DecisionsOn;
    FinishCounts(a.(flights := a.flights - {f}), a.flights[f], nowF, armedF, id);
    var b := Apply(a, Finish(f, nowF, armedF));
    FinishCounts(b.(flights := b.flights - {g}), b.flights[g], nowG, armedG, id);
  }

  /** A latched position judged again decides again as long as the rule that decided still fires. */
  lemma DecidesAgain(t: Tracked, nowF: int, armedF: bool, nowG: int, armedG: bool)
    requires Decides(t, nowF, armedF) && DistinctNames(t.plan.rules)
    requires var (t', hit) := EvaluateOne(t, nowF, armedF);
             hit.value < |t.plan.rules| && VerdictOf(t.plan.rules[hit.value], t.pos, SnapshotOf(t', nowG, armedG)) == Fires
    ensures Decides(EvaluateOne(t, nowF, armedF).0, nowG, armedG)
  {
    hide VerdictOf, Needed, JudgeFrom;
    var (t', hit) := EvaluateOne(t, nowF, armedF);
    var k, s := hit.value, SnapshotOf(t, nowF, armedF);
    var v := NoteBest(t, nowF).(seen := t.seen + [s]);
    JudgeFrame(v, s, 0);
    HitConfirmed(v, s, 0);
    var s' := SnapshotOf(t', nowG, armedG);
    ConfirmedHits(NoteBest(t', nowG).(seen := t'.seen + [s']), s', 0, k);
  }

  /** The rule that decides has held as long as it must. */
  lemma {:induction false} HitConfirmed(t: Tracked, s: Snapshot, i: nat)
    requires i <= |t.plan.rules|
    ensures var (u, hit) := JudgeFrom(t, s, i);
            hit.Some? ==> hit.value < |u.plan.rules| && StreakOf(u, u.plan.rules[hit.value]) >= Needed(u.plan.rules[hit.value])
    decreases |t.plan.rules| - i
  {
    hide VerdictOf, Needed;
    if i < |t.plan.rules| {
      var r := t.plan.rules[i];
      HitConfirmed(SetStreak(t, r, 0), s, i + 1);
      HitConfirmed(SetStreak(t, r, StreakOf(t, r) + 1), s, i + 1);
    }
  }

  /** A rule that fires and has held long enough decides, unless an earlier one does. */
  lemma {:induction false} ConfirmedHits(t: Tracked, s: Snapshot, i: nat, k: nat)
    requires i <= k < |t.plan.rules| && DistinctNames(t.plan.rules) && VerdictOf(t.plan.rules[k], t.pos, s) == Fires
    requires StreakOf(t, t.plan.rules[k]) >= Needed(t.plan.rules[k])
    ensures JudgeFrom(t, s, i).1.Some?
    decreases k - i
  {
    hide VerdictOf, Needed;
    if i < k {
      var r := t.plan.rules[i];
      assert NameOf(r) != NameOf(t.plan.rules[k]);
      ConfirmedHits(SetStreak(t, r, 0), s, i + 1, k);
      ConfirmedHits(SetStreak(t, r, StreakOf(t, r) + 1), s, i + 1, k);
    }
  }

  /** Two evaluations of one minute, with no tick or change of protection between them, see the same snapshot: a position
      both took that decides in the first decides in the second too. */
  lemma SameMinuteDecidesTwice(a: Arb, f: nat, g: nat, id: nat, now: int, armed: set<nat>)
    requires f != g && Enabled(a, Finish(f, now, armed)) && Enabled(a, Finish(g, now, armed)) && Live(a, id)
    requires Once(a.flights[f], id) && Once(a.flights[g], id)
    requires DistinctNames(a.objs[id].plan.rules) && Decides(a.objs[id], now, id in armed)
    ensures var b := Apply(a, Finish(f, now, armed));
            && Enabled(b, Finish(g, now, armed))
            && DecisionsOn(Apply(b, Finish(g, now, armed)).decisions, id) == DecisionsOn(a.decisions, id) + 2
  {
    hide EvaluateOne, Decides, FinishAll, DecisionsOn, Apply, VerdictOf;
    var t := a.objs[id];
    SharedDecides(a, f, g, id, now, armed, now, armed);
    SameSnapshot(t, now, id in armed);
    DecidesAgain(t, now, id in armed, now, id in armed);
  }

  lemma SameSnapshot(t: Tracked, now: int, armed: bool)
    requires Decides(t, now, armed)
    ensures var (t', hit) := EvaluateOne(t, now, armed);
            && SnapshotOf(t', now, armed) == SnapshotOf(t, now, armed) && hit.value < |t.plan.rules|
            && VerdictOf(t.plan.rules[hit.value], t.pos, SnapshotOf(t, now, armed)) == Fires
  {
    hide VerdictOf, JudgeFrom;
    var s := SnapshotOf(t, now, armed);
    var v := NoteBest(t, now).(seen := t.seen + [s]);
    JudgeFrame(v, s, 0);
    HitFires(v, s, 0);
  }

  lemma {:induction false} HitFires(t: Tracked, s: Snapshot, i: nat)
    requires i <= |t.plan.rules|
    ensures var hit := JudgeFrom(t, s, i).1;
            hit.Some? ==> hit.value < |t.plan.rules| && VerdictOf(t.plan.rules[hit.value], t.pos, s) == Fires
    decreases |t.plan.rules| - i
  {
    hide VerdictOf, Needed;
    if i < |t.plan.rules| {
      var r := t.plan.rules[i];
      HitFires(SetStreak(t, r, 0), s, i + 1);
      HitFires(SetStreak(t, r, StreakOf(t, r) + 1), s, i + 1);
    }
  }

  /** Such a state is reached: one position under a rule that always fires, taken by two evaluations. */
  lemma TwoCanShare() returns (steps: seq<Step>)
    ensures IsRun(EMPTY, steps)
    ensures var a := After(EMPTY, steps);
            && a.flights == map[0 := [0], 1 := [0]] && Live(a, 0) && DistinctNames(a.objs[0].plan.rules)
            && Decides(a.objs[0], 0, false)
  {
    var rule := OtherRule(1, 1, (p, s) => true);
    var p := Position("k", "i", "f", None, 0, 0, None);
    var plan := Plan(Act, [rule]);
    steps := [];
    RunSnoc(EMPTY, steps, Open(p, plan));
    steps := steps + [Open(p, plan)];
    RunSnoc(EMPTY, steps, Begin(0, [0]));
    steps := steps + [Begin(0, [0])];
    RunSnoc(EMPTY, steps, Begin(1, [0]));
    steps := steps + [Begin(1, [0])];
  }

  /** Two rules of one name share a streak: a rule that must hold for two minutes decides in its first. */
  lemma SharedNameConfirmsEarly(p: Position, now: int, armed: bool)
    ensures var rule := OtherRule(1, 2, (p, s) => true);
            var t := Track(p, Plan(Act, [rule, rule]));
            && EvaluateOne(t, now, armed).1 == Some(1)
            && Trailing(rule, p, EvaluateOne(t, now, armed).0.seen) == 1 && Needed(rule) == 2
  {
    var rule := OtherRule(1, 2, (p, s) => true);
    var t := Track(p, Plan(Act, [rule, rule]));
    var s := SnapshotOf(t, now, armed);
    var v := NoteBest(t, now).(seen := t.seen + [s]);
    var w := SetStreak(v, rule, 1);
    assert StreakOf(v, rule) == 0 && StreakOf(w, rule) == 1;
    assert JudgeFrom(w, s, 1) == (SetStreak(w, rule, 2).(latched := true), Some(1));
    assert JudgeFrom(v, s, 0) == JudgeFrom(w, s, 1);
    TrailingSnoc(rule, p, [], s);
  }

  // ----- The arbiter object -----

  class ArbiterObject {
    var objs: map<nat, Tracked>
    var pos: map<string, nat>
    var nextId: nat
    var flights: map<nat, seq<nat>>
    ghost var decisions: seq<Decision>

    ghost function View(): Arb
      reads this
    {
      Arb(objs, pos, nextId, flights, decisions)
    }

    constructor ()
      ensures View() == EMPTY
    {
      objs, pos, nextId, flights, decisions := map[], map[], 0, map[], [];
    }

    method OpenPosition(p: Position, plan: Plan)
      modifies this`objs, this`pos, this`nextId
      ensures View() == Apply(old(View()), Open(p, plan))
    {
      pos := pos - {p.key};
      if plan.mode == Off || |plan.rules| == 0 {
        return;
      }
      var t := Tracked(p, plan, 0, 0, 0, p.premEntry, p.entryTS, map[], false, []);
      objs, pos, nextId := objs[nextId := t], pos[p.key := nextId], nextId + 1;
    }

    method ClosePosition(key: string)
      modifies this`pos
      ensures View() == Apply(old(View()), Close(key))
    {
      pos := pos - {key};
    }

    /** Records a price for every live position that holds the token. */
    method OnTick(token: string, price: int)
      modifies this`objs
      ensures View() == Apply(old(View()), Tick(token, price))
    {
      if price <= 0 {
        return;
      }
      objs := TickObjects(View(), objs, pos, token, price);
    }

    /** The first locked phase of a minute evaluation. */
    method BeginMinute(flight: nat) returns (order: seq<nat>)
      requires flight !in flights
      modifies this`flights
      ensures IsSnapshotOf(order, old(View())) && View() == Apply(old(View()), Begin(flight, order))
    {
      order := [];
      var todo := objs.Keys;
      while todo != {}
        invariant todo <= objs.Keys && flights == old(flights)
        invariant forall id :: id in order ==> id !in todo && id in objs && Live(View(), id) && !objs[id].latched
        invariant forall id :: id in objs && id !in todo && Live(View(), id) && !objs[id].latched ==> id in order
        invariant forall i, j :: 0 <= i < j < |order| ==> order[i] != order[j]
        decreases |todo|
      {
        var id :| id in todo;
        if objs[id].pos.key in pos && pos[objs[id].pos.key] == id && !objs[id].latched {
          order := order + [id];
        }
        todo := todo - {id};
      }
      flights := flights[flight := order];
    }

    /** The second locked phase: judge what the first took and is still there. */
    method FinishMinute(flight: nat, now: int, armed: set<nat>) returns (decided: seq<Decision>)
      requires Enabled(View(), Finish(flight, now, armed))
      modifies this`objs, this`flights, this`decisions
      ensures View() == Apply(old(View()), Finish(flight, now, armed))
      ensures decisions == old(decisions) + decided
    {
      hide FinishOne, FinishAll, EvaluateOne;
      var ids := flights[flight];
      flights := flights - {flight};
      ghost var was := View();
      decided := [];
      FinishNone(was, now, armed);
      assert ids[..0] == [];
      for i := 0 to |ids|
        invariant View() == FinishAll(was, ids[..i], now, armed)
        invariant decisions == was.decisions + decided
        invariant forall id :: id in was.objs ==> id in objs
      {
        assert ids[..i + 1] == ids[..i] + [ids[i]];
        FinishSnoc(was, ids[..i], ids[i], now, armed);
        FinishOneFrame(View(), ids[i], now, armed);
        FinishOneIs(View(), ids[i], now, armed);
        var t := objs[ids[i]];
        if t.pos.key in pos && pos[t.pos.key] == ids[i] {
          var hit;
          t, hit := Judge(t, now, ids[i] in armed);
          objs := objs[ids[i] := t];
          if hit.Some? {
            var d := Decision(ids[i], hit.value, t.plan.mode != Act, now);
            decided, decisions := decided + [d], decisions + [d];
          }
        }
      }
      assert ids[..|ids|] == ids;
    }
  }

  method TickObjects(ghost a: Arb, objs: map<nat, Tracked>, pos: map<string, nat>, token: string, price: int)
    returns (r: map<nat, Tracked>)
    requires a.objs == objs && a.pos == pos && price > 0
    ensures r == TickAll(a, token, price).objs
  {
    hide TickAll, TickOne;
    r := objs;
    var todo := objs.Keys;
    while todo != {}
      invariant todo <= objs.Keys == r.Keys
      invariant forall id :: id in objs ==>
                  r[id] == if id !in todo && Live(a, id) then TickOne(objs[id], token, price) else objs[id]
      decreases |todo|
    {
      var id :| id in todo;
      if objs[id].pos.key in pos && pos[objs[id].pos.key] == id {
        r := r[id := TickOne(objs[id], token, price)];
      }
      todo := todo - {id};
    }
    TickAllIs(a, token, price, r);
  }

  lemma TickAllIs(a: Arb, token: string, price: int, r: map<nat, Tracked>)
    requires price > 0 && r.Keys == a.objs.Keys
    requires forall id :: id in a.objs ==> r[id] == if Live(a, id) then TickOne(a.objs[id], token, price) else a.objs[id]
    ensures r == TickAll(a, token, price).objs
  {
  }

  lemma FinishNone(a: Arb, now: int, armed: set<nat>)
    ensures FinishAll(a, [], now, armed) == a
  {
  }

  lemma FinishSnoc(a: Arb, ids: seq<nat>, id: nat, now: int, armed: set<nat>)
    ensures FinishAll(a, ids + [id], now, armed) == FinishOne(FinishAll(a, ids, now, armed), id, now, armed)
  {
    assert (ids + [id])[..|ids|] == ids;
  }

  lemma FinishOneIs(a: Arb, id: nat, now: int, armed: set<nat>)
    requires id in a.objs
    ensures FinishOne(a, id, now, armed) ==
            if !Live(a, id) then a
            else
              var (t, hit) := EvaluateOne(a.objs[id], now, id in armed);
              a.(objs := a.objs[id := t],
                 decisions := if hit.None? then a.decisions
                              else a.decisions + [Decision(id, hit.value, t.plan.mode != Act, now)])
  {
  }

  /** One position's evaluation: the rule loop, stopping at the first rule that has held long enough. */
  method Judge(t0: Tracked, now: int, armed: bool) returns (t: Tracked, hit: Option<nat>)
    ensures (t, hit) == EvaluateOne(t0, now, armed)
  {
    hide VerdictOf, Needed;
    t := t0;
    var best := if t.premBest > t.pos.premEntry then t.premBest else t.pos.premEntry;
    if best > t.bestSeen || t.bestTS.None? {
      t := t.(bestSeen := best, bestTS := Some(now));
    }
    var s := Snapshot(now, t.indexLTP, t.premLTP, best, t.bestTS, armed);
    t := t.(seen := t.seen + [s]);
    assert EvaluateOne(t0, now, armed) == JudgeFrom(t, s, 0);
    var i := 0;
    while i < |t.plan.rules|
      invariant 0 <= i <= |t.plan.rules| && EvaluateOne(t0, now, armed) == JudgeFrom(t, s, i)
      decreases |t.plan.rules| - i
    {
      var r := t.plan.rules[i];
      if VerdictOf(r, t.pos, s) != Fires {
        t := SetStreak(t, r, 0);
      } else {
        t := SetStreak(t, r, StreakOf(t, r) + 1);
        if StreakOf(t, r) >= Needed(r) {
          return t.(latched := true), Some(i);
        }
      }
      i := i + 1;
    }
    return t, None;
  }
}
