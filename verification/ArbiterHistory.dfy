/** What the arbiter judges and when it decides, told from the steps of a run alone. */
module ArbiterHistory {
  import opened Common
  import opened Arbiter

  lemma StepsSnoc(a: Arb, steps: seq<Step>)
    requires IsRun(a, steps) && steps != []
    ensures var init, s := steps[..|steps| - 1], steps[|steps| - 1];
            IsRun(a, init) && Enabled(After(a, init), s) && After(a, steps) == Apply(After(a, init), s)
  {
  }

  // ----- Prices -----

  /** The last positive price of the token among the steps, 0 when there is none. */
  function LastPrice(steps: seq<Step>, token: string): int {
    if steps == [] then 0
    else
      var s := steps[|steps| - 1];
      if s.Tick? && s.token == token && s.price > 0 then s.price else LastPrice(steps[..|steps| - 1], token)
  }

  /** Some step is a positive tick of the token at the price. */
  ghost predicate TickedAt(steps: seq<Step>, token: string, price: int) {
    price > 0 && Tick(token, price) in steps
  }

  /** best is the entry premium, at least 0, or a tick of the option's token since, and none of these is larger. A position
      whose option token is its index token gets no option ticks. */
  ghost predicate Largest(best: int, since: seq<Step>, p: Position) {
    && (best == Max(0, p.premEntry) || (p.fnoToken != p.indexToken && TickedAt(since, p.fnoToken, best)))
    && best >= Max(0, p.premEntry)
    && forall price :: p.fnoToken != p.indexToken && TickedAt(since, p.fnoToken, price) ==> price <= best
  }

  /** The prices the object holds are those ticked since it was opened. */
  ghost predicate PricesOf(t: Tracked, since: seq<Step>) {
    && t.indexLTP == LastPrice(since, t.pos.indexToken)
    && t.premLTP == (if t.pos.fnoToken == t.pos.indexToken then 0 else LastPrice(since, t.pos.fnoToken))
    && Largest(Max(t.premBest, t.pos.premEntry), since, t.pos)
  }

  /** Step j opened the object. */
  ghost predicate OpenedAt(steps: seq<Step>, j: nat, id: nat)
    requires IsRun(EMPTY, steps)
  {
    && j < |steps| && IsRun(EMPTY, steps[..j]) && steps[j].Open? && After(EMPTY, steps[..j]).nextId == id
    && steps[j].plan.mode != Off && steps[j].plan.rules != []
  }

  lemma TicksSnoc(steps: seq<Step>, s: Step, token: string)
    ensures LastPrice(steps + [s], token) == if s.Tick? && s.token == token && s.price > 0 then s.price else LastPrice(steps, token)
    ensures forall price :: TickedAt(steps + [s], token, price) <==> TickedAt(steps, token, price) || (price > 0 && s == Tick(token, price))
  {
    assert (steps + [s])[..|steps|] == steps;
  }

  /** A step that is no tick changes no price. */
  lemma QuietPrices(t: Tracked, u: Tracked, since: seq<Step>, s: Step)
    requires PricesOf(t, since) && (!s.Tick? || s.price <= 0)
    requires u.pos == t.pos && u.indexLTP == t.indexLTP && u.premLTP == t.premLTP && u.premBest == t.premBest
    ensures PricesOf(u, since + [s])
  {
    TicksSnoc(since, s, t.pos.indexToken);
    TicksSnoc(since, s, t.pos.fnoToken);
    hide LastPrice, TickedAt;
  }

  lemma TickPrices(t: Tracked, since: seq<Step>, token: string, price: int)
    requires PricesOf(t, since) && price > 0
    ensures PricesOf(TickOne(t, token, price), since + [Tick(token, price)])
  {
    var s := Tick(token, price);
    TicksSnoc(since, s, t.pos.indexToken);
    TicksSnoc(since, s, t.pos.fnoToken);
    hide LastPrice, TickedAt;
    assert price > 0 && s == Tick(t.pos.fnoToken, price) ==> TickedAt(since + [s], t.pos.fnoToken, price);
  }

  lemma OpenPrices(p: Position, plan: Plan)
    ensures PricesOf(Track(p, plan), [])
  {
  }

  lemma JudgedKeepsPrices(t: Tracked, now: int, armed: bool)
    ensures var u := EvaluateOne(t, now, armed).0;
            u.pos == t.pos && u.plan == t.plan && u.indexLTP == t.indexLTP && u.premLTP == t.premLTP && u.premBest == t.premBest
  {
    hide JudgeFrom;
    JudgeFrame(NoteBest(t, now).(seen := t.seen + [SnapshotOf(t, now, armed)]), SnapshotOf(t, now, armed), 0);
  }

  lemma {:induction false} FinishKeepsPrices(a: Arb, ids: seq<nat>, now: int, armed: set<nat>, id: nat)
    requires id in a.objs
    ensures var b := FinishAll(a, ids, now, armed);
            && b.pos == a.pos && b.nextId == a.nextId && b.objs.Keys == a.objs.Keys
            && b.objs[id].pos == a.objs[id].pos && b.objs[id].plan == a.objs[id].plan && b.objs[id].indexLTP == a.objs[id].indexLTP
            && b.objs[id].premLTP == a.objs[id].premLTP && b.objs[id].premBest == a.objs[id].premBest
  {
    if ids != [] {
      hide EvaluateOne;
      var init, last := ids[..|ids| - 1], ids[|ids| - 1];
      FinishKeepsPrices(a, init, now, armed, id);
      var m := FinishAll(a, init, now, armed);
      if Live(m, last) { JudgedKeepsPrices(m.objs[last], now, last in armed); }
    }
  }

  /** Ids are handed out in order, and every key names an object that holds it. */
  predicate Numbered(a: Arb) {
    && (forall id :: id in a.objs ==> id < a.nextId)
    && (forall key :: key in a.pos ==> a.pos[key] in a.objs && a.objs[a.pos[key]].pos.key == key)
  }

  lemma NumberedStep(a: Arb, s: Step)
    requires Numbered(a) && Enabled(a, s)
    ensures Numbered(Apply(a, s))
  {
    match s
    case Finish(flight, now, armed) =>
      var l := a.(flights := a.flights - {flight});
      forall id | id in a.objs { FinishKeepsPrices(l, a.flights[flight], now, armed, id); }
      FinishKeys(l, a.flights[flight], now, armed);
    case Tick(token, price) =>
    case _ =>
  }

  lemma {:induction false} FinishKeys(a: Arb, ids: seq<nat>, now: int, armed: set<nat>)
    ensures var b := FinishAll(a, ids, now, armed); b.pos == a.pos && b.nextId == a.nextId && b.objs.Keys == a.objs.Keys
  {
    if ids != [] {
      hide EvaluateOne;
      FinishKeys(a, ids[..|ids| - 1], now, armed);
    }
  }

  lemma {:induction false} RunNumbered(steps: seq<Step>)
    requires IsRun(EMPTY, steps)
    ensures Numbered(After(EMPTY, steps))
  {
    if steps != [] {
      hide Apply, Enabled, Numbered;
      RunNumbered(steps[..|steps| - 1]);
      NumberedStep(After(EMPTY, steps[..|steps| - 1]), steps[|steps| - 1]);
    } else {
      assert Numbered(EMPTY);
    }
  }

  /** An object live after a step was live before it, or the step opened it. */
  lemma LiveBefore(a: Arb, s: Step, id: nat)
    requires Numbered(a) && Enabled(a, s) && Live(Apply(a, s), id)
    ensures Live(a, id) || (s.Open? && s.plan.mode != Off && s.plan.rules != [] && id == a.nextId
                            && Apply(a, s).objs[id] == Track(s.p, s.plan))
  {
    match s
    case Open(p, plan) =>
    case Close(key) =>
    case Tick(token, price) =>
    case Begin(_, _) =>
    case Finish(flight, now, armed) =>
      var l := a.(flights := a.flights - {flight});
      FinishKeys(l, a.flights[flight], now, armed);
      FinishKeepsPrices(l, a.flights[flight], now, armed, id);
  }

  /** A live object's prices over one step. */
  lemma StepPrices(a: Arb, s: Step, id: nat, since: seq<Step>)
    requires Numbered(a) && Enabled(a, s) && Live(a, id) && Live(Apply(a, s), id) && PricesOf(a.objs[id], since)
    ensures var u := Apply(a, s).objs[id];
            PricesOf(u, since + [s]) && u.pos == a.objs[id].pos && u.plan == a.objs[id].plan
  {
    var t, u := a.objs[id], Apply(a, s).objs[id];
    match s
    case Open(p, plan) => hide PricesOf; QuietPrices(t, u, since, s);
    case Close(key) => hide PricesOf; QuietPrices(t, u, since, s);
    case Tick(token, price) =>
      hide PricesOf;
      if price > 0 { TickPrices(t, since, token, price); } else { QuietPrices(t, u, since, s); }
    case Begin(_, _) => hide PricesOf; QuietPrices(t, u, since, s);
    case Finish(flight, now, armed) =>
      hide PricesOf;
      FinishKeepsPrices(a.(flights := a.flights - {flight}), a.flights[flight], now, armed, id);
      QuietPrices(t, u, since, s);
  }

  /** In any run, a live position was opened by some step, and holds the last price of its index and of its option ticked since,
      and the largest of its entry premium and every price of its option ticked since. */
  lemma {:induction false} LivePrices(steps: seq<Step>, id: nat) returns (j: nat)
    requires IsRun(EMPTY, steps) && Live(After(EMPTY, steps), id)
    ensures OpenedAt(steps, j, id)
    ensures var t := After(EMPTY, steps).objs[id];
            t.pos == steps[j].p && t.plan == steps[j].plan && PricesOf(t, steps[j + 1..])
  {
    hide Apply, Enabled, Live, PricesOf, LastPrice;
    j := 0;
    if steps == [] {
      NobodyLives(id);
    } else {
      var init, s := steps[..|steps| - 1], steps[|steps| - 1];
      var a := After(EMPTY, init);
      StepsSnoc(EMPTY, steps);
      RunNumbered(init);
      LiveBefore(a, s, id);
      if Live(a, id) {
        j := LivePrices(init, id);
        assert init[..j] == steps[..j];
        LiveIsObject(a, id);
        StepPrices(a, s, id, init[j + 1..]);
        assert init[j + 1..] + [s] == steps[j + 1..];
      } else {
        j := |init|;
        assert steps[j + 1..] == [];
        OpenPrices(s.p, s.plan);
        TrackIs(s.p, s.plan);
      }
    }
  }

  lemma NobodyLives(id: nat)
    ensures !Live(EMPTY, id)
  {
  }

  lemma LiveIsObject(a: Arb, id: nat)
    requires Live(a, id)
    ensures id in a.objs
  {
  }

  lemma TrackIs(p: Position, plan: Plan)
    ensures Track(p, plan).pos == p && Track(p, plan).plan == plan
  {
  }

  // ----- Judgements -----

  /** The snapshot shows the minute, whether the position is protected, and the prices ticked since it was opened. */
  ghost predicate Shows(s: Snapshot, since: seq<Step>, p: Position, now: int, armed: bool) {
    && s.now == now && s.armed == armed && s.indexLTP == LastPrice(since, p.indexToken)
    && s.premLTP == (if p.fnoToken == p.indexToken then 0 else LastPrice(since, p.fnoToken))
    && Largest(s.premBest, since, p)
  }

  /** Whatever the run so far, finishing an evaluation that took a live position judges it once, on a snapshot of what was ticked
      since it was opened. */
  lemma JudgedOn(steps: seq<Step>, flight: nat, now: int, armed: set<nat>, id: nat) returns (j: nat)
    requires IsRun(EMPTY, steps) && Enabled(After(EMPTY, steps), Finish(flight, now, armed)) && Live(After(EMPTY, steps), id)
    requires Once(After(EMPTY, steps).flights[flight], id)
    ensures OpenedAt(steps, j, id)
    ensures var a := After(EMPTY, steps);
            var b := Apply(a, Finish(flight, now, armed));
            && id in b.objs && |b.objs[id].seen| == |a.objs[id].seen| + 1
            && b.objs[id].seen[..|a.objs[id].seen|] == a.objs[id].seen
            && Shows(b.objs[id].seen[|a.objs[id].seen|], steps[j + 1..], steps[j].p, now, id in armed)
  {
    hide EvaluateOne, FinishAll, LastPrice, Largest;
    var a := After(EMPTY, steps);
    j := LivePrices(steps, id);
    FinishCounts(a.(flights := a.flights - {flight}), a.flights[flight], now, armed, id);
    EvaluateFrame(a.objs[id], now, id in armed);
  }

  // ----- When the best premium was seen -----

  /** The time of snapshot i's best premium: that of the first snapshot to show it, or the entry's for a best still at the
      entry premium when the entry has a time. */
  ghost predicate TimeIs(seen: seq<Snapshot>, p: Position, i: nat)
    requires i < |seen|
  {
    exists k :: FirstToShow(seen, i, k)
                && seen[i].premBestTS == if seen[i].premBest > p.premEntry || p.entryTS.None? then Some(seen[k].now) else p.entryTS
  }

  ghost predicate FirstToShow(seen: seq<Snapshot>, i: nat, k: int)
    requires i < |seen|
  {
    0 <= k <= i && seen[k].premBest == seen[i].premBest && forall m :: 0 <= m < k ==> seen[m].premBest < seen[i].premBest
  }

  ghost predicate TimesOk(t: Tracked) {
    var n := |t.seen|;
    && (n == 0 ==> t.bestSeen == t.pos.premEntry && t.bestTS == t.pos.entryTS)
    && (n > 0 ==> t.seen[n - 1].premBest == t.bestSeen >= t.pos.premEntry && t.seen[n - 1].premBestTS == t.bestTS)
    && t.bestSeen <= BestOf(t)
    && BestsRise(t.seen) && AllDated(t.seen, t.pos)
  }

  ghost predicate BestsRise(seen: seq<Snapshot>) { forall i, j :: 0 <= i < j < |seen| ==> seen[i].premBest <= seen[j].premBest }

  ghost predicate AllDated(seen: seq<Snapshot>, p: Position) { forall i :: 0 <= i < |seen| ==> TimeIs(seen, p, i) }

  lemma BestsRiseOn(seen: seq<Snapshot>, s: Snapshot)
    requires BestsRise(seen) && (seen != [] ==> seen[|seen| - 1].premBest <= s.premBest)
    ensures BestsRise(seen + [s])
  {
    assert forall i :: 0 <= i < |seen| ==> seen[i].premBest <= seen[|seen| - 1].premBest;
  }

  lemma DatedOn(seen: seq<Snapshot>, s: Snapshot, p: Position)
    requires AllDated(seen, p) && TimeIs(seen + [s], p, |seen|)
    ensures AllDated(seen + [s], p)
  {
    hide TimeIs;
    forall i | 0 <= i < |seen| ensures TimeIs(seen + [s], p, i) { TimeStays(seen, s, p, i); }
  }

  lemma TimeStays(seen: seq<Snapshot>, s: Snapshot, p: Position, i: nat)
    requires i < |seen| && TimeIs(seen, p, i)
    ensures TimeIs(seen + [s], p, i)
  {
    var more := seen + [s];
    var k :| FirstToShow(seen, i, k)
             && seen[i].premBestTS == if seen[i].premBest > p.premEntry || p.entryTS.None? then Some(seen[k].now) else p.entryTS;
    assert more[i] == seen[i] && more[k] == seen[k];
    assert FirstToShow(more, i, k);
  }

  lemma TimeNext(t: Tracked, now: int, armed: bool)
    requires TimesOk(t)
    ensures TimeIs(t.seen + [SnapshotOf(t, now, armed)], t.pos, |t.seen|)
  {
    var s, n := SnapshotOf(t, now, armed), |t.seen|;
    var more := t.seen + [s];
    assert more[n] == s;
    if n == 0 || s.premBest > t.bestSeen {
      assert FirstToShow(more, n, n);
    } else {
      assert TimeIs(t.seen, t.pos, n - 1);
      var k :| FirstToShow(t.seen, n - 1, k)
               && t.seen[n - 1].premBestTS ==
                  if t.seen[n - 1].premBest > t.pos.premEntry || t.pos.entryTS.None? then Some(t.seen[k].now) else t.pos.entryTS;
      assert more[k] == t.seen[k];
      assert FirstToShow(more, n, k);
    }
  }

  lemma JudgedTimes(t: Tracked, now: int, armed: bool)
    requires TimesOk(t)
    ensures TimesOk(EvaluateOne(t, now, armed).0)
  {
    var s := SnapshotOf(t, now, armed);
    var u := EvaluateOne(t, now, armed).0;
    JudgedIs(t, now, armed);
    TimeNext(t, now, armed);
    hide EvaluateOne, TimeIs, NoteBest, SnapshotOf, BestsRise, AllDated;
    BestsRiseOn(t.seen, s);
    DatedOn(t.seen, s, t.pos);
  }

  lemma JudgedIs(t: Tracked, now: int, armed: bool)
    requires t.bestSeen <= BestOf(t)
    ensures var s, u := SnapshotOf(t, now, armed), EvaluateOne(t, now, armed).0;
            && u.seen == t.seen + [s] && u.pos == t.pos && u.bestSeen == s.premBest == BestOf(t) == BestOf(u) >= t.bestSeen
            && u.bestTS == s.premBestTS && s.premBest >= t.pos.premEntry
  {
    var s := SnapshotOf(t, now, armed);
    JudgeFrame(NoteBest(t, now).(seen := t.seen + [s]), s, 0);
    hide JudgeFrom;
  }

  lemma TickTimes(t: Tracked, token: string, price: int)
    requires TimesOk(t)
    ensures TimesOk(TickOne(t, token, price))
  {
    hide TimeIs, BestsRise, AllDated;
  }

  ghost predicate AllTimes(a: Arb) { forall id :: id in a.objs ==> TimesOk(a.objs[id]) }

  lemma {:induction false} FinishTimes(a: Arb, ids: seq<nat>, now: int, armed: set<nat>)
    requires AllTimes(a)
    ensures AllTimes(FinishAll(a, ids, now, armed))
  {
    if ids != [] {
      hide EvaluateOne, TimesOk;
      var init, last := ids[..|ids| - 1], ids[|ids| - 1];
      FinishTimes(a, init, now, armed);
      var m := FinishAll(a, init, now, armed);
      if Live(m, last) { JudgedTimes(m.objs[last], now, last in armed); }
    }
  }

  lemma StepTimes(a: Arb, s: Step)
    requires AllTimes(a) && Enabled(a, s)
    ensures AllTimes(Apply(a, s))
  {
    match s
    case Finish(flight, now, armed) => FinishTimes(a.(flights := a.flights - {flight}), a.flights[flight], now, armed);
    case Tick(token, price) =>
      forall id | id in a.objs { TickTimes(a.objs[id], token, price); }
      hide TimesOk, TickOne;
    case Open(p, plan) => assert TimesOk(Track(p, plan)); hide TimesOk;
    case _ =>
  }

  /** In any run, every snapshot ever judged dates its best premium by the first one to show it. */
  lemma {:induction false} BestIsDated(steps: seq<Step>)
    requires IsRun(EMPTY, steps)
    ensures AllTimes(After(EMPTY, steps))
  {
    if steps != [] {
      hide Apply, Enabled, AllTimes;
      BestIsDated(steps[..|steps| - 1]);
      StepTimes(After(EMPTY, steps[..|steps| - 1]), steps[|steps| - 1]);
    } else {
      assert AllTimes(EMPTY);
    }
  }

  // ----- When a judgement decides -----

  /** Judging from rule i on decides by the first rule, if any, that fired on each of the last evaluations as often as it must. */
  lemma {:induction false} JudgeFirst(t: Tracked, s: Snapshot, i: nat, seen: seq<Snapshot>)
    requires i <= |t.plan.rules| && t.seen == seen + [s] && DistinctNames(t.plan.rules)
    requires forall k :: i <= k < |t.plan.rules| ==> StreakOk(t, k, seen)
    ensures var (u, hit) := JudgeFrom(t, s, i);
            if hit.Some? then
              && i <= hit.value < |t.plan.rules| && Confirmed(t, hit.value, t.seen)
              && forall k :: i <= k < hit.value ==> !Confirmed(t, k, t.seen)
            else forall k :: i <= k < |t.plan.rules| ==> !Confirmed(t, k, t.seen)
    decreases |t.plan.rules| - i
  {
    hide VerdictOf, Trailing, Needed;
    if i < |t.plan.rules| {
      var r := t.plan.rules[i];
      TrailingSnoc(r, t.pos, seen, s);
      NeedsOne(r);
      var n := if VerdictOf(r, t.pos, s) == Fires then StreakOf(t, r) + 1 else 0;
      var u := SetStreak(t, r, n);
      assert StreakOk(t, i, seen);
      assert Confirmed(t, i, t.seen) <==> n >= Needed(r);
      forall k | i < k < |t.plan.rules| ensures StreakOk(u, k, seen) {
        assert StreakOk(t, k, seen) && NameOf(r) != NameOf(t.plan.rules[k]);
      }
      JudgeFirst(u, s, i + 1, seen);
      forall k | i < k < |t.plan.rules| ensures Confirmed(u, k, t.seen) == Confirmed(t, k, t.seen) {
      }
    }
  }

  lemma NeedsOne(r: Rule)
    ensures Needed(r) >= 1
  {
  }

  /** Rule k fired on as many of the last evaluations, without a break, as it must confirm. */
  predicate Confirmed(t: Tracked, k: nat, seen: seq<Snapshot>)
    requires k < |t.plan.rules|
  {
    Trailing(t.plan.rules[k], t.pos, seen) >= Needed(t.plan.rules[k])
  }

  /** Judging an undecided position of a plan with distinct rule names decides it if and only if some rule is confirmed by this
      evaluation and those before, and then by the first such rule in plan order. */
  lemma DecidesExactly(t: Tracked, now: int, armed: bool)
    requires TrackedOk(t) && !t.latched && DistinctNames(t.plan.rules)
    ensures var hit, seen := EvaluateOne(t, now, armed).1, t.seen + [SnapshotOf(t, now, armed)];
            if hit.Some? then
              && hit.value < |t.plan.rules| && Confirmed(t, hit.value, seen)
              && forall k :: 0 <= k < hit.value ==> !Confirmed(t, k, seen)
            else forall k :: 0 <= k < |t.plan.rules| ==> !Confirmed(t, k, seen)
  {
    hide VerdictOf, Trailing, Needed, JudgeFrom;
    var s := SnapshotOf(t, now, armed);
    var v := NoteBest(t, now).(seen := t.seen + [s]);
    forall k | 0 <= k < |t.plan.rules| ensures StreakOk(v, k, t.seen) { assert StreakOk(t, k, t.seen); }
    JudgeFirst(v, s, 0, t.seen);
    forall k | 0 <= k < |t.plan.rules| ensures Confirmed(v, k, v.seen) == Confirmed(t, k, v.seen) { }
  }

  /** What finishing an evaluation records of one live position it took, under tame flights: a decision naming the first confirmed
      rule, shadow unless the plan acts, or nothing. */
  lemma FinishDecides(a: Arb, id: nat, now: int, armed: set<nat>)
    requires Live(a, id) && TrackedOk(a.objs[id]) && !a.objs[id].latched && DistinctNames(a.objs[id].plan.rules)
    ensures var t := a.objs[id];
            var seen, b := t.seen + [SnapshotOf(t, now, id in armed)], FinishOne(a, id, now, armed);
            if forall k :: 0 <= k < |t.plan.rules| ==> !Confirmed(t, k, seen) then b.decisions == a.decisions && !b.objs[id].latched
            else
              && b.objs[id].latched && |b.decisions| == |a.decisions| + 1 && b.decisions[..|a.decisions|] == a.decisions
              && var d := b.decisions[|a.decisions|];
                 && d.id == id && d.now == now && d.rule < |t.plan.rules| && Confirmed(t, d.rule, seen)
                 && (forall k :: 0 <= k < d.rule ==> !Confirmed(t, k, seen))
                 && (d.shadow <==> t.plan.mode == Off || t.plan.mode == Shadow)
  {
    hide Trailing, Needed, EvaluateOne, VerdictOf;
    DecidesExactly(a.objs[id], now, id in armed);
    EvaluateFrame(a.objs[id], now, id in armed);
  }

  // ----- The theta rule -----

  /** A stretch of time holds at least n whole minutes. */
  predicate LastsMinutes(d: int, n: int) { if n >= 1 then d >= n * MINUTE else d > (n - 1) * MINUTE }

  lemma WholeMinutes(d: int, n: int)
    ensures Quo(d, MINUTE) >= n <==> LastsMinutes(d, n)
  {
  }

  /** x is less than pct percent of y. */
  ghost predicate Under(x: int, pct: int, y: int) { x as real < pct as real / 100.0 * y as real }

  lemma UnderIs(x: int, pct: int, y: int)
    ensures Under(x, pct, y) <==> x * 100 < y * pct
  {
    assert (pct as real / 100.0 * y as real) * 100.0 == (y * pct) as real;
  }

  /** Without greeks the rule fires on a position unarmed, priced and timed whose best gain stayed under its share of the entry
      premium for the time allowed. */
  lemma ThetaWithoutGreeks(c: ThetaConfig, p: Position, s: Snapshot)
    requires p.greeks.None?
    ensures Theta(c, p, s) == Fires <==>
            && p.premEntry > 0 && s.premLTP > 0 && !s.armed && p.entryTS.Some?
            && Under(s.premBest - p.premEntry, c.fallbackFlatPremPct, p.premEntry)
            && LastsMinutes(s.now - p.entryTS.value, c.maxFlatMin)
  {
    UnderIs(s.premBest - p.premEntry, c.fallbackFlatPremPct, p.premEntry);
    if p.entryTS.Some? { WholeMinutes(s.now - p.entryTS.value, c.maxFlatMin); }
    hide Quo;
  }

  /** The premium lost to time: the share of the day's decay held so far, or what the index move leaves unexplained. */
  ghost predicate Decayed(c: ThetaConfig, p: Position, g: Greeks, s: Snapshot)
    requires p.entryTS.Some?
  {
    var held := Quo(s.now - p.entryTS.value, MINUTE);
    || !Under(Quo(g.decayPerDay * held, SESSION_MINUTES), c.decayPctOfGain, g.expGain)
    || !Under(0, c.decayPctOfGain, g.expGain)
    || (s.indexLTP > 0 && p.indexEntry > 0
        && !Under(p.premEntry + Quo(g.deltaMilli * (s.indexLTP - p.indexEntry), 1000) - s.premLTP, c.decayPctOfGain, g.expGain))
  }

  /** With greeks it fires on a flat position once its premium decayed by its share of the expected gain or the time allowed is
      up (a zero gain panics there), and on one that had its gain when it gave it back for long enough. */
  lemma ThetaWithGreeks(c: ThetaConfig, p: Position, s: Snapshot)
    requires p.greeks.Some?
    ensures var g := p.greeks.value;
            Theta(c, p, s) == Fires <==>
            && p.premEntry > 0 && s.premLTP > 0 && !s.armed && p.entryTS.Some?
            && if Under(s.premBest - p.premEntry, c.flatProgressPct, g.expGain)
               then g.expGain != 0 && (Decayed(c, p, g, s) || LastsMinutes(s.now - p.entryTS.value, c.maxFlatMin))
               else && c.givebackMin > 0 && s.premBestTS.Some?
                    && Under(s.premLTP - p.premEntry, c.flatProgressPct, g.expGain)
                    && s.now - s.premBestTS.value >= c.givebackMin * MINUTE
  {
    var g := p.greeks.value;
    UnderIs(s.premBest - p.premEntry, c.flatProgressPct, g.expGain);
    UnderIs(s.premLTP - p.premEntry, c.flatProgressPct, g.expGain);
    if p.entryTS.Some? {
      WholeMinutes(s.now - p.entryTS.value, c.maxFlatMin);
      DecayedIs(c, p, g, s);
    }
    if s.premBestTS.Some? { WholeMinutes(s.now - s.premBestTS.value, c.givebackMin); }
    hide Quo, Under, Decay, Decayed;
  }

  lemma DecayedIs(c: ThetaConfig, p: Position, g: Greeks, s: Snapshot)
    requires p.entryTS.Some?
    ensures Decayed(c, p, g, s) <==>
            Decay(p, g, s, Quo(s.now - p.entryTS.value, MINUTE)) * 100 >= g.expGain * c.decayPctOfGain
  {
    var held := Quo(s.now - p.entryTS.value, MINUTE);
    UnderIs(Quo(g.decayPerDay * held, SESSION_MINUTES), c.decayPctOfGain, g.expGain);
    UnderIs(0, c.decayPctOfGain, g.expGain);
    UnderIs(p.premEntry + Quo(g.deltaMilli * (s.indexLTP - p.indexEntry), 1000) - s.premLTP, c.decayPctOfGain, g.expGain);
    hide Quo, Under;
  }
}
