/** The exit watcher told position by position: which positions are tracked, what each tracker has seen and which exits are asked for. */
module EngineHistory {
  import opened Common
  import opened ExitEngine
  import T = Tracker

  // ----- The life of one key -----

  /** A tracked position: as first listed, as last listed, what its tracker has seen, since when it is only followed, and the last
      decision on record. */
  datatype Life = Life(made: Position, pos: Position, steps: seq<T.Op>, ghostSince: Option<int>, last: Option<T.Decision>)

  function Direction(p: Position): int { if p.key.side == Call then 1 else -1 }

  /** The tracker that has seen these steps and nothing else. */
  function TrackerOf(l: Life): T.State {
    T.Run(T.NewTracker(l.made.entry, Direction(l.made), (l.made.target - l.made.entry) * Direction(l.made)), l.steps)
  }

  /** The target lies above a call's entry, below a put's. */
  predicate InFavour(p: Position) {
    (p.key.side == Call && p.target > p.entry) || (p.key.side == Put && p.target < p.entry)
  }

  /** One listing of an open set: a live position takes it over; otherwise it is tracked anew if its target is in its favour. */
  function Listing(l: Option<Life>, p: Position): Option<Life> {
    if l.Some? && l.value.ghostSince.None? then Some(l.value.(pos := p, steps := l.value.steps + [T.Moved(p.entry)]))
    else if InFavour(p) then Some(Life(p, p, [], None, None))
    else l
  }

  function Listings(l: Option<Life>, ps: seq<Position>, k: Key): Option<Life> {
    if ps == [] then l
    else
      var before, p := Listings(l, ps[..|ps| - 1], k), ps[|ps| - 1];
      if p.key == k then Listing(before, p) else before
  }

  predicate IsListed(ps: seq<Position>, k: Key) { exists p :: p in ps && p.key == k }

  /** A live position that is no longer listed is followed as a ghost if it is held past its target and has no exit, and is forgotten
      otherwise. */
  function Unlisted(l: Option<Life>, now: int): Option<Life> {
    if l.None? || l.value.ghostSince.Some? then l
    else
      var tr := TrackerOf(l.value);
      if tr.run.phase == T.R.Running && tr.latched.None?
      then Some(l.value.(ghostSince := Some(now), steps := l.value.steps + [T.Ghosted])) else None
  }

  /** A ghost followed for the longest time, or up to the last minute of the day; 0 switches a limit off. */
  ghost predicate TimeUp(since: int, now: int, g: Limits) {
    (g.ghostMax > 0 && now >= since + g.ghostMax) || (g.ghostEndMin > 0 && PastIstMinute(now, g.ghostEndMin))
  }

  lemma MinuteIs(ns: int, m: int)
    ensures IstMinute(ns) >= m <==> PastIstMinute(ns, m)
  {
    var d := ((ns / 1_000_000_000 + 19800) / 60) / 1440;
    assert OnIstDay(d, ns);
    if PastIstMinute(ns, m) {
      var e :| OnIstDay(e, ns) && ns >= IstMidnight(e) + m * 60_000_000_000;
      OneIstDay(d, e, ns);
    }
  }

  lemma ExpiredIs(since: int, now: int, g: Limits)
    ensures Expired(since, now, g) <==> TimeUp(since, now, g)
  {
    hide IstMinute, PastIstMinute;
    MinuteIs(now, g.ghostEndMin);
  }

  /** An evaluation of a tracked position at time now that showed it x: once it has a price its decision goes on record, and a ghost is
      given up at its exit or when its time is up. */
  ghost function Evaluated(l: Life, x: T.Env, now: int, g: Limits): Option<Life> {
    var next := l.(steps := l.steps + [T.Op.Assess(x)]);
    var tr := TrackerOf(next);
    if tr.price == 0 then Some(next)
    else if l.ghostSince.Some? && (tr.latched.Some? || TimeUp(l.ghostSince.value, now, g)) then None
    else Some(next.(last := Some(T.Evaluate(TrackerOf(l), x).1)))
  }

  /** The time of the latest evaluation, which never moves back. */
  function LatestTime(ops: seq<Op>): int {
    if ops == [] then 0
    else
      var op := ops[|ops| - 1];
      if op.Evaluation? then Max(LatestTime(ops[..|ops| - 1]), op.now) else LatestTime(ops[..|ops| - 1])
  }

  /** The life at k after a run: only what concerns k enters. */
  ghost function LifeOf(ops: seq<Op>, k: Key, g: Limits): Option<Life>
    requires forall op :: op in ops ==> Sees(op)
  {
    if ops == [] then None
    else
      var l, op := LifeOf(ops[..|ops| - 1], k, g), ops[|ops| - 1];
      assert Sees(op);
      match op
      case SetAuto(_) => l
      case Positions(ps, now) => if IsListed(ps, k) then Listings(l, ps, k) else Unlisted(l, now)
      case IndexTick(index, price) =>
        if l.Some? && l.value.pos.index == index then Some(l.value.(steps := l.value.steps + [T.Tick(price)])) else l
      case Evaluation(order, envs, now) =>
        if l.Some? && k in order then Evaluated(l.value, envs[k], LatestTime(ops), g) else l
  }

  /** The slot at k is this life: its position, its tracker, its ghost time and its record. */
  ghost predicate Lives(e: Eng, k: Key, l: Option<Life>) {
    if k !in e.slots then l == None
    else
      var s := e.slots[k];
      && l.Some? && s.pos == l.value.pos && s.tr == TrackerOf(l.value) && s.ghostSince == l.value.ghostSince && s.lastDec == l.value.last
      && s.lastLatched == s.tr.latched.Some? && l.value.pos.key == k
  }

  /** An evaluation reaches each slot at most once. */
  predicate OnceEach(op: Op) { op.Evaluation? ==> forall i, j :: 0 <= i < j < |op.order| ==> op.order[i] != op.order[j] }

  lemma TrackerOn(l: Life, op: T.Op)
    ensures TrackerOf(l.(steps := l.steps + [op])) == T.Apply(TrackerOf(l), op)
    ensures forall p: Position, g: Option<int>, d: Option<T.Decision> ::
              TrackerOf(l.(pos := p, ghostSince := g, last := d)) == TrackerOf(l)
  {
    hide T.Apply;
    assert (l.steps + [op])[..|l.steps|] == l.steps;
  }

  lemma ListingIs(e: Eng, k: Key, l: Option<Life>, p: Position)
    requires Lives(e, k, l)
    ensures Lives(Admit(e, p), k, if p.key == k then Listing(l, p) else l)
    ensures Admit(e, p).nowTS == e.nowTS
  {
    if p.key == k {
      if l.Some? && l.value.ghostSince.None? {
        TrackerOn(l.value, T.Moved(p.entry));
        hide TrackerOf;
        var next := l.value.(steps := l.value.steps + [T.Moved(p.entry)]);
        TrackerOn(next, T.Ghosted);
      }
    }
  }

  lemma {:induction false} ListingsAre(e: Eng, k: Key, l: Option<Life>, ps: seq<Position>)
    requires Lives(e, k, l)
    ensures Lives(AdmitAll(e, ps), k, Listings(l, ps, k)) && AdmitAll(e, ps).nowTS == e.nowTS
  {
    if ps != [] {
      hide Admit, Lives, Listing;
      var init := ps[..|ps| - 1];
      ListingsAre(e, k, l, init);
      ListingIs(AdmitAll(e, init), k, Listings(l, init, k), ps[|ps| - 1]);
    }
  }

  lemma ListedIs(ps: seq<Position>, k: Key)
    ensures IsListed(ps, k) <==> k in KeysOf(ps)
  {
  }

  lemma {:induction false} NotListed(l: Option<Life>, ps: seq<Position>, k: Key)
    requires !IsListed(ps, k)
    ensures Listings(l, ps, k) == l
  {
    if ps != [] {
      var init, p := ps[..|ps| - 1], ps[|ps| - 1];
      assert p in ps && forall q :: q in init ==> q in ps;
      NotListed(l, init, k);
    }
  }

  lemma PositionsIs(e: Eng, k: Key, l: Option<Life>, ps: seq<Position>, now: int)
    requires Lives(e, k, l)
    ensures Lives(AfterPositions(e, ps, now), k, if IsListed(ps, k) then Listings(l, ps, k) else Unlisted(l, now))
    ensures AfterPositions(e, ps, now).nowTS == e.nowTS
  {
    ListingsAre(e, k, l, ps);
    ListedIs(ps, k);
    if !IsListed(ps, k) { NotListed(l, ps, k); }
    var a, l2 := AdmitAll(e, ps), Listings(l, ps, k);
    hide AdmitAll, Listings, KeysOf, IsListed, TrackerOf;
    if l2.Some? {
      TrackerOn(l2.value, T.Ghosted);
      TrackerOn(l2.value.(steps := l2.value.steps + [T.Ghosted]), T.Ghosted);
    }
  }

  lemma TickIs(e: Eng, k: Key, l: Option<Life>, index: string, price: int)
    requires Lives(e, k, l)
    ensures Lives(e.(slots := Tick(e.slots, index, price)), k,
                  if l.Some? && l.value.pos.index == index then Some(l.value.(steps := l.value.steps + [T.Tick(price)])) else l)
  {
    if l.Some? { TrackerOn(l.value, T.Tick(price)); }
    hide TrackerOf;
  }

  lemma EvalOneIs(e: Eng, k: Key, l: Life, x: T.Env, now: int, g: Limits)
    requires Lives(e, k, Some(l))
    requires TrackerOf(l).latched.Some? ==> TrackerOf(l).haveIdx
    ensures Lives(EvalOne(e, k, x, now, g), k, Evaluated(l, x, now, g))
  {
    TrackerOn(l, T.Op.Assess(x));
    var next := l.(steps := l.steps + [T.Op.Assess(x)]);
    TrackerOn(next, T.Ghosted);
    var s := e.slots[k];
    var (tr, dec) := T.Evaluate(s.tr, x);
    assert tr == TrackerOf(next);
    T.ExitLatches(s.tr, x);
    if s.ghostSince.Some? { ExpiredIs(s.ghostSince.value, now, g); }
    assert tr.latched.Some? ==> tr.haveIdx by { LatchNeedsPrice(s.tr, x); }
    hide TrackerOf, T.Evaluate, Expired, TimeUp;
  }

  lemma LatchNeedsPrice(t: T.State, x: T.Env)
    requires t.latched.Some? ==> t.haveIdx
    ensures T.Evaluate(t, x).0.latched.Some? ==> T.Evaluate(t, x).0.haveIdx
  {
    hide T.PreStep, T.RunStep, T.Decide, T.Relabel;
    T.ExitLatches(t, x);
  }

  predicate SameAt(a: Eng, b: Eng, k: Key) { if k in a.slots then k in b.slots && a.slots[k] == b.slots[k] else k !in b.slots }

  lemma EvalOneAt(a: Eng, b: Eng, k: Key, x: T.Env, now: int, g: Limits)
    requires SameAt(a, b, k)
    ensures SameAt(EvalOne(a, k, x, now, g), EvalOne(b, k, x, now, g), k)
    ensures forall j :: j != k ==> SameAt(EvalOne(a, k, x, now, g), a, j)
    ensures EvalOne(a, k, x, now, g).nowTS == a.nowTS
  {
    hide T.Evaluate, Expired;
  }

  /** What a whole evaluation does at k is what the evaluation of k alone does. */
  lemma {:induction false} EvalAllAt(e: Eng, order: seq<Key>, envs: map<Key, T.Env>, k: Key, now: int, g: Limits)
    requires (forall j :: j in order ==> j in envs) && forall i, j :: 0 <= i < j < |order| ==> order[i] != order[j]
    ensures SameAt(EvalAll(e, order, envs, now, g), if k in order then EvalOne(e, k, envs[k], now, g) else e, k)
    ensures EvalAll(e, order, envs, now, g).nowTS == e.nowTS
  {
    if order != [] {
      hide EvalOne;
      var init, last := order[..|order| - 1], order[|order| - 1];
      EvalAllAt(e, init, envs, k, now, g);
      EvalOneAt(EvalAll(e, init, envs, now, g), e, last, envs[last], now, g) by {
        assert last !in init;
        EvalAllAt(e, init, envs, last, now, g);
      }
      assert k in order <==> k in init || k == last;
    }
  }

  lemma SameLives(a: Eng, b: Eng, k: Key, l: Option<Life>)
    requires SameAt(a, b, k) && Lives(b, k, l)
    ensures Lives(a, k, l)
  {
    hide TrackerOf;
  }

  lemma EvaluationIs(e: Eng, k: Key, l: Option<Life>, order: seq<Key>, envs: map<Key, T.Env>, now: int, g: Limits)
    requires Lives(e, k, l) && OnceEach(Evaluation(order, envs, now)) && forall j :: j in order ==> j in envs
    requires l.Some? && TrackerOf(l.value).latched.Some? ==> TrackerOf(l.value).haveIdx
    ensures Lives(AfterEvaluate(e, order, envs, now, g), k,
                  if l.Some? && k in order then Evaluated(l.value, envs[k], Max(e.nowTS, now), g) else l)
    ensures AfterEvaluate(e, order, envs, now, g).nowTS == Max(e.nowTS, now)
  {
    hide EvalAll, EvalOne, TrackerOf, Evaluated;
    var c, t := e.(nowTS := Clock(e, now)), Clock(e, now);
    assert t == Max(e.nowTS, now);
    EvalAllAt(c, order, envs, k, t, g);
    assert Lives(c, k, l) by { SameLives(c, e, k, l); }
    if k in order {
      if l.Some? { EvalOneIs(c, k, l.value, envs[k], t, g); } else { NoneEvaluated(c, k, envs[k], t, g); }
      SameLives(EvalAll(c, order, envs, t, g), EvalOne(c, k, envs[k], t, g), k,
                if l.Some? then Evaluated(l.value, envs[k], t, g) else None);
    } else {
      SameLives(EvalAll(c, order, envs, t, g), c, k, l);
    }
  }

  lemma NoneEvaluated(e: Eng, k: Key, x: T.Env, now: int, g: Limits)
    requires k !in e.slots
    ensures EvalOne(e, k, x, now, g) == e
  {
  }

  /** Over any run the engine tracks, under each key, exactly the life of that key: the tracker has seen the ticks of its index, its
      listings and its evaluations since it was first listed, and nothing else; it is dropped, followed as a ghost, replaced and given
      up when that life says so. */
  lemma {:induction false} SlotsLive(ops: seq<Op>, k: Key, g: Limits)
    requires forall op :: op in ops ==> Sees(op) && OnceEach(op)
    ensures var e := Run(EMPTY, ops, g); Lives(e, k, LifeOf(ops, k, g)) && e.nowTS == LatestTime(ops)
  {
    if ops != [] {
      hide AfterPositions, AfterEvaluate, Tick, Lives, OnceEach, Sees, Evaluated, Unlisted, Listings, IsListed;
      var init, op := ops[..|ops| - 1], ops[|ops| - 1];
      assert Sees(op) && OnceEach(op);
      SlotsLive(init, k, g);
      var e, l := Run(EMPTY, init, g), LifeOf(init, k, g);
      SlotStep(init, op, k, e, l, g);
    } else {
      NoLife(k);
    }
  }

  lemma NoLife(k: Key)
    ensures Lives(EMPTY, k, None)
  {
  }

  lemma SlotStep(init: seq<Op>, op: Op, k: Key, e: Eng, l: Option<Life>, g: Limits)
    requires (forall o :: o in init ==> Sees(o)) && Sees(op) && OnceEach(op)
    requires e == Run(EMPTY, init, g) && l == LifeOf(init, k, g) && Lives(e, k, l) && e.nowTS == LatestTime(init)
    ensures Lives(Run(EMPTY, init + [op], g), k, LifeOf(init + [op], k, g))
    ensures Run(EMPTY, init + [op], g).nowTS == LatestTime(init + [op])
  {
    hide AfterPositions, AfterEvaluate, Tick, Evaluated, Unlisted, Listings, IsListed, TrackerOf, OnceEach;
    assert (init + [op])[..|init|] == init;
    match op
    case SetAuto(_) =>
    case Positions(ps, now) => PositionsIs(e, k, l, ps, now);
    case IndexTick(index, price) => TickIs(e, k, l, index, price);
    case Evaluation(order, envs, now) =>
      OneRequestPerPosition(init, g);
      EvaluationIs(e, k, l, order, envs, now, g);
  }

  // ----- What is asked for -----

  /** Step i is the last to set the auto list. */
  ghost predicate LastAuto(ops: seq<Op>, i: nat) {
    i < |ops| && ops[i].SetAuto? && forall j :: i < j < |ops| ==> !ops[j].SetAuto?
  }

  /** A strategy is auto exactly if the last list names it and it is neither blank nor the real-order strategy. */
  lemma {:induction false} AutoIs(ops: seq<Op>, g: Limits, s: string)
    requires forall op :: op in ops ==> Sees(op)
    ensures s in Run(EMPTY, ops, g).auto <==> s != "" && s != REAL_ORDER && exists i: nat :: LastAuto(ops, i) && s in ops[i].strategies
  {
    if ops != [] {
      hide AfterPositions, AfterEvaluate, Tick;
      var init, op := ops[..|ops| - 1], ops[|ops| - 1];
      AutoIs(init, g, s);
      AutoKept(Run(EMPTY, init, g), op, g);
      if op.SetAuto? {
        assert LastAuto(ops, |init|);
      } else {
        forall i: nat ensures LastAuto(ops, i) <==> LastAuto(init, i) {
          assert forall j :: 0 <= j < |init| ==> ops[j] == init[j];
        }
        assert forall i :: 0 <= i < |init| ==> ops[i] == init[i];
      }
    }
  }

  lemma AutoKept(e: Eng, op: Op, g: Limits)
    requires Sees(op)
    ensures !op.SetAuto? ==> Apply(e, op, g).auto == e.auto
  {
    match op
    case SetAuto(_) =>
    case Positions(ps, now) => AdmitAllKeepsRest(e, ps);
    case IndexTick(_, _) =>
    case Evaluation(order, envs, now) => EvalAllKeepsAuto(e.(nowTS := Clock(e, now)), order, envs, Clock(e, now), g);
  }

  lemma {:induction false} AdmitAllKeepsRest(e: Eng, ps: seq<Position>)
    ensures AdmitAll(e, ps).auto == e.auto && AdmitAll(e, ps).requests == e.requests
  {
    if ps != [] { AdmitAllKeepsRest(e, ps[..|ps| - 1]); }
  }

  lemma {:induction false} EvalAllKeepsAuto(e: Eng, order: seq<Key>, envs: map<Key, T.Env>, now: int, g: Limits)
    requires forall k :: k in order ==> k in envs
    ensures EvalAll(e, order, envs, now, g).auto == e.auto
  {
    if order != [] {
      hide EvalOne;
      var init, k := order[..|order| - 1], order[|order| - 1];
      EvalAllKeepsAuto(e, init, envs, now, g);
      EvalOneOthers(EvalAll(e, init, envs, now, g), k, envs[k], now, g);
    }
  }

  /** The evaluation that shows x decides EXIT for a live position that has a price and no EXIT on record. */
  predicate ExitsNow(l: Option<Life>, x: T.Env) {
    && l.Some? && l.value.ghostSince.None? && TrackerOf(l.value).price != 0
    && T.Evaluate(TrackerOf(l.value), x).1 == T.Exit && l.value.last != Some(T.Exit)
  }

  /** Some request past the first n is for k. */
  ghost predicate AskedSince(requests: seq<Request>, n: nat, k: Key) {
    exists i :: n <= i < |requests| && requests[i].slot.pos.key == k
  }

  predicate AsksAt(e: Eng, k: Key, x: T.Env) {
    k in e.slots && var (tr, dec) := T.Evaluate(e.slots[k].tr, x); Asks(e.slots[k], tr, dec, e.auto)
  }

  lemma EvalOneAsks(e: Eng, k: Key, x: T.Env, now: int, g: Limits)
    requires k in e.slots ==> e.slots[k].pos.key == k
    ensures var n := EvalOne(e, k, x, now, g).requests;
            if AsksAt(e, k, x) then |n| == |e.requests| + 1 && n[..|e.requests|] == e.requests && n[|e.requests|].slot.pos.key == k
            else n == e.requests
  {
    hide T.Evaluate, Asks, Ends;
  }

  lemma AskedOn(was: seq<Request>, more: seq<Request>, n: nat, k: Key)
    requires n <= |was| && |more| == |was| + 1 && more[..|was|] == was
    ensures AskedSince(more, n, k) <==> AskedSince(was, n, k) || more[|was|].slot.pos.key == k
  {
    assert forall i :: 0 <= i < |was| ==> more[i] == more[..|was|][i];
  }

  lemma {:induction false} EvalAllAsks(e: Eng, order: seq<Key>, envs: map<Key, T.Env>, now: int, g: Limits, k: Key)
    requires (forall j :: j in order ==> j in envs) && forall i, j :: 0 <= i < j < |order| ==> order[i] != order[j]
    requires forall j :: j in e.slots ==> e.slots[j].pos.key == j
    ensures var n := EvalAll(e, order, envs, now, g).requests;
            && e.requests <= n
            && (AskedSince(n, |e.requests|, k) <==> k in order && AsksAt(e, k, envs[k]))
  {
    if order != [] {
      hide EvalOne, AsksAt;
      var init, last := order[..|order| - 1], order[|order| - 1];
      EvalAllAsks(e, init, envs, now, g, k);
      var b := EvalAll(e, init, envs, now, g);
      assert last !in init;
      EvalAllAt(e, init, envs, last, now, g);
      EvalAllKeepsAuto(e, init, envs, now, g);
      AsksSame(b, e, last, envs[last]);
      EvalOneAsks(b, last, envs[last], now, g);
      var n := EvalAll(e, order, envs, now, g).requests;
      if AsksAt(b, last, envs[last]) { AskedOn(b.requests, n, |e.requests|, k); }
      assert k in order <==> k in init || k == last;
    }
  }

  lemma AsksSame(a: Eng, b: Eng, k: Key, x: T.Env)
    requires SameAt(a, b, k) && a.auto == b.auto
    ensures AsksAt(a, k, x) == AsksAt(b, k, x)
  {
    hide T.Evaluate;
  }

  /** A step of a run asks for exactly the exits it decides: it leaves the requests made as they are and adds one for k, in one of the
      auto strategies, if and only if it is an evaluation that decides EXIT for the life at k and has not done so before. */
  lemma StepAsks(init: seq<Op>, op: Op, k: Key, g: Limits)
    requires (forall o :: o in init ==> Sees(o) && OnceEach(o)) && Sees(op) && OnceEach(op)
    ensures var was, n := Run(EMPTY, init, g), Run(EMPTY, init + [op], g);
            && was.requests <= n.requests
            && (AskedSince(n.requests, |was.requests|, k) <==>
                  op.Evaluation? && k in op.order && ExitsNow(LifeOf(init, k, g), op.envs[k]) && k.strategy in was.auto)
  {
    hide EvalAll, LifeOf, T.Evaluate, TrackerOf;
    assert (init + [op])[..|init|] == init;
    var e, l := Run(EMPTY, init, g), LifeOf(init, k, g);
    match op
    case SetAuto(_) =>
    case Positions(ps, now) => AdmitAllKeepsRest(e, ps);
    case IndexTick(_, _) =>
    case Evaluation(order, envs, now) =>
      SlotsLive(init, k, g);
      OneRequestPerPosition(init, g);
      var c := e.(nowTS := Clock(e, now));
      EvalAllAsks(c, order, envs, Clock(e, now), g, k);
      if k in order {
        AsksMeans(e, k, l, envs[k]);
        AsksSame(c, e, k, envs[k]);
      }
  }

  lemma AsksMeans(e: Eng, k: Key, l: Option<Life>, x: T.Env)
    requires Lives(e, k, l)
    ensures AsksAt(e, k, x) <==> ExitsNow(l, x) && k.strategy in e.auto
  {
    hide TrackerOf, T.Evaluate;
    if l.Some? { PriceKept(TrackerOf(l.value), x); }
  }

  lemma PriceKept(t: T.State, x: T.Env)
    ensures T.Evaluate(t, x).0.price == t.price
  {
    hide T.P.Step, T.R.Step, T.Tolerance, T.PreIn, T.RunnerIn;
  }
}
