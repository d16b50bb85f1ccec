/** The exit watcher's engine: one tracker per open position, ghosts after a runner is closed, and exit requests. */
module ExitEngine {
  import opened Common
  import T = Tracker

  /** The real-order strategy, whose positions the engine must never close. */
  const REAL_ORDER := "NIFTY50_FNO"

  datatype Side = Call | Put | Other

  /** What identifies a position across updates. */
  datatype Key = Key(strategy: string, side: Side, token: string)

  datatype Position = Position(key: Key, index: string, entry: int, target: int)

  /** A tracked position. id tells two positions that used the same key one after the other apart. */
  datatype Slot = Slot(id: nat, pos: Position, tr: T.State, lastDec: Option<T.Decision>, lastLatched: bool,
                       ghostSince: Option<int>)

  /** A request to close a position, with the slot as it was when the request was sent. */
  datatype Request = Request(slot: Slot, strategy: string)

  /** Ghost limits: longest following time (ns) and last minute of the IST day; 0 switches one off. */
  datatype Limits = Limits(ghostMax: int, ghostEndMin: int)

  datatype Eng = Eng(auto: set<string>, slots: map<Key, Slot>, requests: seq<Request>, nextId: nat, nowTS: int)

  const EMPTY := Eng({}, map[], [], 0, 0)

  function IstMinute(ns: int): int { ((ns / 1_000_000_000 + 19800) / 60) % 1440 }

  predicate Expired(since: int, now: int, g: Limits) {
    (g.ghostMax > 0 && now - since >= g.ghostMax) || (g.ghostEndMin > 0 && IstMinute(now) >= g.ghostEndMin)
  }

  // ----- The steps on values -----

  function AutoSet(strategies: seq<string>): (r: set<string>)
    ensures REAL_ORDER !in r && "" !in r
  {
    set s | s in strategies && s != "" && s != REAL_ORDER
  }

  function SignOf(side: Side): int { if side.Call? then 1 else -1 }

  /** The side is CALL or PUT and the target lies in favour of the entry. */
  predicate Trackable(p: Position) { !p.key.side.Other? && (p.target - p.entry) * SignOf(p.key.side) > 0 }

  function NewSlot(id: nat, p: Position): Slot {
    var sign := SignOf(p.key.side);
    Slot(id, p, T.NewTracker(p.entry, sign, (p.target - p.entry) * sign), None, false, None)
  }

  /** One position of the open set: a live slot keeps its tracker, a ghost or nothing gives way to a new one. */
  function Admit(e: Eng, p: Position): Eng {
    if p.key in e.slots && e.slots[p.key].ghostSince.None? then
      var s := e.slots[p.key];
      e.(slots := e.slots[p.key := s.(pos := p, tr := s.tr.(entry := p.entry))])
    else if !Trackable(p) then e
    else e.(slots := e.slots[p.key := NewSlot(e.nextId, p)], nextId := e.nextId + 1)
  }

  function AdmitAll(e: Eng, ps: seq<Position>): Eng {
    if ps == [] then e else Admit(AdmitAll(e, ps[..|ps| - 1]), ps[|ps| - 1])
  }

  predicate StaysAsGhost(s: Slot) { s.tr.run.phase == T.R.Running && !s.lastLatched }

  predicate Survives(s: Slot, listed: bool) { listed || s.ghostSince.Some? || StaysAsGhost(s) }

  function Retire(s: Slot, listed: bool, now: int): Slot {
    if listed || s.ghostSince.Some? then s else s.(ghostSince := Some(now), tr := s.tr.(isGhost := true))
  }

  /** Slots absent from the open set: one holding past target becomes a ghost, any other is dropped. */
  function Sweep(slots: map<Key, Slot>, seen: set<Key>, now: int): map<Key, Slot> {
    map k | k in slots && Survives(slots[k], k in seen) :: Retire(slots[k], k in seen, now)
  }

  function KeysOf(ps: seq<Position>): set<Key> { set p | p in ps :: p.key }

  function AfterPositions(e: Eng, ps: seq<Position>, now: int): Eng {
    var a := AdmitAll(e, ps);
    a.(slots := Sweep(a.slots, KeysOf(ps), now))
  }

  function Tick(slots: map<Key, Slot>, index: string, price: int): map<Key, Slot> {
    map k | k in slots ::
      if slots[k].pos.index == index then slots[k].(tr := T.IndexTick(slots[k].tr, price)) else slots[k]
  }

  /** The slot after an evaluation that found decision dec. */
  function Assessed(s: Slot, tr: T.State, dec: T.Decision): Slot {
    s.(tr := tr, lastLatched := tr.haveIdx && tr.latched.Some?,
       lastDec := if tr.price == 0 then s.lastDec else Some(dec))
  }

  predicate Asks(s: Slot, tr: T.State, dec: T.Decision, auto: set<string>) {
    tr.price != 0 && s.lastDec != Some(dec) && dec == T.Exit && s.ghostSince.None? && s.pos.key.strategy in auto
  }

  predicate Ends(s: Slot, tr: T.State, now: int, g: Limits) {
    tr.price != 0 && s.ghostSince.Some? && ((tr.haveIdx && tr.latched.Some?) || Expired(s.ghostSince.value, now, g))
  }

  /** The evaluation of the slot at k, seeing x. */
  function EvalOne(e: Eng, k: Key, x: T.Env, now: int, g: Limits): Eng {
    if k !in e.slots then e
    else
      var s := e.slots[k];
      var (tr, dec) := T.Evaluate(s.tr, x);
      e.(slots := if Ends(s, tr, now, g) then e.slots - {k} else e.slots[k := Assessed(s, tr, dec)],
         requests := if Asks(s, tr, dec, e.auto) then e.requests + [Request(s, s.pos.key.strategy)] else e.requests)
  }

  function EvalAll(e: Eng, order: seq<Key>, envs: map<Key, T.Env>, now: int, g: Limits): Eng
    requires forall k :: k in order ==> k in envs
  {
    if order == [] then e
    else EvalOne(EvalAll(e, order[..|order| - 1], envs, now, g), order[|order| - 1], envs[order[|order| - 1]], now, g)
  }

  /** The evaluation clock never moves back. */
  function Clock(e: Eng, now: int): int { Max(now, e.nowTS) }

  function AfterEvaluate(e: Eng, order: seq<Key>, envs: map<Key, T.Env>, now: int, g: Limits): Eng
    requires forall k :: k in order ==> k in envs
  {
    EvalAll(e.(nowTS := Clock(e, now)), order, envs, Clock(e, now), g)
  }

  /** The keys of a map, each once, in some order. */
  ghost predicate IsOrderOf(order: seq<Key>, keys: set<Key>) {
    && (forall k :: k in order <==> k in keys)
    && (forall i, j :: 0 <= i < j < |order| ==> order[i] != order[j])
  }

  // ----- The engine object -----

  class Engine {
    var auto: set<string>
    var slots: map<Key, Slot>
    var requests: seq<Request>
    var nextId: nat
    var nowTS: int
    var limits: Limits

    ghost function View(): Eng reads this { Eng(auto, slots, requests, nextId, nowTS) }

    constructor (g: Limits)
      ensures View() == EMPTY && limits == g
    {
      auto, slots, requests, nextId, nowTS, limits := {}, map[], [], 0, 0, g;
    }

    method SetAutoExit(strategies: seq<string>)
      modifies this`auto
      ensures auto == AutoSet(strategies)
    {
      auto := {};
      for i := 0 to |strategies|
        invariant auto == AutoSet(strategies[..i])
      {
        if strategies[i] != "" && strategies[i] != REAL_ORDER {
          auto := auto + {strategies[i]};
        }
      }
      assert strategies[..|strategies|] == strategies;
    }

    method AdmitOne(p: Position)
      modifies this
      ensures View() == Admit(old(View()), p) && limits == old(limits)
    {
      if p.key in slots && slots[p.key].ghostSince.None? {
        var s := slots[p.key];
        slots := slots[p.key := s.(pos := p, tr := s.tr.(entry := p.entry))];
        return;
      }
      if !Trackable(p) {
        return;
      }
      slots, nextId := slots[p.key := NewSlot(nextId, p)], nextId + 1;
    }

    method SweepUnseen(seen: set<Key>, now: int)
      modifies this`slots
      ensures slots == Sweep(old(slots), seen, now)
    {
      var todo, kept := slots.Keys, map[];
      while todo != {}
        invariant todo <= slots.Keys && slots == old(slots)
        invariant kept == Sweep(map k | k in slots && k !in todo :: slots[k], seen, now)
        decreases |todo|
      {
        var k :| k in todo;
        var s := slots[k];
        if k in seen || s.ghostSince.Some? {
          kept := kept[k := s];
        } else if s.tr.run.phase == T.R.Running && !s.lastLatched {
          kept := kept[k := s.(ghostSince := Some(now), tr := s.tr.(isGhost := true))];
        }
        todo := todo - {k};
      }
      assert (map k | k in slots && k !in todo :: slots[k]) == slots;
      slots := kept;
    }

    method SetPositions(ps: seq<Position>, now: int)
      modifies this
      ensures View() == AfterPositions(old(View()), ps, now) && limits == old(limits)
    {
      hide AdmitAll, Sweep, Admit;
      var seen := {};
      assert AdmitAll(View(), ps[..0]) == View() by { AdmitNone(View()); }
      for i := 0 to |ps|
        invariant View() == AdmitAll(old(View()), ps[..i]) && limits == old(limits)
        invariant seen == KeysOf(ps[..i])
      {
        assert ps[..i + 1] == ps[..i] + [ps[i]];
        AdmitSnoc(old(View()), ps[..i], ps[i]);
        AdmitOne(ps[i]);
        seen := seen + {ps[i].key};
      }
      assert ps[..|ps|] == ps;
      SweepUnseen(seen, now);
    }

    method OnIndexTick(index: string, price: int)
      modifies this`slots
      ensures slots == Tick(old(slots), index, price)
    {
      var todo := slots.Keys;
      while todo != {}
        invariant todo <= slots.Keys == old(slots).Keys
        invariant forall k :: k in slots ==>
                    slots[k] == if k in todo then old(slots)[k] else Tick(old(slots), index, price)[k]
        decreases |todo|
      {
        var k :| k in todo;
        if slots[k].pos.index == index {
          slots := slots[k := slots[k].(tr := T.IndexTick(slots[k].tr, price))];
        }
        todo := todo - {k};
      }
    }

    method EvaluateOne(k: Key, x: T.Env, now: int)
      requires k in slots
      modifies this`slots, this`requests
      ensures View() == EvalOne(old(View()), k, x, now, limits)
    {
      hide T.Evaluate;
      var s := slots[k];
      var (tr, dec) := T.Evaluate(s.tr, x);
      slots := slots[k := s.(tr := tr, lastLatched := tr.haveIdx && tr.latched.Some?)];
      if tr.price == 0 {
        return;
      }
      if s.lastDec != Some(dec) {
        if dec == T.Exit && s.ghostSince.None? && s.pos.key.strategy in auto {
          requests := requests + [Request(s, s.pos.key.strategy)];
        }
        slots := slots[k := slots[k].(lastDec := Some(dec))];
      }
      if s.ghostSince.Some? && (slots[k].lastLatched || Expired(s.ghostSince.value, now, limits)) {
        slots := slots - {k};
      }
    }

    /** Every slot is evaluated once, in whatever order the map yields. */
    method Evaluate(envs: map<Key, T.Env>, now: int) returns (ghost order: seq<Key>)
      requires slots.Keys <= envs.Keys
      modifies this`slots, this`requests, this`nowTS
      ensures IsOrderOf(order, old(slots).Keys)
      ensures View() == AfterEvaluate(old(View()), order, envs, now, limits)
    {
      hide EvalAll, EvalOne;
      nowTS := if now < nowTS then nowTS else now;
      ghost var start := View();
      order := [];
      var todo := slots.Keys;
      assert EvalAll(start, [], envs, nowTS, limits) == start by { EvalNone(start, envs, nowTS, limits); }
      while todo != {}
        invariant todo <= slots.Keys
        invariant todo <= old(slots).Keys && IsOrderOf(order, old(slots).Keys - todo)
        invariant nowTS == Clock(old(View()), now)
        invariant View() == EvalAll(start, order, envs, nowTS, limits)
        decreases |todo|
      {
        var k :| k in todo;
        EvalSnoc(start, order, k, envs, nowTS, limits);
        ghost var before := View();
        assert todo - {k} <= before.slots.Keys - {k};
        EvaluateOne(k, envs[k], nowTS);
        EvalOneOthers(before, k, envs[k], nowTS, limits);
        assert slots.Keys - {k} == before.slots.Keys - {k};
        OrderSnoc(order, old(slots).Keys, todo, k);
        assert todo - {k} <= slots.Keys;
        order, todo := order + [k], todo - {k};
      }
    }
  }

  lemma OrderSnoc(order: seq<Key>, keys: set<Key>, todo: set<Key>, k: Key)
    requires todo <= keys && k in todo && IsOrderOf(order, keys - todo)
    ensures IsOrderOf(order + [k], keys - (todo - {k}))
  {
  }

  lemma AdmitNone(e: Eng)
    ensures AdmitAll(e, []) == e
  {
  }

  lemma AdmitSnoc(e: Eng, ps: seq<Position>, p: Position)
    ensures AdmitAll(e, ps + [p]) == Admit(AdmitAll(e, ps), p)
  {
    assert (ps + [p])[..|ps|] == ps;
  }

  lemma EvalNone(e: Eng, envs: map<Key, T.Env>, now: int, g: Limits)
    ensures EvalAll(e, [], envs, now, g) == e
  {
  }

  lemma EvalSnoc(e: Eng, order: seq<Key>, k: Key, envs: map<Key, T.Env>, now: int, g: Limits)
    requires k in envs && forall j :: j in order ==> j in envs
    ensures EvalAll(e, order + [k], envs, now, g) == EvalOne(EvalAll(e, order, envs, now, g), k, envs[k], now, g)
  {
    assert (order + [k])[..|order|] == order;
  }

  lemma EvalOneOthers(e: Eng, k: Key, x: T.Env, now: int, g: Limits)
    ensures var n := EvalOne(e, k, x, now, g);
            && n.nowTS == e.nowTS && n.auto == e.auto && n.nextId == e.nextId
            && n.slots.Keys - {k} == e.slots.Keys - {k}
            && forall j :: j in e.slots && j != k ==> n.slots[j] == e.slots[j]
  {
    hide T.Evaluate;
  }

  // ----- What every run keeps -----

  /** A slot's flags agree: a ghost tracker has a ghost time, an EXIT decision is a latch. */
  predicate SlotOk(s: Slot) {
    && s.tr.isGhost == s.ghostSince.Some?
    && (s.lastDec == Some(T.Exit) ==> s.lastLatched)
    && (s.lastLatched <==> s.tr.latched.Some?)
    && (s.tr.latched.Some? ==> s.tr.haveIdx)
    && (s.ghostSince.Some? ==> s.lastDec != Some(T.Exit))
  }

  /** No two slots share an id, and every id was handed out. */
  predicate SlotsOk(e: Eng) {
    && (forall k :: k in e.slots ==> SlotOk(e.slots[k]) && e.slots[k].id < e.nextId && e.slots[k].pos.key == k)
    && (forall j, k :: j in e.slots && k in e.slots && j != k ==> e.slots[j].id != e.slots[k].id)
  }

  /** Requests name distinct slots, never a ghost and never the real-order strategy; a slot asked to close has decided EXIT. */
  predicate RequestsOk(e: Eng) {
    && REAL_ORDER !in e.auto
    && (forall i, j :: 0 <= i < j < |e.requests| ==> e.requests[i].slot.id != e.requests[j].slot.id)
    && (forall i :: 0 <= i < |e.requests| ==>
          && e.requests[i].slot.id < e.nextId && e.requests[i].slot.ghostSince.None?
          && e.requests[i].strategy == e.requests[i].slot.pos.key.strategy != REAL_ORDER)
    && (forall i, k :: 0 <= i < |e.requests| && k in e.slots && e.slots[k].id == e.requests[i].slot.id ==>
          e.slots[k].lastDec == Some(T.Exit))
  }

  predicate Ok(e: Eng) { SlotsOk(e) && RequestsOk(e) }

  lemma AdmitKeeps(e: Eng, p: Position)
    requires Ok(e)
    ensures Ok(Admit(e, p))
  {
  }

  lemma {:induction false} AdmitAllKeeps(e: Eng, ps: seq<Position>)
    requires Ok(e)
    ensures Ok(AdmitAll(e, ps))
  {
    hide Ok, Admit;
    if ps != [] {
      AdmitAllKeeps(e, ps[..|ps| - 1]);
      AdmitKeeps(AdmitAll(e, ps[..|ps| - 1]), ps[|ps| - 1]);
    }
  }

  /** Dropping slots, or changing them without a new id, latch or EXIT decision, keeps the invariant. */
  lemma ReplaceKeeps(e: Eng, slots: map<Key, Slot>)
    requires Ok(e) && slots.Keys <= e.slots.Keys
    requires forall k :: k in slots ==>
               && SlotOk(slots[k]) && slots[k].id == e.slots[k].id && slots[k].pos == e.slots[k].pos
               && slots[k].lastDec == e.slots[k].lastDec
    ensures Ok(e.(slots := slots))
  {
  }

  lemma SetPositionsKeeps(e: Eng, ps: seq<Position>, now: int)
    requires Ok(e)
    ensures Ok(AfterPositions(e, ps, now))
  {
    var a := AdmitAll(e, ps);
    AdmitAllKeeps(e, ps);
    hide AdmitAll, KeysOf;
    ReplaceKeeps(a, Sweep(a.slots, KeysOf(ps), now));
  }

  lemma TickKeeps(e: Eng, index: string, price: int)
    requires Ok(e)
    ensures Ok(e.(slots := Tick(e.slots, index, price)))
  {
    forall k | k in e.slots && e.slots[k].pos.index == index && e.slots[k].lastDec != Some(T.Exit)
      ensures SlotOk(Tick(e.slots, index, price)[k])
    {
    }
    ReplaceKeeps(e, Tick(e.slots, index, price));
  }

  /** What the tracker's own theorems give about one evaluated slot. */
  lemma AssessedOk(s: Slot, x: T.Env, now: int, g: Limits)
    requires SlotOk(s)
    ensures var (tr, dec) := T.Evaluate(s.tr, x);
            && tr.isGhost == s.tr.isGhost && tr.price == s.tr.price
            && (dec == T.Exit <==> tr.latched.Some? && tr.haveIdx)
            && (s.lastDec == Some(T.Exit) ==> dec == T.Exit)
            && (!Ends(s, tr, now, g) ==> SlotOk(Assessed(s, tr, dec)))
  {
    T.ExitLatches(s.tr, x);
    if s.lastDec == Some(T.Exit) { T.LatchHolds(s.tr, x); }
    hide T.PreStep, T.RunStep, T.P.Step, T.R.Step;
  }

  lemma EvalOneKeeps(e: Eng, k: Key, x: T.Env, now: int, g: Limits)
    requires Ok(e)
    ensures Ok(EvalOne(e, k, x, now, g))
  {
    hide SlotsOk, RequestsOk, EvalOne;
    EvalOneSlots(e, k, x, now, g);
    EvalOneRequests(e, k, x, now, g);
  }

  lemma EvalOneSlots(e: Eng, k: Key, x: T.Env, now: int, g: Limits)
    requires Ok(e)
    ensures SlotsOk(EvalOne(e, k, x, now, g))
  {
    if k in e.slots {
      AssessedOk(e.slots[k], x, now, g);
    }
    hide T.Evaluate, Expired, SlotOk, RequestsOk;
  }

  lemma EvalOneRequests(e: Eng, k: Key, x: T.Env, now: int, g: Limits)
    requires Ok(e)
    ensures RequestsOk(EvalOne(e, k, x, now, g))
  {
    if k in e.slots {
      AssessedOk(e.slots[k], x, now, g);
    }
    hide T.Evaluate, Expired, SlotOk;
  }

  lemma {:induction false} EvalAllKeeps(e: Eng, order: seq<Key>, envs: map<Key, T.Env>, now: int, g: Limits)
    requires Ok(e) && forall k :: k in order ==> k in envs
    ensures Ok(EvalAll(e, order, envs, now, g))
  {
    hide Ok, EvalOne;
    if order != [] {
      EvalAllKeeps(e, order[..|order| - 1], envs, now, g);
      EvalOneKeeps(EvalAll(e, order[..|order| - 1], envs, now, g), order[|order| - 1], envs[order[|order| - 1]], now, g);
    }
  }

  // ----- Runs -----

  /** One call into the engine. Ticks of the option only change what an evaluation sees. */
  datatype Op =
    | SetAuto(strategies: seq<string>)
    | Positions(ps: seq<Position>, now: int)
    | IndexTick(index: string, price: int)
    | Evaluation(order: seq<Key>, envs: map<Key, T.Env>, now: int)

  predicate Sees(op: Op) { op.Evaluation? ==> forall k :: k in op.order ==> k in op.envs }

  function Apply(e: Eng, op: Op, g: Limits): Eng
    requires Sees(op)
  {
    match op
    case SetAuto(strategies) => e.(auto := AutoSet(strategies))
    case Positions(ps, now) => AfterPositions(e, ps, now)
    case IndexTick(index, price) => e.(slots := Tick(e.slots, index, price))
    case Evaluation(order, envs, now) => AfterEvaluate(e, order, envs, now, g)
  }

  function Run(e: Eng, ops: seq<Op>, g: Limits): Eng
    requires forall op :: op in ops ==> Sees(op)
  {
    if ops == [] then e else Apply(Run(e, ops[..|ops| - 1], g), ops[|ops| - 1], g)
  }

  lemma ApplyKeeps(e: Eng, op: Op, g: Limits)
    requires Ok(e) && Sees(op)
    ensures Ok(Apply(e, op, g))
  {
    hide AfterPositions, EvalAll, Tick;
    match op
    case SetAuto(_) =>
    case Positions(ps, now) => SetPositionsKeeps(e, ps, now);
    case IndexTick(index, price) => TickKeeps(e, index, price);
    case Evaluation(order, envs, now) =>
      EvalAllKeeps(e.(nowTS := Clock(e, now)), order, envs, Clock(e, now), g);
  }

  /** Over any run, in any order of positions, ticks and evaluations, and with the auto list changed at will: at most one
      exit request is sent per tracked position, none for a ghost, none for the real-order strategy. */
  lemma {:induction false} OneRequestPerPosition(ops: seq<Op>, g: Limits)
    requires forall op :: op in ops ==> Sees(op)
    ensures Ok(Run(EMPTY, ops, g))
  {
    hide Apply, Sees;
    if ops != [] {
      var init := ops[..|ops| - 1];
      OneRequestPerPosition(init, g);
      ApplyKeeps(Run(EMPTY, init, g), ops[|ops| - 1], g);
    }
  }

  // ----- No exit of an auto strategy goes unasked -----

  predicate Asked(e: Eng, id: nat) { exists i :: 0 <= i < |e.requests| && e.requests[i].slot.id == id }

  /** Exactly the positions of auto strategies on record as EXIT were asked to close. */
  predicate Served(e: Eng) {
    forall k :: k in e.slots ==>
      (Asked(e, e.slots[k].id) <==> e.slots[k].lastDec == Some(T.Exit) && e.slots[k].pos.key.strategy in e.auto)
  }

  lemma AdmitServed(e: Eng, p: Position)
    requires Ok(e) && Served(e)
    ensures Served(Admit(e, p))
  {
    hide Trackable, SlotOk;
    var n := Admit(e, p);
    assert forall id :: Asked(n, id) == Asked(e, id);
  }

  lemma {:induction false} AdmitAllServed(e: Eng, ps: seq<Position>)
    requires Ok(e) && Served(e)
    ensures Served(AdmitAll(e, ps))
  {
    hide Ok, Admit, Served;
    if ps != [] {
      AdmitAllServed(e, ps[..|ps| - 1]);
      AdmitAllKeeps(e, ps[..|ps| - 1]);
      AdmitServed(AdmitAll(e, ps[..|ps| - 1]), ps[|ps| - 1]);
    }
  }

  lemma ReplaceServed(e: Eng, slots: map<Key, Slot>)
    requires Served(e) && slots.Keys <= e.slots.Keys
    requires forall k :: k in slots ==>
               slots[k].id == e.slots[k].id && slots[k].pos == e.slots[k].pos && slots[k].lastDec == e.slots[k].lastDec
    ensures Served(e.(slots := slots))
  {
    assert forall id :: Asked(e.(slots := slots), id) == Asked(e, id);
  }

  lemma EvalOneServed(e: Eng, k: Key, x: T.Env, now: int, g: Limits)
    requires Ok(e) && Served(e)
    ensures Served(EvalOne(e, k, x, now, g))
  {
    if k in e.slots {
      AssessedOk(e.slots[k], x, now, g);
      var s, n := e.slots[k], EvalOne(e, k, x, now, g);
      var (tr, dec) := T.Evaluate(s.tr, x);
      hide T.Evaluate, Expired, SlotOk;
      if Asks(s, tr, dec, e.auto) {
        assert n.requests[|e.requests|].slot == s && Asked(n, s.id);
      }
      forall id ensures Asked(n, id) == (Asked(e, id) || (Asks(s, tr, dec, e.auto) && id == s.id)) {
        if Asked(e, id) {
          var i :| 0 <= i < |e.requests| && e.requests[i].slot.id == id;
          assert n.requests[i].slot.id == id;
        }
      }
      if k in n.slots {
        AskedIffExit(e, n, k, tr, dec, now, g);
      }
    }
  }

  lemma AskedIffExit(e: Eng, n: Eng, k: Key, tr: T.State, dec: T.Decision, now: int, g: Limits)
    requires k in e.slots && SlotOk(e.slots[k]) && !Ends(e.slots[k], tr, now, g) && k in n.slots
    requires e.slots[k].lastDec == Some(T.Exit) ==> dec == T.Exit
    requires dec == T.Exit <==> tr.latched.Some? && tr.haveIdx
    requires n.slots[k] == Assessed(e.slots[k], tr, dec) && n.auto == e.auto
    requires Asked(e, e.slots[k].id) <==> e.slots[k].lastDec == Some(T.Exit) && e.slots[k].pos.key.strategy in e.auto
    requires Asked(n, e.slots[k].id) <==> Asked(e, e.slots[k].id) || Asks(e.slots[k], tr, dec, e.auto)
    ensures Asked(n, n.slots[k].id) <==> n.slots[k].lastDec == Some(T.Exit) && n.slots[k].pos.key.strategy in n.auto
  {
    hide Expired, Asked;
  }

  lemma {:induction false} EvalAllServed(e: Eng, order: seq<Key>, envs: map<Key, T.Env>, now: int, g: Limits)
    requires Ok(e) && Served(e) && forall k :: k in order ==> k in envs
    ensures Served(EvalAll(e, order, envs, now, g))
  {
    hide Ok, EvalOne, Served;
    if order != [] {
      EvalAllServed(e, order[..|order| - 1], envs, now, g);
      EvalAllKeeps(e, order[..|order| - 1], envs, now, g);
      EvalOneServed(EvalAll(e, order[..|order| - 1], envs, now, g), order[|order| - 1], envs[order[|order| - 1]], now, g);
    }
  }

  lemma ApplyServed(e: Eng, op: Op, g: Limits)
    requires Ok(e) && Served(e) && Sees(op) && !op.SetAuto?
    ensures Served(Apply(e, op, g))
  {
    match op
    case Positions(ps, now) =>
      AdmitAllServed(e, ps);
      var a := AdmitAll(e, ps);
      hide AdmitAll, KeysOf, Served;
      ReplaceServed(a, Sweep(a.slots, KeysOf(ps), now));
    case IndexTick(index, price) =>
      hide Served;
      ReplaceServed(e, Tick(e.slots, index, price));
    case Evaluation(order, envs, now) =>
      var c := e.(nowTS := Clock(e, now));
      assert Served(c) by { ReplaceServed(e, e.slots); ClockServed(e, Clock(e, now)); }
      hide EvalAll, Served;
      EvalAllServed(c, order, envs, Clock(e, now), g);
  }

  lemma ClockServed(e: Eng, now: int)
    requires Served(e)
    ensures Served(e.(nowTS := now))
  {
    assert forall id :: Asked(e.(nowTS := now), id) == Asked(e, id);
  }

  /** With the auto list set once at the start, at every point of a run a tracked position was asked to close, once,
      exactly when it is on record as EXIT and its strategy is auto. */
  lemma {:induction false} ExitsAreAsked(strategies: seq<string>, ops: seq<Op>, g: Limits)
    requires forall op :: op in ops ==> Sees(op) && !op.SetAuto?
    ensures var e := Run(EMPTY.(auto := AutoSet(strategies)), ops, g);
            Ok(e) && Served(e)
  {
    hide Apply, Sees;
    if ops != [] {
      var init := ops[..|ops| - 1];
      ExitsAreAsked(strategies, init, g);
      var e := Run(EMPTY.(auto := AutoSet(strategies)), init, g);
      ApplyKeeps(e, ops[|ops| - 1], g);
      ApplyServed(e, ops[|ops| - 1], g);
    }
  }
}
