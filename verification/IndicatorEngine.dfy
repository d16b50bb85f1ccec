/** The indicator engine: per timeframe and token a list of indicators, each behind its own last-applied gate. */
module IndicatorEngine {
  import opened Common
  import opened Indicators

  /** The Redis stream of one token's candles of one timeframe. */
  datatype Stream = Stream(tf: int, key: string)

  /** A Redis entry ID "<ms>-<seq>". */
  datatype StreamId = StreamId(ms: nat, seqNo: nat)

  /** A finalized or forming candle; id is None when it did not come from a stream. */
  datatype Candle = Candle(tf: int, key: string, ts: int, close: int, forming: bool, id: Option<StreamId>)

  datatype TfCfg = TfCfg(tf: int, inds: seq<Cfg>)

  /** One indicator instance and the time of the last candle applied to it. */
  datatype Slot = Slot(ind: Ind, last: Option<int>) {
    predicate Valid() { ind.Valid() && (last.Some? ==> last.value > 0) }
  }

  datatype TokenInds = TokenInds(cfgs: seq<Cfg>, slots: seq<Slot>)

  datatype Result = Result(cfg: Cfg, tf: int, key: string, ts: int, value: real, ready: bool, live: bool)

  predicate Distinct<T(==)>(s: seq<T>) {
    forall i, j :: 0 <= i < j < |s| ==> s[i] != s[j]
  }

  function IndexOf<T(==)>(s: seq<T>, x: T): (i: nat)
    requires x in s
    ensures i < |s| && s[i] == x
  {
    if s[0] == x then 0 else 1 + IndexOf(s[1..], x)
  }

  /** What ValidateConfigs checks, and that no timeframe lists an indicator twice. */
  predicate ValidConfigs(configs: seq<TfCfg>) {
    && (forall i, j :: 0 <= i < j < |configs| ==> configs[i].tf != configs[j].tf)
    && (forall i :: 0 <= i < |configs| ==> ValidInds(configs[i].inds))
  }

  predicate ValidInds(inds: seq<Cfg>) {
    Distinct(inds) && forall i :: 0 <= i < |inds| ==> inds[i].period >= 1
  }

  /** The slots of one token run inds, in any order. */
  predicate ValidToken(ti: TokenInds, inds: seq<Cfg>) {
    && Distinct(ti.cfgs) && (forall c :: c in ti.cfgs ==> c in inds) && (forall c :: c in inds ==> c in ti.cfgs)
    && |ti.slots| == |ti.cfgs|
    && forall i :: 0 <= i < |ti.slots| ==> ti.slots[i].Valid() && ti.slots[i].ind.Key() == ti.cfgs[i]
  }

  datatype Eng = Eng(configs: seq<TfCfg>, state: seq<map<string, TokenInds>>, tfIndex: map<int, nat>) {
    predicate Valid() {
      && ValidConfigs(configs) && |state| == |configs|
      && (forall tf :: tf in tfIndex ==> tfIndex[tf] < |configs| && configs[tfIndex[tf]].tf == tf)
      && (forall i :: 0 <= i < |configs| ==> configs[i].tf in tfIndex)
      && forall i, key :: 0 <= i < |state| && key in state[i] ==> ValidToken(state[i][key], configs[i].inds)
    }

    /** Indicator cfg of timeframe tf is configured. */
    predicate Has(tf: int, cfg: Cfg)
      requires Valid()
    {
      tf in tfIndex && cfg in configs[tfIndex[tf]].inds
    }

    /** The slot of one indicator; a token not seen yet has the slot it would start with. */
    function SlotOf(tf: int, key: string, cfg: Cfg): (s: Slot)
      requires Valid() && Has(tf, cfg)
      ensures s.Valid() && s.ind.Key() == cfg
    {
      var tokens := state[tfIndex[tf]];
      if key in tokens then tokens[key].slots[IndexOf(tokens[key].cfgs, cfg)] else FreshSlot(cfg)
    }
  }

  function FreshSlot(cfg: Cfg): Slot
    requires cfg.period >= 1
  {
    Slot(New(cfg), None)
  }

  /** A candle at or before the slot's last one is a replay and leaves the slot alone. */
  predicate Replayed(s: Slot, ts: int) { s.last.Some? && ts <= s.last.value }

  function ApplySlot(s: Slot, ts: int, close: int): (next: Slot)
    requires s.Valid() && ts > 0
    ensures next.Valid() && next.ind.Key() == s.ind.Key()
  {
    if Replayed(s, ts) then s else Slot(Update(s.ind, close as real), Some(ts))
  }

  function FreshToken(inds: seq<Cfg>): (ti: TokenInds)
    requires ValidInds(inds)
    ensures ValidToken(ti, inds) && ti.cfgs == inds
    ensures forall i :: 0 <= i < |inds| ==> ti.slots[i] == FreshSlot(inds[i])
  {
    TokenInds(inds, seq(|inds|, i requires 0 <= i < |inds| => FreshSlot(inds[i])))
  }

  function ApplyToken(ti: TokenInds, inds: seq<Cfg>, ts: int, close: int): (next: TokenInds)
    requires ValidToken(ti, inds) && ts > 0
    ensures ValidToken(next, inds) && next.cfgs == ti.cfgs
    ensures forall i :: 0 <= i < |ti.slots| ==> next.slots[i] == ApplySlot(ti.slots[i], ts, close)
  {
    ti.(slots := seq(|ti.slots|, i requires 0 <= i < |ti.slots| => ApplySlot(ti.slots[i], ts, close)))
  }

  function NewEng(configs: seq<TfCfg>): (e: Eng)
    requires ValidConfigs(configs)
    ensures e.Valid() && e.configs == configs && forall i :: 0 <= i < |configs| ==> e.state[i] == map[]
  {
    Eng(configs, seq(|configs|, _ => map[]), TfIndex(configs))
  }

  function TfIndex(configs: seq<TfCfg>): (m: map<int, nat>)
    ensures forall tf :: tf in m ==> m[tf] < |configs| && configs[m[tf]].tf == tf
    ensures forall i :: 0 <= i < |configs| ==> configs[i].tf in m
  {
    if configs == [] then map[]
    else
      var m := TfIndex(configs[..|configs| - 1]);
      m[configs[|configs| - 1].tf := |configs| - 1]
  }

  /** Process as a function of the engine's value. */
  function ProcessEng(e: Eng, c: Candle): (next: Eng)
    requires e.Valid() && c.ts > 0
    ensures next.Valid() && next.configs == e.configs && next.tfIndex == e.tfIndex
  {
    if c.tf !in e.tfIndex then e
    else
      var i := e.tfIndex[c.tf];
      var inds := e.configs[i].inds;
      var ti := if c.key in e.state[i] then e.state[i][c.key] else FreshToken(inds);
      e.(state := e.state[i := e.state[i][c.key := ApplyToken(ti, inds, c.ts, c.close)]])
  }

  /** A candle moves exactly the slots of its own timeframe and token, each through its own gate. */
  lemma ProcessSlot(e: Eng, c: Candle, tf: int, key: string, cfg: Cfg)
    requires e.Valid() && c.ts > 0 && e.Has(tf, cfg)
    ensures ProcessEng(e, c).SlotOf(tf, key, cfg) ==
            if c.tf == tf && c.key == key then ApplySlot(e.SlotOf(tf, key, cfg), c.ts, c.close) else e.SlotOf(tf, key, cfg)
  {
    var i := e.tfIndex[tf];
    if c.tf == tf && c.key == key && key !in e.state[i] {
      var j := IndexOf(e.configs[i].inds, cfg);
      assert FreshToken(e.configs[i].inds).slots[j] == FreshSlot(cfg);
    }
  }

  /** Every candle of cs in turn. */
  function Feed(e: Eng, cs: seq<Candle>): (next: Eng)
    requires e.Valid() && forall c :: c in cs ==> c.ts > 0
    ensures next.Valid() && next.configs == e.configs && next.tfIndex == e.tfIndex
    decreases |cs|
  {
    if cs == [] then e else Feed(ProcessEng(e, cs[0]), cs[1..])
  }

  lemma {:induction false} FeedAppend(e: Eng, a: seq<Candle>, b: seq<Candle>)
    requires e.Valid() && (forall c :: c in a ==> c.ts > 0) && (forall c :: c in b ==> c.ts > 0)
    ensures Feed(e, a + b) == Feed(Feed(e, a), b)
    decreases |a|
  {
    if a == [] {
      assert a + b == b;
    } else {
      assert (a + b)[0] == a[0] && (a + b)[1..] == a[1..] + b;
      FeedAppend(ProcessEng(e, a[0]), a[1..], b);
    }
  }

  lemma FeedSnoc(e: Eng, cs: seq<Candle>, c: Candle)
    requires e.Valid() && (forall x :: x in cs ==> x.ts > 0) && c.ts > 0
    ensures Feed(e, cs + [c]) == ProcessEng(Feed(e, cs), c)
  {
    FeedAppend(e, cs, [c]);
    assert Feed(Feed(e, cs), [c]) == Feed(ProcessEng(Feed(e, cs), c), []);
  }

  datatype Bar = Bar(ts: int, close: int)

  /** The bars of one timeframe and token among cs, in order. */
  function Project(cs: seq<Candle>, tf: int, key: string): (bars: seq<Bar>)
    ensures forall b :: b in bars ==> exists c :: c in cs && b.ts == c.ts
  {
    if cs == [] then []
    else (if cs[0].tf == tf && cs[0].key == key then [Bar(cs[0].ts, cs[0].close)] else []) + Project(cs[1..], tf, key)
  }

  lemma {:induction false} ProjectAppend(a: seq<Candle>, b: seq<Candle>, tf: int, key: string)
    ensures Project(a + b, tf, key) == Project(a, tf, key) + Project(b, tf, key)
  {
    if a == [] {
      assert a + b == b;
    } else {
      assert (a + b)[0] == a[0] && (a + b)[1..] == a[1..] + b;
      ProjectAppend(a[1..], b, tf, key);
    }
  }

  predicate Positive(bars: seq<Bar>) {
    forall b :: b in bars ==> b.ts > 0
  }

  function FeedSlot(s: Slot, bars: seq<Bar>): (next: Slot)
    requires s.Valid() && Positive(bars)
    ensures next.Valid() && next.ind.Key() == s.ind.Key()
    decreases |bars|
  {
    if bars == [] then s else FeedSlot(ApplySlot(s, bars[0].ts, bars[0].close), bars[1..])
  }

  lemma {:induction false} FeedSlotAppend(s: Slot, a: seq<Bar>, b: seq<Bar>)
    requires s.Valid() && Positive(a) && Positive(b)
    ensures FeedSlot(s, a + b) == FeedSlot(FeedSlot(s, a), b)
    decreases |a|
  {
    if a == [] {
      assert a + b == b;
    } else {
      assert (a + b)[0] == a[0] && (a + b)[1..] == a[1..] + b;
      FeedSlotAppend(ApplySlot(s, a[0].ts, a[0].close), a[1..], b);
    }
  }

  /** Slots are independent: feeding the engine feeds each slot the bars of its own stream. */
  lemma {:induction false} FeedIsPerSlot(e: Eng, cs: seq<Candle>, tf: int, key: string, cfg: Cfg)
    requires e.Valid() && (forall c :: c in cs ==> c.ts > 0) && e.Has(tf, cfg)
    ensures Positive(Project(cs, tf, key))
    ensures Feed(e, cs).SlotOf(tf, key, cfg) == FeedSlot(e.SlotOf(tf, key, cfg), Project(cs, tf, key))
    decreases |cs|
  {
    if cs != [] {
      ProcessSlot(e, cs[0], tf, key, cfg);
      var rest := Project(cs[1..], tf, key);
      assert ([] + rest) == rest;
      assert ([Bar(cs[0].ts, cs[0].close)] + rest)[1..] == rest;
      FeedIsPerSlot(ProcessEng(e, cs[0]), cs[1..], tf, key, cfg);
    }
  }

  /** Process would skip c: its token is known and every one of its slots has applied c or a later candle. */
  predicate IsReplayEng(e: Eng, c: Candle)
    requires e.Valid()
  {
    && c.tf in e.tfIndex && c.key in e.state[e.tfIndex[c.tf]]
    && var slots := e.state[e.tfIndex[c.tf]][c.key].slots;
       slots != [] && forall i :: 0 <= i < |slots| ==> Replayed(slots[i], c.ts)
  }

  /** IsReplay is exact: on a known token with indicators it holds just when Process changes nothing. */
  lemma IsReplayExact(e: Eng, c: Candle)
    requires e.Valid() && c.ts > 0
    requires c.tf in e.tfIndex && c.key in e.state[e.tfIndex[c.tf]] && e.state[e.tfIndex[c.tf]][c.key].slots != []
    ensures IsReplayEng(e, c) <==> ProcessEng(e, c) == e
  {
    var i := e.tfIndex[c.tf];
    var ti := e.state[i][c.key];
    var after := ApplyToken(ti, e.configs[i].inds, c.ts, c.close);
    if IsReplayEng(e, c) {
      assert after.slots == ti.slots;
      assert e.state[i][c.key := after] == e.state[i];
      assert ProcessEng(e, c).state == e.state;
    } else {
      var j :| 0 <= j < |ti.slots| && !Replayed(ti.slots[j], c.ts);
      assert after.slots[j].ind.Count() == ti.slots[j].ind.Count() + 1;
      assert ProcessEng(e, c).state[i][c.key] == after;
    }
  }

  /** The results Process reports: one per slot the candle moved, in slot order. */
  function Results(ti: TokenInds, inds: seq<Cfg>, c: Candle, n: nat): seq<Result>
    requires ValidToken(ti, inds) && c.ts > 0 && n <= |ti.slots|
  {
    if n == 0 then []
    else
      var s := ti.slots[n - 1];
      Results(ti, inds, c, n - 1) +
      if Replayed(s, c.ts) then []
      else var ind := Update(s.ind, c.close as real); [Result(ti.cfgs[n - 1], c.tf, c.key, c.ts, ind.Value(), ind.Ready(), false)]
  }

  /** One pass over a token's slots: update those that have not seen the candle and collect their results. */
  method ProcessToken(before: TokenInds, inds: seq<Cfg>, c: Candle) returns (ti: TokenInds, results: seq<Result>)
    requires ValidToken(before, inds) && c.ts > 0
    ensures ti == ApplyToken(before, inds, c.ts, c.close)
    ensures results == Results(before, inds, c, |before.slots|)
  {
    hide Update;
    ti, results := before, [];
    for j := 0 to |before.slots|
      invariant ti.cfgs == before.cfgs && |ti.slots| == |before.slots|
      invariant forall m :: 0 <= m < j ==> ti.slots[m] == ApplySlot(before.slots[m], c.ts, c.close)
      invariant forall m :: j <= m < |ti.slots| ==> ti.slots[m] == before.slots[m]
      invariant results == Results(before, inds, c, j)
    {
      var s := ti.slots[j];
      if s.last.Some? && c.ts <= s.last.value {
        continue;
      }
      var ind := Update(s.ind, c.close as real);
      ti := ti.(slots := ti.slots[j := Slot(ind, Some(c.ts))]);
      results := results + [Result(ti.cfgs[j], c.tf, c.key, c.ts, ind.Value(), ind.Ready(), false)];
    }
    assert ti.slots == ApplyToken(before, inds, c.ts, c.close).slots;
  }

  /** The engine object; its maps are replaced as the source writes into them. */
  class Engine {
    var configs: seq<TfCfg>
    var state: seq<map<string, TokenInds>>
    var tfIndex: map<int, nat>

    ghost function View(): Eng
      reads this
    {
      Eng(configs, state, tfIndex)
    }

    constructor (configs: seq<TfCfg>)
      requires ValidConfigs(configs)
      ensures View() == NewEng(configs)
    {
      this.configs := configs;
      state := seq(|configs|, _ => map[]);
      tfIndex := TfIndex(configs);
    }

    method Process(c: Candle) returns (results: seq<Result>)
      requires View().Valid() && c.ts > 0
      modifies this
      ensures View() == ProcessEng(old(View()), c)
      ensures c.tf !in tfIndex ==> results == []
      ensures c.tf in tfIndex ==>
              var i := tfIndex[c.tf];
              var ti := if c.key in old(state)[i] then old(state)[i][c.key] else FreshToken(configs[i].inds);
              results == Results(ti, configs[i].inds, c, |ti.slots|)
    {
      if c.tf !in tfIndex {
        return [];
      }
      var i := tfIndex[c.tf];
      ghost var inds := configs[i].inds;
      if c.key !in state[i] {
        state := state[i := state[i][c.key := FreshToken(configs[i].inds)]];
      }
      var ti;
      ti, results := ProcessToken(state[i][c.key], configs[i].inds, c);
      state := state[i := state[i][c.key := ti]];
      assert state[i] == old(state)[i][c.key := ti];
      assert state == old(state)[i := state[i]];
    }

    method IsReplay(c: Candle) returns (replay: bool)
      requires View().Valid()
      ensures replay == IsReplayEng(View(), c)
    {
      if c.tf !in tfIndex || c.key !in state[tfIndex[c.tf]] {
        return false;
      }
      var slots := state[tfIndex[c.tf]][c.key].slots;
      if |slots| == 0 {
        return false;
      }
      for i := 0 to |slots|
        invariant forall m :: 0 <= m < i ==> Replayed(slots[m], c.ts)
      {
        if slots[i].last.None? || c.ts > slots[i].last.value {
          return false;
        }
      }
      return true;
    }

    /** Live values of a forming candle for a token already seen; the engine is only read. */
    method ProcessPeek(c: Candle) returns (results: seq<Result>)
      requires View().Valid()
      ensures results == if c.tf in tfIndex && c.key in state[tfIndex[c.tf]]
                         then PeekResults(state[tfIndex[c.tf]][c.key], configs[tfIndex[c.tf]].inds, c) else []
    {
      results := [];
      if c.tf !in tfIndex || c.key !in state[tfIndex[c.tf]] {
        return;
      }
      var ti := state[tfIndex[c.tf]][c.key];
      for i := 0 to |ti.slots|
        invariant results == PeekResults(ti, configs[tfIndex[c.tf]].inds, c)[..i]
      {
        var ind := ti.slots[i].ind;
        results := results + [Result(ti.cfgs[i], c.tf, c.key, c.ts, Peek(ind, c.close as real), ind.Ready(), true)];
      }
    }
  }

  function PeekResults(ti: TokenInds, inds: seq<Cfg>, c: Candle): (r: seq<Result>)
    requires ValidToken(ti, inds)
    ensures |r| == |ti.slots|
  {
    seq(|ti.slots|, i requires 0 <= i < |ti.slots| =>
      Result(ti.cfgs[i], c.tf, c.key, c.ts, Peek(ti.slots[i].ind, c.close as real), ti.slots[i].ind.Ready(), true))
  }

  lemma {:induction false} ResultsHave(ti: TokenInds, inds: seq<Cfg>, c: Candle, n: nat, r: Result)
    requires ValidToken(ti, inds) && c.ts > 0 && n <= |ti.slots|
    ensures r in Results(ti, inds, c, n) <==>
            exists i :: 0 <= i < n && !Replayed(ti.slots[i], c.ts) && Reports(r, ti.cfgs[i], ApplySlot(ti.slots[i], c.ts, c.close), c)
  {
    if n > 0 { ResultsHave(ti, inds, c, n - 1, r); }
  }

  /** r reports the value of a configured indicator after the candle. */
  predicate Reports(r: Result, cfg: Cfg, after: Slot, c: Candle) {
    && r.cfg == cfg && r.tf == c.tf && r.key == c.key && r.ts == c.ts && !r.live
    && r.value == after.ind.Value() && r.ready == after.ind.Ready()
  }

  /** The token's indicators a candle meets: those it has, or new ones. */
  function Met(e: Eng, c: Candle): (ti: TokenInds)
    requires e.Valid() && c.tf in e.tfIndex
    ensures ValidToken(ti, e.configs[e.tfIndex[c.tf]].inds)
  {
    var i := e.tfIndex[c.tf];
    if c.key in e.state[i] then e.state[i][c.key] else FreshToken(e.configs[i].inds)
  }

  lemma MetSlot(e: Eng, c: Candle, i: nat)
    requires e.Valid() && c.tf in e.tfIndex && i < |Met(e, c).cfgs|
    ensures var cfg := Met(e, c).cfgs[i]; e.Has(c.tf, cfg) && Met(e, c).slots[i] == e.SlotOf(c.tf, c.key, cfg)
  {
  }

  /** The results reported are those of the configured indicators the candle moved, each with its value after the candle. */
  lemma ResultsExact(e: Eng, c: Candle, r: Result)
    requires e.Valid() && c.ts > 0 && c.tf in e.tfIndex
    ensures r in Results(Met(e, c), e.configs[e.tfIndex[c.tf]].inds, c, |Met(e, c).slots|) <==>
            && e.Has(c.tf, r.cfg) && !Replayed(e.SlotOf(c.tf, c.key, r.cfg), c.ts)
            && Reports(r, r.cfg, ProcessEng(e, c).SlotOf(c.tf, c.key, r.cfg), c)
  {
    var inds, ti := e.configs[e.tfIndex[c.tf]].inds, Met(e, c);
    ResultsHave(ti, inds, c, |ti.slots|, r);
    hide Met, Results, ProcessEng, ApplySlot, Replayed;
    forall i | 0 <= i < |ti.cfgs| ensures e.Has(c.tf, ti.cfgs[i]) && ti.slots[i] == e.SlotOf(c.tf, c.key, ti.cfgs[i]) { MetSlot(e, c, i); }
    if e.Has(c.tf, r.cfg) {
      ProcessSlot(e, c, c.tf, c.key, r.cfg);
      var i :| 0 <= i < |ti.cfgs| && ti.cfgs[i] == r.cfg;
    }
  }

  /** The live results of a forming candle are those of the token's indicators, each with its peek at the close. */
  lemma PeeksExact(e: Eng, c: Candle, r: Result)
    requires e.Valid() && c.tf in e.tfIndex && c.key in e.state[e.tfIndex[c.tf]]
    ensures r in PeekResults(e.state[e.tfIndex[c.tf]][c.key], e.configs[e.tfIndex[c.tf]].inds, c) <==>
            && e.Has(c.tf, r.cfg) && r.tf == c.tf && r.key == c.key && r.ts == c.ts && r.live
            && var ind := e.SlotOf(c.tf, c.key, r.cfg).ind; r.value == Peek(ind, c.close as real) && r.ready == ind.Ready()
  {
    var inds, ti := e.configs[e.tfIndex[c.tf]].inds, Met(e, c);
    hide Peek;
    var rs := PeekResults(ti, inds, c);
    forall i | 0 <= i < |ti.cfgs| ensures e.Has(c.tf, ti.cfgs[i]) && ti.slots[i] == e.SlotOf(c.tf, c.key, ti.cfgs[i]) { MetSlot(e, c, i); }
    if e.Has(c.tf, r.cfg) {
      var i :| 0 <= i < |ti.cfgs| && ti.cfgs[i] == r.cfg;
      assert rs[i] in rs;
    }
  }
}
