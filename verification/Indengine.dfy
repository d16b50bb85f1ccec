/** The indicator service: one engine, the per-stream checkpoint, snapshot, restart and reload. */
module Indengine {
  import opened Common
  import opened Indicators
  import opened IndicatorEngine
  import opened EngineSnapshot
  import opened Schedule

  predicate IdLess(a: StreamId, b: StreamId) {
    a.ms < b.ms || (a.ms == b.ms && a.seqNo < b.seqNo)
  }

  /** The saved state: token snapshots and, per stream, the last entry processed into that state. */
  datatype EngineSnap = EngineSnap(tokens: seq<TokenSnap>, streamIds: map<Stream, StreamId>)

  /** Redis: the entries of each stream, oldest first. */
  type Log = map<Stream, seq<Candle>>

  /** SQLite's latest candles per token of one timeframe, None when the read fails. */
  type Reader = (int, nat) -> Option<seq<Candle>>

  predicate PositiveTimes(cs: seq<Candle>) {
    forall c :: c in cs ==> c.ts > 0
  }

  predicate ValidReader(reader: Reader, configs: seq<TfCfg>, perToken: nat) {
    forall i :: 0 <= i < |configs| ==>
      var r := reader(configs[i].tf, perToken); r.Some? ==> PositiveTimes(r.value)
  }

  predicate ValidLog(log: Log) {
    forall s :: s in log ==> PositiveTimes(log[s])
  }

  // ----- What each read delivers -----

  /** Entries after an ID, all of them when there is none. */
  function After(entries: seq<Candle>, from: Option<StreamId>): (r: seq<Candle>)
    ensures PositiveTimes(entries) ==> PositiveTimes(r)
  {
    if entries == [] then []
    else
      var init, e := entries[..|entries| - 1], entries[|entries| - 1];
      After(init, from) +
      if e.id.Some? && (from.None? || IdLess(from.value, e.id.value)) && !e.forming then [e] else []
  }

  function EntriesOf(log: Log, s: Stream): seq<Candle> { if s in log then log[s] else [] }

  /** Finalized entries of the streams in turn, each after its checkpoint. */
  function Delta(streams: seq<Stream>, log: Log, ids: map<Stream, StreamId>): (r: seq<Candle>)
    ensures ValidLog(log) ==> PositiveTimes(r)
  {
    if streams == [] then []
    else
      var s := streams[|streams| - 1];
      Delta(streams[..|streams| - 1], log, ids) + After(EntriesOf(log, s), if s in ids then Some(ids[s]) else None)
  }

  function MaxPeriodOf(inds: seq<Cfg>): nat {
    if inds == [] then 0 else Max(MaxPeriodOf(inds[..|inds| - 1]), inds[|inds| - 1].period)
  }

  function MaxPeriod(configs: seq<TfCfg>): nat {
    if configs == [] then 0 else Max(MaxPeriod(configs[..|configs| - 1]), MaxPeriodOf(configs[|configs| - 1].inds))
  }

  predicate AnyInd(configs: seq<TfCfg>, c: Cfg) { exists i :: 0 <= i < |configs| && c in configs[i].inds }

  lemma {:induction false} MaxPeriodOfIs(inds: seq<Cfg>)
    ensures forall c :: c in inds ==> c.period <= MaxPeriodOf(inds)
    ensures MaxPeriodOf(inds) > 0 ==> exists c :: c in inds && c.period == MaxPeriodOf(inds)
  {
    if inds != [] {
      MaxPeriodOfIs(inds[..|inds| - 1]);
      assert forall c :: c in inds <==> c in inds[..|inds| - 1] || c == inds[|inds| - 1];
    }
  }

  /** The largest period of any configured indicator, 0 when there is none. */
  lemma {:induction false} MaxPeriodIs(configs: seq<TfCfg>)
    ensures forall c :: AnyInd(configs, c) ==> c.period <= MaxPeriod(configs)
    ensures MaxPeriod(configs) > 0 ==> exists c :: AnyInd(configs, c) && c.period == MaxPeriod(configs)
  {
    hide MaxPeriodOf;
    if configs != [] {
      var init, last := configs[..|configs| - 1], configs[|configs| - 1];
      MaxPeriodIs(init);
      MaxPeriodOfIs(last.inds);
      forall c ensures AnyInd(configs, c) <==> AnyInd(init, c) || c in last.inds {
        if AnyInd(init, c) {
          var i :| 0 <= i < |init| && c in init[i].inds;
          assert c in configs[i].inds;
        }
        if c in last.inds { assert c in configs[|configs| - 1].inds; }
      }
    }
  }

  /** The SQLite warm-up: each timeframe's latest candles, failed reads skipped. */
  function WarmUp(configs: seq<TfCfg>, reader: Reader, perToken: nat): (r: seq<Candle>)
    ensures ValidReader(reader, configs, perToken) ==> PositiveTimes(r)
  {
    if configs == [] then []
    else
      var read := reader(configs[|configs| - 1].tf, perToken);
      WarmUp(configs[..|configs| - 1], reader, perToken) + if read.Some? then read.value else []
  }

  // ----- The checkpoint -----

  /** The checkpoint after one more candle: the latest ID of its stream, finalized stream entries only. */
  function Mark(ids: map<Stream, StreamId>, c: Candle): map<Stream, StreamId> {
    var s := Stream(c.tf, c.key);
    if c.forming || c.id.None? then ids
    else if s !in ids || IdLess(ids[s], c.id.value) then ids[s := c.id.value] else ids
  }

  function MarkAll(ids: map<Stream, StreamId>, cs: seq<Candle>): map<Stream, StreamId> {
    if cs == [] then ids else Mark(MarkAll(ids, cs[..|cs| - 1]), cs[|cs| - 1])
  }

  lemma {:induction false} MarkAllAppend(ids: map<Stream, StreamId>, a: seq<Candle>, b: seq<Candle>)
    ensures MarkAll(ids, a + b) == MarkAll(MarkAll(ids, a), b)
  {
    if b == [] {
      assert a + b == a;
    } else {
      var init, last := b[..|b| - 1], b[|b| - 1];
      MarkAllAppend(ids, a, init);
      assert a + b == (a + init) + [last];
      MarkAllSnoc(ids, a + init, last);
      MarkAllSnoc(MarkAll(ids, a), init, last);
      assert init + [last] == b;
    }
  }

  lemma MarkAllSnoc(ids: map<Stream, StreamId>, cs: seq<Candle>, c: Candle)
    ensures MarkAll(ids, cs + [c]) == Mark(MarkAll(ids, cs), c)
  {
    assert (cs + [c])[..|cs|] == cs;
  }

  /** A finalized entry of the stream. */
  predicate EntryOf(c: Candle, s: Stream) { !c.forming && c.id.Some? && Stream(c.tf, c.key) == s }

  /** Whatever the order of deliveries, a stream's checkpoint is not less than its old value or any finalized entry ID
      processed, and it is one of these. */
  lemma {:induction false} CheckpointIsGreatest(ids: map<Stream, StreamId>, cs: seq<Candle>, s: Stream)
    ensures var after := MarkAll(ids, cs);
            && (s in ids ==> s in after && !IdLess(after[s], ids[s]))
            && (forall c :: c in cs && EntryOf(c, s) ==> s in after && !IdLess(after[s], c.id.value))
            && (s in after ==>
                  || (s in ids && after[s] == ids[s])
                  || exists c :: c in cs && EntryOf(c, s) && c.id == Some(after[s]))
  {
    if cs != [] {
      var init, last := cs[..|cs| - 1], cs[|cs| - 1];
      CheckpointIsGreatest(ids, init, s);
      assert forall c :: c in cs <==> c in init || c == last;
    }
  }

  // ----- The service -----

  /** The snapshot is of engine e: every token once, in the order of places. */
  ghost predicate SnapshotOf(snap: EngineSnap, e: Eng, places: seq<Place>)
    requires e.Valid()
  {
    Covers(e, places) && snap.tokens == SnapAll(e, places)
  }

  class Service {
    var engine: Engine
    var lastProcessed: map<Stream, StreamId>
    var streams: seq<Stream>

    ghost predicate Valid()
      reads this, engine
    {
      engine.View().Valid()
    }

    constructor (configs: seq<TfCfg>, streams: seq<Stream>)
      requires ValidConfigs(configs)
      ensures Valid() && fresh(engine) && engine.View() == NewEng(configs)
      ensures lastProcessed == map[] && this.streams == streams
    {
      engine := new Engine(configs);
      lastProcessed := map[];
      this.streams := streams;
    }

    /** One candle through the engine; a finalized stream entry advances its checkpoint. */
    method Apply(c: Candle) returns (results: seq<Result>)
      requires Valid() && c.ts > 0
      modifies engine, this`lastProcessed
      ensures Valid()
      ensures engine.View() == if c.forming then old(engine.View()) else ProcessEng(old(engine.View()), c)
      ensures lastProcessed == Mark(old(lastProcessed), c)
    {
      if c.forming {
        results := engine.ProcessPeek(c);
      } else {
        results := engine.Process(c);
        if c.id.Some? {
          var s := Stream(c.tf, c.key);
          if s !in lastProcessed || IdLess(lastProcessed[s], c.id.value) {
            lastProcessed := lastProcessed[s := c.id.value];
          }
        }
      }
    }

    /** A batch of finalized candles, as every replay loop applies it. */
    method ApplyAll(cs: seq<Candle>)
      requires Valid() && PositiveTimes(cs) && forall c :: c in cs ==> !c.forming
      modifies engine, this`lastProcessed
      ensures Valid()
      ensures engine.View() == Feed(old(engine.View()), cs) && lastProcessed == MarkAll(old(lastProcessed), cs)
    {
      for i := 0 to |cs|
        invariant Valid()
        invariant engine.View() == Feed(old(engine.View()), cs[..i])
        invariant lastProcessed == MarkAll(old(lastProcessed), cs[..i])
      {
        var _ := Apply(cs[i]);
        assert cs[..i + 1] == cs[..i] + [cs[i]];
        FeedSnoc(old(engine.View()), cs[..i], cs[i]);
        MarkAllSnoc(old(lastProcessed), cs[..i], cs[i]);
      }
      assert cs[..|cs|] == cs;
    }

    /** State and checkpoint captured together: the checkpoint names exactly the entries the state contains. */
    method SnapshotLocked() returns (snap: EngineSnap, ghost places: seq<Place>)
      requires Valid()
      ensures SnapshotOf(snap, engine.View(), places) && snap.streamIds == lastProcessed
    {
      var tokens;
      tokens, places := SnapshotEngine(engine);
      snap := EngineSnap(tokens, lastProcessed);
    }

    /** Restore from a snapshot (or start cold), then warm up from SQLite. */
    method RestoreEngine(configs: seq<TfCfg>, saved: Option<EngineSnap>, reader: Option<Reader>)
      requires ValidConfigs(configs)
      requires saved.Some? ==> forall t :: t in saved.value.tokens ==> ValidSnap(t)
      requires reader.Some? ==> ValidReader(reader.value, configs, MaxPeriod(configs))
      modifies this`engine, this`lastProcessed
      ensures Valid() && fresh(engine)
      ensures lastProcessed == if saved.Some? then old(lastProcessed) + saved.value.streamIds else old(lastProcessed)
      ensures var restored := RestoreAll(NewEng(configs), if saved.Some? then saved.value.tokens else []);
              engine.View() ==
              if reader.None? || MaxPeriod(configs) == 0 then restored
              else Feed(restored, WarmUp(configs, reader.value, MaxPeriod(configs)))
    {
      var tokens := if saved.Some? then saved.value.tokens else [];
      engine := RestoreTokens(configs, tokens);
      if saved.Some? {
        lastProcessed := lastProcessed + saved.value.streamIds;
      }
      if reader.Some? {
        BackfillFromSQLite(configs, reader.value);
      }
    }

    method BackfillFromSQLite(configs: seq<TfCfg>, reader: Reader)
      requires Valid() && ValidReader(reader, configs, MaxPeriod(configs))
      modifies engine
      ensures Valid()
      ensures engine.View() == if MaxPeriod(configs) == 0 then old(engine.View())
                               else Feed(old(engine.View()), WarmUp(configs, reader, MaxPeriod(configs)))
    {
      hide MaxPeriod, Feed;
      var maxPeriod := FindMaxPeriod(configs);
      if maxPeriod == 0 {
        return;
      }
      ghost var e := engine.View();
      FeedNothing(e);
      for i := 0 to |configs|
        invariant Valid() && PositiveTimes(WarmUp(configs[..i], reader, maxPeriod))
        invariant engine.View() == Feed(e, WarmUp(configs[..i], reader, maxPeriod))
      {
        ghost var fed := WarmUp(configs[..i], reader, maxPeriod);
        assert configs[..i + 1][..i] == configs[..i];
        var read := reader(configs[i].tf, maxPeriod);
        if read.Some? {
          FeedEngine(engine, read.value);
          FeedAppend(e, fed, read.value);
        } else {
          assert fed + [] == fed;
        }
      }
      assert configs[..|configs|] == configs;
    }

    /** The replay of Redis after a restore: per-stream deltas from the checkpoint, or everything when there is none. */
    method CatchUp(saved: Option<EngineSnap>, log: Log)
      requires Valid() && ValidLog(log)
      modifies engine, this`lastProcessed
      ensures Valid()
      ensures var delta := Delta(streams, log, if saved.Some? then saved.value.streamIds else map[]);
              engine.View() == Feed(old(engine.View()), delta) && lastProcessed == MarkAll(old(lastProcessed), delta)
      ensures streams == old(streams) && engine == old(engine)
    {
      hide After, Feed, ValidToken, ValidConfigs, MarkAll;
      ghost var e := engine.View();
      FeedNothing(e);
      MarkNothing(lastProcessed);
      var ids := if saved.Some? then saved.value.streamIds else map[];
      for i := 0 to |streams|
        invariant Valid() && streams == old(streams) && engine == old(engine)
        invariant engine.View() == Feed(e, Delta(streams[..i], log, ids))
        invariant lastProcessed == MarkAll(old(lastProcessed), Delta(streams[..i], log, ids))
      {
        var s := streams[i];
        assert streams[..i + 1][..i] == streams[..i];
        var from := if s in ids then Some(ids[s]) else None;
        var entries := After(EntriesOf(log, s), from);
        NoneForming(EntriesOf(log, s), from);
        FeedAppend(e, Delta(streams[..i], log, ids), entries);
        MarkAllAppend(old(lastProcessed), Delta(streams[..i], log, ids), entries);
        ApplyAll(entries);
      }
      assert streams[..|streams|] == streams;
    }

    /** Swap the configs and, when any timeframe is new or changed, replay every stream from its start. */
    method ReloadLocked(configs: seq<TfCfg>, log: Log) returns (preserved: nat, created: nat)
      requires Valid() && ValidConfigs(configs) && ValidLog(log)
      modifies engine, this`lastProcessed
      ensures Valid()
      ensures var reloaded := Reload(old(engine.View()), configs);
              && engine.View() == (if created == 0 then reloaded else Feed(reloaded, Delta(streams, log, map[])))
              && lastProcessed == (if created == 0 then old(lastProcessed) else MarkAll(old(lastProcessed), Delta(streams, log, map[])))
      ensures created > 0 <==> exists i :: 0 <= i < |configs| && Recreated(old(engine.View()), configs[i])
    {
      preserved, created := ReloadConfigs(engine, configs);
      if created > 0 {
        CatchUp(None, log);
      }
    }
  }

  // ----- Engine-level passes -----

  method FindMaxPeriod(configs: seq<TfCfg>) returns (maxPeriod: nat)
    ensures maxPeriod == MaxPeriod(configs)
  {
    maxPeriod := 0;
    for i := 0 to |configs|
      invariant maxPeriod == MaxPeriod(configs[..i])
    {
      assert configs[..i + 1][..i] == configs[..i];
      var inds := configs[i].inds;
      ghost var before := maxPeriod;
      for j := 0 to |inds|
        invariant maxPeriod == Max(before, MaxPeriodOf(inds[..j]))
      {
        assert inds[..j + 1][..j] == inds[..j];
        if inds[j].period > maxPeriod {
          maxPeriod := inds[j].period;
        }
      }
      assert inds[..|inds|] == inds;
    }
    assert configs[..|configs|] == configs;
  }

  lemma MarkNothing(ids: map<Stream, StreamId>)
    ensures MarkAll(ids, []) == ids
  {
  }

  lemma FeedNothing(e: Eng)
    requires e.Valid()
    ensures Feed(e, []) == e
  {
  }

  method FeedEngine(engine: Engine, cs: seq<Candle>)
    requires engine.View().Valid() && PositiveTimes(cs)
    modifies engine
    ensures engine.View() == Feed(old(engine.View()), cs)
  {
    hide Feed;
    ghost var e := engine.View();
    FeedNothing(e);
    for j := 0 to |cs|
      invariant engine.View() == Feed(e, cs[..j]) && engine.View().Valid()
    {
      assert cs[..j + 1] == cs[..j] + [cs[j]];
      FeedSnoc(e, cs[..j], cs[j]);
      ProcessIgnoresForming(Feed(e, cs[..j]), cs[j]);
      var _ := engine.Process(cs[j].(forming := false));
    }
    assert cs[..|cs|] == cs;
  }

  lemma ProcessIgnoresForming(e: Eng, c: Candle)
    requires e.Valid() && c.ts > 0
    ensures ProcessEng(e, c.(forming := false)) == ProcessEng(e, c)
  {
  }

  method SnapshotEngine(engine: Engine) returns (tokens: seq<TokenSnap>, ghost places: seq<Place>)
    requires engine.View().Valid()
    ensures Covers(engine.View(), places) && tokens == SnapAll(engine.View(), places)
  {
    hide PlacesWithin, ValidToken, ValidConfigs;
    var configs, state := engine.configs, engine.state;
    ghost var e := engine.View();
    tokens, places := [], [];
    NoPlaces(e);
    for i := 0 to |state|
      invariant PlacesWithin(e, places, i, {}) && InState(e, places) && tokens == SnapAll(e, places)
    {
      var keys := state[i].Keys;
      ghost var done: set<string> := {};
      while keys != {}
        invariant done + keys == state[i].Keys && done !! keys
        invariant PlacesWithin(e, places, i, done) && InState(e, places) && tokens == SnapAll(e, places)
        decreases |keys|
      {
        var key :| key in keys;
        TokenValid(e, i, key);
        tokens := tokens + [SnapToken(configs[i].tf, key, state[i][key], configs[i].inds)];
        AddPlace(e, places, i, done, key);
        places := places + [(i, key)];
        done, keys := done + {key}, keys - {key};
      }
      NextTimeframe(e, places, i, done);
    }
    AllPlaces(e, places);
  }

  /** Every place names a token of the engine, as SnapAll asks. */
  ghost predicate InState(e: Eng, places: seq<Place>) {
    forall p :: p in places ==> p.0 < |e.state| && p.1 in e.state[p.0]
  }

  lemma TokenValid(e: Eng, i: nat, key: string)
    requires e.Valid() && i < |e.state| && key in e.state[i]
    ensures ValidToken(e.state[i][key], e.configs[i].inds)
  {
  }

  lemma NoPlaces(e: Eng)
    requires e.Valid()
    ensures PlacesWithin(e, [], 0, {})
  {
  }

  lemma NextTimeframe(e: Eng, places: seq<Place>, i: nat, done: set<string>)
    requires e.Valid() && i < |e.state| && PlacesWithin(e, places, i, done) && done == e.state[i].Keys
    ensures PlacesWithin(e, places, i + 1, {})
  {
  }

  lemma AllPlaces(e: Eng, places: seq<Place>)
    requires e.Valid() && PlacesWithin(e, places, |e.state|, {})
    ensures Covers(e, places)
  {
  }

  lemma AddPlace(e: Eng, places: seq<Place>, i: nat, done: set<string>, key: string)
    requires e.Valid() && PlacesWithin(e, places, i, done) && i < |e.state| && key in e.state[i] && key !in done
    ensures PlacesWithin(e, places + [(i, key)], i, done + {key}) && InState(e, places + [(i, key)])
    ensures SnapAll(e, places + [(i, key)]) == SnapAll(e, places) + [SnapPlace(e, (i, key))]
  {
    hide SnapPlace;
    assert (i, key) !in places;
  }

  method RestoreTokens(configs: seq<TfCfg>, tokens: seq<TokenSnap>) returns (engine: Engine)
    requires ValidConfigs(configs) && forall t :: t in tokens ==> ValidSnap(t)
    ensures fresh(engine) && engine.View() == RestoreAll(NewEng(configs), tokens)
  {
    engine := new Engine(configs);
    var state, tfIndex := engine.state, engine.tfIndex;
    for i := 0 to |tokens|
      invariant Eng(configs, state, tfIndex) == RestoreAll(NewEng(configs), tokens[..i])
    {
      var t := tokens[i];
      assert tokens[..i + 1][..i] == tokens[..i] && t in tokens;
      if t.tf in tfIndex {
        var j := tfIndex[t.tf];
        state := state[j := state[j][JoinKey(t.exchange, t.token) := RestoreToken(configs[j].inds, t)]];
      }
    }
    assert tokens[..|tokens|] == tokens;
    engine.state := state;
  }

  /** One timeframe of ReloadConfigs. */
  method ReloadTimeframe(e: Eng, cfg: TfCfg) returns (tokens: map<string, TokenInds>, recreated: bool)
    requires e.Valid() && ValidInds(cfg.inds)
    ensures tokens == ReloadTf(e, cfg) && recreated == Recreated(e, cfg)
  {
    hide MigrateToken;
    if cfg.tf !in e.tfIndex {
      return map[], true;
    }
    var o := e.tfIndex[cfg.tf];
    if IndicatorSetsEqual(e.configs[o].inds, cfg.inds) {
      return e.state[o], false;
    }
    tokens := map key | key in e.state[o] :: MigrateToken(e.state[o][key], e.configs[o].inds, cfg.inds);
    recreated := true;
  }

  method ReloadConfigs(engine: Engine, configs: seq<TfCfg>) returns (preserved: nat, created: nat)
    requires engine.View().Valid() && ValidConfigs(configs)
    modifies engine
    ensures engine.View() == Reload(old(engine.View()), configs)
    ensures created > 0 <==> exists i :: 0 <= i < |configs| && Recreated(old(engine.View()), configs[i])
  {
    hide ReloadTf, Recreated;
    var e := Eng(engine.configs, engine.state, engine.tfIndex);
    preserved, created := 0, 0;
    var state: seq<map<string, TokenInds>> := [];
    for i := 0 to |configs|
      invariant |state| == i
      invariant forall j :: 0 <= j < i ==> state[j] == ReloadTf(e, configs[j])
      invariant created > 0 <==> exists j :: 0 <= j < i && Recreated(e, configs[j])
    {
      var tokens, recreated := ReloadTimeframe(e, configs[i]);
      state := state + [tokens];
      if configs[i].tf in e.tfIndex {
        preserved := preserved + |tokens|;
      }
      if recreated {
        created := created + 1;
      }
    }
    engine.configs, engine.state, engine.tfIndex := configs, state, TfIndex(configs);
    ReloadState(e, configs, state);
  }

  lemma ReloadState(e: Eng, configs: seq<TfCfg>, state: seq<map<string, TokenInds>>)
    requires e.Valid() && ValidConfigs(configs) && |state| == |configs|
    requires forall j :: 0 <= j < |configs| ==> state[j] == ReloadTf(e, configs[j])
    ensures Reload(e, configs) == Eng(configs, state, TfIndex(configs))
  {
    hide ReloadTf;
    assert Reload(e, configs).state == state;
  }

  /** Places of the timeframes before i, and of timeframe i those with a key in done. */
  ghost predicate PlacesWithin(e: Eng, places: seq<Place>, i: nat, done: set<string>)
    requires e.Valid()
  {
    && Distinct(places)
    && (forall p :: p in places ==> p.0 < |e.state| && p.1 in e.state[p.0] && (p.0 < i || (p.0 == i && p.1 in done)))
    && (forall j :: 0 <= j < i && j < |e.state| ==> forall key :: key in e.state[j] ==> (j, key) in places)
    && (i < |e.state| ==> forall key :: key in done && key in e.state[i] ==> (i, key) in places)
  }

  lemma {:induction false} NoneForming(entries: seq<Candle>, from: Option<StreamId>)
    ensures forall c :: c in After(entries, from) ==> !c.forming && c in entries
  {
    if entries != [] {
      NoneForming(entries[..|entries| - 1], from);
    }
  }
}
