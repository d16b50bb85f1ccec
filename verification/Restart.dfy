/** Restart and reload of the whole service, one stream at a time: from snapshot to uninterrupted run. */
module Restart {
  import opened Common
  import opened Indicators
  import opened IndicatorEngine
  import opened EngineSnapshot
  import opened Schedule
  import opened Indengine

  /** A well-formed Redis stream: finalized entries of one timeframe and token, bucket times and IDs strictly increasing. */
  ghost predicate StreamLog(entries: seq<Candle>, s: Stream) {
    && (forall i :: 0 <= i < |entries| ==>
          entries[i].tf == s.tf && entries[i].key == s.key && !entries[i].forming && entries[i].id.Some? && entries[i].ts > 0)
    && (forall i, j :: 0 <= i < j < |entries| ==>
          entries[i].ts < entries[j].ts && IdLess(entries[i].id.value, entries[j].id.value))
  }

  function Bars(entries: seq<Candle>): (bars: seq<Bar>)
    ensures |bars| == |entries|
    ensures forall i :: 0 <= i < |entries| ==> bars[i] == Bar(entries[i].ts, entries[i].close)
  {
    seq(|entries|, i requires 0 <= i < |entries| => Bar(entries[i].ts, entries[i].close))
  }

  lemma BarsOrdered(entries: seq<Candle>, s: Stream)
    requires StreamLog(entries, s)
    ensures Ordered(Bars(entries)) && Positive(Bars(entries))
  {
  }

  /** The checkpoint of s names entry c - 1 of its stream, or nothing when c is 0. */
  ghost predicate CheckpointAt(ids: map<Stream, StreamId>, s: Stream, entries: seq<Candle>, c: nat) {
    && c <= |entries|
    && if c == 0 then s !in ids
       else s in ids && entries[c - 1].id == Some(ids[s])
  }

  /** The engine's slot of cfg was first fed entry z and holds exactly entries z..k (none when z == k), and the checkpoint names
      entry c - 1 with c <= k. */
  ghost predicate Synced(e: Eng, ids: map<Stream, StreamId>, s: Stream, entries: seq<Candle>, cfg: Cfg, z: nat, k: nat, c: nat) {
    && StreamLog(entries, s) && e.Valid() && e.Has(s.tf, cfg) && cfg.period >= 1
    && Holds(e, s, entries, cfg, z, k)
    && c <= k && CheckpointAt(ids, s, entries, c)
  }

  ghost predicate Holds(e: Eng, s: Stream, entries: seq<Candle>, cfg: Cfg, z: nat, k: nat)
    requires e.Valid() && e.Has(s.tf, cfg) && cfg.period >= 1
  {
    && z <= k <= |entries| && Positive(Bars(entries)[z..k])
    && e.SlotOf(s.tf, s.key, cfg) == RunSlot(cfg, Bars(entries)[z..k])
  }

  // ----- Live processing keeps the two in step -----

  /** cs delivers the stream's entries idx among candles of other streams; a stream read carries its entry's ID. */
  ghost predicate Follows(cs: seq<Candle>, s: Stream, entries: seq<Candle>, idx: seq<nat>) {
    if cs == [] then idx == []
    else if cs[0].tf == s.tf && cs[0].key == s.key then
      && idx != [] && idx[0] < |entries| && !cs[0].forming
      && cs[0].ts == entries[idx[0]].ts && cs[0].close == entries[idx[0]].close
      && (cs[0].id.Some? ==> cs[0].id == entries[idx[0]].id)
      && Follows(cs[1..], s, entries, idx[1..])
    else Follows(cs[1..], s, entries, idx)
  }

  lemma PickCons(bars: seq<Bar>, idx: seq<nat>)
    requires idx != [] && idx[0] < |bars| && Within(idx[1..], |bars|)
    ensures Within(idx, |bars|) && Pick(bars, idx) == [bars[idx[0]]] + Pick(bars, idx[1..])
  {
    assert idx == [idx[0]] + idx[1..];
  }

  lemma {:induction false} FollowsProject(cs: seq<Candle>, s: Stream, entries: seq<Candle>, idx: seq<nat>)
    requires Follows(cs, s, entries, idx)
    ensures Within(idx, |entries|) && Project(cs, s.tf, s.key) == Pick(Bars(entries), idx)
  {
    if cs != [] {
      if cs[0].tf == s.tf && cs[0].key == s.key {
        FollowsProject(cs[1..], s, entries, idx[1..]);
        PickCons(Bars(entries), idx);
      } else {
        FollowsProject(cs[1..], s, entries, idx);
        assert [] + Project(cs[1..], s.tf, s.key) == Project(cs[1..], s.tf, s.key);
      }
    }
  }

  lemma {:induction false} MarkAllCons(ids: map<Stream, StreamId>, c: Candle, cs: seq<Candle>)
    ensures MarkAll(ids, [c] + cs) == MarkAll(Mark(ids, c), cs)
  {
    if cs == [] {
      assert [c] + cs == [c] && [c][..0] == [];
      assert MarkAll(ids, [c]) == Mark(MarkAll(ids, []), c);
    } else {
      var init := cs[..|cs| - 1];
      MarkAllCons(ids, c, init);
      assert ([c] + cs)[..|cs|] == [c] + init;
    }
  }

  /** Any gap-free delivery of the stream, repeats and other streams included, keeps the checkpoint no later
      than the state: a snapshot taken at any point is one the restart theorem applies to. */
  lemma LiveKeepsSynced(e: Eng, ids: map<Stream, StreamId>, s: Stream, entries: seq<Candle>, cfg: Cfg, z: nat, k: nat, c: nat,
                        cs: seq<Candle>, idx: seq<nat>) returns (c': nat)
    requires Synced(e, ids, s, entries, cfg, z, k, c)
    requires PositiveTimes(cs) && Follows(cs, s, entries, idx) && Starts(z, k, idx) && NoGap(k, idx)
    ensures c' >= c && Synced(Feed(e, cs), MarkAll(ids, cs), s, entries, cfg, z, HighWater(k, idx), c')
  {
    FollowsProject(cs, s, entries, idx);
    FeedIsPerSlot(e, cs, s.tf, s.key, cfg);
    BarsOrdered(entries, s);
    ScheduleState(cfg, Bars(entries), z, k, idx);
    c' := CheckpointFollows(ids, s, entries, k, c, cs, idx);
  }

  lemma {:induction false} CheckpointFollows(ids: map<Stream, StreamId>, s: Stream, entries: seq<Candle>, k: nat, c: nat,
                                             cs: seq<Candle>, idx: seq<nat>) returns (c': nat)
    requires StreamLog(entries, s) && c <= k <= |entries| && Follows(cs, s, entries, idx)
    requires CheckpointAt(ids, s, entries, c)
    ensures c <= c' <= HighWater(k, idx) && CheckpointAt(MarkAll(ids, cs), s, entries, c')
    decreases |cs|
  {
    if cs == [] {
      c' := c;
    } else {
      var ids1 := Mark(ids, cs[0]);
      assert cs == [cs[0]] + cs[1..];
      MarkAllCons(ids, cs[0], cs[1..]);
      if cs[0].tf == s.tf && cs[0].key == s.key {
        var i := idx[0];
        var c1 := if cs[0].id.Some? && i + 1 > c then i + 1 else c;
        assert c1 == c || ids1[s] == entries[i].id.value;
        c' := CheckpointFollows(ids1, s, entries, Max(k, i + 1), c1, cs[1..], idx[1..]);
      } else {
        c' := CheckpointFollows(ids1, s, entries, k, c, cs[1..], idx);
      }
    }
  }

  // ----- What the delta replay delivers -----

  /** Every stream's entries carry that stream's timeframe and token. */
  ghost predicate OwnEntries(log: Log) {
    forall s :: s in log ==> forall c :: c in log[s] ==> c.tf == s.tf && c.key == s.key && c.ts > 0
  }

  /** A read of the retained entries r..n from the checkpoint gives those past both, whether or not Redis still has
      the entry the checkpoint names. */
  lemma {:induction false} AfterCheckpoint(entries: seq<Candle>, s: Stream, c: nat, r: nat, n: nat, from: Option<StreamId>)
    requires StreamLog(entries, s) && c <= |entries| && r <= n <= |entries|
    requires if c == 0 then from == None else from == Some(entries[c - 1].id.value)
    ensures After(entries[r..n], from) == entries[DeltaStart(c, r, n)..n]
    decreases n
  {
    hide After, IdLess, StreamLog, PositiveTimes;
    if r == n {
      AfterNothing(from);
      assert entries[r..n] == [] && entries[DeltaStart(c, r, n)..n] == [];
    } else {
      var init, last := entries[r..n - 1], entries[n - 1];
      AfterCheckpoint(entries, s, c, r, n - 1, from);
      AfterSnoc(init, last, from);
      SliceSnoc(entries, r, n);
      PastCheckpoint(entries, s, c, n - 1);
      if c < n {
        assert DeltaStart(c, r, n - 1) == DeltaStart(c, r, n) <= n - 1;
        var d := DeltaStart(c, r, n);
        SliceSnoc(entries, d, n);
      }
    }
  }

  lemma SliceSnoc<T>(s: seq<T>, a: nat, n: nat)
    requires a < n <= |s|
    ensures s[a..n] == s[a..n - 1] + [s[n - 1]]
  {
  }

  /** Entry i is later than the checkpoint's entry c - 1 exactly when i >= c. */
  lemma PastCheckpoint(entries: seq<Candle>, s: Stream, c: nat, i: nat)
    requires StreamLog(entries, s) && c <= |entries| && i < |entries|
    ensures entries[i].id.Some? && !entries[i].forming && (c > 0 ==> entries[c - 1].id.Some?)
    ensures c > 0 ==> (IdLess(entries[c - 1].id.value, entries[i].id.value) <==> i >= c)
  {
    if c > 0 && i < c - 1 {
      assert IdLess(entries[i].id.value, entries[c - 1].id.value);
    }
  }

  lemma AfterSnoc(init: seq<Candle>, e: Candle, from: Option<StreamId>)
    ensures After(init + [e], from) == After(init, from) +
            if e.id.Some? && (from.None? || IdLess(from.value, e.id.value)) && !e.forming then [e] else []
  {
    assert (init + [e])[..|init|] == init;
  }

  lemma AfterNothing(from: Option<StreamId>)
    ensures After([], from) == []
  {
  }

  lemma {:induction false} FollowsAppend(x: seq<Candle>, y: seq<Candle>, s: Stream, entries: seq<Candle>, i: seq<nat>, j: seq<nat>)
    requires Follows(x, s, entries, i) && Follows(y, s, entries, j)
    ensures Follows(x + y, s, entries, i + j)
  {
    if x == [] {
      assert x + y == y && i + j == j;
    } else {
      assert (x + y)[0] == x[0] && (x + y)[1..] == x[1..] + y;
      if x[0].tf == s.tf && x[0].key == s.key {
        FollowsAppend(x[1..], y, s, entries, i[1..], j);
        assert (i + j)[0] == i[0] && (i + j)[1..] == i[1..] + j;
      } else {
        FollowsAppend(x[1..], y, s, entries, i, j);
      }
    }
  }

  /** A piece of the stream delivers its own entries in order. */
  lemma {:induction false} FollowsOwn(entries: seq<Candle>, s: Stream, a: nat, b: nat)
    requires StreamLog(entries, s) && a <= b <= |entries|
    ensures Follows(entries[a..b], s, entries, Range(a, b))
    decreases b - a
  {
    if a < b {
      FollowsOwn(entries, s, a + 1, b);
      assert entries[a..b][0] == entries[a] && entries[a..b][1..] == entries[a + 1..b];
      assert Range(a, b)[0] == a && Range(a, b)[1..] == Range(a + 1, b);
    } else {
      assert entries[a..b] == [];
    }
  }

  /** Candles of other streams deliver nothing. */
  lemma {:induction false} FollowsOther(cs: seq<Candle>, s: Stream, entries: seq<Candle>)
    requires forall c :: c in cs ==> !(c.tf == s.tf && c.key == s.key)
    ensures Follows(cs, s, entries, [])
  {
    if cs != [] {
      FollowsOther(cs[1..], s, entries);
    }
  }

  function CheckpointOf(ids: map<Stream, StreamId>, t: Stream): Option<StreamId> {
    if t in ids then Some(ids[t]) else None
  }

  lemma ReadOther(log: Log, t: Stream, s: Stream, entries: seq<Candle>, from: Option<StreamId>)
    requires OwnEntries(log) && t != s
    ensures Follows(After(EntriesOf(log, t), from), s, entries, [])
  {
    hide After, Follows;
    var own := EntriesOf(log, t);
    NoneForming(own, from);
    forall c | c in After(own, from) ensures !(c.tf == s.tf && c.key == s.key) {
      assert t in log && c in log[t];
    }
    FollowsOther(After(own, from), s, entries);
  }

  /** The replay of all streams delivers, of one stream, the retained entries past its own checkpoint. */
  lemma {:induction false} DeltaOfStream(streams: seq<Stream>, log: Log, ids: map<Stream, StreamId>, s: Stream,
                                         entries: seq<Candle>, c: nat, r: nat, n: nat)
    requires OwnEntries(log) && StreamLog(entries, s) && Distinct(streams) && CheckpointAt(ids, s, entries, c)
    requires r <= n <= |entries| && s in log && log[s] == entries[r..n]
    ensures Follows(Delta(streams, log, ids), s, entries, if s in streams then Range(DeltaStart(c, r, n), n) else [])
  {
    hide After, OwnEntries, StreamLog, Follows, Range;
    if streams == [] {
      FollowsOther([], s, entries);
    } else {
      var init, t := streams[..|streams| - 1], streams[|streams| - 1];
      var d := Range(DeltaStart(c, r, n), n);
      var before, read := if s in init then d else [], if t == s then d else [];
      var from := CheckpointOf(ids, t);
      DeltaOfStream(init, log, ids, s, entries, c, r, n);
      if t == s {
        AfterCheckpoint(entries, s, c, r, n, from);
        FollowsOwn(entries, s, DeltaStart(c, r, n), n);
      } else {
        ReadOther(log, t, s, entries, from);
      }
      FollowsAppend(Delta(init, log, ids), After(EntriesOf(log, t), from), s, entries, before, read);
      assert s in streams <==> s in init || t == s;
      assert before + read == if s in streams then d else [];
    }
  }

  lemma DeltaPositive(streams: seq<Stream>, log: Log, ids: map<Stream, StreamId>)
    requires OwnEntries(log)
    ensures PositiveTimes(Delta(streams, log, ids))
  {
    LogPositive(log);
  }

  // ----- The theorems -----

  /** An engine that has run nothing is in step with an empty checkpoint, wherever it starts. */
  lemma FreshSynced(configs: seq<TfCfg>, s: Stream, entries: seq<Candle>, cfg: Cfg, z: nat)
    requires ValidConfigs(configs) && NewEng(configs).Has(s.tf, cfg) && StreamLog(entries, s) && z <= |entries|
    ensures Synced(NewEng(configs), map[], s, entries, cfg, z, z, 0)
  {
    FreshEverywhere(configs, s.tf, s.key, cfg);
    assert NewEng(configs).SlotOf(s.tf, s.key, cfg).Valid();
    assert Bars(entries)[z..z] == [];
  }

  /** What of one stream a restart reads: warm is SQLite's entries a..b, log what Redis still holds, its entries r..n. */
  ghost predicate Reads(s: Stream, entries: seq<Candle>, warm: seq<Candle>, a: nat, b: nat,
                        streams: seq<Stream>, log: Log, r: nat, n: nat) {
    && a <= b <= |entries| && PositiveTimes(warm) && Project(warm, s.tf, s.key) == Bars(entries)[a..b]
    && Retains(s, entries, streams, log, r, n)
  }

  ghost predicate Retains(s: Stream, entries: seq<Candle>, streams: seq<Stream>, log: Log, r: nat, n: nat) {
    r <= n <= |entries| && OwnEntries(log) && Distinct(streams) && s in streams && s in log && log[s] == entries[r..n]
  }

  /** Consumption of the stream from mark h on, repeats and other streams included, that ends with its last entry. */
  ghost predicate Remainder(rest: seq<Candle>, s: Stream, entries: seq<Candle>, later: seq<nat>, h: nat) {
    PositiveTimes(rest) && Follows(rest, s, entries, later) && HighWater(h, later) == |entries|
  }

  /** The service after a restart: restored, warmed up, caught up, and fed the rest. */
  ghost function Restarted(e: Eng, ids: map<Stream, StreamId>, places: seq<Place>, configs: seq<TfCfg>,
                           warm: seq<Candle>, streams: seq<Stream>, log: Log, rest: seq<Candle>): (final: Eng)
    requires e.Valid() && Covers(e, places) && ValidConfigs(configs)
    requires PositiveTimes(warm) && OwnEntries(log) && PositiveTimes(rest)
    ensures final.Valid() && final.configs == configs && final.tfIndex == NewEng(configs).tfIndex
  {
    DeltaPositive(streams, log, ids);
    Feed(Feed(Feed(RestoreAll(NewEng(configs), SnapAll(e, places)), warm), Delta(streams, log, ids)), rest)
  }

  ghost function CheckpointAfter(ids: map<Stream, StreamId>, streams: seq<Stream>, log: Log, rest: seq<Candle>): map<Stream, StreamId> {
    MarkAll(MarkAll(ids, Delta(streams, log, ids)), rest)
  }

  /** Restart of the service. A snapshot of an engine in step with its checkpoint is restored under any configs that
      still list the indicator, warmed up from SQLite, caught up from what Redis still holds, and fed the rest with any
      redelivery. Its slot equals the one of a run that was never interrupted if and only if nothing jumps over a candle:
      the warm-up starts no later than the restored state, Redis was not trimmed past both, and consumption has no gap. */
  lemma RestartTheorem(e: Eng, ids: map<Stream, StreamId>, places: seq<Place>, configs: seq<TfCfg>,
                       s: Stream, entries: seq<Candle>, cfg: Cfg, z: nat, k: nat, c: nat,
                       warm: seq<Candle>, a: nat, b: nat,
                       streams: seq<Stream>, log: Log, r: nat, n: nat, rest: seq<Candle>, later: seq<nat>)
    requires Synced(e, ids, s, entries, cfg, z, k, c) && Covers(e, places)
    requires ValidConfigs(configs) && NewEng(configs).Has(s.tf, cfg)
    requires Reads(s, entries, warm, a, b, streams, log, r, n)
    requires Begins(z, k, FirstBar(a, b, DeltaStart(c, r, n), n, later, |entries|))
    requires Remainder(rest, s, entries, later, ReplayMark(WarmMark(k, a, b), r, n))
    ensures Holds(Restarted(e, ids, places, configs, warm, streams, log, rest), s, entries, cfg, z, |entries|)
            <==> NoJump(k, a, b, r, n) && NoGap(ReplayMark(WarmMark(k, a, b), r, n), later)
  {
    hide NoGap, HighWater, Feed, RestoreAll, SnapAll, Delta, Follows, OwnEntries, Eng.SlotOf, NoJump, FeedSlot, RunSlot, Restarted;
    var bars := Bars(entries);
    BarsOrdered(entries, s);
    RestoreRoundTrip(e, places, configs, s.tf, s.key, cfg);
    RestartedSlot(e, ids, places, configs, s, entries, cfg, c, warm, a, b, streams, log, r, n, rest, later);
    RestartEquivalence(cfg, bars, z, k, a, b, c, r, n, later);
    assert bars[z..|entries|] == bars[z..];
  }

  /** What the slot is fed in the course of a restart. */
  lemma RestartedSlot(e: Eng, ids: map<Stream, StreamId>, places: seq<Place>, configs: seq<TfCfg>,
                      s: Stream, entries: seq<Candle>, cfg: Cfg, c: nat, warm: seq<Candle>, a: nat, b: nat,
                      streams: seq<Stream>, log: Log, r: nat, n: nat, rest: seq<Candle>, later: seq<nat>)
    requires e.Valid() && Covers(e, places) && ValidConfigs(configs) && NewEng(configs).Has(s.tf, cfg)
    requires StreamLog(entries, s) && CheckpointAt(ids, s, entries, c) && Reads(s, entries, warm, a, b, streams, log, r, n)
    requires PositiveTimes(rest) && Follows(rest, s, entries, later)
    ensures Within(later, |entries|) && Positive(Bars(entries))
    ensures Restarted(e, ids, places, configs, warm, streams, log, rest).SlotOf(s.tf, s.key, cfg) ==
            FeedSlot(FeedSlot(FeedSlot(RestoreAll(NewEng(configs), SnapAll(e, places)).SlotOf(s.tf, s.key, cfg),
                                       Bars(entries)[a..b]), Bars(entries)[DeltaStart(c, r, n)..n]), Pick(Bars(entries), later))
  {
    hide Feed, RestoreAll, SnapAll, Delta, Project, Follows, OwnEntries, Eng.SlotOf, FeedSlot;
    BarsOrdered(entries, s);
    DeltaBars(streams, log, ids, s, entries, c, r, n);
    FollowsProject(rest, s, entries, later);
    ThreeFeeds(RestoreAll(NewEng(configs), SnapAll(e, places)), warm, Delta(streams, log, ids), rest, s, cfg);
  }

  lemma DeltaBars(streams: seq<Stream>, log: Log, ids: map<Stream, StreamId>, s: Stream,
                  entries: seq<Candle>, c: nat, r: nat, n: nat)
    requires StreamLog(entries, s) && CheckpointAt(ids, s, entries, c) && Retains(s, entries, streams, log, r, n)
    ensures PositiveTimes(Delta(streams, log, ids))
    ensures Project(Delta(streams, log, ids), s.tf, s.key) == Bars(entries)[DeltaStart(c, r, n)..n]
  {
    hide Delta, Project, Follows;
    DeltaPositive(streams, log, ids);
    DeltaOfStream(streams, log, ids, s, entries, c, r, n);
    FollowsProject(Delta(streams, log, ids), s, entries, Range(DeltaStart(c, r, n), n));
    PickRange(Bars(entries), DeltaStart(c, r, n), n);
  }

  /** Whatever a restart delivers, its checkpoint only moves on along the stream. */
  lemma CheckpointMovesOn(ids: map<Stream, StreamId>, s: Stream, entries: seq<Candle>, c: nat,
                          streams: seq<Stream>, log: Log, r: nat, n: nat, rest: seq<Candle>, later: seq<nat>) returns (c': nat)
    requires StreamLog(entries, s) && CheckpointAt(ids, s, entries, c) && Retains(s, entries, streams, log, r, n)
    requires Follows(rest, s, entries, later)
    ensures c <= c' && CheckpointAt(CheckpointAfter(ids, streams, log, rest), s, entries, c')
  {
    hide NoGap, HighWater, Delta, Follows, OwnEntries, MarkAll;
    DeltaOfStream(streams, log, ids, s, entries, c, r, n);
    var c1 := CheckpointFollows(ids, s, entries, |entries|, c, Delta(streams, log, ids), Range(DeltaStart(c, r, n), n));
    c' := CheckpointFollows(MarkAll(ids, Delta(streams, log, ids)), s, entries, |entries|, c1, rest, later);
  }

  /** Restarts compose: after one that jumped over nothing, engine and checkpoint are in step again, with the stream applied
      from where the indicator began, so the next snapshot is one RestartTheorem applies to. */
  lemma RestartKeepsSynced(e: Eng, ids: map<Stream, StreamId>, places: seq<Place>, configs: seq<TfCfg>,
                           s: Stream, entries: seq<Candle>, cfg: Cfg, z: nat, k: nat, c: nat,
                           warm: seq<Candle>, a: nat, b: nat,
                           streams: seq<Stream>, log: Log, r: nat, n: nat, rest: seq<Candle>, later: seq<nat>)
    returns (c': nat)
    requires Synced(e, ids, s, entries, cfg, z, k, c) && Covers(e, places)
    requires ValidConfigs(configs) && NewEng(configs).Has(s.tf, cfg)
    requires Reads(s, entries, warm, a, b, streams, log, r, n) && NoJump(k, a, b, r, n)
    requires Begins(z, k, FirstBar(a, b, DeltaStart(c, r, n), n, later, |entries|))
    requires var h := ReplayMark(WarmMark(k, a, b), r, n); Remainder(rest, s, entries, later, h) && NoGap(h, later)
    ensures c' >= c
    ensures Synced(Restarted(e, ids, places, configs, warm, streams, log, rest), CheckpointAfter(ids, streams, log, rest),
                   s, entries, cfg, z, |entries|, c')
  {
    hide NoGap, HighWater, Restarted, CheckpointAfter, Follows, OwnEntries, Eng.SlotOf, RunSlot, Holds;
    RestartTheorem(e, ids, places, configs, s, entries, cfg, z, k, c, warm, a, b, streams, log, r, n, rest, later);
    c' := CheckpointMovesOn(ids, s, entries, c, streams, log, r, n, rest, later);
  }

  /** An indicator configured between snapshot and restart is fed from its warm-up on, else from the checkpoint, else from the
      first live candle: it ends as if configured then, if and only if nothing after that jumps over a candle. */
  lemma RestartAddedTheorem(e: Eng, ids: map<Stream, StreamId>, places: seq<Place>, configs: seq<TfCfg>,
                            s: Stream, entries: seq<Candle>, cfg: Cfg, c: nat,
                            warm: seq<Candle>, a: nat, b: nat,
                            streams: seq<Stream>, log: Log, r: nat, n: nat, rest: seq<Candle>, later: seq<nat>)
    requires e.Valid() && Covers(e, places) && !e.Has(s.tf, cfg)
    requires ValidConfigs(configs) && NewEng(configs).Has(s.tf, cfg) && cfg.period >= 1
    requires StreamLog(entries, s) && CheckpointAt(ids, s, entries, c)
    requires Reads(s, entries, warm, a, b, streams, log, r, n)
    requires Remainder(rest, s, entries, later, AddedMark(a, b, DeltaStart(c, r, n), n, later, |entries|))
    ensures var d := DeltaStart(c, r, n);
            Holds(Restarted(e, ids, places, configs, warm, streams, log, rest), s, entries, cfg,
                  FirstBar(a, b, d, n, later, |entries|), |entries|)
            <==> (a == b || d <= b || d == n) && NoGap(AddedMark(a, b, d, n, later, |entries|), later)
  {
    hide NoGap, HighWater, RestoreAll, SnapAll, Follows, OwnEntries, Eng.SlotOf, FeedSlot, RunSlot, Restarted, StreamLog, Project;
    var bars, start := Bars(entries), FirstBar(a, b, DeltaStart(c, r, n), n, later, |entries|);
    BarsOrdered(entries, s);
    RestoreRoundTrip(e, places, configs, s.tf, s.key, cfg);
    RestartedSlot(e, ids, places, configs, s, entries, cfg, c, warm, a, b, streams, log, r, n, rest, later);
    RestartAdded(cfg, bars, a, b, c, r, n, later);
    assert bars[start..|entries|] == bars[start..];
  }

  /** Where the reads of an added indicator leave its mark. */
  function AddedMark(a: nat, b: nat, d: nat, n: nat, later: seq<nat>, end: nat): nat {
    ReplayMark(WarmMark(FirstBar(a, b, d, n, later, end), a, b), d, n)
  }

  /** The added indicator is in step from then on, so later restarts keep it as RestartTheorem says. */
  lemma RestartAddedSynced(e: Eng, ids: map<Stream, StreamId>, places: seq<Place>, configs: seq<TfCfg>,
                           s: Stream, entries: seq<Candle>, cfg: Cfg, c: nat,
                           warm: seq<Candle>, a: nat, b: nat,
                           streams: seq<Stream>, log: Log, r: nat, n: nat, rest: seq<Candle>, later: seq<nat>)
    returns (c': nat)
    requires e.Valid() && Covers(e, places) && !e.Has(s.tf, cfg)
    requires ValidConfigs(configs) && NewEng(configs).Has(s.tf, cfg) && cfg.period >= 1
    requires StreamLog(entries, s) && CheckpointAt(ids, s, entries, c)
    requires Reads(s, entries, warm, a, b, streams, log, r, n)
    requires var d, h := DeltaStart(c, r, n), AddedMark(a, b, DeltaStart(c, r, n), n, later, |entries|);
             (a == b || d <= b || d == n) && Remainder(rest, s, entries, later, h) && NoGap(h, later)
    ensures c' >= c
    ensures Synced(Restarted(e, ids, places, configs, warm, streams, log, rest), CheckpointAfter(ids, streams, log, rest),
                   s, entries, cfg, FirstBar(a, b, DeltaStart(c, r, n), n, later, |entries|), |entries|, c')
  {
    hide NoGap, HighWater, Restarted, CheckpointAfter, Follows, OwnEntries, Eng.SlotOf, RunSlot, Holds;
    RestartAddedTheorem(e, ids, places, configs, s, entries, cfg, c, warm, a, b, streams, log, r, n, rest, later);
    c' := CheckpointMovesOn(ids, s, entries, c, streams, log, r, n, rest, later);
  }

  lemma ThreeFeeds(e: Eng, a: seq<Candle>, b: seq<Candle>, c: seq<Candle>, s: Stream, cfg: Cfg)
    requires e.Valid() && e.Has(s.tf, cfg) && PositiveTimes(a) && PositiveTimes(b) && PositiveTimes(c)
    ensures Positive(Project(a, s.tf, s.key)) && Positive(Project(b, s.tf, s.key)) && Positive(Project(c, s.tf, s.key))
    ensures Feed(Feed(Feed(e, a), b), c).SlotOf(s.tf, s.key, cfg) ==
            FeedSlot(FeedSlot(FeedSlot(e.SlotOf(s.tf, s.key, cfg), Project(a, s.tf, s.key)),
                              Project(b, s.tf, s.key)), Project(c, s.tf, s.key))
  {
    hide FeedSlot, Feed, Project, Eng.SlotOf;
    FeedIsPerSlot(e, a, s.tf, s.key, cfg);
    FeedIsPerSlot(Feed(e, a), b, s.tf, s.key, cfg);
    FeedIsPerSlot(Feed(Feed(e, a), b), c, s.tf, s.key, cfg);
  }

  // ----- The service object over a restart -----

  /** Each read is of its own timeframe. */
  ghost predicate OwnReads(reader: Reader, configs: seq<TfCfg>, n: nat) {
    forall i :: 0 <= i < |configs| ==> ReadIsOwn(reader, configs[i].tf, n)
  }

  ghost predicate ReadIsOwn(reader: Reader, tf: int, n: nat) {
    var r := reader(tf, n); r.Some? ==> forall c :: c in r.value ==> c.tf == tf
  }

  /** The warm-up of one stream is what the read of its timeframe holds for its token, nothing when that read failed. */
  lemma {:induction false} WarmUpOfStream(configs: seq<TfCfg>, reader: Reader, n: nat, s: Stream)
    requires OwnReads(reader, configs, n) && forall i, j :: 0 <= i < j < |configs| ==> configs[i].tf != configs[j].tf
    ensures Project(WarmUp(configs, reader, n), s.tf, s.key) ==
            var r := reader(s.tf, n);
            if r.Some? && (exists i :: 0 <= i < |configs| && configs[i].tf == s.tf) then Project(r.value, s.tf, s.key) else []
  {
    hide Project;
    if configs == [] {
      ProjectNone([], s);
    } else {
      var init, last := configs[..|configs| - 1], configs[|configs| - 1];
      var r := reader(last.tf, n);
      var read := if r.Some? then r.value else [];
      assert forall i :: 0 <= i < |init| ==> init[i] == configs[i];
      WarmUpOfStream(init, reader, n, s);
      ProjectAppend(WarmUp(init, reader, n), read, s.tf, s.key);
      assert ReadIsOwn(reader, configs[|configs| - 1].tf, n);
      if last.tf != s.tf || r.None? { ProjectNone(read, s); }
      if last.tf == s.tf { assert configs[|configs| - 1].tf == s.tf; }
    }
  }

  lemma {:induction false} ProjectNone(cs: seq<Candle>, s: Stream)
    requires forall c :: c in cs ==> c.tf != s.tf
    ensures Project(cs, s.tf, s.key) == []
  {
    if cs != [] { ProjectNone(cs[1..], s); }
  }

  /** What RestoreEngine warms up with. */
  function WarmOf(configs: seq<TfCfg>, reader: Option<Reader>): seq<Candle> {
    if reader.None? || MaxPeriod(configs) == 0 then [] else WarmUp(configs, reader.value, MaxPeriod(configs))
  }

  /** SQLite holds the stream's first b entries, and a read returns each token's latest as many as asked for; b is 0 without a
      reader or when the read fails. */
  ghost predicate Stores(reader: Option<Reader>, configs: seq<TfCfg>, s: Stream, entries: seq<Candle>, b: nat) {
    var n := MaxPeriod(configs);
    && b <= |entries|
    && (reader.Some? ==> ValidReader(reader.value, configs, n) && OwnReads(reader.value, configs, n))
    && (if reader.Some? && reader.value(s.tf, n).Some?
        then Project(reader.value(s.tf, n).value, s.tf, s.key) == Bars(entries)[Max(0, b - n)..b] else b == 0)
  }

  lemma WarmOfStream(reader: Option<Reader>, configs: seq<TfCfg>, s: Stream, entries: seq<Candle>, cfg: Cfg, b: nat)
    requires ValidConfigs(configs) && NewEng(configs).Has(s.tf, cfg) && Stores(reader, configs, s, entries, b)
    ensures MaxPeriod(configs) >= 1 && PositiveTimes(WarmOf(configs, reader))
    ensures Project(WarmOf(configs, reader), s.tf, s.key) == Bars(entries)[Max(0, b - MaxPeriod(configs))..b]
  {
    hide MaxPeriod, WarmUp, Project, NewEng, ValidReader, OwnReads;
    HasMeans(configs, s, cfg);
    MaxPeriodIs(configs);
    if reader.Some? {
      WarmUpOfStream(configs, reader.value, MaxPeriod(configs), s);
    } else {
      ProjectNone([], s);
    }
  }

  lemma HasMeans(configs: seq<TfCfg>, s: Stream, cfg: Cfg)
    requires ValidConfigs(configs) && NewEng(configs).Has(s.tf, cfg)
    ensures AnyInd(configs, cfg) && cfg.period >= 1 && exists i :: 0 <= i < |configs| && configs[i].tf == s.tf
  {
    var i := NewEng(configs).tfIndex[s.tf];
    assert cfg in configs[i].inds;
  }

  /** The order in which Run brings a service up: restore, warm up, catch up, then consume. */
  method BringUp(svc: Service, configs: seq<TfCfg>, saved: EngineSnap, reader: Option<Reader>, log: Log, rest: seq<Candle>,
                 ghost e: Eng, ghost places: seq<Place>)
    requires svc.Valid() && svc.lastProcessed == map[] && ValidConfigs(configs)
    requires e.Valid() && SnapshotOf(saved, e, places) && OwnEntries(log) && PositiveTimes(rest)
    requires reader.Some? ==> ValidReader(reader.value, configs, MaxPeriod(configs))
    requires forall x :: x in rest ==> !x.forming
    modifies svc`engine, svc`lastProcessed
    ensures svc.Valid() && PositiveTimes(WarmOf(configs, reader))
    ensures svc.engine.View() == Restarted(e, saved.streamIds, places, configs, WarmOf(configs, reader), svc.streams, log, rest)
    ensures svc.lastProcessed == CheckpointAfter(saved.streamIds, svc.streams, log, rest)
  {
    hide RestoreAll, SnapAll, Delta, OwnEntries, Feed, MarkAll, MaxPeriod, WarmUp, ValidReader, ValidSnap, ValidConfigs, Covers;
    SnapshotValid(saved, e, places);
    LogPositive(log);
    svc.RestoreEngine(configs, Some(saved), reader);
    FeedNothing(RestoreAll(NewEng(configs), saved.tokens));
    assert svc.lastProcessed == saved.streamIds;
    svc.CatchUp(Some(saved), log);
    svc.ApplyAll(rest);
  }

  /** What the object then holds of any stream is exact, and in step with its checkpoint, if and only if nothing jumped over a
      candle; the warm-up window is the largest configured period. */
  method RunService(svc: Service, configs: seq<TfCfg>, saved: EngineSnap, reader: Option<Reader>, log: Log, rest: seq<Candle>,
                    ghost e: Eng, ghost places: seq<Place>, ghost s: Stream, ghost entries: seq<Candle>, ghost cfg: Cfg,
                    ghost z: nat, ghost k: nat, ghost c: nat, ghost b: nat, ghost r: nat, ghost n: nat, ghost later: seq<nat>)
    returns (ghost c': nat)
    requires svc.Valid() && svc.lastProcessed == map[] && ValidConfigs(configs) && NewEng(configs).Has(s.tf, cfg)
    requires Synced(e, saved.streamIds, s, entries, cfg, z, k, c) && SnapshotOf(saved, e, places)
    requires Stores(reader, configs, s, entries, b) && Retains(s, entries, svc.streams, log, r, n)
    requires Begins(z, k, FirstBar(Max(0, b - MaxPeriod(configs)), b, DeltaStart(c, r, n), n, later, |entries|))
    requires Remainder(rest, s, entries, later, ReplayMark(WarmMark(k, Max(0, b - MaxPeriod(configs)), b), r, n))
    requires forall x :: x in rest ==> !x.forming
    modifies svc`engine, svc`lastProcessed
    ensures svc.Valid() && svc.engine.View().Has(s.tf, cfg) && cfg.period >= 1
    ensures var a := Max(0, b - MaxPeriod(configs));
            Synced(svc.engine.View(), svc.lastProcessed, s, entries, cfg, z, |entries|, c')
            <==> NoJump(k, a, b, r, n) && NoGap(ReplayMark(WarmMark(k, a, b), r, n), later)
    ensures CheckpointAt(svc.lastProcessed, s, entries, c') && c' >= c
  {
    hide NoGap, HighWater, RestoreAll, SnapAll, Delta, Follows, OwnEntries, Eng.SlotOf, Feed, MarkAll, Synced, Holds, MaxPeriod,
         Stores, WarmOf, StreamLog, NoJump, RunSlot, Restarted, CheckpointAfter, ValidReader;
    ghost var a := Max(0, b - MaxPeriod(configs));
    SyncedMeans(e, saved.streamIds, s, entries, cfg, z, k, c);
    WarmOfStream(reader, configs, s, entries, cfg, b);
    StoresReads(reader, configs, s, entries, b);
    BringUp(svc, configs, saved, reader, log, rest, e, places);
    RestartTheorem(e, saved.streamIds, places, configs, s, entries, cfg, z, k, c, WarmOf(configs, reader), a, b,
                   svc.streams, log, r, n, rest, later);
    c' := CheckpointMovesOn(saved.streamIds, s, entries, c, svc.streams, log, r, n, rest, later);
    SyncedIs(svc.engine.View(), svc.lastProcessed, s, entries, cfg, z, |entries|, c');
  }

  lemma SyncedMeans(e: Eng, ids: map<Stream, StreamId>, s: Stream, entries: seq<Candle>, cfg: Cfg, z: nat, k: nat, c: nat)
    requires Synced(e, ids, s, entries, cfg, z, k, c)
    ensures e.Valid() && StreamLog(entries, s) && CheckpointAt(ids, s, entries, c) && cfg.period >= 1
  {
  }

  lemma SyncedIs(e: Eng, ids: map<Stream, StreamId>, s: Stream, entries: seq<Candle>, cfg: Cfg, z: nat, k: nat, c: nat)
    requires e.Valid() && e.Has(s.tf, cfg) && cfg.period >= 1 && StreamLog(entries, s) && CheckpointAt(ids, s, entries, c) && c <= k
    ensures Synced(e, ids, s, entries, cfg, z, k, c) <==> Holds(e, s, entries, cfg, z, k)
  {
  }

  lemma StoresReads(reader: Option<Reader>, configs: seq<TfCfg>, s: Stream, entries: seq<Candle>, b: nat)
    requires Stores(reader, configs, s, entries, b)
    ensures b <= |entries| && (reader.Some? ==> ValidReader(reader.value, configs, MaxPeriod(configs)))
  {
  }

  lemma SnapshotValid(saved: EngineSnap, e: Eng, places: seq<Place>)
    requires e.Valid() && SnapshotOf(saved, e, places)
    ensures forall t :: t in saved.tokens ==> ValidSnap(t)
  {
  }

  lemma LogPositive(log: Log)
    requires OwnEntries(log)
    ensures ValidLog(log)
  {
  }

  // ----- Reload -----

  /** The service after a reload with its replay, fed the rest. */
  ghost function Reloaded(e: Eng, configs: seq<TfCfg>, streams: seq<Stream>, log: Log, rest: seq<Candle>): (final: Eng)
    requires e.Valid() && ValidConfigs(configs) && OwnEntries(log) && PositiveTimes(rest)
    ensures final.Valid() && final.configs == Reload(e, configs).configs && final.tfIndex == Reload(e, configs).tfIndex
  {
    DeltaPositive(streams, log, map[]);
    Feed(Feed(Reload(e, configs), Delta(streams, log, map[])), rest)
  }

  /** Reload of the service while the stream's entries r..n are still in Redis. An indicator of the new configs the
      engine already ran ends as if no reload had happened, exactly when Redis still holds the first entry it lacks
      or replays none; an added indicator ends as if configured from entry r on, or from the first live one. */
  lemma ReloadTheorem(e: Eng, configs: seq<TfCfg>, s: Stream, entries: seq<Candle>, cfg: Cfg, z: nat, k: nat, r: nat, n: nat,
                      streams: seq<Stream>, log: Log, rest: seq<Candle>, later: seq<nat>)
    requires StreamLog(entries, s) && e.Valid() && ValidConfigs(configs) && Reload(e, configs).Has(s.tf, cfg) && cfg.period >= 1
    requires Retains(s, entries, streams, log, r, n)
    requires e.Has(s.tf, cfg) ==> Holds(e, s, entries, cfg, z, k) && Begins(z, k, FirstBar(0, 0, r, n, later, |entries|))
    requires Remainder(rest, s, entries, later,
                       if e.Has(s.tf, cfg) then ReplayMark(k, r, n) else AddedMark(0, 0, r, n, later, |entries|))
    ensures var final := Reloaded(e, configs, streams, log, rest);
            if e.Has(s.tf, cfg) then
              Holds(final, s, entries, cfg, z, |entries|) <==> (r <= k || r == n) && NoGap(ReplayMark(k, r, n), later)
            else
              Holds(final, s, entries, cfg, FirstBar(0, 0, r, n, later, |entries|), |entries|)
              <==> NoGap(AddedMark(0, 0, r, n, later, |entries|), later)
  {
    hide FeedSlot, RunSlot, NoGap, HighWater, Reload, Reloaded, Follows, OwnEntries, Eng.SlotOf, Begins, StreamLog;
    var bars, start := Bars(entries), FirstBar(0, 0, r, n, later, |entries|);
    BarsOrdered(entries, s);
    ReloadSlot(e, configs, s.tf, s.key, cfg);
    ReloadedSlot(e, configs, s, entries, cfg, streams, log, r, n, rest, later);
    if e.Has(s.tf, cfg) {
      ReloadKept(cfg, bars, z, k, r, n, later);
      assert bars[z..|entries|] == bars[z..];
    } else {
      ReloadAdded(cfg, bars, r, n, later);
      assert bars[start..|entries|] == bars[start..];
    }
  }

  /** What the slot is fed in the course of a reload. */
  lemma ReloadedSlot(e: Eng, configs: seq<TfCfg>, s: Stream, entries: seq<Candle>, cfg: Cfg,
                     streams: seq<Stream>, log: Log, r: nat, n: nat, rest: seq<Candle>, later: seq<nat>)
    requires StreamLog(entries, s) && e.Valid() && ValidConfigs(configs) && Reload(e, configs).Has(s.tf, cfg)
    requires Retains(s, entries, streams, log, r, n) && PositiveTimes(rest) && Follows(rest, s, entries, later)
    ensures Within(later, |entries|) && Positive(Bars(entries))
    ensures Reloaded(e, configs, streams, log, rest).SlotOf(s.tf, s.key, cfg) ==
            FeedSlot(FeedSlot(Reload(e, configs).SlotOf(s.tf, s.key, cfg), Bars(entries)[r..n]), Pick(Bars(entries), later))
  {
    hide FeedSlot, Feed, Reload, Delta, Project, Follows, OwnEntries, Eng.SlotOf;
    BarsOrdered(entries, s);
    var reloaded := Reload(e, configs);
    DeltaBars(streams, log, map[], s, entries, 0, r, n);
    FeedIsPerSlot(reloaded, Delta(streams, log, map[]), s.tf, s.key, cfg);
    FollowsProject(rest, s, entries, later);
    FeedIsPerSlot(Feed(reloaded, Delta(streams, log, map[])), rest, s.tf, s.key, cfg);
  }

  /** A reload, with or without its replay, leaves a kept indicator in step with the checkpoint unless Redis lacks a
      candle it has not applied. */
  lemma ReloadKeepsSynced(e: Eng, ids: map<Stream, StreamId>, configs: seq<TfCfg>, s: Stream, entries: seq<Candle>, cfg: Cfg,
                          z: nat, k: nat, c: nat, streams: seq<Stream>, log: Log, r: nat, n: nat) returns (c': nat)
    requires Synced(e, ids, s, entries, cfg, z, k, c) && ValidConfigs(configs) && Reload(e, configs).Has(s.tf, cfg)
    requires Retains(s, entries, streams, log, r, n) && (r <= k || r == n) && Starts(z, k, Range(r, n))
    ensures Synced(Reload(e, configs), ids, s, entries, cfg, z, k, c)
    ensures PositiveTimes(Delta(streams, log, map[])) && c' >= c
    ensures Synced(Feed(Reload(e, configs), Delta(streams, log, map[])), MarkAll(ids, Delta(streams, log, map[])),
                   s, entries, cfg, z, ReplayMark(k, r, n), c')
  {
    hide RunSlot, NoGap, HighWater, Feed, Reload, Delta, Follows, OwnEntries, MarkAll, Eng.SlotOf;
    ReloadSlot(e, configs, s.tf, s.key, cfg);
    DeltaPositive(streams, log, map[]);
    DeltaOfStream(streams, log, map[], s, entries, 0, r, n);
    RangeSchedule(k, r, n);
    c' := LiveKeepsSynced(Reload(e, configs), ids, s, entries, cfg, z, k, c, Delta(streams, log, map[]), Range(r, n));
  }

  /** The service object over a reload: an indicator kept stays in step with the object's checkpoint, replayed or not, and one
      added is fed what Redis still holds, since adding it makes the reload replay. */
  method ReloadService(svc: Service, configs: seq<TfCfg>, log: Log, ghost s: Stream, ghost entries: seq<Candle>, ghost cfg: Cfg,
                       ghost z: nat, ghost k: nat, ghost c: nat, ghost r: nat, ghost n: nat)
    returns (ghost z': nat, ghost k': nat, ghost c': nat)
    requires svc.Valid() && ValidConfigs(configs) && Reload(svc.engine.View(), configs).Has(s.tf, cfg) && cfg.period >= 1
    requires StreamLog(entries, s) && CheckpointAt(svc.lastProcessed, s, entries, c) && c <= |entries|
    requires Retains(s, entries, svc.streams, log, r, n)
    requires var e := svc.engine.View();
             if e.Has(s.tf, cfg)
             then Synced(e, svc.lastProcessed, s, entries, cfg, z, k, c) && (r <= k || r == n) && Starts(z, k, Range(r, n))
             else r < n
    modifies svc.engine, svc`lastProcessed
    ensures svc.Valid() && svc.engine.View().Has(s.tf, cfg)
    ensures if old(svc.engine.View().Has(s.tf, cfg))
            then z' == z && k' in {k, ReplayMark(k, r, n)} && c' >= c
                 && Synced(svc.engine.View(), svc.lastProcessed, s, entries, cfg, z', k', c')
            else z' == r && k' == n && Holds(svc.engine.View(), s, entries, cfg, z', k')
                 && CheckpointAt(svc.lastProcessed, s, entries, c') && c' >= c
  {
    hide NoGap, HighWater, Reload, Delta, Follows, OwnEntries, Eng.SlotOf, Feed, MarkAll, StreamLog, RunSlot, Recreated, Synced, Holds;
    ghost var e, ids := svc.engine.View(), svc.lastProcessed;
    LogPositive(log);
    ReloadDelivers(e, ids, configs, s, entries, cfg, c, svc.streams, log, r, n);
    var preserved, created := svc.ReloadLocked(configs, log);
    z', k', c' := z, k, c;
    if e.Has(s.tf, cfg) {
      ghost var c1 := ReloadKeepsSynced(e, ids, configs, s, entries, cfg, z, k, c, svc.streams, log, r, n);
      if created > 0 {
        k', c' := ReplayMark(k, r, n), c1;
      }
    } else {
      AddedReplays(e, configs, s, cfg);
      z', k' := r, n;
      c' := DeltaMovesOn(ids, s, entries, c, svc.streams, log, r, n);
    }
  }

  /** A reload that adds an indicator counts its timeframe as created. */
  lemma AddedReplays(e: Eng, configs: seq<TfCfg>, s: Stream, cfg: Cfg)
    requires e.Valid() && ValidConfigs(configs) && Reload(e, configs).Has(s.tf, cfg) && !e.Has(s.tf, cfg)
    ensures exists i :: 0 <= i < |configs| && Recreated(e, configs[i])
  {
    var i := Reload(e, configs).tfIndex[s.tf];
    assert configs[i].tf == s.tf && cfg in configs[i].inds;
    RecreatedMeans(e, configs[i]);
  }

  /** The replay after a reload feeds an added indicator the retained entries. */
  lemma ReloadDelivers(e: Eng, ids: map<Stream, StreamId>, configs: seq<TfCfg>, s: Stream, entries: seq<Candle>, cfg: Cfg, c: nat,
                       streams: seq<Stream>, log: Log, r: nat, n: nat)
    requires StreamLog(entries, s) && e.Valid() && ValidConfigs(configs) && Reload(e, configs).Has(s.tf, cfg) && cfg.period >= 1
    requires Retains(s, entries, streams, log, r, n)
    ensures PositiveTimes(Delta(streams, log, map[]))
    ensures !e.Has(s.tf, cfg) ==> Holds(Feed(Reload(e, configs), Delta(streams, log, map[])), s, entries, cfg, r, n)
  {
    hide FeedSlot, Feed, Reload, Delta, Project, Eng.SlotOf, OwnEntries;
    BarsOrdered(entries, s);
    DeltaBars(streams, log, map[], s, entries, 0, r, n);
    ReloadSlot(e, configs, s.tf, s.key, cfg);
    FeedIsPerSlot(Reload(e, configs), Delta(streams, log, map[]), s.tf, s.key, cfg);
  }

  lemma DeltaMovesOn(ids: map<Stream, StreamId>, s: Stream, entries: seq<Candle>, c: nat, streams: seq<Stream>, log: Log, r: nat, n: nat)
    returns (c': nat)
    requires StreamLog(entries, s) && CheckpointAt(ids, s, entries, c) && Retains(s, entries, streams, log, r, n)
    ensures c <= c' && CheckpointAt(MarkAll(ids, Delta(streams, log, map[])), s, entries, c')
  {
    hide NoGap, HighWater, Delta, Follows, OwnEntries, MarkAll;
    DeltaOfStream(streams, log, map[], s, entries, 0, r, n);
    c' := CheckpointFollows(ids, s, entries, |entries|, c, Delta(streams, log, map[]), Range(r, n));
  }
}
