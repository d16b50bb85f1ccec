/** Engine snapshots, restore by Type+Period, and config reload. */
module EngineSnapshot {
  import opened Common
  import opened Indicators
  import opened IndicatorEngine

  /** Indicator states of one token; exchange is "" when the key has no ':'. */
  datatype TokenSnap = TokenSnap(tf: int, exchange: string, token: string, inds: seq<IndSnap>)

  /** Position of the first ':' of a token key, |key| when none. */
  function Colon(key: string): (i: nat)
    ensures i <= |key| && (forall j :: 0 <= j < i ==> key[j] != ':') && (i < |key| ==> key[i] == ':')
  {
    if key == [] || key[0] == ':' then 0 else 1 + Colon(key[1..])
  }

  function SplitKey(key: string): (string, string) {
    var i := Colon(key);
    if i == 0 || i == |key| then ("", key) else (key[..i], key[i + 1..])
  }

  function JoinKey(exchange: string, token: string): string {
    if exchange == "" then token else exchange + ":" + token
  }

  /** Every key survives the split, with or without an exchange. */
  lemma JoinSplit(key: string)
    ensures JoinKey(SplitKey(key).0, SplitKey(key).1) == key
  {
    var i := Colon(key);
    if 0 < i < |key| {
      assert key == key[..i] + ":" + key[i + 1..];
    }
  }

  function SnapSlot(s: Slot): (snap: IndSnap)
    requires s.Valid()
    ensures snap.Valid() && snap.Key() == s.ind.Key()
  {
    Snapshot(s.ind).(lastTS := if s.last.Some? then s.last.value else 0)
  }

  function RestoreSlot(snap: IndSnap): (s: Slot)
    requires snap.Valid()
    ensures s.Valid() && s.ind.Key() == snap.Key()
  {
    Slot(Restore(snap), if snap.lastTS > 0 then Some(snap.lastTS) else None)
  }

  /** State and gate both survive the round trip: bucket times are positive, so 0 can mean none. */
  lemma RestoreSnapSlot(s: Slot)
    requires s.Valid()
    ensures RestoreSlot(SnapSlot(s)) == s
  {
    RestoreSnapshot(s.ind);
    assert Restore(SnapSlot(s)) == Restore(Snapshot(s.ind));
  }

  function SnapToken(tf: int, key: string, ti: TokenInds, inds: seq<Cfg>): (t: TokenSnap)
    requires ValidToken(ti, inds)
    ensures ValidSnap(t) && t.tf == tf && JoinKey(t.exchange, t.token) == key
    ensures |t.inds| == |ti.slots| && forall i :: 0 <= i < |ti.slots| ==> t.inds[i] == SnapSlot(ti.slots[i])
  {
    JoinSplit(key);
    TokenSnap(tf, SplitKey(key).0, SplitKey(key).1,
              seq(|ti.slots|, i requires 0 <= i < |ti.slots| => SnapSlot(ti.slots[i])))
  }

  predicate ValidSnap(t: TokenSnap) {
    forall i :: 0 <= i < |t.inds| ==> t.inds[i].Valid()
  }

  /** Snapshots by Type+Period; a later duplicate replaces an earlier one. */
  function Lookup(inds: seq<IndSnap>): (m: map<Cfg, IndSnap>)
    requires forall i :: 0 <= i < |inds| ==> inds[i].Valid()
    ensures forall c :: c in m ==> m[c].Valid() && m[c].Key() == c
  {
    if inds == [] then map[]
    else var last := inds[|inds| - 1]; Lookup(inds[..|inds| - 1])[last.Key() := last]
  }

  lemma {:induction false} LookupDistinct(inds: seq<IndSnap>, i: nat)
    requires forall j :: 0 <= j < |inds| ==> inds[j].Valid()
    requires forall j, l :: 0 <= j < l < |inds| ==> inds[j].Key() != inds[l].Key()
    requires i < |inds|
    ensures inds[i].Key() in Lookup(inds) && Lookup(inds)[inds[i].Key()] == inds[i]
  {
    if i < |inds| - 1 {
      LookupDistinct(inds[..|inds| - 1], i);
    }
  }

  lemma {:induction false} LookupKeys(inds: seq<IndSnap>, c: Cfg)
    requires forall j :: 0 <= j < |inds| ==> inds[j].Valid()
    ensures c in Lookup(inds) ==> exists j :: 0 <= j < |inds| && inds[j].Key() == c
  {
    if inds != [] {
      LookupKeys(inds[..|inds| - 1], c);
    }
  }

  /** Indicators found in the snapshot take its state, the others start fresh. */
  function RestoreToken(inds: seq<Cfg>, t: TokenSnap): (ti: TokenInds)
    requires ValidInds(inds) && ValidSnap(t)
    ensures ValidToken(ti, inds) && ti.cfgs == inds
  {
    var found := Lookup(t.inds);
    TokenInds(inds, seq(|inds|, i requires 0 <= i < |inds| =>
      if inds[i] in found then RestoreSlot(found[inds[i]]) else FreshSlot(inds[i])))
  }

  function RestoreOne(e: Eng, t: TokenSnap): (next: Eng)
    requires e.Valid() && ValidSnap(t)
    ensures next.Valid() && next.configs == e.configs && next.tfIndex == e.tfIndex
  {
    if t.tf !in e.tfIndex then e
    else
      var i := e.tfIndex[t.tf];
      e.(state := e.state[i := e.state[i][JoinKey(t.exchange, t.token) := RestoreToken(e.configs[i].inds, t)]])
  }

  function RestoreAll(e: Eng, tokens: seq<TokenSnap>): (next: Eng)
    requires e.Valid() && forall t :: t in tokens ==> ValidSnap(t)
    ensures next.Valid() && next.configs == e.configs && next.tfIndex == e.tfIndex
    decreases |tokens|
  {
    if tokens == [] then e else RestoreOne(RestoreAll(e, tokens[..|tokens| - 1]), tokens[|tokens| - 1])
  }

  /** A map position of the engine: timeframe index and token key. */
  type Place = (nat, string)

  /** places lists every token of the engine once, in some order. */
  predicate Covers(e: Eng, places: seq<Place>) {
    && Distinct(places)
    && (forall p :: p in places ==> p.0 < |e.state| && p.1 in e.state[p.0])
    && (forall i :: 0 <= i < |e.state| ==> forall key :: key in e.state[i] ==> (i, key) in places)
  }

  function SnapAll(e: Eng, places: seq<Place>): (tokens: seq<TokenSnap>)
    requires e.Valid() && forall p :: p in places ==> p.0 < |e.state| && p.1 in e.state[p.0]
    ensures |tokens| == |places|
    ensures forall t :: t in tokens ==> ValidSnap(t)
    ensures forall j :: 0 <= j < |places| ==> tokens[j] == SnapPlace(e, places[j])
  {
    seq(|places|, j requires 0 <= j < |places| => assert places[j] in places; SnapPlace(e, places[j]))
  }

  function SnapPlace(e: Eng, p: Place): (t: TokenSnap)
    requires e.Valid() && p.0 < |e.state| && p.1 in e.state[p.0]
    ensures ValidSnap(t)
  {
    SnapToken(e.configs[p.0].tf, p.1, e.state[p.0][p.1], e.configs[p.0].inds)
  }

  lemma RestoreTokenSlot(inds: seq<Cfg>, ti: TokenInds, was: seq<Cfg>, tf: int, key: string, cfg: Cfg)
    requires ValidInds(inds) && ValidToken(ti, was) && cfg in inds
    ensures var back := RestoreToken(inds, SnapToken(tf, key, ti, was));
            back.slots[IndexOf(back.cfgs, cfg)] ==
            if cfg in was then ti.slots[IndexOf(ti.cfgs, cfg)] else FreshSlot(cfg)
  {
    hide RestoreSlot, SnapSlot;
    var t := SnapToken(tf, key, ti, was);
    forall j, l | 0 <= j < l < |t.inds| ensures t.inds[j].Key() != t.inds[l].Key() {
      assert ti.cfgs[j] != ti.cfgs[l];
    }
    if cfg in was {
      var i := IndexOf(ti.cfgs, cfg);
      LookupDistinct(t.inds, i);
      RestoreSnapSlot(ti.slots[i]);
    } else {
      LookupKeys(t.inds, cfg);
    }
  }

  /** Restoring any snapshot of e under any new configs: every indicator both configs have keeps its state and
      gate, every other one is fresh, for every timeframe and token. */
  lemma RestoreRoundTrip(e: Eng, places: seq<Place>, configs: seq<TfCfg>, tf: int, key: string, cfg: Cfg)
    requires e.Valid() && Covers(e, places) && ValidConfigs(configs)
    requires NewEng(configs).Has(tf, cfg)
    ensures RestoreAll(NewEng(configs), SnapAll(e, places)).SlotOf(tf, key, cfg) ==
            if e.Has(tf, cfg) then e.SlotOf(tf, key, cfg) else FreshSlot(cfg)
  {
    hide RestoreAll, RestoreToken, SnapToken, NewEng, Eng.SlotOf, ValidToken, LastFor, SnapAll;
    var blank := NewEng(configs);
    RestoreAllSlot(blank, SnapAll(e, places), tf, key, cfg);
    FreshEverywhere(configs, tf, key, cfg);
    LastOfSnapshot(e, places, tf, key);
    if tf in e.tfIndex {
      var i := e.tfIndex[tf];
      if key in e.state[i] {
        RestoreTokenSlot(blank.configs[blank.tfIndex[tf]].inds, e.state[i][key], e.configs[i].inds, tf, key, cfg);
        if e.Has(tf, cfg) { SlotAt(e, i, key, cfg); }
      } else if e.Has(tf, cfg) {
        SlotUnseen(e, tf, key, cfg);
      }
    }
  }

  /** The last snapshot of a token in a list, the one a restore leaves in place. */
  function LastFor(tokens: seq<TokenSnap>, tf: int, key: string): Option<TokenSnap> {
    if tokens == [] then None
    else
      var t := tokens[|tokens| - 1];
      if t.tf == tf && JoinKey(t.exchange, t.token) == key then Some(t) else LastFor(tokens[..|tokens| - 1], tf, key)
  }

  lemma {:induction false} LastForValid(tokens: seq<TokenSnap>, tf: int, key: string)
    requires forall t :: t in tokens ==> ValidSnap(t)
    ensures LastFor(tokens, tf, key).Some? ==> ValidSnap(LastFor(tokens, tf, key).value)
  {
    if tokens != [] {
      LastForValid(tokens[..|tokens| - 1], tf, key);
    }
  }

  lemma {:induction false} RestoreAllSlot(e: Eng, tokens: seq<TokenSnap>, tf: int, key: string, cfg: Cfg)
    requires e.Valid() && e.Has(tf, cfg) && forall t :: t in tokens ==> ValidSnap(t)
    ensures var last, inds := LastFor(tokens, tf, key), e.configs[e.tfIndex[tf]].inds;
            && (last.Some? ==> ValidSnap(last.value))
            && RestoreAll(e, tokens).SlotOf(tf, key, cfg) ==
               if last.Some? then RestoreToken(inds, last.value).slots[IndexOf(inds, cfg)] else e.SlotOf(tf, key, cfg)
  {
    hide RestoreToken, RestoreOne, Eng.SlotOf, ValidToken, ValidSnap, Distinct, JoinKey;
    LastForValid(tokens, tf, key);
    if tokens != [] {
      var init := tokens[..|tokens| - 1];
      RestoreAllSlot(e, init, tf, key, cfg);
      RestoreOneSlot(RestoreAll(e, init), tokens[|tokens| - 1], tf, key, cfg);
    }
  }

  /** A snapshot of e lists a token exactly when e has it, and then with its state. */
  lemma LastOfSnapshot(e: Eng, places: seq<Place>, tf: int, key: string)
    requires e.Valid() && Covers(e, places)
    ensures LastFor(SnapAll(e, places), tf, key) ==
            if tf in e.tfIndex && key in e.state[e.tfIndex[tf]]
            then Some(SnapToken(tf, key, e.state[e.tfIndex[tf]][key], e.configs[e.tfIndex[tf]].inds)) else None
  {
    hide SnapToken, ValidToken, ValidConfigs, Distinct, LastFor, ValidSnap;
    LastOfPrefix(e, places, tf, key, |places|);
    assert SnapAll(e, places)[..|places|] == SnapAll(e, places) && places[..|places|] == places;
  }

  lemma {:induction false} LastOfPrefix(e: Eng, places: seq<Place>, tf: int, key: string, n: nat)
    requires e.Valid() && Covers(e, places) && n <= |places|
    ensures LastFor(SnapAll(e, places)[..n], tf, key) ==
            if tf in e.tfIndex && (e.tfIndex[tf], key) in places[..n] then Some(SnapPlace(e, (e.tfIndex[tf], key))) else None
  {
    hide JoinKey, ValidToken, ValidSnap, SnapSlot;
    if n > 0 {
      LastOfPrefix(e, places, tf, key, n - 1);
      assert SnapAll(e, places)[..n][..n - 1] == SnapAll(e, places)[..n - 1];
      PlaceIs(e, places, n - 1, tf, key);
    }
  }

  lemma SlotUnseen(e: Eng, tf: int, key: string, cfg: Cfg)
    requires e.Valid() && e.Has(tf, cfg) && key !in e.state[e.tfIndex[tf]]
    ensures e.SlotOf(tf, key, cfg) == FreshSlot(cfg)
  {
  }

  lemma FreshEverywhere(configs: seq<TfCfg>, tf: int, key: string, cfg: Cfg)
    requires ValidConfigs(configs) && NewEng(configs).Has(tf, cfg)
    ensures NewEng(configs).SlotOf(tf, key, cfg) == FreshSlot(cfg)
  {
  }

  lemma SlotAt(e: Eng, i: nat, key: string, cfg: Cfg)
    requires e.Valid() && i < |e.state| && key in e.state[i] && cfg in e.configs[i].inds
    ensures e.Has(e.configs[i].tf, cfg)
    ensures e.SlotOf(e.configs[i].tf, key, cfg) == e.state[i][key].slots[IndexOf(e.state[i][key].cfgs, cfg)]
  {
  }

  lemma RestoreOneSlot(e: Eng, t: TokenSnap, tf: int, key: string, cfg: Cfg)
    requires e.Valid() && ValidSnap(t) && e.Has(tf, cfg)
    ensures var inds := e.configs[e.tfIndex[tf]].inds;
            RestoreOne(e, t).SlotOf(tf, key, cfg) ==
            if t.tf == tf && JoinKey(t.exchange, t.token) == key
            then RestoreToken(inds, t).slots[IndexOf(inds, cfg)] else e.SlotOf(tf, key, cfg)
  {
    hide JoinKey, ValidSnap, Lookup, RestoreSlot;
  }

  /** Place n is the place of (tf, key) just when its timeframe and key say so. */
  lemma PlaceIs(e: Eng, places: seq<Place>, n: nat, tf: int, key: string)
    requires e.Valid() && Covers(e, places) && n < |places|
    ensures var p := places[n];
            && p.0 < |e.state| && p.1 in e.state[p.0]
            && ((e.configs[p.0].tf == tf && p.1 == key) <==> (tf in e.tfIndex && p == (e.tfIndex[tf], key)))
            && p !in places[..n]
            && (forall q :: q in places[..n + 1] <==> q in places[..n] || q == p)
  {
    var p := places[n];
    assert p in places;
    TfUnique(e, p.0);
    assert places[..n + 1] == places[..n] + [p];
  }

  lemma TfUnique(e: Eng, i: nat)
    requires e.Valid() && i < |e.configs|
    ensures e.configs[i].tf in e.tfIndex && e.tfIndex[e.configs[i].tf] == i
  {
  }

  // ----- Reload -----

  /** Same length and every new entry among the old ones. */
  predicate IndicatorSetsEqual(a: seq<Cfg>, b: seq<Cfg>) {
    |a| == |b| && forall i :: 0 <= i < |b| ==> b[i] in a
  }

  /** Without duplicates the one-sided test is set equality. */
  lemma SetsEqualIsSetEquality(a: seq<Cfg>, b: seq<Cfg>)
    requires Distinct(a) && Distinct(b)
    ensures IndicatorSetsEqual(a, b) <==> (forall c :: c in a <==> c in b)
  {
    var sa, sb := set c | c in a, set c | c in b;
    DistinctSize(a);
    DistinctSize(b);
    if IndicatorSetsEqual(a, b) {
      SubsetOfSameSize(sb, sa);
      forall c ensures c in a <==> c in b { assert c in sa <==> c in sb; }
    }
    if forall c :: c in a <==> c in b {
      assert sa == sb;
    }
  }

  lemma {:induction false} DistinctSize<T>(s: seq<T>)
    requires Distinct(s)
    ensures |set x | x in s| == |s|
  {
    if s != [] {
      var init, x := s[..|s| - 1], s[|s| - 1];
      DistinctSize(init);
      assert (set y | y in s) == (set y | y in init) + {x};
    }
  }

  lemma {:induction false} SubsetOfSameSize<T>(x: set<T>, y: set<T>)
    requires x <= y && |x| == |y|
    ensures x == y
  {
    if x != y {
      var z :| z in y && z !in x;
      SubsetSize(x, y - {z});
    }
  }

  lemma {:induction false} SubsetSize<T>(x: set<T>, y: set<T>)
    requires x <= y
    ensures |x| <= |y|
  {
    if x != {} {
      var z :| z in x;
      SubsetSize(x - {z}, y - {z});
    }
  }

  /** Indicators of the new config that ti already runs keep state and gate, the others start fresh. */
  function MigrateToken(ti: TokenInds, was: seq<Cfg>, inds: seq<Cfg>): (next: TokenInds)
    requires ValidToken(ti, was) && ValidInds(inds)
    ensures ValidToken(next, inds) && next.cfgs == inds
    ensures forall i :: 0 <= i < |inds| ==>
              next.slots[i] == if inds[i] in ti.cfgs then ti.slots[IndexOf(ti.cfgs, inds[i])] else FreshSlot(inds[i])
  {
    TokenInds(inds, seq(|inds|, i requires 0 <= i < |inds| =>
      if inds[i] in ti.cfgs then ti.slots[IndexOf(ti.cfgs, inds[i])] else FreshSlot(inds[i])))
  }

  /** The state of one timeframe after a reload. */
  function ReloadTf(e: Eng, cfg: TfCfg): (tokens: map<string, TokenInds>)
    requires e.Valid() && ValidInds(cfg.inds)
    ensures forall key :: key in tokens ==> ValidToken(tokens[key], cfg.inds)
  {
    if cfg.tf !in e.tfIndex then map[]
    else
      var i := e.tfIndex[cfg.tf];
      if IndicatorSetsEqual(e.configs[i].inds, cfg.inds) then
        SetsEqualIsSetEquality(e.configs[i].inds, cfg.inds);
        e.state[i]
      else map key | key in e.state[i] :: MigrateToken(e.state[i][key], e.configs[i].inds, cfg.inds)
  }

  function Reload(e: Eng, configs: seq<TfCfg>): (next: Eng)
    requires e.Valid() && ValidConfigs(configs)
    ensures next.Valid() && next.configs == configs
  {
    Eng(configs, seq(|configs|, i requires 0 <= i < |configs| => ReloadTf(e, configs[i])), TfIndex(configs))
  }

  /** The reload counts a timeframe as created when it is new or its indicator set changed. */
  predicate Recreated(e: Eng, cfg: TfCfg)
    requires e.Valid()
  {
    cfg.tf !in e.tfIndex || !IndicatorSetsEqual(e.configs[e.tfIndex[cfg.tf]].inds, cfg.inds)
  }

  /** Exactly when the timeframe is new or some indicator was added to it or dropped from it. */
  lemma RecreatedMeans(e: Eng, cfg: TfCfg)
    requires e.Valid() && ValidInds(cfg.inds)
    ensures Recreated(e, cfg) <==> cfg.tf !in e.tfIndex || exists c :: c in cfg.inds <==> !e.Has(cfg.tf, c)
  {
    if cfg.tf in e.tfIndex {
      var was := e.configs[e.tfIndex[cfg.tf]].inds;
      SetsEqualIsSetEquality(was, cfg.inds);
      assert forall c :: c in was <==> e.Has(cfg.tf, c);
    }
  }

  /** Reload keeps the state and gate of every indicator both configs have, and starts every other one fresh. */
  lemma ReloadSlot(e: Eng, configs: seq<TfCfg>, tf: int, key: string, cfg: Cfg)
    requires e.Valid() && ValidConfigs(configs) && Reload(e, configs).Has(tf, cfg)
    ensures Reload(e, configs).SlotOf(tf, key, cfg) == if e.Has(tf, cfg) then e.SlotOf(tf, key, cfg) else FreshSlot(cfg)
  {
    var next := Reload(e, configs);
    var current := configs[next.tfIndex[tf]];
    if tf in e.tfIndex {
      SetsEqualIsSetEquality(e.configs[e.tfIndex[tf]].inds, current.inds);
      if key in e.state[e.tfIndex[tf]] {
        var ti := e.state[e.tfIndex[tf]][key];
        IndexOfSame(ti, e.configs[e.tfIndex[tf]].inds, cfg);
      }
    }
  }

  lemma IndexOfSame(ti: TokenInds, inds: seq<Cfg>, cfg: Cfg)
    requires ValidToken(ti, inds)
    ensures cfg in ti.cfgs <==> cfg in inds
  {
  }
}
