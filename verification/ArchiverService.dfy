/** The archiver object. Each method is a run of the protocol, and says which outcomes the success of its store effects
    forces: what fails is decided by the world, not by the method. */
module ArchiverService {
  import opened Common
  import opened Archiver

  const CHUNK: nat := 50000

  /** The rows one DELETE of a table takes when it is not limited. */
  function Due(rows: set<Row>, table: nat, cutoff: int): set<Row> { set r | r in rows && r.table == table && r.ts < cutoff }

  /** The first n rows of a selection, in no particular order. */
  method Limit(rows: set<Row>, n: nat) returns (some: set<Row>)
    ensures some <= rows && |some| == Min(n, |rows|)
  {
    some := {};
    var rest := rows;
    while |some| < n && rest != {}
      invariant some + rest == rows && some !! rest && |some| <= n
      decreases |rest|
    {
      var r :| r in rest;
      some, rest := some + {r}, rest - {r};
    }
    assert |rows| == |some| + |rest|;
  }

  lemma NothingDue(before: set<Row>, rows: set<Row>, table: nat, cutoff: int)
    requires before - Due(before, table, cutoff) <= rows <= before && Due(rows, table, cutoff) == {}
    ensures rows == before - Due(before, table, cutoff)
  {
    assert forall r :: r in rows && r in Due(before, table, cutoff) ==> r in Due(rows, table, cutoff);
    assert forall r :: r in rows <==> r in before - Due(before, table, cutoff);
  }

  method Oldest(rows: set<Row>) returns (r: Row)
    requires rows != {}
    ensures r in rows && forall q :: q in rows ==> r.ts <= q.ts
  {
    r :| r in rows;
    var rest := rows - {r};
    while rest != {}
      invariant rest <= rows && r in rows && forall q :: q in rows && q !in rest ==> r.ts <= q.ts
      decreases |rest|
    {
      var q :| q in rest;
      if q.ts < r.ts {
        r := q;
      }
      rest := rest - {q};
    }
  }

  lemma OneMoreTable(rows: set<Row>, taken: set<nat>, t: nat)
    ensures OfTables(rows, taken + {t}) == OfTables(rows, taken) + OfTables(rows, {t}) && OfTables(rows, {}) == {}
  {
  }

  /** The two ways one statement of an export can go. */
  lemma ExportsOne(st: State, t: nat)
    requires st.pc.Exporting? && t in st.keep && t !in st.pc.taken
    ensures Enabled(st, Fail) && Apply(st, Fail) == st.(pc := Pruning(DayStart(st.pc.d)))
    ensures Enabled(st, Take(t))
    ensures Apply(st, Take(t)) ==
            st.(pc := Exporting(st.pc.d, st.pc.file + OfTables(DayRows(st.s.local, st.pc.d), {t}), st.pc.taken + {t}))
  {
    hide DayStart;
  }

  /** The two ways one statement of a merge can go. */
  lemma MergesOne(st: State, t: nat)
    requires st.pc.Fetched? && st.pc.d in st.s.cache && t in st.keep && t !in st.pc.taken
    ensures Enabled(st, Fail) && Apply(st, Fail) == st.(pc := Pruning(DayStart(st.pc.d)))
    ensures var d, s := st.pc.d, st.s;
            && Enabled(st, Take(t))
            && Apply(st, Take(t)) ==
               st.(s := s.(cache := s.cache[d := s.cache[d] + OfTables(DayRows(s.local, d), {t})]),
                   pc := Fetched(d, st.pc.base, st.pc.taken + {t}))
  {
    hide DayStart;
  }

  // ----- Store effects and the world that decides them -----

  /** One use of a store: a read or write that succeeds or fails. */
  datatype Effect =
    | ReadManifest(d: int)
    | ReadMark(d: int)
    | Fetch(d: int)
    | ReadTable(d: int, t: nat)
    | StoreFile(d: int, attempt: nat)
    | ConfirmSize(d: int, attempt: nat)
    | RecordEntry(d: int)
    | ClearMark(d: int)
    | DeleteChunk(t: nat, n: nat)

  type World = Effect -> bool

  /** One of the three attempts stores the file and sees its size confirmed. */
  predicate Uploads(w: World, d: int) {
    (w(StoreFile(d, 0)) && w(ConfirmSize(d, 0))) || (w(StoreFile(d, 1)) && w(ConfirmSize(d, 1))) || (w(StoreFile(d, 2)) && w(ConfirmSize(d, 2)))
  }

  predicate ReadsTables(w: World, d: int, tables: set<nat>) { forall t :: t in tables ==> w(ReadTable(d, t)) }

  /** No store effect the day may need fails it. */
  predicate DayWorks(w: World, d: int, tables: set<nat>) {
    && w(ReadManifest(d)) && w(ReadMark(d)) && w(Fetch(d)) && ReadsTables(w, d, tables)
    && Uploads(w, d) && w(RecordEntry(d)) && w(ClearMark(d))
  }

  ghost predicate Deletes(w: World, t: nat) { forall n: nat :: w(DeleteChunk(t, n)) }

  /** What the stores hold of one day. */
  datatype DayState = DayState(recorded: bool, marked: bool, file: Option<set<Row>>, cached: Option<set<Row>>)

  function DayIn(remote: map<int, set<Row>>, manifest: set<int>, dirty: set<int>, cache: map<int, set<Row>>, d: int): DayState {
    DayState(d in manifest, d in dirty, if d in remote then Some(remote[d]) else None, if d in cache then Some(cache[d]) else None)
  }

  /** A day visited without a failure: one with local rows is recorded, and they are all its file was lacking. */
  predicate DayDone(before: DayState, after: DayState, rows: set<Row>, markRead: bool) {
    if !before.recorded then
      && !after.marked && (after.recorded <==> rows != {})
      && after.file == (if rows == {} then before.file else Some(rows))
    else if !before.marked || !markRead then after == before
    else
      && after.recorded && !after.marked
      && (before.file.Some? && before.cached.None? ==> after.file == Some(before.file.value + rows))
      && (before.file.None? && before.cached.None? ==> after.file.None?)
  }

  /** The temporary files once rows went into the one of day d. */
  ghost function Merged(cache: map<int, set<Row>>, d: int, rows: set<Row>): (m: map<int, set<Row>>)
    requires d in cache
    ensures d in m && m[d] == cache[d] + rows && m == cache[d := m[d]]
  {
    cache[d := cache[d] + rows]
  }

  lemma MergedMore(cache: map<int, set<Row>>, d: int, rows: set<Row>, taken: set<nat>, t: nat)
    requires d in cache
    ensures Merged(cache, d, OfTables(rows, {})) == cache
    ensures var m := Merged(cache, d, OfTables(rows, taken));
            m[d := m[d] + OfTables(rows, {t})] == Merged(cache, d, OfTables(rows, taken + {t}))
  {
    OneMoreTable(rows, taken, t);
    hide OfTables;
    assert cache[d] + {} == cache[d] && cache[d := cache[d]] == cache;
    var a, b := OfTables(rows, taken), OfTables(rows, {t});
    assert cache[d] + a + b == cache[d] + (a + b);
  }

  /** Every day but one is as before. */
  ghost predicate OtherDays(before: int -> DayState, after: int -> DayState, d: int) { forall e :: e != d ==> after(e) == before(e) }

  lemma OneDayChanged(r: map<int, set<Row>>, c: map<int, set<Row>>, r': map<int, set<Row>>, c': map<int, set<Row>>, d: int)
    requires r - {d} == r' - {d} && c - {d} == c' - {d}
    ensures forall e :: e != d ==> (e in r <==> e in r') && (e in r ==> r[e] == r'[e])
    ensures forall e :: e != d ==> (e in c <==> e in c') && (e in c ==> c[e] == c'[e])
  {
    forall e | e != d ensures (e in r <==> e in r') && (e in r ==> r[e] == r'[e]) && (e in c <==> e in c') && (e in c ==> c[e] == c'[e]) {
      assert (e in r <==> e in r - {d}) && (e in r' <==> e in r' - {d}) && (e in c <==> e in c - {d}) && (e in c' <==> e in c' - {d});
      assert e in r ==> (r - {d})[e] == (r' - {d})[e];
      assert e in c ==> (c - {d})[e] == (c' - {d})[e];
    }
  }

  class ArchiverObject {
    var local: set<Row>
    var remote: map<int, set<Row>>
    var manifest: set<int>
    var dirty: set<int>
    var cache: map<int, set<Row>>
    ghost var owed: set<int>
    ghost var written: set<Row>
    const keep: map<nat, int>

    ghost function At(pc: Pc, first: int, lastDay: int): State
      reads this
    {
      AtWith(pc, first, lastDay, cache)
    }

    /** The same with other files in the temporary directory. */
    ghost function AtWith(pc: Pc, first: int, lastDay: int, files: map<int, set<Row>>): State
      reads this
    {
      State(Store(local, remote, manifest, dirty, owed, files, written), pc, first, lastDay, keep)
    }

    /** The steps lead from st to the object's stores, with the run at pc. */
    ghost predicate Reached(st: State, steps: seq<Step>, pc: Pc, first: int, lastDay: int)
      reads this
    {
      IsRun(st, steps) && After(st, steps) == At(pc, first, lastDay)
    }

    ghost function Days(): int -> DayState
      reads this
    {
      var r, m, x, c := remote, manifest, dirty, cache;
      d => DayIn(r, m, x, c, d)
    }

    function Day(d: int): DayState
      reads this
    {
      DayIn(remote, manifest, dirty, cache, d)
    }

    function DayLocal(d: int): set<Row>
      reads this
    {
      OfTables(DayRows(local, d), keep.Keys)
    }

    constructor (keep: map<nat, int>)
      ensures At(Idle, 0, 0) == Start(keep)
    {
      this.keep, local, remote, manifest, dirty, owed, cache, written := keep, {}, map[], {}, {}, {}, map[], {};
    }

    /** Up to three attempts; each may fail before or after the file is stored. Then the manifest entry. */
    method UploadAndRecord(w: World, d: int, file: set<Row>, ghost first: int, ghost lastDay: int, ghost st: State, ghost before: seq<Step>)
      returns (ok: bool, ghost steps: seq<Step>)
      requires IsRun(st, before) && After(st, before) == At(ToUpload(d, file), first, lastDay)
      modifies this`remote, this`manifest
      ensures IsRun(st, steps) && After(st, steps) == At(if ok then Clearing(d) else Pruning(DayStart(d)), first, lastDay)
      ensures ok <==> Uploads(w, d) && w(RecordEntry(d))
      ensures remote == old(remote) || remote == old(remote)[d := file]
      ensures ok ==> remote == old(remote)[d := file]
      ensures manifest == if ok then old(manifest) + {d} else old(manifest)
    {
      hide IsRun, After, DayStart;
      var attempt: nat, stored, done := 0, false, false;
      ghost var was := remote;
      while !done && attempt < 3
        invariant attempt <= 3 && remote == if stored then was[d := file] else was
        invariant (done ==> stored) && manifest == old(manifest)
        invariant done <==> exists a: nat :: a < attempt && w(StoreFile(d, a)) && w(ConfirmSize(d, a))
        decreases 3 - attempt, !done
      {
        if w(StoreFile(d, attempt)) {
          remote, stored := remote[d := file], true;
          done := w(ConfirmSize(d, attempt));
        }
        attempt := attempt + 1;
      }
      Extend(st, before, Upload(stored, done));
      steps := before + [Upload(stored, done)];
      if !done {
        return false, steps;
      }
      ok := w(RecordEntry(d));
      Extend(st, steps, Record(ok));
      steps := steps + [Record(ok)];
      if ok {
        manifest := manifest + {d};
      }
    }

    method ClearDirty(w: World, d: int, ghost first: int, ghost lastDay: int, ghost st: State, ghost before: seq<Step>)
      returns (ok: bool, ghost steps: seq<Step>)
      requires IsRun(st, before) && After(st, before) == At(Clearing(d), first, lastDay)
      modifies this`dirty
      ensures IsRun(st, steps) && After(st, steps) == At(if ok then AtDay(d + 1) else Pruning(DayStart(d)), first, lastDay)
      ensures ok <==> w(ClearMark(d))
      ensures dirty == if ok then old(dirty) - {d} else old(dirty)
    {
      hide IsRun, After, DayStart;
      ok := w(ClearMark(d));
      Extend(st, before, Clear(ok));
      steps := before + [Clear(ok)];
      if ok {
        dirty := dirty - {d};
      }
    }

    /** exportDay: a fresh file filled one table after the other; any of the statements may fail. */
    method ExportDay(w: World, d: int, ghost first: int, ghost lastDay: int, ghost st: State, ghost before: seq<Step>)
      returns (ok: bool, file: set<Row>, ghost steps: seq<Step>)
      requires IsRun(st, before) && After(st, before) == At(Exporting(d, {}, {}), first, lastDay)
      ensures IsRun(st, steps)
      ensures After(st, steps) == At(if ok then Exporting(d, file, keep.Keys) else Pruning(DayStart(d)), first, lastDay)
      ensures ok <==> ReadsTables(w, d, keep.Keys)
      ensures ok ==> file == DayLocal(d)
    {
      hide IsRun, After, DayStart, DayRows, OfTables, Apply, Enabled;
      OneMoreTable(DayRows(local, d), {}, 0);
      ghost var taken: set<nat> := {};
      var todo := keep.Keys;
      file, steps := {}, before;
      while todo != {}
        invariant IsRun(st, steps) && After(st, steps) == At(Exporting(d, file, taken), first, lastDay)
        invariant file == OfTables(DayRows(local, d), taken) && ReadsTables(w, d, taken)
        invariant taken !! todo && taken + todo == keep.Keys
        decreases |todo|
      {
        var t :| t in todo;
        todo := todo - {t};
        ExportsOne(At(Exporting(d, file, taken), first, lastDay), t);
        if !w(ReadTable(d, t)) {
          Extend(st, steps, Fail);
          return false, file, steps + [Fail];
        }
        Extend(st, steps, Take(t));
        steps := steps + [Take(t)];
        OneMoreTable(DayRows(local, d), taken, t);
        file := file + OfTables(DayRows(local, d), {t});
        taken := taken + {t};
      }
      ok := true;
    }

    /** One statement of the merge: the table's local rows of the day, or a failure. */
    method MergeTable(w: World, d: int, t: nat, ghost base: set<Row>, ghost taken: set<nat>, ghost first: int, ghost lastDay: int,
                      ghost st: State, ghost before: seq<Step>)
      returns (ok: bool, ghost steps: seq<Step>)
      requires d in cache && Reached(st, before, Fetched(d, base, taken), first, lastDay)
      requires t in keep && t !in taken
      modifies this`cache
      ensures d in cache && Reached(st, steps, if ok then Fetched(d, base, taken + {t}) else Pruning(DayStart(d)), first, lastDay)
      ensures ok <==> w(ReadTable(d, t))
      ensures cache == if ok then old(cache)[d := old(cache[d]) + OfTables(DayRows(local, d), {t})] else old(cache)
    {
      hide IsRun, After, DayStart, DayRows, OfTables, Apply, Enabled;
      MergesOne(At(Fetched(d, base, taken), first, lastDay), t);
      ok := w(ReadTable(d, t));
      if !ok {
        Extend(st, before, Fail);
        return false, before + [Fail];
      }
      Extend(st, before, Take(t));
      steps := before + [Take(t)];
      cache := cache[d := cache[d] + OfTables(DayRows(local, d), {t})];
    }

    /** mergeIntoFile: the fetched file gains each table's local rows of the day in turn. A failure leaves it partly merged. */
    method MergeIntoFile(w: World, d: int, ghost base: set<Row>, ghost first: int, ghost lastDay: int, ghost st: State, ghost before: seq<Step>)
      returns (ok: bool, ghost steps: seq<Step>)
      requires d in cache && Reached(st, before, Fetched(d, base, {}), first, lastDay)
      modifies this`cache
      ensures d in cache && Reached(st, steps, if ok then Fetched(d, base, keep.Keys) else Pruning(DayStart(d)), first, lastDay)
      ensures ok <==> ReadsTables(w, d, keep.Keys)
      ensures cache == old(cache)[d := cache[d]] && (ok ==> cache[d] == old(cache[d]) + DayLocal(d))
    {
      hide Reached, DayStart, DayRows, OfTables, Merged;
      MergedMore(cache, d, DayRows(local, d), {}, 0);
      ghost var taken: set<nat> := {};
      var todo := keep.Keys;
      steps := before;
      while todo != {}
        invariant d in cache && Reached(st, steps, Fetched(d, base, taken), first, lastDay)
        invariant cache == Merged(old(cache), d, OfTables(DayRows(local, d), taken)) && ReadsTables(w, d, taken)
        invariant taken !! todo && taken + todo == keep.Keys
        decreases |todo|
      {
        var t :| t in todo;
        todo := todo - {t};
        MergedMore(old(cache), d, DayRows(local, d), taken, t);
        ok, steps := MergeTable(w, d, t, base, taken, first, lastDay, st, steps);
        if !ok {
          return false, steps;
        }
        taken := taken + {t};
      }
      ok := true;
    }

    /** A recorded day that was marked: merge the local rows into its file and upload it again if it grew. */
    method RearchiveDirty(w: World, d: int, ghost first: int, lastDay: int, ghost st: State, ghost before: seq<Step>)
      returns (ok: bool, ghost steps: seq<Step>)
      requires IsRun(st, before) && After(st, before) == At(AtDay(d), first, lastDay)
      requires d in manifest && d <= lastDay && d - first < MAX_DAYS
      modifies this`remote, this`manifest, this`dirty, this`cache
      ensures IsRun(st, steps) && After(st, steps) == At(if ok then AtDay(d + 1) else Pruning(DayStart(d)), first, lastDay)
      ensures w(ReadManifest(d)) && DayWorks(w, d, keep.Keys) ==> ok
      ensures ok ==> DayDone(old(Day(d)), Day(d), DayLocal(d), w(ReadMark(d)))
      ensures OtherDays(old(Days()), Days(), d)
    {
      hide IsRun, After, DayStart, DayRows, Uploads, ReadsTables;
      var readOk := w(ReadMark(d));
      if readOk && d in dirty && !w(Fetch(d)) {
        Extend(st, before, Fail);
        return false, before + [Fail];
      }
      Extend(st, before, Visit(readOk));
      steps := before + [Visit(readOk)];
      if !readOk || d !in dirty {
        return true, steps;
      }
      if d !in cache && d !in remote {
        ok, steps := ClearDirty(w, d, first, lastDay, st, steps);
        return ok, steps;
      }
      ghost var r, c := remote, cache;
      ok, steps := MergeAndUpload(w, d, first, lastDay, st, steps);
      OneDayChanged(r, c, remote, cache, d);
      if !ok {
        return false, steps;
      }
      ok, steps := ClearDirty(w, d, first, lastDay, st, steps);
    }

    /** Fetch, merge, and upload again when the file grew. */
    method MergeAndUpload(w: World, d: int, ghost first: int, ghost lastDay: int, ghost st: State, ghost before: seq<Step>)
      returns (ok: bool, ghost steps: seq<Step>)
      requires d in cache || d in remote
      requires var base := if d in cache then cache[d] else remote[d];
               IsRun(st, before) && After(st, before) == AtWith(Fetched(d, base, {}), first, lastDay, cache[d := base])
      requires d in manifest
      modifies this`remote, this`manifest, this`cache
      ensures IsRun(st, steps) && After(st, steps) == At(if ok then Clearing(d) else Pruning(DayStart(d)), first, lastDay)
      ensures ReadsTables(w, d, keep.Keys) && Uploads(w, d) && w(RecordEntry(d)) ==> ok
      ensures manifest == old(manifest) && remote - {d} == old(remote) - {d} && cache - {d} == old(cache) - {d}
      ensures ok && d !in old(cache) ==> d in remote && remote[d] == old(remote[d]) + DayLocal(d)
    {
      hide IsRun, After, DayStart, DayRows, OfTables, Uploads, ReadsTables;
      ghost var base := if d in cache then cache[d] else remote[d];
      assert d in cache ==> cache[d := cache[d]] == cache;
      if d !in cache {
        cache := cache[d := remote[d]];
      }
      var rowsBefore := |cache[d]|;
      ok, steps := MergeIntoFile(w, d, cache[d], first, lastDay, st, before);
      if ok {
        ok, steps := UploadGrown(w, d, rowsBefore, base, first, lastDay, st, steps);
      }
    }

    /** The merged file replaces the remote one if it has more rows than the base it was fetched as. */
    method UploadGrown(w: World, d: int, rowsBefore: nat, ghost base: set<Row>, ghost first: int, ghost lastDay: int, ghost st: State,
                       ghost before: seq<Step>)
      returns (ok: bool, ghost steps: seq<Step>)
      requires d in cache && d in manifest && base <= cache[d] && rowsBefore == |base|
      requires Reached(st, before, Fetched(d, base, keep.Keys), first, lastDay)
      modifies this`remote, this`manifest
      ensures IsRun(st, steps) && After(st, steps) == At(if ok then Clearing(d) else Pruning(DayStart(d)), first, lastDay)
      ensures Uploads(w, d) && w(RecordEntry(d)) ==> ok
      ensures manifest == old(manifest) && remote - {d} == old(remote) - {d}
      ensures ok && cache[d] != base ==> d in remote && remote[d] == cache[d]
      ensures cache[d] == base ==> remote == old(remote)
    {
      hide IsRun, After, DayStart, DayRows, Uploads;
      ok, steps := true, before + [Taken];
      Extend(st, before, Taken);
      if |cache[d]| > rowsBefore {
        ok, steps := UploadAndRecord(w, d, cache[d], first, lastDay, st, steps);
      } else {
        SameSize(base, cache[d]);
      }
    }

    /** One day: nothing to do, exported and uploaded, or re-archived. */
    method ArchiveDay(w: World, d: int, ghost first: int, lastDay: int, ghost st: State, ghost before: seq<Step>)
      returns (ok: bool, ghost steps: seq<Step>)
      requires IsRun(st, before) && After(st, before) == At(AtDay(d), first, lastDay)
      requires d <= lastDay && d - first < MAX_DAYS
      modifies this`remote, this`manifest, this`dirty, this`cache
      ensures IsRun(st, steps) && After(st, steps) == At(if ok then AtDay(d + 1) else Pruning(DayStart(d)), first, lastDay)
      ensures DayWorks(w, d, keep.Keys) ==> ok
      ensures ok ==> DayDone(old(Day(d)), Day(d), DayLocal(d), w(ReadMark(d)))
      ensures OtherDays(old(Days()), Days(), d)
    {
      hide IsRun, After, DayStart, DayRows, Uploads, ReadsTables;
      if !w(ReadManifest(d)) {
        Extend(st, before, Fail);
        return false, before + [Fail];
      }
      if d in manifest {
        ok, steps := RearchiveDirty(w, d, first, lastDay, st, before);
        return ok, steps;
      }
      ok, steps := ArchiveNew(w, d, first, lastDay, st, before);
    }

    /** A day not recorded yet. */
    method ArchiveNew(w: World, d: int, ghost first: int, ghost lastDay: int, ghost st: State, ghost before: seq<Step>)
      returns (ok: bool, ghost steps: seq<Step>)
      requires IsRun(st, before) && After(st, before) == At(AtDay(d), first, lastDay)
      requires d <= lastDay && d - first < MAX_DAYS && d !in manifest
      modifies this`remote, this`manifest, this`dirty
      ensures IsRun(st, steps) && After(st, steps) == At(if ok then AtDay(d + 1) else Pruning(DayStart(d)), first, lastDay)
      ensures ReadsTables(w, d, keep.Keys) && Uploads(w, d) && w(RecordEntry(d)) && w(ClearMark(d)) ==> ok
      ensures ok ==> DayDone(old(Day(d)), Day(d), DayLocal(d), w(ReadMark(d)))
      ensures OtherDays(old(Days()), Days(), d)
    {
      hide IsRun, After, DayStart, DayRows, Uploads, ReadsTables;
      Extend(st, before, Visit(true));
      steps := before + [Visit(true)];
      var rows;
      ok, rows, steps := ExportDay(w, d, first, lastDay, st, steps);
      if !ok {
        return false, steps;
      }
      Extend(st, steps, Taken);
      steps := steps + [Taken];
      if rows != {} {
        ok, steps := UploadAndRecord(w, d, rows, first, lastDay, st, steps);
        if !ok {
          return false, steps;
        }
      }
      ok, steps := ClearDirty(w, d, first, lastDay, st, steps);
    }

    /** Chunked delete of one table's rows before the cutoff. */
    method PruneBefore(w: World, table: nat, limit: int, ghost first: int, lastDay: int, ghost st: State, ghost before: seq<Step>)
      returns (ok: bool, total: nat, ghost steps: seq<Step>)
      requires IsRun(st, before) && After(st, before) == At(Pruning(limit), first, lastDay)
      requires table in keep && keep[table] >= 0
      modifies this`local
      ensures IsRun(st, steps) && After(st, steps) == At(Pruning(limit), first, lastDay)
      ensures var due := Due(old(local), table, Cutoff(keep[table], lastDay, limit));
              && old(local) - due <= local <= old(local) && total == |old(local)| - |local|
              && (ok ==> local == old(local) - due)
      ensures Deletes(w, table) ==> ok
    {
      hide IsRun, After, DayStart;
      var cutoff := Cutoff(keep[table], lastDay, limit);
      steps, total := before, 0;
      var n, chunk := CHUNK, 0;
      while n >= CHUNK
        invariant IsRun(st, steps) && After(st, steps) == At(Pruning(limit), first, lastDay)
        invariant old(local) - Due(old(local), table, cutoff) <= local <= old(local) && total == |old(local)| - |local|
        invariant n < CHUNK ==> Due(local, table, cutoff) == {}
        decreases |local|, n
      {
        if !w(DeleteChunk(table, chunk)) {
          return false, total, steps;
        }
        chunk := chunk + 1;
        var due := Due(local, table, cutoff);
        var gone := Limit(due, CHUNK);
        Extend(st, steps, Prune(gone));
        steps := steps + [Prune(gone)];
        n := |gone|;
        assert gone <= local;
        assert |local - gone| == |local| - n;
        if n < CHUNK {
          assert |due| == |gone|;
          SameSize(gone, due);
        }
        local := local - gone;
        total := total + n;
      }
      ok := true;
      NothingDue(old(local), local, table, cutoff);
    }

    /** Archive every day up to lastDay, then prune each table, never past the first day that failed. When no store effect fails,
        every day within the bound is done and everything due is pruned; the limit is the start of a day only when an effect of
        that day failed. */
    method ArchiveDaySource(w: World, lastDay: int, ghost f0: int, ghost l0: int)
      returns (limit: int, pruned: bool, ghost first: int, ghost steps: seq<Step>)
      requires local != {}
      modifies this`local, this`remote, this`manifest, this`dirty, this`cache
      ensures IsRun(old(At(Idle, f0, l0)), steps) && After(old(At(Idle, f0, l0)), steps) == At(Pruning(limit), first, lastDay)
      ensures OldestDay(old(local), first)
      ensures Progress(w, first, lastDay, keep.Keys, limit) && local <= old(local)
      ensures forall d :: InReach(d, first, lastDay) && DayStart(d) < limit ==>
                DayDone(old(Day(d)), Day(d), old(DayLocal(d)), w(ReadMark(d)))
      ensures forall r :: r in old(local) && r !in local ==> Prunable(r, keep, lastDay, limit)
      ensures pruned ==> forall r :: r in local ==> !Prunable(r, keep, lastDay, limit)
      ensures (forall t :: t in keep ==> Deletes(w, t)) ==> pruned
    {
      hide IsRun, After, DayStart, DayOf, Cutoff, Progress, DayDone, DayRows, OfTables, Deletes;
      ghost var st := At(Idle, f0, l0);
      var oldest := Oldest(local);
      NoSteps(st);
      Extend(st, [], Begin(oldest, lastDay));
      steps := [] + [Begin(oldest, lastDay)];
      first := DayOf(oldest.ts);
      OldestIs(local, oldest);
      limit, steps := ArchiveDays(w, DayOf(oldest.ts), lastDay, st, steps);
      pruned, steps := PruneTables(w, limit, first, lastDay, st, steps);
    }

    method PruneTables(w: World, limit: int, ghost first: int, lastDay: int, ghost st: State, ghost before: seq<Step>)
      returns (pruned: bool, ghost steps: seq<Step>)
      requires IsRun(st, before) && After(st, before) == At(Pruning(limit), first, lastDay)
      modifies this`local
      ensures IsRun(st, steps) && After(st, steps) == At(Pruning(limit), first, lastDay) && local <= old(local)
      ensures forall r :: r in old(local) && r !in local ==> Prunable(r, keep, lastDay, limit)
      ensures pruned ==> forall r :: r in local ==> !Prunable(r, keep, lastDay, limit)
      ensures (forall t :: t in keep ==> Deletes(w, t)) ==> pruned
    {
      hide IsRun, After, DayStart, DayOf, Cutoff, Deletes;
      steps, pruned := before, true;
      var tables := keep.Keys;
      while tables != {} && pruned
        invariant tables <= keep.Keys && IsRun(st, steps) && After(st, steps) == At(Pruning(limit), first, lastDay)
        invariant local <= old(local)
        invariant forall r :: r in old(local) && r !in local ==> Prunable(r, keep, lastDay, limit)
        invariant pruned ==> forall r :: r in local && r.table !in tables ==> !Prunable(r, keep, lastDay, limit)
        invariant (forall t :: t in keep ==> Deletes(w, t)) ==> pruned
        decreases |tables|
      {
        var t :| t in tables;
        tables := tables - {t};
        if keep[t] >= 0 {
          ghost var was := local;
          var n;
          pruned, n, steps := PruneBefore(w, t, limit, first, lastDay, st, steps);
          forall r | r in was && r !in local ensures Prunable(r, keep, lastDay, limit) {
            assert r in Due(was, t, Cutoff(keep[t], lastDay, limit));
          }
        }
      }
    }

    /** The day loop; limit is the end of the last day, or the start of the first day that failed. */
    method ArchiveDays(w: World, first: int, lastDay: int, ghost st: State, ghost before: seq<Step>)
      returns (limit: int, ghost steps: seq<Step>)
      requires IsRun(st, before) && After(st, before) == At(AtDay(first), first, lastDay)
      modifies this`remote, this`manifest, this`dirty, this`cache
      ensures IsRun(st, steps) && After(st, steps) == At(Pruning(limit), first, lastDay)
      ensures Progress(w, first, lastDay, keep.Keys, limit)
      ensures forall d :: InReach(d, first, lastDay) && DayStart(d) < limit ==>
                DayDone(old(Day(d)), Day(d), DayLocal(d), w(ReadMark(d)))
    {
      hide IsRun, After, DayWorks, DayDone;
      steps := before;
      var i := 0;
      while i < MAX_DAYS && first + i <= lastDay
        invariant 0 <= i <= MAX_DAYS
        invariant IsRun(st, steps) && After(st, steps) == At(AtDay(first + i), first, lastDay)
        invariant forall d :: d >= first + i ==> Day(d) == old(Day(d))
        invariant forall d :: first <= d < first + i ==> DayDone(old(Day(d)), Day(d), DayLocal(d), w(ReadMark(d)))
        decreases MAX_DAYS - i
      {
        ghost var was := Days();
        var ok;
        ok, steps := ArchiveDay(w, first + i, first, lastDay, st, steps);
        forall d | d != first + i ensures Day(d) == was(d) { assert Days()(d) == was(d); }
        if !ok {
          return DayStart(first + i), steps;
        }
        i := i + 1;
      }
      Extend(st, steps, Visit(true));
      return DayStart(lastDay + 1), steps + [Visit(true)];
    }
  }

  /** The days a run visits: from the oldest, within the catch-up bound. */
  predicate InReach(d: int, first: int, lastDay: int) { first <= d <= lastDay && d - first < MAX_DAYS }

  ghost predicate OldestDay(rows: set<Row>, first: int) {
    (exists r :: r in rows && DayOf(r.ts) == first) && forall r :: r in rows ==> DayOf(r.ts) >= first
  }

  lemma OldestIs(rows: set<Row>, oldest: Row)
    requires oldest in rows && forall r :: r in rows ==> oldest.ts <= r.ts
    ensures OldestDay(rows, DayOf(oldest.ts))
  {
  }

  /** The limit is the end of the last day when every day in reach works, and else the start of one in reach that does not. */
  ghost predicate Progress(w: World, first: int, lastDay: int, tables: set<nat>, limit: int) {
    || limit == DayStart(lastDay + 1)
    || exists d :: InReach(d, first, lastDay) && limit == DayStart(d) && !DayWorks(w, d, tables)
  }

  /** Days are IST days and start at midnight. */
  lemma ArchiveCalendar(ts: int)
    ensures OnIstDay(DayOf(ts), ts * 1_000_000_000)
    ensures forall d :: DayStart(d) * 1_000_000_000 == IstMidnight(d)
  {
  }

  /** With the limit at the start of day l, a row may be pruned exactly if its table has a window, its day lies at least that many days
      back from the last day, and its day is before l. */
  lemma PrunableIs(r: Row, keep: map<nat, int>, lastDay: int, l: int)
    ensures Prunable(r, keep, lastDay, DayStart(l)) <==>
            r.table in keep && keep[r.table] >= 0 && DayOf(r.ts) + keep[r.table] <= lastDay && DayOf(r.ts) < l
  {
    ArchiveCalendar(r.ts);
  }
}
