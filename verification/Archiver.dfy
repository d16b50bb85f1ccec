/** Archive before delete: one source's rows are exported and uploaded a day at a time, late rows are merged in, and only
    then pruned locally. Every store effect may fail, and the process may die between any two of them. */
module Archiver {
  import opened Common

  /** A row by table, primary key and day timestamp (seconds). */
  datatype Row = Row(table: nat, key: int, ts: int)

  const MAX_DAYS := 400

  /** IST calendar days, numbered. */
  function DayOf(ts: int): int { (ts + 19800) / 86400 }

  function DayStart(d: int): int { d * 86400 - 19800 }

  /** The local database, the remote day files, the manifest, the dirty marks, and the files left in the temporary
      directory. owed lists the days a writer has committed rows to without having marked them yet; written is every row
      ever inserted. */
  datatype Store = Store(local: set<Row>, remote: map<int, set<Row>>, manifest: set<int>, dirty: set<int>, owed: set<int>,
                         cache: map<int, set<Row>>, written: set<Row>)

  const EMPTY := Store({}, map[], {}, {}, {}, map[], {})

  function DayRows(rows: set<Row>, d: int): set<Row> { set r | r in rows && DayOf(r.ts) == d }

  function OfTables(rows: set<Row>, tables: set<nat>): set<Row> { set r | r in rows && r.table in tables }

  function RemoteRows(s: Store, d: int): set<Row> { if d in s.remote then s.remote[d] else {} }

  /** The day's file holds every row of the day. */
  predicate Covered(s: Store, d: int) { DayRows(s.written, d) <= RemoteRows(s, d) }

  /** The row is in the file of its recorded day. */
  predicate Archived(s: Store, r: Row) { DayOf(r.ts) in s.manifest && r in RemoteRows(s, DayOf(r.ts)) }

  /** The day is recorded, and no late row of it is announced or about to be. */
  predicate Settled(s: Store, d: int) { d in s.manifest && d !in s.dirty && d !in s.owed }

  /** No written row is lost; settled days are completely remote. */
  predicate Safe(s: Store) {
    && s.local <= s.written
    && (forall d :: d in s.remote ==> s.remote[d] <= DayRows(s.written, d))
    && (forall d :: d in s.cache ==> d in s.manifest && RemoteRows(s, d) <= s.cache[d] <= DayRows(s.written, d))
    && (forall d :: d in s.manifest ==> d in s.remote)
    && (forall r :: r in s.written ==> r in s.local || Archived(s, r))
    && (forall d :: d in s.manifest && Settled(s, d) ==> Covered(s, d))
  }

  /** Some row is neither local nor in the file of its day. */
  predicate Lost(s: Store, r: Row) { r in s.written && r !in s.local && r !in RemoteRows(s, DayOf(r.ts)) }

  /** A temporary file survived that already holds every local row of the day, some of which the remote lacks. */
  predicate StaleCache(s: Store, d: int) {
    && d in s.cache && DayRows(s.local, d) <= s.cache[d]
    && !(DayRows(s.local, d) <= RemoteRows(s, d))
  }

  // ----- The protocol, step by step -----

  /** Where a run of one source is. A day's rows are collected one table at a time, each by a statement of its own; taken are
      the tables already read. */
  datatype Pc =
    | Idle
    | AtDay(d: int)
    | Exporting(d: int, file: set<Row>, taken: set<nat>)
    | ToUpload(d: int, file: set<Row>)
    | Uploaded(d: int)
    | Fetched(d: int, base: set<Row>, taken: set<nat>)
    | Clearing(d: int)
    | Pruning(limit: int)

  datatype State = State(s: Store, pc: Pc, first: int, lastDay: int, keep: map<nat, int>)

  /** marks says whether the writer is one that marks the day afterwards; Mark is that later step, Drop a writer that ends
      without it. */
  datatype Step =
    | Write(r: Row, marks: bool)
    | Mark(d: int)
    | Drop(d: int)
    | Begin(oldest: Row, last: int)
    | Visit(readOk: bool)
    | Take(table: nat)
    | Taken
    | Upload(stored: bool, ok: bool)
    | Record(ok: bool)
    | Clear(ok: bool)
    | Fail
    | Prune(gone: set<Row>)
    | End
    | Crash
    | Wipe

  predicate Collecting(st: State) { st.pc.Exporting? || (st.pc.Fetched? && st.pc.d in st.s.cache) }

  /** The prune cutoff of a table with window keep days. */
  function Cutoff(keep: int, lastDay: int, limit: int): int { Min(DayStart(lastDay + 1) - keep * 86400, limit) }

  predicate Prunable(r: Row, keep: map<nat, int>, lastDay: int, limit: int) {
    r.table in keep && keep[r.table] >= 0 && r.ts < Cutoff(keep[r.table], lastDay, limit)
  }

  /** An upload that reports the local size has stored the file. */
  predicate Enabled(st: State, step: Step) {
    match step
    case Write(r, _) => r.table in st.keep
    case Mark(_) => true
    case Drop(_) => true
    case Begin(oldest, _) => st.pc.Idle? && oldest in st.s.local && forall r :: r in st.s.local ==> oldest.ts <= r.ts
    case Visit(_) => st.pc.AtDay?
    case Take(t) => Collecting(st) && t in st.keep && t !in st.pc.taken
    case Taken => Collecting(st) && st.pc.taken == st.keep.Keys
    case Upload(stored, ok) => st.pc.ToUpload? && (ok ==> stored)
    case Record(_) => st.pc.Uploaded?
    case Clear(_) => st.pc.Clearing?
    case Fail => !st.pc.Idle? && !st.pc.Pruning?
    case Prune(gone) => st.pc.Pruning? && gone <= st.s.local &&
                        forall r :: r in gone ==> Prunable(r, st.keep, st.lastDay, st.pc.limit)
    case End => st.pc.Pruning?
    case Crash => true
    case Wipe => st.pc.Idle?
  }

  /** One day: past the last day or the catch-up bound pruning starts; a day not recorded is exported; a recorded one is
      fetched when marked. A mark that cannot be read counts as no mark. */
  function VisitDay(st: State, readOk: bool): State
    requires st.pc.AtDay?
  {
    var d, s := st.pc.d, st.s;
    if d > st.lastDay || d - st.first >= MAX_DAYS then st.(pc := Pruning(DayStart(st.lastDay + 1)))
    else if d !in s.manifest then st.(pc := Exporting(d, {}, {}))
    else if !readOk || d !in s.dirty then st.(pc := AtDay(d + 1))
    else if d in s.cache then st.(pc := Fetched(d, s.cache[d], {}))
    else if d in s.remote then st.(s := s.(cache := s.cache[d := s.remote[d]]), pc := Fetched(d, s.remote[d], {}))
    else st.(pc := Clearing(d))
  }

  /** One statement reads one table's rows of the day into the file being built. */
  function TakeTable(st: State, t: nat): State
    requires Collecting(st)
  {
    var d, s := st.pc.d, st.s;
    var rows := OfTables(DayRows(s.local, d), {t});
    match st.pc
    case Exporting(_, file, taken) => st.(pc := Exporting(d, file + rows, taken + {t}))
    case Fetched(_, base, taken) => st.(s := s.(cache := s.cache[d := s.cache[d] + rows]), pc := Fetched(d, base, taken + {t}))
  }

  /** With every table read: upload a file that has rows, or, of a recorded day, more rows than were fetched. */
  function DayTaken(st: State): State
    requires Collecting(st)
  {
    var d := st.pc.d;
    match st.pc
    case Exporting(_, file, _) => st.(pc := if file == {} then Clearing(d) else ToUpload(d, file))
    case Fetched(_, base, _) => st.(pc := if |st.s.cache[d]| > |base| then ToUpload(d, st.s.cache[d]) else Clearing(d))
  }

  function Apply(st: State, step: Step): State
    requires Enabled(st, step)
  {
    var s := st.s;
    match step
    case Write(r, marks) =>
      st.(s := s.(local := s.local + {r}, written := s.written + {r}, owed := if marks then s.owed + {DayOf(r.ts)} else s.owed))
    case Mark(d) => st.(s := s.(dirty := s.dirty + {d}, owed := s.owed - {d}))
    case Drop(d) => st.(s := s.(owed := s.owed - {d}))
    case Begin(oldest, last) => st.(pc := AtDay(DayOf(oldest.ts)), first := DayOf(oldest.ts), lastDay := last)
    case Visit(readOk) => VisitDay(st, readOk)
    case Take(t) => TakeTable(st, t)
    case Taken => DayTaken(st)
    case Upload(stored, ok) =>
      st.(s := if stored then s.(remote := s.remote[st.pc.d := st.pc.file]) else s,
          pc := if ok then Uploaded(st.pc.d) else Pruning(DayStart(st.pc.d)))
    case Record(ok) =>
      if ok then st.(s := s.(manifest := s.manifest + {st.pc.d}), pc := Clearing(st.pc.d))
      else st.(pc := Pruning(DayStart(st.pc.d)))
    case Clear(ok) =>
      if ok then st.(s := s.(dirty := s.dirty - {st.pc.d}), pc := AtDay(st.pc.d + 1))
      else st.(pc := Pruning(DayStart(st.pc.d)))
    case Fail => st.(pc := Pruning(DayStart(st.pc.d)))
    case Prune(gone) => st.(s := s.(local := s.local - gone))
    case End => st.(s := s.(cache := map[]), pc := Idle)
    case Crash => st.(pc := Idle)
    case Wipe => st.(s := s.(cache := map[]))
  }

  // ----- What the protocol assumes -----

  /** The run has not read the row's table of its day yet, and is not about to prune the row unread. */
  predicate Ahead(st: State, r: Row) {
    var day := DayOf(r.ts);
    match st.pc
    case Idle => true
    case AtDay(d) => day >= d
    case Exporting(d, _, taken) => day > d || (day == d && r.table !in taken)
    case Fetched(d, _, taken) => day > d || (day == d && r.table !in taken)
    case Pruning(limit) => !Prunable(r, st.keep, st.lastDay, limit)
    case _ => day > st.pc.d
  }

  /** Some table's window lets rows of the day be pruned when the run passes its last day. */
  predicate DueDay(st: State, d: int) {
    exists t :: t in st.keep && st.keep[t] >= 0 && DayStart(d) < Cutoff(st.keep[t], st.lastDay, DayStart(st.lastDay + 1))
  }

  /** From the catch-up bound on every day due for pruning is settled; an earlier recorded day is settled, or its mark is read
      and no stale temporary file is there. */
  predicate VisitOk(st: State, readOk: bool)
    requires st.pc.AtDay?
  {
    var d, s := st.pc.d, st.s;
    if d > st.lastDay then true
    else if d - st.first >= MAX_DAYS then forall e :: d <= e <= st.lastDay && DueDay(st, e) ==> Settled(s, e)
    else d in s.manifest ==> if d in s.dirty then readOk && !StaleCache(s, d) else d !in s.owed
  }

  /** Late rows come outside a run or ahead of it, from a writer that marks, unless the day is not recorded or a mark is there
      or coming anyway; the mark comes before the run visits the day, and comes. */
  predicate Tame(st: State, step: Step) {
    match step
    case Write(r, marks) => Ahead(st, r) && (marks || !Settled(st.s, DayOf(r.ts)))
    case Drop(d) => d !in st.s.owed || d !in st.s.manifest || d in st.s.dirty
    case Visit(readOk) => st.pc.AtDay? ==> VisitOk(st, readOk)
    case _ => true
  }

  predicate TameRun(st: State, steps: seq<Step>)
    decreases |steps|
  {
    steps == [] || (Enabled(st, steps[0]) && Tame(st, steps[0]) && TameRun(Apply(st, steps[0]), steps[1..]))
  }

  predicate IsRun(st: State, steps: seq<Step>)
    decreases |steps|
  {
    steps == [] || (Enabled(st, steps[0]) && IsRun(Apply(st, steps[0]), steps[1..]))
  }

  function After(st: State, steps: seq<Step>): State
    requires IsRun(st, steps)
    decreases |steps|
  {
    if steps == [] then st else After(Apply(st, steps[0]), steps[1..])
  }

  function Start(keep: map<nat, int>): State { State(EMPTY, Idle, 0, 0, keep) }

  // ----- The invariant -----

  /** Every local row of a day before d is archived. */
  predicate DoneBefore(s: Store, d: int) { forall r :: r in s.local && DayOf(r.ts) < d ==> Archived(s, r) }

  predicate PhaseOk(st: State) {
    var s := st.s;
    match st.pc
    case Idle => true
    case AtDay(d) => DoneBefore(s, d)
    case Exporting(d, file, taken) =>
      DoneBefore(s, d) && d !in s.manifest && file == OfTables(DayRows(s.written, d), taken)
    case ToUpload(d, file) =>
      DoneBefore(s, d) && file == DayRows(s.written, d) && (d in s.cache ==> s.cache[d] == file)
    case Uploaded(d) => DoneBefore(s, d) && d in s.remote && Covered(s, d)
    case Fetched(d, base, taken) =>
      && DoneBefore(s, d) && d in s.cache && d in s.manifest && base <= s.cache[d]
      && OfTables(DayRows(s.written, d), taken) <= s.cache[d]
      && RemoteRows(s, d) <= base && (DayRows(s.local, d) <= base ==> Covered(s, d))
    case Clearing(d) =>
      DoneBefore(s, d) && Covered(s, d) && (DayRows(s.local, d) == {} || d in s.manifest)
    case Pruning(limit) => forall r :: r in s.local && Prunable(r, st.keep, st.lastDay, limit) ==> Archived(s, r)
  }

  predicate Inv(st: State) { Safe(st.s) && (forall r :: r in st.s.written ==> r.table in st.keep) && PhaseOk(st) }

  /** A day not recorded has all its rows locally. */
  lemma UnrecordedIsLocal(s: Store, d: int)
    requires Safe(s) && d !in s.manifest
    ensures DayRows(s.written, d) == DayRows(s.local, d)
  {
  }

  /** A recorded day's rows are those of its file and the local ones. */
  lemma RecordedRows(s: Store, d: int, file: set<Row>)
    requires Safe(s) && RemoteRows(s, d) <= file <= DayRows(s.written, d)
    ensures file + DayRows(s.local, d) == DayRows(s.written, d)
  {
    forall r | r in DayRows(s.written, d) ensures r in file + DayRows(s.local, d) {
      assert r in s.local || Archived(s, r);
    }
  }

  lemma AddRow(s: Store, t: Store, r: Row)
    requires t.local == s.local + {r} && t.written == s.written + {r} && t.remote == s.remote && t.manifest == s.manifest
    ensures forall d :: DayRows(t.written, d) == DayRows(s.written, d) + if DayOf(r.ts) == d then {r} else {}
    ensures forall d :: DayRows(t.local, d) == DayRows(s.local, d) + if DayOf(r.ts) == d then {r} else {}
    ensures forall x :: Archived(t, x) == Archived(s, x)
  {
    hide DayOf;
  }

  lemma WriteKeeps(st: State, r: Row, marks: bool)
    requires Inv(st) && Enabled(st, Write(r, marks)) && Tame(st, Write(r, marks))
    ensures Inv(Apply(st, Write(r, marks)))
  {
    hide DayOf, DayStart, Prunable, Archived;
    var t := Apply(st, Write(r, marks));
    AddRow(st.s, t.s, r);
    WrittenSafe(st, r, marks);
    assert PhaseOk(t) by {
      if st.pc.Exporting? || st.pc.Fetched? { TakenAfterWrite(st.s, t.s, r, st.pc.d, st.pc.taken); }
      if st.pc.Fetched? && r in st.pc.base { assert r in DayRows(st.s.written, st.pc.d); }
    }
  }

  lemma WrittenSafe(st: State, r: Row, marks: bool)
    requires Inv(st) && Enabled(st, Write(r, marks)) && (marks || !Settled(st.s, DayOf(r.ts)))
    ensures Safe(Apply(st, Write(r, marks)).s)
  {
    hide DayOf, DayStart, Archived;
    AddRow(st.s, Apply(st, Write(r, marks)).s, r);
  }

  lemma TakenAfterWrite(s: Store, t: Store, r: Row, d: int, taken: set<nat>)
    requires t.written == s.written + {r} && (DayOf(r.ts) != d || r.table !in taken)
    ensures OfTables(DayRows(t.written, d), taken) == OfTables(DayRows(s.written, d), taken)
  {
    hide DayOf;
  }

  lemma MarkKeeps(st: State, step: Step)
    requires Inv(st) && Tame(st, step) && (step.Mark? || step.Drop?)
    ensures Inv(Apply(st, step))
  {
    hide DayOf, DayStart, Prunable;
    var s, t := st.s, Apply(st, step).s;
    forall r | Archived(s, r) ensures Archived(t, r) {
    }
  }

  lemma VisitKeeps(st: State, readOk: bool)
    requires Inv(st) && st.pc.AtDay? && VisitOk(st, readOk)
    ensures Inv(VisitDay(st, readOk))
  {
    hide DayOf, DayStart, Prunable, DueDay;
    var d, s := st.pc.d, st.s;
    var t := VisitDay(st, readOk);
    if d > st.lastDay || d - st.first >= MAX_DAYS {
      StopKeeps(st);
    } else if d !in s.manifest {
    } else if d !in s.dirty {
      PassSettled(s, d);
    } else if d in s.cache {
      if DayRows(s.local, d) <= s.cache[d] {
        RecordedRows(s, d, RemoteRows(s, d));
      }
    } else {
      RecordedRows(s, d, RemoteRows(s, d));
    }
  }

  lemma PassSettled(s: Store, d: int)
    requires Safe(s) && DoneBefore(s, d) && Settled(s, d)
    ensures DoneBefore(s, d + 1)
  {
    hide DayOf;
    forall r | r in s.local && DayOf(r.ts) < d + 1 ensures Archived(s, r) {
      if DayOf(r.ts) == d { assert r in DayRows(s.written, d); }
    }
  }

  /** Where the day loop stops, at the last day or the catch-up bound, whatever is due is archived. */
  lemma StopKeeps(st: State)
    requires Inv(st) && st.pc.AtDay?
    requires st.pc.d > st.lastDay || forall e :: st.pc.d <= e <= st.lastDay && DueDay(st, e) ==> Settled(st.s, e)
    ensures Inv(st.(pc := Pruning(DayStart(st.lastDay + 1))))
  {
    hide DayOf, DayStart;
    var d, s, limit := st.pc.d, st.s, DayStart(st.lastDay + 1);
    forall r | r in s.local && Prunable(r, st.keep, st.lastDay, limit) ensures Archived(s, r) {
      DueRow(st, r, limit);
      if DayOf(r.ts) >= d {
        assert r in DayRows(s.written, DayOf(r.ts));
      }
    }
  }

  lemma DueRow(st: State, r: Row, limit: int)
    requires Prunable(r, st.keep, st.lastDay, limit) && limit <= DayStart(st.lastDay + 1)
    ensures DayOf(r.ts) <= st.lastDay && DueDay(st, DayOf(r.ts))
  {
    assert DayStart(DayOf(r.ts)) <= r.ts;
  }

  lemma DayBoundsAll(d: int)
    ensures forall ts :: ts < DayStart(d) <==> DayOf(ts) < d
  {
  }

  lemma TakeKeeps(st: State, t: nat)
    requires Inv(st) && Enabled(st, Take(t))
    ensures Inv(TakeTable(st, t))
  {
    hide DayOf, DayStart;
    var d, s := st.pc.d, st.s;
    var rows := OfTables(DayRows(s.local, d), {t});
    assert rows <= DayRows(s.written, d);
    if st.pc.Exporting? {
      UnrecordedIsLocal(s, d);
      assert st.pc.file + rows == OfTables(DayRows(s.written, d), st.pc.taken + {t});
    } else {
      var next := TakeTable(st, t).s;
      assert Safe(next);
      forall r | r in DayRows(s.written, d) && r.table in st.pc.taken + {t} ensures r in next.cache[d] {
        assert r in s.local || Archived(s, r);
        if r.table in st.pc.taken { assert r in OfTables(DayRows(s.written, d), st.pc.taken); }
      }
    }
  }

  lemma AllTables(st: State, d: int)
    requires Inv(st)
    ensures OfTables(DayRows(st.s.written, d), st.keep.Keys) == DayRows(st.s.written, d)
  {
    hide DayOf, PhaseOk, Safe;
  }

  lemma TakenKeeps(st: State)
    requires Inv(st) && Enabled(st, Taken)
    ensures Inv(DayTaken(st))
  {
    hide DayOf, DayStart;
    var d, s := st.pc.d, st.s;
    AllTables(st, d);
    if st.pc.Exporting? {
      UnrecordedIsLocal(s, d);
    } else {
      assert s.cache[d] == DayRows(s.written, d);
      if |s.cache[d]| <= |st.pc.base| { SameSize(st.pc.base, s.cache[d]); }
      assert DayRows(s.local, d) <= DayRows(s.written, d);
    }
  }

  lemma SameSize(a: set<Row>, b: set<Row>)
    requires a <= b && |b| <= |a|
    ensures a == b
  {
    assert b == a + (b - a);
    assert |b| == |a| + |b - a|;
  }

  lemma UploadKeeps(st: State, stored: bool, ok: bool)
    requires Inv(st) && Enabled(st, Upload(stored, ok))
    ensures Inv(Apply(st, Upload(stored, ok)))
  {
    hide DayOf, DayStart;
    var d, s := st.pc.d, st.s;
    DayBoundsAll(d);
    if stored {
      var t := s.(remote := s.remote[d := st.pc.file]);
      forall r | r in s.written && Archived(s, r) ensures Archived(t, r) {
        if DayOf(r.ts) == d { assert r in DayRows(s.written, d); }
      }
      assert Safe(t);
    }
  }

  lemma RestKeeps(st: State, step: Step)
    requires Inv(st) && Enabled(st, step)
    requires step.Record? || step.Clear? || step.Fail? || step.Prune? || step.End? || step.Crash? || step.Wipe?
    ensures Inv(Apply(st, step))
  {
    hide DayOf, DayStart;
    var s, t := st.s, Apply(st, step);
    if !st.pc.Idle? && !st.pc.Pruning? { DayBoundsAll(st.pc.d); }
    if step.Clear? && step.ok {
      var d := st.pc.d;
      forall r | r in s.local && DayOf(r.ts) < d + 1 ensures Archived(s, r) {
        if DayOf(r.ts) == d { assert r in DayRows(s.written, d) && r in DayRows(s.local, d); }
      }
    }
    forall r | r in s.written && Archived(s, r) ensures Archived(t.s, r) {
    }
  }

  lemma BeginKeeps(st: State, oldest: Row, last: int)
    requires Inv(st) && Enabled(st, Begin(oldest, last))
    ensures Inv(Apply(st, Begin(oldest, last)))
  {
    DayMonotone();
  }

  lemma DayMonotone()
    ensures forall a, b :: a <= b ==> DayOf(a) <= DayOf(b)
  {
  }

  lemma StepKeeps(st: State, step: Step)
    requires Inv(st) && Enabled(st, step) && Tame(st, step)
    ensures Inv(Apply(st, step))
  {
    hide Inv;
    match step
    case Write(r, marks) => WriteKeeps(st, r, marks);
    case Mark(_) => MarkKeeps(st, step);
    case Drop(_) => MarkKeeps(st, step);
    case Begin(oldest, last) => BeginKeeps(st, oldest, last);
    case Visit(readOk) => VisitKeeps(st, readOk);
    case Take(t) => TakeKeeps(st, t);
    case Taken => TakenKeeps(st);
    case Upload(stored, ok) => UploadKeeps(st, stored, ok);
    case _ => RestKeeps(st, step);
  }

  /** No row is ever lost: over any run of the protocol, with failures and crashes anywhere, every row ever written is local
      or in the remote file of its day, provided every late row comes between runs or ahead of one and is marked before the
      run visits its day, marks can be read, days due past the catch-up bound are settled, and no stale temporary file
      outlives a crash. */
  lemma {:induction false} NoRowLost(st: State, steps: seq<Step>)
    requires Inv(st) && TameRun(st, steps)
    ensures IsRun(st, steps) && Inv(After(st, steps))
    ensures forall r :: !Lost(After(st, steps).s, r)
    decreases |steps|
  {
    if steps != [] {
      hide Inv, Tame, Apply, Enabled;
      StepKeeps(st, steps[0]);
      NoRowLost(Apply(st, steps[0]), steps[1..]);
    }
  }

  lemma StartOk(keep: map<nat, int>)
    ensures Inv(Start(keep))
  {
  }

  // ----- A marked day, once every step succeeds -----

  /** The statements of a collection, one per table in this order. */
  function TakeAll(st: State, order: seq<nat>): (e: State)
    requires Collecting(st)
    ensures Collecting(e) && e.pc.d == st.pc.d && e.pc.Fetched? == st.pc.Fetched?
  {
    if order == [] then st else TakeTable(TakeAll(st, order[..|order| - 1]), order[|order| - 1])
  }

  lemma {:induction false} TakeAllIs(st: State, order: seq<nat>)
    requires st.pc.Fetched? && st.pc.d in st.s.cache
    ensures var d, e, tables := st.pc.d, TakeAll(st, order), set t | t in order;
            && e == st.(s := st.s.(cache := e.s.cache), pc := Fetched(d, st.pc.base, st.pc.taken + tables))
            && e.s.cache[d] == st.s.cache[d] + OfTables(DayRows(st.s.local, d), tables)
  {
    hide DayRows;
    var d, rows := st.pc.d, DayRows(st.s.local, st.pc.d);
    if order == [] {
      assert (set t | t in order) == {} && OfTables(rows, {}) == {};
      assert st.pc.taken + {} == st.pc.taken;
    } else {
      var init, t := order[..|order| - 1], order[|order| - 1];
      TakeAllIs(st, init);
      assert (set x | x in order) == (set x | x in init) + {t};
      assert OfTables(rows, set x | x in order) == OfTables(rows, set x | x in init) + OfTables(rows, {t});
    }
  }

  /** The visit of a marked day when every step succeeds. */
  function FullVisit(st: State, order: seq<nat>): State
    requires Inv(st) && st.pc.AtDay? && st.pc.d in st.s.manifest && st.pc.d in st.s.dirty
    requires st.pc.d <= st.lastDay && st.pc.d - st.first < MAX_DAYS
  {
    var m := DayTaken(TakeAll(VisitDay(st, true), order));
    var c := if m.pc.ToUpload? then Apply(Apply(m, Upload(true, true)), Record(true)) else m;
    Apply(c, Clear(true))
  }

  /** The remote file then holds every row of the day exactly when no stale temporary file was there. */
  lemma RearchiveCovers(st: State, order: seq<nat>)
    requires Inv(st) && st.pc.AtDay? && st.pc.d in st.s.manifest && st.pc.d in st.s.dirty
    requires st.pc.d <= st.lastDay && st.pc.d - st.first < MAX_DAYS && (set t | t in order) == st.keep.Keys
    ensures var e := FullVisit(st, order);
            && e.pc == AtDay(st.pc.d + 1) && st.pc.d !in e.s.dirty
            && (Covered(e.s, st.pc.d) <==> !StaleCache(st.s, st.pc.d))
  {
    hide DayOf, DayStart;
    var d, s := st.pc.d, st.s;
    var base := FetchedFile(s, d);
    var file := base + DayRows(s.local, d);
    FullVisitIs(st, order);
    RecordedRows(s, d, RemoteRows(s, d));
    RecordedRows(s, d, base);
    hide FullVisit;
    if |file| <= |base| {
      SameSize(base, file);
      assert DayRows(s.local, d) <= file;
    } else {
      assert DayRows(s.local, d) <= base ==> file == base;
    }
  }

  /** What fetching the day gives: the temporary file when one is there. */
  function FetchedFile(s: Store, d: int): set<Row>
    requires d in s.cache || d in s.remote
  {
    if d in s.cache then s.cache[d] else s.remote[d]
  }

  /** The fetched file and all local rows of the day are uploaded when that is more than was fetched. */
  lemma FullVisitIs(st: State, order: seq<nat>)
    requires Inv(st) && st.pc.AtDay? && st.pc.d in st.s.manifest && st.pc.d in st.s.dirty
    requires st.pc.d <= st.lastDay && st.pc.d - st.first < MAX_DAYS && (set t | t in order) == st.keep.Keys
    ensures var d, s, e := st.pc.d, st.s, FullVisit(st, order);
            var base := FetchedFile(s, d);
            var file := base + DayRows(s.local, d);
            && e.pc == AtDay(d + 1) && d !in e.s.dirty && e.s.written == s.written
            && e.s.remote == if |file| > |base| then s.remote[d := file] else s.remote
  {
    hide DayOf, DayStart, DayRows, TakeAll, VisitDay, Inv;
    FullMerge(st, order);
    Finishes(TakeAll(VisitDay(st, true), order));
  }

  lemma FullMerge(st: State, order: seq<nat>)
    requires Inv(st) && st.pc.AtDay? && st.pc.d in st.s.manifest && st.pc.d in st.s.dirty
    requires st.pc.d <= st.lastDay && st.pc.d - st.first < MAX_DAYS && (set t | t in order) == st.keep.Keys
    ensures var d, s, f := st.pc.d, st.s, VisitDay(st, true);
            var base := FetchedFile(s, d);
            && Collecting(f)
            && var m := TakeAll(f, order);
               && m == st.(s := s.(cache := m.s.cache), pc := Fetched(d, base, st.keep.Keys))
               && m.s.cache[d] == base + DayRows(s.local, d)
  {
    hide DayOf, DayStart, TakeAll;
    TakeAllIs(VisitDay(st, true), order);
    assert OfTables(DayRows(st.s.local, st.pc.d), st.keep.Keys) == DayRows(st.s.local, st.pc.d);
    assert {} + st.keep.Keys == st.keep.Keys;
  }

  /** From a completely merged file to the next day. */
  lemma Finishes(m: State)
    requires m.pc.Fetched? && m.pc.d in m.s.cache
    ensures var d, file, t := m.pc.d, m.s.cache[m.pc.d], DayTaken(m);
            var c := if t.pc.ToUpload? then Apply(Apply(t, Upload(true, true)), Record(true)) else t;
            var e := Apply(c, Clear(true));
            && e.pc == AtDay(d + 1) && d !in e.s.dirty && e.s.written == m.s.written
            && e.s.remote == if |file| > |m.pc.base| then m.s.remote[d := file] else m.s.remote
  {
    hide DayStart;
  }

  // ----- Each guard is the weakest -----

  /** A late row leaves the invariant in place exactly when the run has not read its table of its day yet and its day is not
      settled without a mark to come, or the row is not new. */
  lemma LateWriteExact(st: State, r: Row, marks: bool)
    requires Inv(st) && Enabled(st, Write(r, marks))
    ensures Inv(Apply(st, Write(r, marks))) <==>
            r in st.s.written || (Ahead(st, r) && (marks || !Settled(st.s, DayOf(r.ts))))
  {
    hide DayOf, DayStart, Prunable;
    var s, t := st.s, Apply(st, Write(r, marks)).s;
    if r in s.written {
      OldRow(st, r, marks);
    } else if Ahead(st, r) && (marks || !Settled(s, DayOf(r.ts))) {
      WriteKeeps(st, r, marks);
    } else {
      assert r !in RemoteRows(t, DayOf(r.ts));
      assert r in DayRows(t.written, DayOf(r.ts));
      if st.pc.ToUpload? { assert r !in DayRows(s.written, st.pc.d); }
      if (st.pc.Exporting? || st.pc.Fetched?) && DayOf(r.ts) == st.pc.d && r.table in st.pc.taken {
        assert r in OfTables(DayRows(t.written, st.pc.d), st.pc.taken);
        assert r !in OfTables(DayRows(s.written, st.pc.d), st.pc.taken);
      }
    }
  }

  /** Writing a row again changes no row of its day that is not archived. */
  lemma OldRow(st: State, r: Row, marks: bool)
    requires Inv(st) && r in st.s.written && Enabled(st, Write(r, marks))
    ensures Inv(Apply(st, Write(r, marks)))
  {
    hide DayOf, DayStart, Prunable;
    var s, t := st.s, Apply(st, Write(r, marks)).s;
    assert t.written == s.written;
    if r in s.local {
      assert t.local == s.local;
    } else {
      assert Archived(s, r);
    }
    forall x | x in s.written ensures Archived(t, x) == Archived(s, x) {
    }
    if st.pc.Fetched? && DayOf(r.ts) == st.pc.d && r !in s.local { assert r in RemoteRows(s, st.pc.d); }
  }

  /** The same run and bookkeeping over other rows: what a run cannot see before it reads the tables. */
  function Varied(st: State, local: set<Row>, written: set<Row>): State {
    st.(s := st.s.(local := local, written := written))
  }

  /** Whatever rows there are, passing over the day keeps the invariant. */
  ghost predicate PassSafe(st: State, readOk: bool)
    requires st.pc.AtDay?
  {
    forall local, written :: Inv(Varied(st, local, written)) ==> Inv(VisitDay(Varied(st, local, written), readOk))
  }

  /** A recorded day is passed over when it carries no mark, or none that can be read. That is safe, whatever rows it has, if
      and only if it is settled: no mark is there and no writer owes one. */
  lemma PassedDayExact(st: State, readOk: bool)
    requires Inv(st) && st.pc.AtDay? && st.pc.d in st.s.manifest && st.pc.d <= st.lastDay && st.pc.d - st.first < MAX_DAYS
    requires (!readOk || st.pc.d !in st.s.dirty) && st.keep != map[]
    ensures PassSafe(st, readOk) <==> Settled(st.s, st.pc.d)
  {
    hide DayOf, DayStart, Inv, Prunable;
    var d := st.pc.d;
    if Settled(st.s, d) {
      forall local, written | Inv(Varied(st, local, written)) ensures Inv(VisitDay(Varied(st, local, written), readOk)) {
        VisitKeeps(Varied(st, local, written), readOk);
      }
    } else {
      var t :| t in st.keep.Keys;
      var r := NewRowOf(st, t, d);
      var more := Varied(st, st.s.local + {r}, st.s.written + {r});
      WriteKeeps(st, r, false);
      assert more == Apply(st, Write(r, false));
      PassLoses(more, readOk, r);
    }
  }

  lemma PassLoses(st: State, readOk: bool, r: Row)
    requires Inv(st) && st.pc.AtDay? && st.pc.d in st.s.manifest && st.pc.d <= st.lastDay && st.pc.d - st.first < MAX_DAYS
    requires !readOk || st.pc.d !in st.s.dirty
    requires r in st.s.local && DayOf(r.ts) == st.pc.d && r !in RemoteRows(st.s, st.pc.d)
    ensures !Inv(VisitDay(st, readOk))
  {
    hide DayOf, DayStart;
    assert DayOf(r.ts) < st.pc.d + 1;
  }

  /** A row of a day no store has seen, at the day's first second. */
  lemma NewRowOf(st: State, t: nat, d: int) returns (r: Row)
    requires Inv(st)
    ensures r == Row(t, r.key, DayStart(d)) && DayOf(r.ts) == d && r !in st.s.written && r !in RemoteRows(st.s, d)
  {
    var key := NewKey(st.s.written);
    r := Row(t, key, DayStart(d));
    assert RemoteRows(st.s, d) <= DayRows(st.s.written, d);
  }

  lemma {:induction false} NewKey(rows: set<Row>) returns (key: int)
    ensures forall r :: r in rows ==> r.key < key
    decreases |rows|
  {
    key := 0;
    if rows != {} {
      var r :| r in rows;
      var rest := NewKey(rows - {r});
      key := Max(rest, r.key + 1);
    }
  }

  /** The mark of committed rows never comes: safe between runs, whatever rows there are, if and only if none was owed, the day
      is not recorded, or another mark is there. */
  lemma DroppedMarkExact(st: State, d: int)
    requires Inv(st) && st.pc.Idle? && st.keep != map[]
    ensures DropSafe(st, d) <==> d !in st.s.owed || d !in st.s.manifest || d in st.s.dirty
  {
    hide DayOf, DayStart, Inv, Prunable;
    if d !in st.s.owed || d !in st.s.manifest || d in st.s.dirty {
      forall local, written | Inv(Varied(st, local, written)) ensures Inv(Apply(Varied(st, local, written), Drop(d))) {
        MarkKeeps(Varied(st, local, written), Drop(d));
      }
    } else {
      var t :| t in st.keep.Keys;
      var r := NewRowOf(st, t, d);
      var more := Varied(st, st.s.local + {r}, st.s.written + {r});
      WriteKeeps(st, r, false);
      assert more == Apply(st, Write(r, false));
      assert !Inv(Apply(more, Drop(d))) by { UncoveredDrop(more, d, r); }
    }
  }

  ghost predicate DropSafe(st: State, d: int) {
    forall local, written :: Inv(Varied(st, local, written)) ==> Inv(Apply(Varied(st, local, written), Drop(d)))
  }

  lemma UncoveredDrop(st: State, d: int, r: Row)
    requires d in st.s.manifest && d !in st.s.dirty && r in st.s.written && DayOf(r.ts) == d && r !in RemoteRows(st.s, d)
    ensures !Inv(Apply(st, Drop(d)))
  {
    hide DayOf, DayStart, PhaseOk;
    assert r in DayRows(st.s.written, d);
  }

  function DueRows(st: State): set<Row> {
    set r | r in st.s.local && Prunable(r, st.keep, st.lastDay, DayStart(st.lastDay + 1))
  }

  /** The day loop stops and everything due is pruned. */
  function StopAndPrune(st: State): State {
    st.(pc := Pruning(DayStart(st.lastDay + 1)), s := st.s.(local := st.s.local - DueRows(st)))
  }

  lemma StopIsRun(st: State)
    requires st.pc.AtDay? && (st.pc.d - st.first >= MAX_DAYS || st.pc.d > st.lastDay)
    ensures IsRun(st, [Visit(true), Prune(DueRows(st))]) && After(st, [Visit(true), Prune(DueRows(st))]) == StopAndPrune(st)
  {
    hide DayOf, DayStart, Prunable;
    var p, prune := Apply(st, Visit(true)), Prune(DueRows(st));
    assert Enabled(p, prune);
    assert [Visit(true), prune][1..] == [prune] && [prune][1..] == [];
    assert IsRun(Apply(p, prune), []);
    assert IsRun(p, [prune]) && After(p, [prune]) == Apply(p, prune);
  }

  ghost predicate StopSafe(st: State) {
    forall local, written :: Inv(Varied(st, local, written)) ==> forall r :: !Lost(StopAndPrune(Varied(st, local, written)).s, r)
  }

  /** Stopping at the catch-up bound and pruning what is due loses no row, whatever rows there are, if and only if every day
      from the bound on that is due for pruning is settled. */
  lemma CatchUpExact(st: State)
    requires Inv(st) && st.pc.AtDay? && st.pc.d - st.first >= MAX_DAYS && st.pc.d <= st.lastDay
    ensures StopSafe(st) <==> forall e :: st.pc.d <= e <= st.lastDay && DueDay(st, e) ==> Settled(st.s, e)
    ensures var steps := [Visit(true), Prune(DueRows(st))]; IsRun(st, steps) && After(st, steps) == StopAndPrune(st)
  {
    StopIsRun(st);
    hide DayOf, DayStart, Inv, Prunable, Cutoff;
    if forall e :: st.pc.d <= e <= st.lastDay && DueDay(st, e) ==> Settled(st.s, e) {
      forall local, written | Inv(Varied(st, local, written))
        ensures forall r :: !Lost(StopAndPrune(Varied(st, local, written)).s, r)
      {
        assert forall e :: DueDay(Varied(st, local, written), e) == DueDay(st, e);
        StopLosesNothing(Varied(st, local, written));
      }
    } else {
      var e :| st.pc.d <= e <= st.lastDay && DueDay(st, e) && !Settled(st.s, e);
      var r := DueNewRow(st, e);
      var more := Varied(st, st.s.local + {r}, st.s.written + {r});
      WriteKeeps(st, r, false);
      assert more == Apply(st, Write(r, false));
      assert r in DueRows(more);
      assert Lost(StopAndPrune(more).s, r);
    }
  }

  lemma DueNewRow(st: State, e: int) returns (r: Row)
    requires Inv(st) && e <= st.lastDay && DueDay(st, e)
    ensures r.table in st.keep && DayOf(r.ts) == e && r !in st.s.written && r !in RemoteRows(st.s, e)
    ensures Prunable(r, st.keep, st.lastDay, DayStart(st.lastDay + 1))
  {
    hide DayOf, Inv, Cutoff;
    var t :| t in st.keep && st.keep[t] >= 0 && DayStart(e) < Cutoff(st.keep[t], st.lastDay, DayStart(st.lastDay + 1));
    r := NewRowOf(st, t, e);
  }

  lemma StopLosesNothing(st: State)
    requires Inv(st) && st.pc.AtDay? && st.pc.d <= st.lastDay
    requires forall e :: st.pc.d <= e <= st.lastDay && DueDay(st, e) ==> Settled(st.s, e)
    ensures forall r :: !Lost(StopAndPrune(st).s, r)
  {
    hide DayOf, DayStart, Prunable, DueDay;
    StopKeeps(st);
    forall r ensures !Lost(StopAndPrune(st).s, r) {
      if r in st.s.written { assert r in st.s.local || Archived(st.s, r); }
    }
  }

  // ----- Each assumption is needed -----

  lemma {:induction false} Extend(st: State, steps: seq<Step>, step: Step)
    requires IsRun(st, steps) && Enabled(After(st, steps), step)
    ensures IsRun(st, steps + [step]) && After(st, steps + [step]) == Apply(After(st, steps), step)
    decreases |steps|
  {
    if steps == [] {
      assert [step][1..] == [];
    } else {
      Extend(Apply(st, steps[0]), steps[1..], step);
      assert (steps + [step])[1..] == steps[1..] + [step];
    }
  }

  lemma NoSteps(st: State)
    ensures IsRun(st, []) && After(st, []) == st
  {
  }

  /** One table, pruned as soon as the day is archived; two rows of one day. */
  const KEEP: map<nat, int> := map[0 := 0]
  const EARLY := Row(0, 1, 0)
  const LATE := Row(0, 2, 0)

  lemma DayOfBoth()
    ensures DayOf(0) == 0 && DayStart(0) <= 0 < DayStart(1)
    ensures DayRows({EARLY}, 0) == {EARLY} && DayRows({LATE}, 0) == {LATE} && DayRows({EARLY, LATE}, 0) == {EARLY, LATE}
    ensures DayRows({}, 0) == {}
    ensures OfTables({EARLY}, {0}) == {EARLY} && OfTables({LATE}, {0}) == {LATE} && OfTables({EARLY, LATE}, {0}) == {EARLY, LATE}
    ensures KEEP.Keys == {0} && {} + {0} == {0}
  {
  }

  /** A run that has read the early row's table of its day. */
  lemma Reading() returns (steps: seq<Step>)
    ensures IsRun(Start(KEEP), steps)
    ensures After(Start(KEEP), steps) ==
            State(Store({EARLY}, map[], {}, {}, {}, map[], {EARLY}), Exporting(0, {EARLY}, {0}), 0, 0, KEEP)
  {
    DayOfBoth();
    hide DayOf, DayStart, DayRows, OfTables, After, IsRun;
    steps := [];
    NoSteps(Start(KEEP));
    Extend(Start(KEEP), steps, Write(EARLY, false));
    steps := steps + [Write(EARLY, false)];
    assert {} + {EARLY} == {EARLY};
    Extend(Start(KEEP), steps, Begin(EARLY, 0));
    steps := steps + [Begin(EARLY, 0)];
    Extend(Start(KEEP), steps, Visit(true));
    steps := steps + [Visit(true)];
    Extend(Start(KEEP), steps, Take(0));
    steps := steps + [Take(0)];
  }

  /** From an uploadable file to the next day. */
  lemma RecordDay(st0: State, steps0: seq<Step>) returns (steps: seq<Step>)
    requires IsRun(st0, steps0) && After(st0, steps0).pc.ToUpload?
    ensures IsRun(st0, steps)
    ensures var st, s := After(st0, steps0), After(st0, steps0).s;
            var d := st.pc.d;
            After(st0, steps) ==
            st.(s := s.(remote := s.remote[d := st.pc.file], manifest := s.manifest + {d}, dirty := s.dirty - {d}), pc := AtDay(d + 1))
  {
    hide DayOf, DayStart, DayRows, OfTables, IsRun, After;
    Extend(st0, steps0, Upload(true, true));
    steps := steps0 + [Upload(true, true)];
    Extend(st0, steps, Record(true));
    steps := steps + [Record(true)];
    Extend(st0, steps, Clear(true));
    steps := steps + [Clear(true)];
  }

  /** From an uploadable file of the last day to the start of pruning. */
  lemma Finish(st0: State, steps0: seq<Step>) returns (steps: seq<Step>)
    requires IsRun(st0, steps0)
    requires var st := After(st0, steps0); st.pc.ToUpload? && st.pc.d == st.lastDay
    ensures IsRun(st0, steps)
    ensures var st, s := After(st0, steps0), After(st0, steps0).s;
            var d := st.pc.d;
            After(st0, steps) ==
            State(s.(remote := s.remote[d := st.pc.file], manifest := s.manifest + {d}, dirty := s.dirty - {d}),
                  Pruning(DayStart(d + 1)), st.first, d, st.keep)
  {
    hide DayOf, DayStart, DayRows, OfTables, IsRun, After;
    steps := RecordDay(st0, steps0);
    Extend(st0, steps, Visit(true));
    steps := steps + [Visit(true)];
  }

  /** A row written and marked after its table was read in the same run is unmarked with its day, pruned, and lost. */
  lemma LateRowInRunIsLost() returns (steps: seq<Step>)
    ensures IsRun(Start(KEEP), steps) && Lost(After(Start(KEEP), steps).s, LATE)
  {
    DayOfBoth();
    hide DayOf, DayStart, DayRows, OfTables, IsRun, After;
    steps := Reading();
    Extend(Start(KEEP), steps, Write(LATE, true));
    steps := steps + [Write(LATE, true)];
    Extend(Start(KEEP), steps, Mark(0));
    steps := steps + [Mark(0)];
    Extend(Start(KEEP), steps, Taken);
    steps := steps + [Taken];
    steps := Finish(Start(KEEP), steps);
    Extend(Start(KEEP), steps, Prune({EARLY, LATE}));
    steps := steps + [Prune({EARLY, LATE})];
  }

  /** The early row archived, pruned and the run over; then the late row, and its mark if marked; then the next run begun. */
  lemma SecondRun(marked: bool) returns (steps: seq<Step>)
    ensures IsRun(Start(KEEP), steps)
    ensures After(Start(KEEP), steps) ==
            State(Store({LATE}, map[0 := {EARLY}], {0}, if marked then {0} else {}, if marked then {} else {0}, map[], {EARLY, LATE}),
                  AtDay(0), 0, 0, KEEP)
  {
    DayOfBoth();
    hide DayOf, DayStart, DayRows, OfTables, IsRun, After;
    steps := Reading();
    Extend(Start(KEEP), steps, Taken);
    steps := steps + [Taken];
    steps := Finish(Start(KEEP), steps);
    Extend(Start(KEEP), steps, Prune({EARLY}));
    steps := steps + [Prune({EARLY})];
    Extend(Start(KEEP), steps, End);
    steps := steps + [End];
    Extend(Start(KEEP), steps, Write(LATE, true));
    steps := steps + [Write(LATE, true)];
    if marked {
      Extend(Start(KEEP), steps, Mark(0));
      steps := steps + [Mark(0)];
    }
    Extend(Start(KEEP), steps, Begin(LATE, 0));
    steps := steps + [Begin(LATE, 0)];
  }

  /** From a passed last day on: the loop ends and the late row is pruned. */
  lemma PassAndPrune(steps0: seq<Step>) returns (steps: seq<Step>)
    requires IsRun(Start(KEEP), steps0)
    requires var st := After(Start(KEEP), steps0); st.pc == AtDay(1) && st.lastDay == 0 && st.keep == KEEP && LATE in st.s.local
    ensures IsRun(Start(KEEP), steps)
    ensures var st := After(Start(KEEP), steps0);
            After(Start(KEEP), steps) == st.(s := st.s.(local := st.s.local - {LATE}), pc := Pruning(DayStart(1)))
  {
    DayOfBoth();
    hide DayOf, DayStart, DayRows, OfTables, IsRun, After;
    Extend(Start(KEEP), steps0, Visit(true));
    steps := steps0 + [Visit(true)];
    Extend(Start(KEEP), steps, Prune({LATE}));
    steps := steps + [Prune({LATE})];
  }

  /** Rows are committed before their day is marked: a run that passes the day in between prunes them, whether the mark comes
      afterwards or, the writer having died, never. */
  lemma MarkTooLateLoses(dies: bool) returns (steps: seq<Step>)
    ensures IsRun(Start(KEEP), steps) && Lost(After(Start(KEEP), steps).s, LATE)
  {
    DayOfBoth();
    hide DayOf, DayStart, DayRows, OfTables, IsRun, After;
    steps := SecondRun(false);
    Extend(Start(KEEP), steps, Visit(true));
    steps := steps + [Visit(true)];
    steps := PassAndPrune(steps);
    var last := if dies then Drop(0) else Mark(0);
    Extend(Start(KEEP), steps, last);
    steps := steps + [last];
  }

  /** A mark that cannot be read counts as none: the late row is pruned without being merged. */
  lemma UnreadMarkLoses() returns (steps: seq<Step>)
    ensures IsRun(Start(KEEP), steps) && Lost(After(Start(KEEP), steps).s, LATE)
  {
    DayOfBoth();
    hide DayOf, DayStart, DayRows, OfTables, IsRun, After;
    steps := SecondRun(true);
    Extend(Start(KEEP), steps, Visit(false));
    steps := steps + [Visit(false)];
    steps := PassAndPrune(steps);
  }

  /** The run that merges the late row, crashed before its upload. */
  lemma CrashedMerge() returns (steps: seq<Step>)
    ensures IsRun(Start(KEEP), steps)
    ensures After(Start(KEEP), steps) ==
            State(Store({LATE}, map[0 := {EARLY}], {0}, {0}, {}, map[0 := {EARLY, LATE}], {EARLY, LATE}), Idle, 0, 0, KEEP)
  {
    DayOfBoth();
    hide DayOf, DayStart, DayRows, OfTables, IsRun, After;
    steps := SecondRun(true);
    var both := {EARLY, LATE};
    Extend(Start(KEEP), steps, Visit(true));
    steps := steps + [Visit(true)];
    Extend(Start(KEEP), steps, Take(0));
    steps := steps + [Take(0)];
    Extend(Start(KEEP), steps, Taken);
    steps := steps + [Taken];
    assert {EARLY} + {LATE} == both && |both| == 2 && |{EARLY}| == 1;
    Extend(Start(KEEP), steps, Crash);
    steps := steps + [Crash];
  }

  /** A crash between merging and uploading leaves the merged file; the next run takes it for the remote one, sees nothing
      new, clears the mark and prunes the row. */
  lemma StaleCacheLoses() returns (steps: seq<Step>)
    ensures IsRun(Start(KEEP), steps) && Lost(After(Start(KEEP), steps).s, LATE)
  {
    DayOfBoth();
    hide DayOf, DayStart, DayRows, OfTables, IsRun, After;
    steps := CrashedMerge();
    var both := {EARLY, LATE};
    Extend(Start(KEEP), steps, Begin(LATE, 0));
    steps := steps + [Begin(LATE, 0)];
    Extend(Start(KEEP), steps, Visit(true));
    steps := steps + [Visit(true)];
    Extend(Start(KEEP), steps, Take(0));
    steps := steps + [Take(0)];
    Extend(Start(KEEP), steps, Taken);
    steps := steps + [Taken];
    assert both + {LATE} == both;
    Extend(Start(KEEP), steps, Clear(true));
    steps := steps + [Clear(true)];
    steps := PassAndPrune(steps);
  }

  /** A row exactly MAX_DAYS days after the oldest. */
  const FAR := Row(0, 3, MAX_DAYS * 86400)

  /** Empty days are visited and cleared one after the other. */
  lemma {:induction false} SkipDays(st0: State, steps0: seq<Step>, n: nat) returns (steps: seq<Step>)
    requires IsRun(st0, steps0) && After(st0, steps0).pc.AtDay? && After(st0, steps0).keep == KEEP
    requires var st := After(st0, steps0);
             && st.pc.d + n <= st.lastDay && st.pc.d + n - st.first <= MAX_DAYS && st.s.dirty == {}
             && forall d :: st.pc.d <= d < st.pc.d + n ==> d !in st.s.manifest && DayRows(st.s.local, d) == {}
    ensures IsRun(st0, steps)
    ensures var st := After(st0, steps0); After(st0, steps) == st.(pc := AtDay(st.pc.d + n))
    decreases n
  {
    hide IsRun, After, DayRows;
    steps := steps0;
    if n > 0 {
      steps := SkipDays(st0, steps0, n - 1);
      steps := SkipDay(st0, steps);
    }
  }

  lemma SkipDay(st0: State, steps0: seq<Step>) returns (steps: seq<Step>)
    requires IsRun(st0, steps0) && After(st0, steps0).pc.AtDay? && After(st0, steps0).keep == KEEP
    requires var st := After(st0, steps0);
             && st.pc.d <= st.lastDay && st.pc.d - st.first < MAX_DAYS && st.s.dirty == {}
             && st.pc.d !in st.s.manifest && DayRows(st.s.local, st.pc.d) == {}
    ensures IsRun(st0, steps)
    ensures var st := After(st0, steps0); After(st0, steps) == st.(pc := AtDay(st.pc.d + 1))
  {
    hide Enabled, Apply, DayRows, IsRun, After;
    EmptyDay(After(st0, steps0));
    Extend(st0, steps0, Visit(true));
    steps := steps0 + [Visit(true)];
    Extend(st0, steps, Take(0));
    steps := steps + [Take(0)];
    Extend(st0, steps, Taken);
    steps := steps + [Taken];
    Extend(st0, steps, Clear(true));
    steps := steps + [Clear(true)];
  }

  lemma EmptyDay(st: State)
    requires st.pc.AtDay? && st.keep == KEEP && st.pc.d <= st.lastDay && st.pc.d - st.first < MAX_DAYS && st.s.dirty == {}
    requires st.pc.d !in st.s.manifest && DayRows(st.s.local, st.pc.d) == {}
    ensures Enabled(st, Visit(true))
    ensures var a := Apply(st, Visit(true)); a == st.(pc := Exporting(st.pc.d, {}, {})) && Enabled(a, Take(0))
    ensures var b := st.(pc := Exporting(st.pc.d, {}, {0}));
            Apply(st.(pc := Exporting(st.pc.d, {}, {})), Take(0)) == b && Enabled(b, Taken)
    ensures var c := st.(pc := Clearing(st.pc.d));
            Apply(st.(pc := Exporting(st.pc.d, {}, {0})), Taken) == c && Enabled(c, Clear(true))
    ensures Apply(st.(pc := Clearing(st.pc.d)), Clear(true)) == st.(pc := AtDay(st.pc.d + 1))
  {
    hide DayRows;
    assert OfTables({}, {0}) == {} && {} + {0} == {0} && KEEP.Keys == {0};
    assert {} + OfTables(DayRows(st.s.local, st.pc.d), {0}) == {};
    assert st.s.dirty - {st.pc.d} == st.s.dirty;
  }

  lemma DayOfFar()
    ensures DayOf(EARLY.ts) == 0 && DayOf(FAR.ts) == MAX_DAYS && FAR.ts < DayStart(MAX_DAYS + 1)
    ensures OfTables({EARLY}, {0}) == {EARLY} && {} + {EARLY} == {EARLY} && OfTables({}, {0}) == {} && KEEP.Keys == {0} && {} + {0} == {0}
    ensures DayRows({EARLY, FAR}, 0) == {EARLY} && forall d :: 1 <= d < MAX_DAYS ==> DayRows({EARLY, FAR}, d) == {}
  {
  }

  /** A run over both rows, with the early one's day archived. */
  lemma FarRun() returns (steps: seq<Step>)
    ensures IsRun(Start(KEEP), steps)
    ensures After(Start(KEEP), steps) ==
            State(Store({EARLY, FAR}, map[0 := {EARLY}], {0}, {}, {}, map[], {EARLY, FAR}), AtDay(1), 0, MAX_DAYS, KEEP)
  {
    DayOfFar();
    hide DayOf, DayStart, DayRows, OfTables, IsRun, After;
    steps := [];
    NoSteps(Start(KEEP));
    Extend(Start(KEEP), steps, Write(EARLY, false));
    steps := steps + [Write(EARLY, false)];
    assert {} + {EARLY} == {EARLY};
    Extend(Start(KEEP), steps, Write(FAR, false));
    steps := steps + [Write(FAR, false)];
    assert {EARLY} + {FAR} == {EARLY, FAR};
    Extend(Start(KEEP), steps, Begin(EARLY, MAX_DAYS));
    steps := steps + [Begin(EARLY, MAX_DAYS)];
    Extend(Start(KEEP), steps, Visit(true));
    steps := steps + [Visit(true)];
    Extend(Start(KEEP), steps, Take(0));
    steps := steps + [Take(0)];
    Extend(Start(KEEP), steps, Taken);
    steps := steps + [Taken];
    steps := RecordDay(Start(KEEP), steps);
  }

  /** A run that starts MAX_DAYS days or more back stops visiting but still prunes up to its last day: a row at the bound is
      deleted without having been uploaded. */
  lemma CatchUpBoundLoses() returns (steps: seq<Step>)
    ensures IsRun(Start(KEEP), steps) && Lost(After(Start(KEEP), steps).s, FAR)
  {
    DayOfFar();
    hide DayOf, DayStart, DayRows, OfTables, IsRun, After;
    steps := FarRun();
    steps := SkipDays(Start(KEEP), steps, MAX_DAYS - 1);
    Extend(Start(KEEP), steps, Visit(true));
    steps := steps + [Visit(true)];
    assert DayStart(MAX_DAYS + 1) - 0 * 86400 == DayStart(MAX_DAYS + 1);
    assert EARLY.ts < FAR.ts;
    Extend(Start(KEEP), steps, Prune({EARLY, FAR}));
    steps := steps + [Prune({EARLY, FAR})];
  }
}
