/** Pairing BUY and EXIT signals into completed trades: first in, first out, per key and within one IST day. */
module TradePairing {
  import opened Common

  datatype Action = Buy | Exit | Other

  datatype Key = Key(strategy: string, exchange: string, token: string, side: string)

  /** A signal row; at is in seconds, NO_TIME when it could not be read. */
  datatype Row = Row(action: Action, key: Key, price: int, qty: int, symbol: string, at: int)

  /** The zero time: 0001-01-01 00:00 UTC. */
  const NO_TIME := -62135596800

  function IstDay(at: int): int { (at + 19800) / 86400 }

  /** Times are in seconds, days are IST days. */
  lemma PairingCalendar(at: int)
    ensures OnIstDay(IstDay(at), at * 1_000_000_000)
  {
  }

  predicate SameDay(a: Row, b: Row) { IstDay(a.at) == IstDay(b.at) }

  function NormalizeQty(q: int): int { if q <= 0 then 1 else q }

  /** What became of a row: a BUY waits, was taken by exit x, was discarded at a day change, or was dropped by the cross-day
      guard of exit x. */
  datatype Fate = NotBuy | Waiting | Taken(x: nat) | Flushed | Crossed(x: nat)

  /** fates says it for every row so far; lastDay is the day of the last timestamped row. */
  datatype Book = Book(fates: seq<Fate>, lastDay: Option<int>)

  const EMPTY := Book([], None)

  predicate WaitsFor(rows: seq<Row>, fates: seq<Fate>, j: nat, k: Key)
    requires j < |fates| <= |rows|
  {
    fates[j].Waiting? && rows[j].key == k
  }

  /** The waiting BUYs of a key, oldest first. */
  function Queue(rows: seq<Row>, fates: seq<Fate>, k: Key): (q: seq<nat>)
    requires |fates| <= |rows|
    ensures forall i :: 0 <= i < |q| ==> q[i] < |fates|
  {
    if fates == [] then []
    else
      var n := |fates| - 1;
      Queue(rows, fates[..n], k) + if WaitsFor(rows, fates, n, k) then [n] else []
  }

  function FlushOne(f: Fate, p: Row, r: Row): Fate { if f.Waiting? && !SameDay(p, r) then Flushed else f }

  /** BUYs of other days than r's no longer wait. */
  function FlushAll(rows: seq<Row>, fates: seq<Fate>, r: Row): (g: seq<Fate>)
    requires |fates| <= |rows|
    ensures |g| == |fates| && forall j :: 0 <= j < |g| ==> g[j] == FlushOne(fates[j], rows[j], r)
  {
    seq(|fates|, j requires 0 <= j < |fates| => FlushOne(fates[j], rows[j], r))
  }

  /** The day boundary: a timestamped row of a new day flushes what does not belong to it. */
  function Boundary(rows: seq<Row>, b: Book): (c: Book)
    requires |b.fates| < |rows|
    ensures |c.fates| == |b.fates|
  {
    var r := rows[|b.fates|];
    if r.at == NO_TIME then b
    else
      Book(if b.lastDay.Some? && b.lastDay.value != IstDay(r.at) then FlushAll(rows, b.fates, r) else b.fates,
           Some(IstDay(r.at)))
  }

  /** The guard against pairs over two days. */
  predicate CrossDay(entry: Row, exit: Row) { entry.at != NO_TIME && exit.at != NO_TIME && !SameDay(entry, exit) }

  /** What exit x does with the BUY it takes from the head of the queue: a priceless exit only uses it up. */
  function Consume(entry: Row, exit: Row, x: nat): Fate {
    if exit.price > 0 && CrossDay(entry, exit) then Crossed(x) else Taken(x)
  }

  function Take(rows: seq<Row>, fates: seq<Fate>): (g: seq<Fate>)
    requires |fates| < |rows|
    ensures |g| == |fates| + 1
  {
    var x := |fates|;
    var r := rows[x];
    match r.action
    case Buy => fates + [Waiting]
    case Exit =>
      var q := Queue(rows, fates, r.key);
      if q == [] then fates + [NotBuy] else fates[q[0] := Consume(rows[q[0]], r, x)] + [NotBuy]
    case Other => fates + [NotBuy]
  }

  /** One more row. */
  function Next(rows: seq<Row>, b: Book): (c: Book)
    requires |b.fates| < |rows|
    ensures |c.fates| == |b.fates| + 1
  {
    var m := Boundary(rows, b);
    Book(Take(rows, m.fates), m.lastDay)
  }

  /** The book after the first n rows. */
  function After(rows: seq<Row>, n: nat): (b: Book)
    requires n <= |rows|
    ensures |b.fates| == n
  {
    if n == 0 then EMPTY else Next(rows, After(rows, n - 1))
  }

  // ----- Queues -----

  /** q lists exactly the waiting BUYs of the key, oldest first. */
  predicate IsQueue(q: seq<nat>, rows: seq<Row>, fates: seq<Fate>, k: Key)
    requires |fates| <= |rows|
  {
    && (forall i :: 0 <= i < |q| ==> q[i] < |fates| && WaitsFor(rows, fates, q[i], k))
    && (forall i, j :: 0 <= i < j < |q| ==> q[i] < q[j])
    && (forall j :: 0 <= j < |fates| && WaitsFor(rows, fates, j, k) ==> j in q)
  }

  lemma {:induction false} QueueIs(rows: seq<Row>, fates: seq<Fate>, k: Key)
    requires |fates| <= |rows|
    ensures IsQueue(Queue(rows, fates, k), rows, fates, k)
  {
    if fates != [] {
      var n := |fates| - 1;
      QueueIs(rows, fates[..n], k);
      forall j | 0 <= j < n ensures WaitsFor(rows, fates[..n], j, k) == WaitsFor(rows, fates, j, k) {
      }
    }
  }

  /** The head of the queue is the oldest waiting BUY of the key; an empty queue has none. */
  lemma HeadIsOldest(rows: seq<Row>, fates: seq<Fate>, k: Key)
    requires |fates| <= |rows|
    ensures var q := Queue(rows, fates, k);
            && (q == [] ==> forall j :: 0 <= j < |fates| ==> !WaitsFor(rows, fates, j, k))
            && (q != [] ==> WaitsFor(rows, fates, q[0], k) && forall j :: 0 <= j < q[0] ==> !WaitsFor(rows, fates, j, k))
  {
    QueueIs(rows, fates, k);
    hide Queue, WaitsFor;
    var q := Queue(rows, fates, k);
    if q != [] {
      forall j | 0 <= j < q[0] ensures !WaitsFor(rows, fates, j, k) {
        forall i | 0 <= i < |q| ensures q[i] != j {
          assert i > 0 ==> q[0] < q[i];
        }
      }
    }
  }

  // ----- The invariants of every run -----

  /** A BUY is used up only by a later EXIT of its key, and only such a row has a buy's fate. */
  predicate FateOk(rows: seq<Row>, fates: seq<Fate>, j: nat)
    requires j < |fates| <= |rows|
  {
    match fates[j]
    case NotBuy => !rows[j].action.Buy?
    case Taken(x) => rows[j].action.Buy? && j < x < |fates| && rows[x].action.Exit? && rows[x].key == rows[j].key
    case Crossed(x) => rows[j].action.Buy? && j < x < |fates| && rows[x].action.Exit? && rows[x].key == rows[j].key
    case _ => rows[j].action.Buy?
  }

  predicate UsedBy(f: Fate, x: nat) { (f.Taken? || f.Crossed?) && f.x == x }

  /** No exit uses up two BUYs. */
  predicate OnePerExit(fates: seq<Fate>) {
    forall i, j :: 0 <= i < j < |fates| && (fates[i].Taken? || fates[i].Crossed?) ==> !UsedBy(fates[j], fates[i].x)
  }

  predicate AllOk(rows: seq<Row>, fates: seq<Fate>)
    requires |fates| <= |rows|
  {
    (forall j :: 0 <= j < |fates| ==> FateOk(rows, fates, j)) && OnePerExit(fates)
  }

  lemma FlushKeeps(rows: seq<Row>, fates: seq<Fate>, r: Row)
    requires |fates| <= |rows| && AllOk(rows, fates)
    ensures AllOk(rows, FlushAll(rows, fates, r))
  {
    hide SameDay;
    var g := FlushAll(rows, fates, r);
    forall j | 0 <= j < |g| ensures FateOk(rows, g, j) { assert FateOk(rows, fates, j); }
  }

  lemma TakeKeeps(rows: seq<Row>, fates: seq<Fate>)
    requires |fates| < |rows| && AllOk(rows, fates)
    ensures AllOk(rows, Take(rows, fates))
  {
    hide CrossDay;
    var x := |fates|;
    var g := Take(rows, fates);
    HeadIsOldest(rows, fates, rows[x].key);
    hide Queue;
    forall j | 0 <= j < |g| ensures FateOk(rows, g, j) {
      if j < x { assert FateOk(rows, fates, j); }
    }
    forall i, j | 0 <= i < j < |g| && (g[i].Taken? || g[i].Crossed?) ensures !UsedBy(g[j], g[i].x) {
      if i < x { assert FateOk(rows, fates, i); }
      if j < x { assert FateOk(rows, fates, j); }
    }
  }

  /** For any rows at all: every BUY has exactly one fate, used up by at most one later EXIT of its key, and no EXIT uses up
      two BUYs. */
  lemma {:induction false} EveryBuyOnce(rows: seq<Row>, n: nat)
    requires n <= |rows|
    ensures AllOk(rows, After(rows, n).fates)
  {
    if n > 0 {
      hide AllOk;
      EveryBuyOnce(rows, n - 1);
      var b := After(rows, n - 1);
      FlushKeeps(rows, b.fates, rows[n - 1]);
      TakeKeeps(rows, Boundary(rows, b).fates);
    } else {
      assert After(rows, 0).fates == [];
    }
  }

  // ----- Sorted, timestamped rows -----

  predicate Sorted(rows: seq<Row>) {
    && (forall i :: 0 <= i < |rows| ==> rows[i].at != NO_TIME)
    && (forall i, j :: 0 <= i < j < |rows| ==> rows[i].at <= rows[j].at)
  }

  lemma DaysInOrder(rows: seq<Row>)
    requires Sorted(rows)
    ensures forall i, j :: 0 <= i < j < |rows| ==> IstDay(rows[i].at) <= IstDay(rows[j].at)
  {
    DayMonotone();
  }

  lemma DayMonotone()
    ensures forall a, b :: a <= b ==> IstDay(a) <= IstDay(b)
  {
  }

  /** j and k are BUYs of one key and day, j the older. */
  predicate Rivals(rows: seq<Row>, j: nat, k: nat)
    requires j < |rows| && k < |rows|
  {
    j < k && rows[j].action.Buy? && rows[k].action.Buy? && rows[j].key == rows[k].key && SameDay(rows[j], rows[k])
  }

  /** BUY j could have gone to exit x. */
  predicate Suits(rows: seq<Row>, j: nat, x: nat)
    requires j < |rows| && x < |rows|
  {
    j < x && rows[j].action.Buy? && rows[x].action.Exit? && rows[j].key == rows[x].key && SameDay(rows[j], rows[x])
  }

  predicate TakenBefore(f: Fate, x: nat) { f.Taken? && f.x < x }

  predicate Unused(fates: seq<Fate>, x: nat) { forall j :: 0 <= j < |fates| ==> !UsedBy(fates[j], x) }

  /** First in, first out within a key and day: an exit takes only a BUY it suits, an older rival was taken earlier, and an
      exit that took none found every suitable BUY already taken. */
  predicate Fifo(rows: seq<Row>, fates: seq<Fate>)
    requires |fates| <= |rows|
  {
    && (forall j :: 0 <= j < |fates| ==> !fates[j].Crossed? && (fates[j].Taken? ==> fates[j].x < |fates| && Suits(rows, j, fates[j].x)))
    && (forall j, k :: 0 <= j < |fates| && 0 <= k < |fates| && Rivals(rows, j, k) && fates[k].Taken? ==>
          TakenBefore(fates[j], fates[k].x))
    && (forall j, x :: 0 <= j < |fates| && 0 <= x < |fates| && Suits(rows, j, x) && Unused(fates, x) ==>
          TakenBefore(fates[j], x))
  }

  /** What waits is of the current day; what was flushed is of an earlier one. */
  predicate Current(rows: seq<Row>, fates: seq<Fate>, d: int)
    requires |fates| <= |rows|
  {
    forall j :: 0 <= j < |fates| ==>
      && (fates[j].Waiting? ==> IstDay(rows[j].at) == d)
      && (fates[j].Flushed? ==> IstDay(rows[j].at) < d)
  }

  predicate SortedOk(rows: seq<Row>, b: Book)
    requires |b.fates| <= |rows|
  {
    && AllOk(rows, b.fates) && Fifo(rows, b.fates)
    && (b.lastDay.None? <==> b.fates == [])
    && (b.fates != [] ==> b.lastDay == Some(IstDay(rows[|b.fates| - 1].at)) && Current(rows, b.fates, b.lastDay.value))
  }

  lemma BoundaryKeeps(rows: seq<Row>, b: Book)
    requires |b.fates| < |rows| && Sorted(rows) && SortedOk(rows, b)
    ensures var m, d := Boundary(rows, b), IstDay(rows[|b.fates|].at);
            && m.lastDay == Some(d) && AllOk(rows, m.fates) && Fifo(rows, m.fates) && Current(rows, m.fates, d)
  {
    DaysInOrder(rows);
    hide IstDay;
    var r, m := rows[|b.fates|], Boundary(rows, b);
    FlushKeeps(rows, b.fates, r);
    assert forall x :: Unused(m.fates, x) <==> Unused(b.fates, x) by {
      forall x ensures Unused(m.fates, x) <==> Unused(b.fates, x) {
        forall j | 0 <= j < |m.fates| ensures UsedBy(m.fates[j], x) == UsedBy(b.fates[j], x) {
        }
      }
    }
    assert forall j :: 0 <= j < |m.fates| ==> m.fates[j].Taken? == b.fates[j].Taken? && (m.fates[j].Taken? ==> m.fates[j] == b.fates[j]);
  }

  lemma TakeFifo(rows: seq<Row>, fates: seq<Fate>)
    requires |fates| < |rows| && Sorted(rows) && AllOk(rows, fates) && Fifo(rows, fates)
    requires Current(rows, fates, IstDay(rows[|fates|].at))
    ensures Fifo(rows, Take(rows, fates)) && Current(rows, Take(rows, fates), IstDay(rows[|fates|].at))
  {
    hide IstDay;
    var x := |fates|;
    var g, r := Take(rows, fates), rows[x];
    HeadIsOldest(rows, fates, r.key);
    hide Queue;
    var q := Queue(rows, fates, r.key);
    assert Current(rows, g, IstDay(r.at));
    if r.action.Exit? && q != [] {
      var h := q[0];
      assert g == fates[h := Taken(x)] + [NotBuy];
      HeadTaken(rows, fates, h);
    } else {
      assert g == fates + [if r.action.Buy? then Waiting else NotBuy];
      NothingTaken(rows, fates, g[x]);
    }
  }

  /** An exit that takes the oldest waiting BUY of its key. */
  lemma HeadTaken(rows: seq<Row>, fates: seq<Fate>, h: nat)
    requires |fates| < |rows| && Sorted(rows) && AllOk(rows, fates) && Fifo(rows, fates)
    requires Current(rows, fates, IstDay(rows[|fates|].at)) && rows[|fates|].action.Exit?
    requires h < |fates| && WaitsFor(rows, fates, h, rows[|fates|].key)
    requires forall j :: 0 <= j < h ==> !WaitsFor(rows, fates, j, rows[|fates|].key)
    ensures Fifo(rows, fates[h := Taken(|fates|)] + [NotBuy])
  {
    hide IstDay;
    var x := |fates|;
    var g := fates[h := Taken(x)] + [NotBuy];
    assert FateOk(rows, fates, h);
    forall j, k | 0 <= j < |g| && 0 <= k < |g| && Rivals(rows, j, k) && g[k].Taken? ensures TakenBefore(g[j], g[k].x) {
      assert FateOk(rows, fates, j);
      if k == h {
        assert !WaitsFor(rows, fates, j, rows[x].key);
        assert fates[j].Taken?;
      } else {
        assert TakenBefore(fates[j], fates[k].x);
      }
    }
    forall j, y | 0 <= j < |g| && 0 <= y < |g| && Suits(rows, j, y) && Unused(g, y) ensures TakenBefore(g[j], y) {
      assert UsedBy(g[h], x);
      assert y < x;
      forall i | 0 <= i < |fates| ensures !UsedBy(fates[i], y) { assert i != h ==> fates[i] == g[i]; }
      assert TakenBefore(fates[j], y);
    }
    forall j | 0 <= j < |g| && g[j].Taken? ensures g[j].x < |g| && Suits(rows, j, g[j].x) {
    }
  }

  /** A row that takes nothing: a BUY, another action, or an exit with nothing of its key waiting. */
  lemma NothingTaken(rows: seq<Row>, fates: seq<Fate>, f: Fate)
    requires |fates| < |rows| && Sorted(rows) && AllOk(rows, fates) && Fifo(rows, fates)
    requires Current(rows, fates, IstDay(rows[|fates|].at)) && (f.Waiting? || f.NotBuy?)
    requires rows[|fates|].action.Exit? ==> forall j :: 0 <= j < |fates| ==> !WaitsFor(rows, fates, j, rows[|fates|].key)
    ensures Fifo(rows, fates + [f])
  {
    hide IstDay;
    var x, g := |fates|, fates + [f];
    forall j, k | 0 <= j < |g| && 0 <= k < |g| && Rivals(rows, j, k) && g[k].Taken? ensures TakenBefore(g[j], g[k].x) {
      assert TakenBefore(fates[j], fates[k].x);
    }
    forall j, y | 0 <= j < |g| && 0 <= y < |g| && Suits(rows, j, y) && Unused(g, y) ensures TakenBefore(g[j], y) {
      assert FateOk(rows, fates, j);
      if y < x {
        forall i | 0 <= i < |fates| ensures !UsedBy(fates[i], y) { assert fates[i] == g[i]; }
        assert TakenBefore(fates[j], y);
      } else {
        assert !WaitsFor(rows, fates, j, rows[x].key);
      }
    }
  }

  /** On sorted, timestamped rows only the current day waits, the cross-day guard never fires, and the pairing is first in,
      first out within each key and day. */
  lemma {:induction false} PairingIsFifo(rows: seq<Row>, n: nat)
    requires n <= |rows| && Sorted(rows)
    ensures SortedOk(rows, After(rows, n))
  {
    if n > 0 {
      PairingIsFifo(rows, n - 1);
      var b := After(rows, n - 1);
      hide SortedOk;
      FifoStep(rows, b);
    } else {
      assert After(rows, 0) == EMPTY;
    }
  }

  lemma FifoStep(rows: seq<Row>, b: Book)
    requires |b.fates| < |rows| && Sorted(rows) && SortedOk(rows, b)
    ensures SortedOk(rows, Next(rows, b))
  {
    BoundaryKeeps(rows, b);
    var m := Boundary(rows, b);
    TakeFifo(rows, m.fates);
    TakeKeeps(rows, m.fates);
    hide AllOk, Fifo, Current, Take, Boundary, Sorted;
  }

  /** There is only one such pairing: two first-in-first-out fates of the same rows use every exit the same way. */
  lemma {:induction false} FifoIsUnique(rows: seq<Row>, f: seq<Fate>, g: seq<Fate>, x: nat, j: nat)
    requires |f| == |g| <= |rows| && Fifo(rows, f) && Fifo(rows, g) && OnePerExit(f) && OnePerExit(g)
    requires x < |f| && j < |f|
    ensures UsedBy(f[j], x) <==> UsedBy(g[j], x)
    decreases x, 1
  {
    if UsedBy(f[j], x) { UsedAlike(rows, f, g, x, j); }
    if UsedBy(g[j], x) { UsedAlike(rows, g, f, x, j); }
  }

  lemma {:induction false} UsedAlike(rows: seq<Row>, f: seq<Fate>, g: seq<Fate>, x: nat, j: nat)
    requires |f| == |g| <= |rows| && Fifo(rows, f) && Fifo(rows, g) && OnePerExit(f) && OnePerExit(g)
    requires x < |f| && j < |f| && UsedBy(f[j], x)
    ensures UsedBy(g[j], x)
    decreases x, 0
  {
    hide IstDay;
    assert f[j].Taken? && Suits(rows, j, x);
    if Unused(g, x) {
      assert TakenBefore(g[j], x);
      FifoIsUnique(rows, f, g, g[j].x, j);
    } else {
      var k :| 0 <= k < |g| && UsedBy(g[k], x);
      assert g[k].Taken? && Suits(rows, k, x);
      if j < k {
        assert Rivals(rows, j, k) && TakenBefore(g[j], x);
        FifoIsUnique(rows, f, g, g[j].x, j);
      } else if k < j {
        assert Rivals(rows, k, j) && TakenBefore(f[k], x);
        FifoIsUnique(rows, f, g, f[k].x, k);
      }
    }
  }

  // ----- Conservation -----

  datatype Kind = APaired | AUsedUp | AFlushed | ACrossed | AWaiting

  /** The BUY was taken by an exit with a price. */
  predicate Paired(rows: seq<Row>, f: Fate) { f.Taken? && f.x < |rows| && rows[f.x].price > 0 }

  /** The BUY was used up by a priceless exit. */
  predicate UsedUp(rows: seq<Row>, f: Fate) { f.Taken? && !Paired(rows, f) }

  predicate Is(rows: seq<Row>, f: Fate, p: Kind) {
    match p
    case APaired => Paired(rows, f)
    case AUsedUp => UsedUp(rows, f)
    case AFlushed => f.Flushed?
    case ACrossed => f.Crossed?
    case AWaiting => f.Waiting?
  }

  /** How many BUYs met a fate. */
  function Count(rows: seq<Row>, fates: seq<Fate>, p: Kind): nat {
    if fates == [] then 0 else Count(rows, fates[..|fates| - 1], p) + Bit(Is(rows, fates[|fates| - 1], p))
  }

  function Bit(b: bool): nat { if b then 1 else 0 }

  lemma CountSnoc(rows: seq<Row>, fates: seq<Fate>, f: Fate, p: Kind)
    ensures Count(rows, fates + [f], p) == Count(rows, fates, p) + Bit(Is(rows, f, p))
  {
    assert (fates + [f])[..|fates|] == fates;
  }

  lemma {:induction false} CountUpdate(rows: seq<Row>, fates: seq<Fate>, h: nat, f: Fate, p: Kind)
    requires h < |fates|
    ensures Count(rows, fates[h := f], p) + Bit(Is(rows, fates[h], p)) == Count(rows, fates, p) + Bit(Is(rows, f, p))
  {
    var n := |fates| - 1;
    if h < n {
      CountUpdate(rows, fates[..n], h, f, p);
      assert fates[h := f][..n] == fates[..n][h := f];
    } else {
      assert fates[h := f][..n] == fates[..n];
    }
  }

  lemma {:induction false} CountSame(rows: seq<Row>, f: seq<Fate>, g: seq<Fate>, p: Kind)
    requires |f| == |g| && forall j :: 0 <= j < |f| ==> Is(rows, f[j], p) == Is(rows, g[j], p)
    ensures Count(rows, f, p) == Count(rows, g, p)
  {
    if f != [] { CountSame(rows, f[..|f| - 1], g[..|g| - 1], p); }
  }

  function Buys(rows: seq<Row>, n: nat): nat
    requires n <= |rows|
  {
    if n == 0 then 0 else Buys(rows, n - 1) + Bit(rows[n - 1].action.Buy?)
  }

  /** Every BUY is paired, used up by a priceless exit, flushed, dropped by the guard, or still waiting. */
  lemma {:induction false} BuysAccountedFor(rows: seq<Row>, fates: seq<Fate>)
    requires |fates| <= |rows| && forall j :: 0 <= j < |fates| ==> (fates[j].NotBuy? <==> !rows[j].action.Buy?)
    ensures Buys(rows, |fates|) ==
            Count(rows, fates, APaired) + Count(rows, fates, AUsedUp) + Count(rows, fates, AFlushed) +
            Count(rows, fates, ACrossed) + Count(rows, fates, AWaiting)
  {
    if fates != [] {
      var init, f := fates[..|fates| - 1], fates[|fates| - 1];
      BuysAccountedFor(rows, init);
      assert fates == init + [f];
      CountSnoc(rows, init, f, APaired);
      CountSnoc(rows, init, f, AUsedUp);
      CountSnoc(rows, init, f, AFlushed);
      CountSnoc(rows, init, f, ACrossed);
      CountSnoc(rows, init, f, AWaiting);
    }
  }

  /** The pair row x completes: the head of its key's queue and x. */
  function NewPair(rows: seq<Row>, fates: seq<Fate>): seq<(nat, nat)>
    requires |fates| < |rows|
  {
    var x := |fates|;
    var r := rows[x];
    var q := Queue(rows, fates, r.key);
    if r.action.Exit? && r.price > 0 && q != [] && !CrossDay(rows[q[0]], r) then [(q[0], x)] else []
  }

  /** The pairs completed by the first n rows, by exit. */
  function Pairs(rows: seq<Row>, n: nat): seq<(nat, nat)>
    requires n <= |rows|
  {
    if n == 0 then [] else Pairs(rows, n - 1) + NewPair(rows, Boundary(rows, After(rows, n - 1)).fates)
  }

  lemma FlushKeepsPaired(rows: seq<Row>, fates: seq<Fate>, r: Row)
    requires |fates| <= |rows|
    ensures forall j :: 0 <= j < |fates| ==> (fates[j].Taken? ==> FlushAll(rows, fates, r)[j] == fates[j])
    ensures Count(rows, FlushAll(rows, fates, r), APaired) == Count(rows, fates, APaired)
  {
    hide SameDay;
    var g := FlushAll(rows, fates, r);
    forall j | 0 <= j < |fates| ensures Paired(rows, g[j]) == Paired(rows, fates[j]) {
    }
    CountSame(rows, g, fates, APaired);
  }

  lemma TakePairs(rows: seq<Row>, fates: seq<Fate>)
    requires |fates| < |rows| && AllOk(rows, fates)
    ensures var g, p := Take(rows, fates), NewPair(rows, fates);
            && Count(rows, g, APaired) == Count(rows, fates, APaired) + |p|
            && (forall j :: 0 <= j < |fates| && fates[j].Taken? ==> g[j] == fates[j])
            && (forall e :: e in p ==> e.0 < |g| && g[e.0] == Taken(e.1) && e.1 == |fates| && rows[e.1].price > 0)
  {
    hide CrossDay;
    var x := |fates|;
    var g, r := Take(rows, fates), rows[x];
    HeadIsOldest(rows, fates, r.key);
    var q := Queue(rows, fates, r.key);
    hide Queue;
    if r.action.Exit? && q != [] {
      var c := Consume(rows[q[0]], r, x);
      CountUpdate(rows, fates, q[0], c, APaired);
      CountSnoc(rows, fates[q[0] := c], NotBuy, APaired);
    } else {
      CountSnoc(rows, fates, g[x], APaired);
    }
  }

  /** The pairs are exactly the BUYs taken by a priced exit, as many as such BUYs, one per exit, by exit. */
  predicate PairsOk(rows: seq<Row>, fates: seq<Fate>, p: seq<(nat, nat)>)
    requires |fates| <= |rows|
  {
    && |p| == Count(rows, fates, APaired)
    && (forall i :: 0 <= i < |p| ==>
          p[i].0 < |fates| && p[i].1 < |fates| && fates[p[i].0] == Taken(p[i].1) && rows[p[i].1].price > 0)
    && (forall i, j :: 0 <= i < j < |p| ==> p[i].1 < p[j].1)
  }

  lemma PairsFlush(rows: seq<Row>, b: Book, p: seq<(nat, nat)>)
    requires |b.fates| < |rows| && AllOk(rows, b.fates) && PairsOk(rows, b.fates, p)
    ensures AllOk(rows, Boundary(rows, b).fates) && PairsOk(rows, Boundary(rows, b).fates, p)
  {
    FlushKeepsPaired(rows, b.fates, rows[|b.fates|]);
    FlushKeeps(rows, b.fates, rows[|b.fates|]);
    hide FlushAll, Count, AllOk;
  }

  lemma PairsTake(rows: seq<Row>, fates: seq<Fate>, p: seq<(nat, nat)>)
    requires |fates| < |rows| && AllOk(rows, fates) && PairsOk(rows, fates, p)
    ensures PairsOk(rows, Take(rows, fates), p + NewPair(rows, fates))
  {
    TakePairs(rows, fates);
    hide Take, NewPair, Count, AllOk;
    var more := NewPair(rows, fates);
    assert |more| <= 1 by { OnePair(rows, fates); }
  }

  lemma OnePair(rows: seq<Row>, fates: seq<Fate>)
    requires |fates| < |rows|
    ensures |NewPair(rows, fates)| <= 1
  {
  }

  lemma {:induction false} PairsAreTaken(rows: seq<Row>, n: nat)
    requires n <= |rows|
    ensures PairsOk(rows, After(rows, n).fates, Pairs(rows, n))
  {
    hide PairsOk, AllOk, Boundary, Take, NewPair;
    if n > 0 {
      PairsAreTaken(rows, n - 1);
      EveryBuyOnce(rows, n - 1);
      PairsFlush(rows, After(rows, n - 1), Pairs(rows, n - 1));
      PairsTake(rows, Boundary(rows, After(rows, n - 1)).fates, Pairs(rows, n - 1));
    } else {
      NoPairs(rows);
    }
  }

  lemma NoPairs(rows: seq<Row>)
    ensures PairsOk(rows, After(rows, 0).fates, Pairs(rows, 0))
  {
    assert After(rows, 0).fates == [];
  }

  /** For any rows: BUYs = pairs + used up by priceless exits + flushed + dropped by the guard + waiting. */
  lemma Conservation(rows: seq<Row>)
    ensures var f := After(rows, |rows|).fates;
            Buys(rows, |rows|) ==
            |Pairs(rows, |rows|)| + Count(rows, f, AUsedUp) + Count(rows, f, AFlushed) +
            Count(rows, f, ACrossed) + Count(rows, f, AWaiting)
  {
    var f := After(rows, |rows|).fates;
    EveryBuyOnce(rows, |rows|);
    forall j | 0 <= j < |f| ensures f[j].NotBuy? <==> !rows[j].action.Buy? { assert FateOk(rows, f, j); }
    BuysAccountedFor(rows, f);
    PairsAreTaken(rows, |rows|);
  }

  /** On sorted, timestamped rows the guard drops nothing. */
  lemma ConservationSorted(rows: seq<Row>)
    requires Sorted(rows)
    ensures var f := After(rows, |rows|).fates;
            && Count(rows, f, ACrossed) == 0
            && Buys(rows, |rows|) ==
               |Pairs(rows, |rows|)| + Count(rows, f, AUsedUp) + Count(rows, f, AFlushed) + Count(rows, f, AWaiting)
  {
    var f := After(rows, |rows|).fates;
    Conservation(rows);
    PairingIsFifo(rows, |rows|);
    NoneCrossed(rows, f);
  }

  lemma {:induction false} NoneCrossed(rows: seq<Row>, fates: seq<Fate>)
    requires forall j :: 0 <= j < |fates| ==> !fates[j].Crossed?
    ensures Count(rows, fates, ACrossed) == 0
  {
    if fates != [] { NoneCrossed(rows, fates[..|fates| - 1]); }
  }

  // ----- The method -----

  datatype Trade = Trade(key: Key, symbol: string, qty: int, entryPrice: int, exitPrice: int, realized: int, entryAt: int, exitAt: int)

  function TradeOf(entry: Row, exit: Row): Trade {
    var qty := NormalizeQty(entry.qty);
    Trade(entry.key, if entry.symbol != "" then entry.symbol else exit.symbol, qty, entry.price, exit.price,
          (exit.price - entry.price) * qty, entry.at, exit.at)
  }

  function TradesOf(rows: seq<Row>, p: seq<(nat, nat)>): seq<Trade>
    requires forall i :: 0 <= i < |p| ==> p[i].0 < |rows| && p[i].1 < |rows|
  {
    seq(|p|, i requires 0 <= i < |p| => TradeOf(rows[p[i].0], rows[p[i].1]))
  }

  /** pending holds the non-empty queues. */
  ghost predicate PendingIs(pending: map<Key, seq<nat>>, rows: seq<Row>, fates: seq<Fate>)
    requires |fates| <= |rows|
  {
    && (forall k :: k in pending ==> pending[k] != [] && IsQueue(pending[k], rows, fates, k))
    && (forall k, j :: k !in pending && 0 <= j < |fates| ==> !WaitsFor(rows, fates, j, k))
  }

  predicate IsIncreasing(a: seq<nat>) { forall i, j :: 0 <= i < j < |a| ==> a[i] < a[j] }

  function Members(a: seq<nat>): (r: set<nat>)
    ensures (forall x :: x in r <==> x in a) && (r == {} <==> a == [])
  {
    assert a != [] ==> a[0] in a;
    set x | x in a
  }

  /** The last of an increasing list is its largest, and the others are the rest. */
  lemma LastOfIncreasing(a: seq<nat>)
    requires IsIncreasing(a) && a != []
    ensures var m := |a| - 1;
            && IsIncreasing(a[..m]) && a[m] in Members(a) && Members(a[..m]) == Members(a) - {a[m]}
            && forall x :: x in Members(a) ==> x <= a[m]
  {
    var m := |a| - 1;
    forall x ensures x in Members(a[..m]) <==> x in Members(a) - {a[m]} {
      if x in a && x != a[m] {
        var i :| 0 <= i < |a| && a[i] == x;
        assert a[..m][i] == x;
      }
    }
  }

  lemma {:induction false} IncreasingUnique(a: seq<nat>, b: seq<nat>)
    requires IsIncreasing(a) && IsIncreasing(b) && Members(a) == Members(b)
    ensures a == b
  {
    hide IsIncreasing;
    if a != [] {
      var m, n := |a| - 1, |b| - 1;
      LastOfIncreasing(a);
      LastOfIncreasing(b);
      assert a[m] == b[n];
      IncreasingUnique(a[..m], b[..n]);
      assert a == a[..m] + [a[m]] && b == b[..n] + [b[n]];
    }
  }

  lemma QueueIsUnique(q: seq<nat>, rows: seq<Row>, fates: seq<Fate>, k: Key)
    requires |fates| <= |rows| && IsQueue(q, rows, fates, k)
    ensures q == Queue(rows, fates, k)
  {
    QueueIs(rows, fates, k);
    hide Queue;
    assert Members(q) == Members(Queue(rows, fates, k));
    IncreasingUnique(q, Queue(rows, fates, k));
  }

  /** The queue the method sees. */
  lemma PendingQueue(pending: map<Key, seq<nat>>, rows: seq<Row>, fates: seq<Fate>, k: Key)
    requires |fates| <= |rows| && PendingIs(pending, rows, fates)
    ensures Queue(rows, fates, k) == if k in pending then pending[k] else []
  {
    if k in pending { QueueIsUnique(pending[k], rows, fates, k); } else { QueueIsUnique([], rows, fates, k); }
  }

  /** The entries of an increasing queue that belong to r's day. */
  method KeepSameDay(rows: seq<Row>, q: seq<nat>, r: Row) returns (kept: seq<nat>)
    requires forall i :: 0 <= i < |q| ==> q[i] < |rows|
    requires forall i, j :: 0 <= i < j < |q| ==> q[i] < q[j]
    ensures forall j :: j in kept <==> j in q && SameDay(rows[j], r)
    ensures forall i, j :: 0 <= i < j < |kept| ==> kept[i] < kept[j]
  {
    hide SameDay;
    kept := [];
    for i := 0 to |q|
      invariant forall j :: j in kept <==> j in q[..i] && SameDay(rows[j], r)
      invariant forall m, n :: 0 <= m < n < |kept| ==> kept[m] < kept[n]
    {
      assert q[..i + 1] == q[..i] + [q[i]];
      forall m | 0 <= m < |kept| ensures kept[m] < q[i] {
        assert kept[m] in kept;
        var n :| 0 <= n < i && q[..i][n] == kept[m];
        assert q[n] < q[i];
      }
      if SameDay(rows[q[i]], r) {
        kept := kept + [q[i]];
      }
    }
    assert q[..|q|] == q;
  }

  /** What is left of a queue after a flush. */
  lemma KeptIsQueue(rows: seq<Row>, fates: seq<Fate>, q: seq<nat>, kept: seq<nat>, r: Row, k: Key)
    requires |fates| <= |rows| && IsQueue(q, rows, fates, k)
    requires forall j :: j in kept <==> j in q && SameDay(rows[j], r)
    requires forall i, j :: 0 <= i < j < |kept| ==> kept[i] < kept[j]
    ensures IsQueue(kept, rows, FlushAll(rows, fates, r), k)
  {
    hide SameDay;
    var g := FlushAll(rows, fates, r);
    forall m | 0 <= m < |kept| ensures kept[m] < |g| && WaitsFor(rows, g, kept[m], k) {
      assert kept[m] in kept;
      var n :| 0 <= n < |q| && q[n] == kept[m];
    }
    forall j | 0 <= j < |g| && WaitsFor(rows, g, j, k) ensures j in kept {
      assert WaitsFor(rows, fates, j, k);
    }
  }

  /** Discards what does not belong to r's day from every queue. */
  method FlushStale(rows: seq<Row>, ghost fates: seq<Fate>, pending: map<Key, seq<nat>>, r: Row) returns (p: map<Key, seq<nat>>)
    requires |fates| <= |rows| && PendingIs(pending, rows, fates)
    ensures PendingIs(p, rows, FlushAll(rows, fates, r))
  {
    hide SameDay, IsQueue;
    p := map[];
    var todo := pending.Keys;
    ghost var g := FlushAll(rows, fates, r);
    forall k, j | k !in pending && 0 <= j < |g| ensures !WaitsFor(rows, g, j, k) { assert !WaitsFor(rows, fates, j, k); }
    while todo != {}
      invariant todo <= pending.Keys && p.Keys !! todo && p.Keys <= pending.Keys
      invariant forall k :: k in p ==> p[k] != [] && IsQueue(p[k], rows, g, k)
      invariant forall k, j :: k !in p && k !in todo && 0 <= j < |g| ==> !WaitsFor(rows, g, j, k)
      decreases |todo|
    {
      var k :| k in todo;
      QueueBounds(pending[k], rows, fates, k);
      var kept := KeepSameDay(rows, pending[k], r);
      KeptIsQueue(rows, fates, pending[k], kept, r, k);
      if kept == [] {
        EmptyQueue(rows, g, k);
      } else {
        p := p[k := kept];
      }
      todo := todo - {k};
    }
  }

  lemma QueueBounds(q: seq<nat>, rows: seq<Row>, fates: seq<Fate>, k: Key)
    requires |fates| <= |rows| && IsQueue(q, rows, fates, k)
    ensures forall i :: 0 <= i < |q| ==> q[i] < |rows|
    ensures forall i, j :: 0 <= i < j < |q| ==> q[i] < q[j]
  {
  }

  lemma EmptyQueue(rows: seq<Row>, fates: seq<Fate>, k: Key)
    requires |fates| <= |rows| && IsQueue([], rows, fates, k)
    ensures forall j :: 0 <= j < |fates| ==> !WaitsFor(rows, fates, j, k)
  {
  }

  /** A new BUY joins the end of its key's queue. */
  lemma JoinQueue(q: seq<nat>, rows: seq<Row>, fates: seq<Fate>)
    requires |fates| < |rows| && IsQueue(q, rows, fates, rows[|fates|].key)
    ensures IsQueue(q + [|fates|], rows, fates + [Waiting], rows[|fates|].key)
  {
    var x, key, g, r := |fates|, rows[|fates|].key, fates + [Waiting], q + [|fates|];
    forall i | 0 <= i < |r| ensures r[i] < |g| && WaitsFor(rows, g, r[i], key) {
      if i < |q| { assert WaitsFor(rows, fates, q[i], key); }
    }
    forall j | 0 <= j < |g| && WaitsFor(rows, g, j, key) ensures j in r {
      if j < x { assert WaitsFor(rows, fates, j, key); } else { assert r[|q|] == x; }
    }
  }

  /** The queue of another key does not see the new row. */
  lemma SkipQueue(q: seq<nat>, rows: seq<Row>, fates: seq<Fate>, k: Key, f: Fate)
    requires |fates| < |rows| && IsQueue(q, rows, fates, k) && (f.Waiting? ==> rows[|fates|].key != k)
    ensures IsQueue(q, rows, fates + [f], k)
  {
    var g := fates + [f];
    forall j | 0 <= j < |g| ensures WaitsFor(rows, g, j, k) == (j < |fates| && WaitsFor(rows, fates, j, k)) {
    }
  }

  lemma PendingBuy(pending: map<Key, seq<nat>>, rows: seq<Row>, fates: seq<Fate>)
    requires |fates| < |rows| && PendingIs(pending, rows, fates)
    ensures var x, k := |fates|, rows[|fates|].key;
            PendingIs(pending[k := (if k in pending then pending[k] else []) + [x]], rows, fates + [Waiting])
  {
    var x, key, g := |fates|, rows[|fates|].key, fates + [Waiting];
    var q := if key in pending then pending[key] else [];
    assert IsQueue(q, rows, fates, key);
    JoinQueue(q, rows, fates);
    hide IsQueue;
    var p := pending[key := q + [x]];
    forall k | k in p ensures IsQueue(p[k], rows, g, k) {
      if k != key { SkipQueue(pending[k], rows, fates, k, Waiting); }
    }
    forall k, j | k !in p && 0 <= j < |g| ensures !WaitsFor(rows, g, j, k) {
      if j < x { assert !WaitsFor(rows, fates, j, k); }
    }
  }

  lemma PendingSkip(pending: map<Key, seq<nat>>, rows: seq<Row>, fates: seq<Fate>)
    requires |fates| < |rows| && PendingIs(pending, rows, fates)
    ensures PendingIs(pending, rows, fates + [NotBuy])
  {
    hide IsQueue;
    var g := fates + [NotBuy];
    forall k | k in pending ensures IsQueue(pending[k], rows, g, k) { SkipQueue(pending[k], rows, fates, k, NotBuy); }
    forall k, j | k !in pending && 0 <= j < |g| ensures !WaitsFor(rows, g, j, k) {
      if j < |fates| { assert !WaitsFor(rows, fates, j, k); }
    }
  }

  /** The rest of a queue once its head no longer waits. */
  lemma TailIsQueue(q: seq<nat>, rows: seq<Row>, fates: seq<Fate>, key: Key, f: Fate)
    requires |fates| <= |rows| && IsQueue(q, rows, fates, key) && q != [] && !f.Waiting?
    ensures q[0] < |fates| && IsQueue(q[1..], rows, fates[q[0] := f], key)
  {
    var g := fates[q[0] := f];
    forall i | 0 <= i < |q[1..]| ensures q[1..][i] < |g| && WaitsFor(rows, g, q[1..][i], key) {
      assert q[0] < q[i + 1] && WaitsFor(rows, fates, q[i + 1], key);
    }
    forall j | 0 <= j < |g| && WaitsFor(rows, g, j, key) ensures j in q[1..] {
      assert WaitsFor(rows, fates, j, key) && j in q && j != q[0];
    }
  }

  /** A queue of another key does not change with it. */
  lemma OtherQueue(q: seq<nat>, rows: seq<Row>, fates: seq<Fate>, k: Key, h: nat, f: Fate)
    requires |fates| <= |rows| && IsQueue(q, rows, fates, k) && h < |fates| && rows[h].key != k
    ensures IsQueue(q, rows, fates[h := f], k)
  {
    var g := fates[h := f];
    forall j | 0 <= j < |g| ensures WaitsFor(rows, g, j, k) == WaitsFor(rows, fates, j, k) {
    }
  }

  /** The head of a queue leaves it. */
  lemma PendingTake(pending: map<Key, seq<nat>>, rows: seq<Row>, fates: seq<Fate>, key: Key, f: Fate)
    requires |fates| <= |rows| && PendingIs(pending, rows, fates) && key in pending && !f.Waiting?
    ensures pending[key][0] < |fates|
    ensures var q := pending[key];
            PendingIs(if |q| == 1 then pending - {key} else pending[key := q[1..]], rows, fates[q[0] := f])
  {
    var q := pending[key];
    TailIsQueue(q, rows, fates, key, f);
    assert WaitsFor(rows, fates, q[0], key);
    var h, g := q[0], fates[q[0] := f];
    var p := if |q| == 1 then pending - {key} else pending[key := q[1..]];
    if |q| == 1 { EmptyQueue(rows, g, key); }
    hide IsQueue;
    forall k | k in p ensures IsQueue(p[k], rows, g, k) {
      if k != key { OtherQueue(pending[k], rows, fates, k, h, f); }
    }
    forall k, j | k !in p && 0 <= j < |g| ensures !WaitsFor(rows, g, j, k) {
      if k != key { assert !WaitsFor(rows, fates, j, k); }
    }
  }

  /** One row after the day boundary: a BUY joins its queue, an EXIT takes the head of its own. */
  method TakeRow(rows: seq<Row>, ghost fates: seq<Fate>, x: nat, pending: map<Key, seq<nat>>)
    returns (p: map<Key, seq<nat>>, pair: seq<(nat, nat)>)
    requires x == |fates| < |rows| && PendingIs(pending, rows, fates)
    ensures PendingIs(p, rows, Take(rows, fates)) && pair == NewPair(rows, fates)
  {
    hide PendingIs, Queue;
    var r := rows[x];
    PendingQueue(pending, rows, fates, r.key);
    match r.action
    case Buy =>
      PendingBuy(pending, rows, fates);
      p, pair := pending[r.key := (if r.key in pending then pending[r.key] else []) + [x]], [];
    case Exit =>
      PendingNotEmpty(pending, rows, fates, r.key);
      if r.key !in pending {
        PendingSkip(pending, rows, fates);
        return pending, [];
      }
      var q := pending[r.key];
      PendingTake(pending, rows, fates, r.key, Consume(rows[q[0]], r, x));
      p := if |q| == 1 then pending - {r.key} else pending[r.key := q[1..]];
      PendingSkip(p, rows, fates[q[0] := Consume(rows[q[0]], r, x)]);
      pair := if r.price > 0 && !CrossDay(rows[q[0]], r) then [(q[0], x)] else [];
    case Other =>
      PendingSkip(pending, rows, fates);
      p, pair := pending, [];
  }

  lemma PendingNotEmpty(pending: map<Key, seq<nat>>, rows: seq<Row>, fates: seq<Fate>, k: Key)
    requires |fates| <= |rows| && PendingIs(pending, rows, fates)
    ensures k in pending ==> pending[k] != [] && pending[k][0] < |fates|
  {
  }

  /** The pairing pass over the rows. */
  method PairRows(rows: seq<Row>) returns (pairs: seq<(nat, nat)>)
    ensures pairs == Pairs(rows, |rows|)
  {
    hide PendingIs, Take, NewPair, FlushAll;
    pairs := [];
    var pending, lastDay := map[], None;
    NothingPending(rows);
    for x := 0 to |rows|
      invariant lastDay == After(rows, x).lastDay && pairs == Pairs(rows, x)
      invariant PendingIs(pending, rows, After(rows, x).fates)
    {
      ghost var fates := After(rows, x).fates;
      var r := rows[x];
      if r.at != NO_TIME {
        var day := IstDay(r.at);
        if lastDay.Some? && day != lastDay.value {
          pending := FlushStale(rows, fates, pending, r);
          fates := FlushAll(rows, fates, r);
        }
        lastDay := Some(day);
      }
      assert Book(fates, lastDay) == Boundary(rows, After(rows, x));
      var pair;
      pending, pair := TakeRow(rows, fates, x, pending);
      pairs := pairs + pair;
    }
  }

  lemma NothingPending(rows: seq<Row>)
    ensures PendingIs(map[], rows, After(rows, 0).fates) && Pairs(rows, 0) == []
  {
  }

  predicate NewestFirst(t: seq<Trade>) {
    forall i, j :: 0 <= i < j < |t| ==> t[i].exitAt > t[j].exitAt || (t[i].exitAt == t[j].exitAt && t[i].entryAt >= t[j].entryAt)
  }

  predicate Newer(a: Trade, b: Trade) { a.exitAt > b.exitAt || (a.exitAt == b.exitAt && a.entryAt > b.entryAt) }

  method InsertTrade(s: seq<Trade>, t: Trade) returns (r: seq<Trade>)
    requires NewestFirst(s)
    ensures NewestFirst(r) && multiset(r) == multiset(s + [t])
  {
    var i := |s|;
    while i > 0 && Newer(t, s[i - 1])
      invariant 0 <= i <= |s| && forall j :: i <= j < |s| ==> Newer(t, s[j])
      decreases i
    {
      i := i - 1;
    }
    InsertNewest(s, t, i);
    InsertIsPermutation(s, t, i);
    hide NewestFirst;
    r := s[..i] + [t] + s[i..];
  }

  lemma InsertNewest(s: seq<Trade>, t: Trade, i: nat)
    requires NewestFirst(s) && i <= |s| && (i > 0 ==> !Newer(t, s[i - 1])) && forall j :: i <= j < |s| ==> Newer(t, s[j])
    ensures NewestFirst(s[..i] + [t] + s[i..])
  {
    var r := s[..i] + [t] + s[i..];
    forall a, b | 0 <= a < b < |r| ensures !Newer(r[b], r[a]) {
      var x, y := if a < i then a else a - 1, if b < i then b else b - 1;
      if a != i && b != i {
        assert !Newer(s[y], s[x]);
      } else if b == i {
        assert a < i - 1 ==> !Newer(s[i - 1], s[a]);
      } else {
        assert Newer(t, s[y]);
      }
    }
    assert forall a, b :: 0 <= a < b < |r| ==> !Newer(r[b], r[a]);
  }

  method SortTrades(trades: seq<Trade>) returns (r: seq<Trade>)
    ensures NewestFirst(r) && multiset(r) == multiset(trades)
  {
    r := [];
    NoneNewest();
    hide NewestFirst;
    for i := 0 to |trades|
      invariant NewestFirst(r) && multiset(r) == multiset(trades[..i])
    {
      assert trades[..i + 1] == trades[..i] + [trades[i]];
      r := InsertTrade(r, trades[i]);
    }
    assert trades[..|trades|] == trades;
  }

  lemma NoneNewest()
    ensures NewestFirst([])
  {
  }

  /** The completed trades, newest exit first. */
  method PairCompletedTrades(rows: seq<Row>) returns (completed: seq<Trade>)
    ensures PairsOk(rows, After(rows, |rows|).fates, Pairs(rows, |rows|))
    ensures multiset(completed) == multiset(TradesOf(rows, Pairs(rows, |rows|))) && NewestFirst(completed)
  {
    var pairs := PairRows(rows);
    PairsAreTaken(rows, |rows|);
    hide Pairs, After, Count, NewestFirst, TradeOf;
    completed := SortTrades(TradesOf(rows, pairs));
  }
}
