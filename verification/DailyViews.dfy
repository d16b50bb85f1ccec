/** The two daily views of completed trades: P&L rows and order groups, per IST day of the exit. */
module DailyViews {
  import opened Common
  import opened TradePairing

  /** The trades of one day, in the given order. */
  function OnDay(trades: seq<Trade>, d: int): seq<Trade> {
    if trades == [] then []
    else
      var t := trades[|trades| - 1];
      OnDay(trades[..|trades| - 1], d) + if IstDay(t.exitAt) == d then [t] else []
  }

  lemma OnDaySnoc(trades: seq<Trade>, t: Trade, d: int)
    ensures OnDay(trades + [t], d) == OnDay(trades, d) + if IstDay(t.exitAt) == d then [t] else []
  {
    assert (trades + [t])[..|trades|] == trades;
  }

  lemma {:induction false} OnDayMembers(trades: seq<Trade>, d: int)
    ensures forall t :: t in OnDay(trades, d) ==> t in trades && IstDay(t.exitAt) == d
    ensures |OnDay(trades, d)| <= |trades|
  {
    if trades != [] { OnDayMembers(trades[..|trades| - 1], d); }
  }

  function Days(trades: seq<Trade>): set<int> { set t | t in trades :: IstDay(t.exitAt) }

  function PnL(trades: seq<Trade>): int { if trades == [] then 0 else PnL(trades[..|trades| - 1]) + trades[|trades| - 1].realized }

  lemma PnLSnoc(trades: seq<Trade>, t: Trade)
    ensures PnL(trades + [t]) == PnL(trades) + t.realized
  {
    assert (trades + [t])[..|trades|] == trades;
  }

  datatype Bucket = Bucket(pnl: int, trades: nat, wins: nat, losses: nat, largestWin: int, largestLoss: int)

  const NO_TRADES := Bucket(0, 0, 0, 0, 0, 0)

  function AddTrade(b: Bucket, t: Trade): Bucket {
    var c := b.(trades := b.trades + 1, pnl := b.pnl + t.realized);
    if t.realized > 0 then c.(wins := c.wins + 1, largestWin := Max(c.largestWin, t.realized))
    else if t.realized < 0 then c.(losses := c.losses + 1, largestLoss := Min(c.largestLoss, t.realized))
    else c
  }

  function BucketOf(trades: seq<Trade>): Bucket {
    if trades == [] then NO_TRADES else AddTrade(BucketOf(trades[..|trades| - 1]), trades[|trades| - 1])
  }

  lemma BucketSnoc(trades: seq<Trade>, t: Trade)
    ensures BucketOf(trades + [t]) == AddTrade(BucketOf(trades), t)
  {
    assert (trades + [t])[..|trades|] == trades;
  }

  function Winners(trades: seq<Trade>): nat {
    if trades == [] then 0 else Winners(trades[..|trades| - 1]) + Bit(trades[|trades| - 1].realized > 0)
  }

  function Losers(trades: seq<Trade>): nat {
    if trades == [] then 0 else Losers(trades[..|trades| - 1]) + Bit(trades[|trades| - 1].realized < 0)
  }

  /** A bucket is the count, sum, winners, losers and extremes of its trades. */
  ghost predicate Describes(b: Bucket, trades: seq<Trade>) {
    && b.trades == |trades| && b.pnl == PnL(trades) && b.wins == Winners(trades) && b.losses == Losers(trades)
    && (forall t :: t in trades ==> t.realized <= b.largestWin && t.realized >= b.largestLoss)
    && b.largestWin >= 0 && (b.largestWin == 0 || exists t :: t in trades && t.realized == b.largestWin)
    && b.largestLoss <= 0 && (b.largestLoss == 0 || exists t :: t in trades && t.realized == b.largestLoss)
  }

  lemma {:induction false} BucketDescribes(trades: seq<Trade>)
    ensures Describes(BucketOf(trades), trades)
  {
    if trades != [] {
      var init, t := trades[..|trades| - 1], trades[|trades| - 1];
      BucketDescribes(init);
      var b := BucketOf(init);
      assert forall x :: x in trades <==> x in init || x == t;
      if b.largestWin != 0 {
        var w :| w in init && w.realized == b.largestWin;
        assert w in trades;
      }
      if b.largestLoss != 0 {
        var l :| l in init && l.realized == b.largestLoss;
        assert l in trades;
      }
      assert t in trades;
    }
  }

  // ----- The days shown -----

  predicate Descending(days: seq<int>) { forall i, j :: 0 <= i < j < |days| ==> days[i] > days[j] }

  /** The days in shown are the newest n of all (all when n is 0 or less), newest first. */
  ghost predicate NewestDays(shown: seq<int>, all: set<int>, n: int) {
    && Descending(shown) && (forall d :: d in shown ==> d in all)
    && |shown| == (if n > 0 && |all| > n then n else |all|)
    && forall d, e :: d in all && d !in shown && e in shown ==> d < e
  }

  /** All the days, newest first. */
  method SortDescending(all: set<int>) returns (r: seq<int>)
    ensures Descending(r) && (forall d :: d in r <==> d in all) && |r| == |all|
  {
    r := [];
    var todo := all;
    while todo != {}
      invariant todo <= all && Descending(r) && (forall d :: d in all - todo <==> d in r) && |r| == |all| - |todo|
      invariant forall d, e :: d in todo && e in r ==> d < e
      decreases |todo|
    {
      var d := Greatest(todo);
      forall i | 0 <= i < |r| ensures d < r[i] { assert r[i] in r; }
      r, todo := r + [d], todo - {d};
    }
  }

  method Greatest(s: set<int>) returns (m: int)
    requires s != {}
    ensures m in s && forall d :: d in s ==> d <= m
  {
    m := Any(s);
    var rest := s - {m};
    while rest != {}
      invariant rest <= s && m in s && forall d :: d in s && d !in rest ==> d <= m
      decreases |rest|
    {
      var d := Any(rest);
      if d > m {
        m := d;
      }
      rest := rest - {d};
    }
  }

  method PickDays(all: set<int>, n: int) returns (shown: seq<int>)
    ensures NewestDays(shown, all, n)
  {
    var keys := SortDescending(all);
    shown := if n > 0 && |keys| > n then keys[..n] else keys;
    if n > 0 && |keys| > n {
      forall d, e | d in all && d !in shown && e in shown ensures d < e {
        var i :| 0 <= i < |keys| && keys[i] == d;
        var j :| 0 <= j < n && keys[j] == e;
        assert keys[i] == d ==> i >= n;
      }
    }
  }

  /** The days shown are determined by the trades and the window. */
  lemma ShownIsUnique(a: seq<int>, b: seq<int>, all: set<int>, n: int)
    requires NewestDays(a, all, n) && NewestDays(b, all, n)
    ensures a == b
  {
    SameDays(a, b, all, n);
    DescendingUnique(a, b);
  }

  function ToSet(s: seq<int>): set<int> { set d | d in s }

  lemma {:induction false} SetSize(s: seq<int>)
    requires Descending(s)
    ensures |ToSet(s)| == |s|
  {
    if s != [] {
      var init, d := s[..|s| - 1], s[|s| - 1];
      SetSize(init);
      assert ToSet(s) == ToSet(init) + {d};
    }
  }

  lemma SameDays(a: seq<int>, b: seq<int>, all: set<int>, n: int)
    requires NewestDays(a, all, n) && NewestDays(b, all, n)
    ensures ToSet(a) == ToSet(b)
  {
    SetSize(a);
    SetSize(b);
    var x, y := ToSet(a), ToSet(b);
    forall d, e | d in x && d !in y && e in all && e !in x ensures e !in y {
      assert d in all && d in a && d !in b && e < d;
    }
    NestedSets(x, y);
  }

  /** Two sets of one size, one of which must hold the other. */
  lemma NestedSets(x: set<int>, y: set<int>)
    requires |x| == |y| && forall d, e :: d in x && d !in y && e in y ==> e in x
    ensures x == y
  {
    if forall d: int :: d in x ==> d in y {
      SubsetSameSize(x, y);
    } else {
      var d: int :| d in x && d !in y;
      assert forall e :: e in y ==> e in x;
      SubsetSameSize(y, x);
    }
  }

  lemma SubsetSameSize(x: set<int>, y: set<int>)
    requires x <= y && |x| == |y|
    ensures x == y
  {
    assert y == x + (y - x) && |y| == |x| + |y - x|;
  }

  lemma {:induction false} DescendingUnique(a: seq<int>, b: seq<int>)
    requires Descending(a) && Descending(b) && ToSet(a) == ToSet(b)
    ensures a == b
  {
    SetSize(a);
    SetSize(b);
    if a != [] {
      var n := |a| - 1;
      LastIsLeast(a);
      LastIsLeast(b);
      assert a[n] in ToSet(a) && b[n] in ToSet(b);
      assert ToSet(a[..n]) == ToSet(a) - {a[n]};
      assert ToSet(b[..n]) == ToSet(b) - {b[n]};
      DescendingUnique(a[..n], b[..n]);
      assert a == a[..n] + [a[n]] && b == b[..n] + [b[n]];
    }
  }

  lemma LastIsLeast(a: seq<int>)
    requires Descending(a) && a != []
    ensures forall d :: d in ToSet(a) ==> d >= a[|a| - 1]
    ensures ToSet(a[..|a| - 1]) == ToSet(a) - {a[|a| - 1]}
  {
    var n := |a| - 1;
    forall d | d in ToSet(a) ensures d >= a[n] && (d != a[n] ==> d in a[..n]) {
      var i :| 0 <= i < |a| && a[i] == d;
      if i < n { assert a[..n][i] == d; }
    }
    forall d | d in a[..n] ensures d in a && d != a[n] {
      var i :| 0 <= i < n && a[..n][i] == d;
      assert a[i] == d;
    }
  }

  // ----- The two views -----

  datatype PnLRow = PnLRow(day: int, b: Bucket)

  datatype OrderGroup = OrderGroup(day: int, pnl: int, trades: nat, orders: seq<Trade>)

  /** The P&L rows: one per day shown, describing that day's trades. */
  ghost predicate IsPnLView(rows: seq<PnLRow>, trades: seq<Trade>, n: int) {
    && NewestDays(seq(|rows|, i requires 0 <= i < |rows| => rows[i].day), Days(trades), n)
    && forall i :: 0 <= i < |rows| ==> Describes(rows[i].b, OnDay(trades, rows[i].day))
  }

  predicate ByExit(orders: seq<Trade>) { forall i, j :: 0 <= i < j < |orders| ==> orders[i].exitAt >= orders[j].exitAt }

  /** The order groups: one per day shown, holding that day's trades, newest exit first, and their P&L. */
  ghost predicate IsOrdersView(groups: seq<OrderGroup>, trades: seq<Trade>, n: int) {
    && NewestDays(seq(|groups|, i requires 0 <= i < |groups| => groups[i].day), Days(trades), n)
    && forall i :: 0 <= i < |groups| ==>
         && groups[i].pnl == PnL(OnDay(trades, groups[i].day)) && groups[i].trades == |groups[i].orders|
         && multiset(groups[i].orders) == multiset(OnDay(trades, groups[i].day)) && ByExit(groups[i].orders)
  }

  /** The two views show the same days in the same order, with the same number of trades and the same P&L. */
  lemma ViewsAgree(rows: seq<PnLRow>, groups: seq<OrderGroup>, trades: seq<Trade>, n: int)
    requires IsPnLView(rows, trades, n) && IsOrdersView(groups, trades, n)
    ensures |rows| == |groups|
    ensures forall i :: 0 <= i < |rows| ==>
              rows[i].day == groups[i].day && rows[i].b.trades == groups[i].trades && rows[i].b.pnl == groups[i].pnl
  {
    hide NewestDays;
    var a := seq(|rows|, i requires 0 <= i < |rows| => rows[i].day);
    var b := seq(|groups|, i requires 0 <= i < |groups| => groups[i].day);
    ShownIsUnique(a, b, Days(trades), n);
    forall i | 0 <= i < |rows|
      ensures rows[i].day == groups[i].day && rows[i].b.trades == groups[i].trades && rows[i].b.pnl == groups[i].pnl
    {
      assert a[i] == b[i];
      assert |multiset(groups[i].orders)| == |groups[i].orders|;
      assert |multiset(OnDay(trades, groups[i].day))| == |OnDay(trades, groups[i].day)|;
    }
  }

  method BuildDailyPnL(trades: seq<Trade>, n: int) returns (items: seq<PnLRow>)
    ensures IsPnLView(items, trades, n)
  {
    hide NewestDays, Describes, IstDay, OnDay, BucketOf;
    var byDate := GroupPnL(trades);
    var keys := PickDays(byDate.Keys, n);
    ShownAreDays(keys, byDate.Keys, n);
    items := [];
    for i := 0 to |keys|
      invariant |items| == i && forall j :: 0 <= j < i ==>
                  items[j].day == keys[j] && Describes(items[j].b, OnDay(trades, keys[j]))
    {
      BucketDescribes(OnDay(trades, keys[i]));
      items := items + [PnLRow(keys[i], byDate[keys[i]])];
    }
    assert seq(|items|, i requires 0 <= i < |items| => items[i].day) == keys;
  }

  lemma ShownAreDays(shown: seq<int>, all: set<int>, n: int)
    requires NewestDays(shown, all, n)
    ensures forall i :: 0 <= i < |shown| ==> shown[i] in all
  {
    forall i | 0 <= i < |shown| ensures shown[i] in all {
      assert shown[i] in shown;
    }
  }

  lemma DaysSnoc(trades: seq<Trade>, t: Trade)
    ensures Days(trades + [t]) == Days(trades) + {IstDay(t.exitAt)}
  {
    hide IstDay;
  }

  lemma {:induction false} NoTradesThen(trades: seq<Trade>, d: int)
    requires d !in Days(trades)
    ensures OnDay(trades, d) == []
  {
    hide IstDay;
    if trades != [] {
      assert trades[|trades| - 1] in trades;
      assert forall t :: t in trades[..|trades| - 1] ==> t in trades;
      NoTradesThen(trades[..|trades| - 1], d);
    }
  }

  /** One bucket per day, updated trade by trade. */
  method GroupPnL(trades: seq<Trade>) returns (byDate: map<int, Bucket>)
    ensures byDate.Keys == Days(trades) && forall d :: d in byDate ==> byDate[d] == BucketOf(OnDay(trades, d))
  {
    hide IstDay, OnDay, BucketOf, Days;
    byDate := map[];
    NoDays();
    assert trades[..0] == [];
    for i := 0 to |trades|
      invariant byDate.Keys == Days(trades[..i])
      invariant forall d :: d in byDate ==> byDate[d] == BucketOf(OnDay(trades[..i], d))
    {
      var t, was := trades[i], trades[..i];
      assert trades[..i + 1] == was + [t];
      DaysSnoc(was, t);
      var date := IstDay(t.exitAt);
      if date !in byDate {
        NoTradesThen(was, date);
        byDate := byDate[date := NO_TRADES];
      }
      NoBucket();
      BucketStep(byDate, was, t);
      byDate := byDate[date := AddTrade(byDate[date], t)];
    }
    assert trades[..|trades|] == trades;
  }

  lemma BucketStep(byDate: map<int, Bucket>, was: seq<Trade>, t: Trade)
    requires IstDay(t.exitAt) in byDate && forall d :: d in byDate ==> byDate[d] == BucketOf(OnDay(was, d))
    ensures var date := IstDay(t.exitAt);
            var after := byDate[date := AddTrade(byDate[date], t)];
            forall d :: d in after ==> after[d] == BucketOf(OnDay(was + [t], d))
  {
    hide IstDay, OnDay, BucketOf, AddTrade;
    var date := IstDay(t.exitAt);
    forall d | d in byDate ensures BucketOf(OnDay(was + [t], d)) == if d == date then AddTrade(byDate[d], t) else byDate[d] {
      OnDaySnoc(was, t, d);
      BucketSnoc(OnDay(was, d), t);
      assert OnDay(was, d) + [] == OnDay(was, d);
    }
  }

  lemma GroupStep(byDate: map<int, Group>, was: seq<Trade>, t: Trade)
    requires IstDay(t.exitAt) in byDate
    requires forall d :: d in byDate ==> byDate[d] == Group(PnL(OnDay(was, d)), OnDay(was, d))
    ensures var date := IstDay(t.exitAt);
            var after := byDate[date := Group(byDate[date].pnl + t.realized, byDate[date].orders + [t])];
            forall d :: d in after ==> after[d] == Group(PnL(OnDay(was + [t], d)), OnDay(was + [t], d))
  {
    hide IstDay, OnDay, PnL;
    forall d | d in byDate
      ensures Group(PnL(OnDay(was + [t], d)), OnDay(was + [t], d)) ==
              if d == IstDay(t.exitAt) then Group(byDate[d].pnl + t.realized, byDate[d].orders + [t]) else byDate[d]
    {
      OnDaySnoc(was, t, d);
      PnLSnoc(OnDay(was, d), t);
      assert OnDay(was, d) + [] == OnDay(was, d);
    }
  }

  lemma NoDays()
    ensures Days([]) == {}
  {
  }

  lemma NoBucket()
    ensures BucketOf([]) == NO_TRADES
  {
  }

  datatype Group = Group(pnl: int, orders: seq<Trade>)

  method GroupOrders(trades: seq<Trade>) returns (byDate: map<int, Group>)
    ensures byDate.Keys == Days(trades)
    ensures forall d :: d in byDate ==> byDate[d] == Group(PnL(OnDay(trades, d)), OnDay(trades, d))
  {
    hide IstDay, OnDay, PnL, Days;
    byDate := map[];
    NoDays();
    assert trades[..0] == [];
    for i := 0 to |trades|
      invariant byDate.Keys == Days(trades[..i])
      invariant forall d :: d in byDate ==> byDate[d] == Group(PnL(OnDay(trades[..i], d)), OnDay(trades[..i], d))
    {
      var t, was := trades[i], trades[..i];
      assert trades[..i + 1] == was + [t];
      DaysSnoc(was, t);
      var date := IstDay(t.exitAt);
      if date !in byDate {
        NoTradesThen(was, date);
        byDate := byDate[date := Group(0, [])];
      }
      NoPnL();
      GroupStep(byDate, was, t);
      byDate := byDate[date := Group(byDate[date].pnl + t.realized, byDate[date].orders + [t])];
    }
    assert trades[..|trades|] == trades;
  }

  lemma NoPnL()
    ensures PnL([]) == 0
  {
  }

  method BuildDailyOrders(trades: seq<Trade>, n: int) returns (items: seq<OrderGroup>)
    ensures IsOrdersView(items, trades, n)
  {
    hide NewestDays, IstDay, OnDay, PnL;
    var byDate := GroupOrders(trades);
    var keys := PickDays(byDate.Keys, n);
    ShownAreDays(keys, byDate.Keys, n);
    items := [];
    for i := 0 to |keys|
      invariant |items| == i
      invariant forall j :: 0 <= j < i ==>
                  && items[j].day == keys[j] && items[j].pnl == PnL(OnDay(trades, keys[j]))
                  && items[j].trades == |items[j].orders| && ByExit(items[j].orders)
                  && multiset(items[j].orders) == multiset(OnDay(trades, keys[j]))
    {
      var g := byDate[keys[i]];
      var orders := SortBy(g.orders, (t: Trade) => -t.exitAt);
      assert ByExit(orders);
      items := items + [OrderGroup(keys[i], g.pnl, |orders|, orders)];
    }
    assert seq(|items|, i requires 0 <= i < |items| => items[i].day) == keys;
  }
}
