/** The per-channel replay ring: the last cap envelopes of a channel, for gap backfill. */
module ReplayBuffer {
  import opened Common

  datatype Entry<T> = Entry(seqno: int, data: T)

  /** The plain list a ring stands for: at most cap entries, oldest first. */
  function Pushed<T>(list: seq<Entry<T>>, e: Entry<T>, cap: nat): (r: seq<Entry<T>>)
    requires cap >= 1
    ensures |r| == Min(|list| + 1, cap) && r[|r| - 1] == e
  {
    if |list| < cap then list + [e] else list[|list| - cap + 1..] + [e]
  }

  /** The entries numbered lo..hi, in order. */
  function InRange<T>(list: seq<Entry<T>>, lo: int, hi: int): seq<Entry<T>> {
    if list == [] then []
    else
      var e := list[|list| - 1];
      InRange(list[..|list| - 1], lo, hi) + if lo <= e.seqno <= hi then [e] else []
  }

  /** Numbered one after the other. */
  predicate Contiguous<T>(list: seq<Entry<T>>) {
    forall i :: 0 < i < |list| ==> list[i].seqno == list[i - 1].seqno + 1
  }

  lemma {:induction false} ContiguousAt<T>(list: seq<Entry<T>>, i: nat)
    requires Contiguous(list) && i < |list|
    ensures list[i].seqno == list[0].seqno + i
  {
    if i > 0 { ContiguousAt(list, i - 1); }
  }

  /** Continuing a contiguous list with the next number keeps it so. */
  lemma PushContiguous<T>(list: seq<Entry<T>>, e: Entry<T>, cap: nat)
    requires cap >= 1 && |list| <= cap && Contiguous(list) && (list != [] ==> e.seqno == list[|list| - 1].seqno + 1)
    ensures Contiguous(Pushed(list, e, cap))
  {
    var r := Pushed(list, e, cap);
    forall i | 0 < i < |r| ensures r[i].seqno == r[i - 1].seqno + 1 {
      if |list| == cap && i < |r| - 1 {
        assert list[i + 1].seqno == list[i].seqno + 1;
      }
    }
  }

  function Clamp(x: int, n: nat): (r: nat)
    ensures r <= n
  {
    if x < 0 then 0 else if x > n then n else x
  }

  function Slice<T>(list: seq<Entry<T>>, start: int, lo: int, hi: int): seq<Entry<T>> {
    var x := Clamp(lo - start, |list|);
    list[x..Max(x, Clamp(hi + 1 - start, |list|))]
  }

  lemma SliceSnoc<T>(list: seq<Entry<T>>, e: Entry<T>, start: int, lo: int, hi: int)
    ensures Slice(list + [e], start, lo, hi) ==
            Slice(list, start, lo, hi) + if lo <= start + |list| <= hi then [e] else []
  {
  }

  lemma InRangeNone<T>(list: seq<Entry<T>>, lo: int, hi: int)
    requires list == []
    ensures InRange(list, lo, hi) == []
  {
  }

  lemma InRangeSnoc<T>(list: seq<Entry<T>>, e: Entry<T>, lo: int, hi: int)
    ensures InRange(list + [e], lo, hi) == InRange(list, lo, hi) + if lo <= e.seqno <= hi then [e] else []
  {
    assert (list + [e])[..|list|] == list;
  }

  /** The range of a list numbered from start on is a slice of it. */
  lemma {:induction false} RangeIsSlice<T>(list: seq<Entry<T>>, start: int, lo: int, hi: int)
    requires forall i :: 0 <= i < |list| ==> list[i].seqno == start + i
    ensures InRange(list, lo, hi) == Slice(list, start, lo, hi)
  {
    if list != [] {
      hide InRange, Slice;
      var init, e := list[..|list| - 1], list[|list| - 1];
      RangeIsSlice(init, start, lo, hi);
      InRangeSnoc(init, e, lo, hi);
      SliceSnoc(init, e, start, lo, hi);
      assert init + [e] == list;
    }
  }

  /** A range has as many entries as numbers asked for exactly when the list reaches over all of them. */
  lemma RangeFull<T>(list: seq<Entry<T>>, lo: int, hi: int)
    requires Contiguous(list) && list != [] && lo <= hi
    ensures var r := InRange(list, lo, hi);
            && (|r| == hi - lo + 1 <==> list[0].seqno <= lo && hi <= list[|list| - 1].seqno)
            && (|r| == hi - lo + 1 ==> forall i :: 0 <= i < |r| ==> r[i] in list && r[i].seqno == lo + i)
  {
    hide InRange;
    forall i | 0 <= i < |list| ensures list[i].seqno == list[0].seqno + i { ContiguousAt(list, i); }
    RangeIsSlice(list, list[0].seqno, lo, hi);
  }

  /** The list after pushing all of them onto an empty one. */
  function AllPushed<T>(all: seq<Entry<T>>, cap: nat): seq<Entry<T>>
    requires cap >= 1
  {
    if all == [] then [] else Pushed(AllPushed(all[..|all| - 1], cap), all[|all| - 1], cap)
  }

  /** It is the last cap of them. */
  lemma {:induction false} HoldsTheLast<T>(all: seq<Entry<T>>, cap: nat)
    requires cap >= 1
    ensures AllPushed(all, cap) == all[Max(0, |all| - cap)..]
  {
    if all != [] {
      var init, e := all[..|all| - 1], all[|all| - 1];
      HoldsTheLast(init, cap);
      assert AllPushed(all, cap) == Pushed(AllPushed(init, cap), e, cap);
      hide AllPushed, Pushed;
      PushedLast(init, e, cap);
      assert all == init + [e];
    }
  }

  lemma PushedLast<T>(all: seq<Entry<T>>, e: Entry<T>, cap: nat)
    requires cap >= 1
    ensures Pushed(all[Max(0, |all| - cap)..], e, cap) == (all + [e])[Max(0, |all| + 1 - cap)..]
  {
  }

  class Ring<T(0)> {
    const cap: nat
    const buf: array<Entry<T>>
    var pos: nat
    var full: bool

    ghost predicate Valid()
      reads this
    {
      cap >= 1 && buf.Length == cap && pos < cap
    }

    /** The entries held, oldest first. */
    ghost function List(): (list: seq<Entry<T>>)
      requires Valid()
      reads this, buf
      ensures |list| <= cap
    {
      ListOf(buf[..], pos, full)
    }

    constructor (capacity: int, blank: T)
      ensures Valid() && fresh(buf) && List() == [] && cap == if capacity <= 0 then 500 else capacity
    {
      var n: nat := if capacity <= 0 then 500 else capacity;
      cap, buf := n, new Entry<T>[n](_ => Entry(0, blank));
      pos, full := 0, false;
    }

    method Push(seqno: int, data: T)
      requires Valid()
      modifies this, buf
      ensures Valid() && List() == Pushed(old(List()), Entry(seqno, data), cap)
    {
      ghost var was := buf[..];
      buf[pos] := Entry(seqno, data);
      assert buf[..] == was[pos := Entry(seqno, data)];
      NextPos(pos, cap);
      RingPushed(was, pos, full, Entry(seqno, data), cap);
      pos := (pos + 1) % cap;
      if pos == 0 && !full {
        full := true;
      }
    }

    function Len(): (n: nat)
      requires Valid()
      reads this, buf
      ensures n == |List()|
    {
      if full then cap else pos
    }

    /** Where the i-th oldest entry lies. */
    function Index(i: nat): (k: nat)
      requires Valid() && i < Len()
      reads this, buf
      ensures k < buf.Length && buf[k] == List()[i]
    {
      WrapIndex(pos, i, cap);
      assert List()[i] == if full then if i < cap - pos then buf[pos + i] else buf[i - (cap - pos)] else buf[i];
      if full then (pos + i) % cap else i
    }

    method Range(lo: int, hi: int) returns (r: seq<Entry<T>>)
      requires Valid()
      ensures r == InRange(List(), lo, hi)
    {
      r := [];
      var count := Len();
      for i := 0 to count
        invariant r == InRange(List()[..i], lo, hi)
      {
        var e := buf[Index(i)];
        assert List()[..i + 1][..i] == List()[..i];
        if lo <= e.seqno <= hi {
          r := r + [e];
        }
      }
      assert List()[..count] == List();
    }

    /** The n most recent entries, oldest first. */
    method Last(n: int) returns (r: seq<Entry<T>>)
      requires Valid()
      ensures r == if n <= 0 then [] else List()[|List()| - Min(n, |List()|)..]
    {
      var count := Len();
      var m := if n > count then count else n;
      if m <= 0 {
        return [];
      }
      r := [];
      for i := count - m to count
        invariant r == List()[count - m..i]
      {
        r := r + [buf[Index(i)]];
      }
    }

    method OldestSeq() returns (s: int)
      requires Valid()
      ensures s == if List() == [] then 0 else List()[0].seqno
    {
      if Len() == 0 {
        return 0;
      }
      return buf[Index(0)].seqno;
    }
  }

  lemma NextPos(pos: nat, cap: nat)
    requires pos < cap
    ensures (pos + 1) % cap == if pos + 1 == cap then 0 else pos + 1
  {
    if pos + 1 == cap { ModUnique(cap, cap, 1, 0); } else { ModUnique(pos + 1, cap, 0, pos + 1); }
  }

  function ListOf<T>(buf: seq<Entry<T>>, pos: nat, full: bool): seq<Entry<T>>
    requires pos <= |buf|
  {
    if full then buf[pos..] + buf[..pos] else buf[..pos]
  }

  /** Overwriting the slot at pos and stepping on appends to the list, dropping the oldest entry of a full ring. */
  lemma RingPushed<T>(was: seq<Entry<T>>, pos: nat, full: bool, e: Entry<T>, cap: nat)
    requires |was| == cap && pos < cap
    ensures var next := if pos + 1 == cap then 0 else pos + 1;
            ListOf(was[pos := e], next, full || next == 0) == Pushed(ListOf(was, pos, full), e, cap)
  {
    var now := was[pos := e];
    assert now[..pos] == was[..pos] && now[pos + 1..] == was[pos + 1..];
    assert now[..pos + 1] == was[..pos] + [e];
    if pos + 1 == cap {
      assert now[0..] + now[..0] == now[..pos + 1];
    }
    if full {
      assert was[pos..] == [was[pos]] + was[pos + 1..];
      assert (was[pos..] + was[..pos])[1..] == was[pos + 1..] + was[..pos];
    }
  }

  lemma WrapIndex(pos: nat, i: nat, cap: nat)
    requires pos < cap && i < cap
    ensures (pos + i) % cap == if pos + i < cap then pos + i else pos + i - cap
  {
    if pos + i < cap { ModUnique(pos + i, cap, 0, pos + i); } else { ModUnique(pos + i, cap, 1, pos + i - cap); }
  }
}
