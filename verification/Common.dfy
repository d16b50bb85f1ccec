/** Small helpers shared by the models: options, Go arithmetic, sums over sequences. */
module Common {

  datatype Option<+T> = None | Some(value: T)

  function Max(a: int, b: int): int { if a >= b then a else b }

  function Min(a: int, b: int): int { if a <= b then a else b }

  /** Go's conversion of a float64 to int64: truncation toward zero. */
  function Trunc(x: real): int {
    if x >= 0.0 then x.Floor else -((-x).Floor)
  }

  lemma TruncBounds(x: real)
    requires x >= 0.0
    ensures 0 <= Trunc(x) && Trunc(x) as real <= x
  {
  }

  /** Go's `%`: the remainder has the sign of the dividend. */
  function GoMod(a: int, m: int): int
    requires m > 0
  {
    if a >= 0 then a % m else -((-a) % m)
  }

  // ----- The trading calendar: IST is five and a half hours ahead of UTC, times are nanoseconds since 1970 -----

  /** Midnight IST of day d. */
  function IstMidnight(d: int): int { (d * 86400 - 19800) * 1_000_000_000 }

  predicate OnIstDay(d: int, ns: int) { IstMidnight(d) <= ns < IstMidnight(d + 1) }

  /** At or past minute m of its IST day. */
  ghost predicate PastIstMinute(ns: int, m: int) {
    exists d :: OnIstDay(d, ns) && ns >= IstMidnight(d) + m * 60_000_000_000
  }

  lemma OneIstDay(d: int, e: int, ns: int)
    requires OnIstDay(d, ns) && OnIstDay(e, ns)
    ensures d == e
  {
  }

  lemma NonEmpty(s: set<int>)
    requires s != {}
    ensures exists x :: x in s
  {
    if forall x: int :: x !in s {
      assert false;
    }
  }

  /** Some element of a non-empty set. */
  method Any(s: set<int>) returns (x: int)
    requires s != {}
    ensures x in s
  {
    NonEmpty(s);
    x :| x in s;
  }

  /** Left-to-right sum; the last element is added last. */
  function Sum(s: seq<real>): real {
    if s == [] then 0.0 else Sum(s[..|s| - 1]) + s[|s| - 1]
  }

  lemma SumEmpty()
    ensures Sum([]) == 0.0
  {
  }

  lemma SumSnoc(s: seq<real>, x: real)
    ensures Sum(s + [x]) == Sum(s) + x
  {
    assert (s + [x])[..|s|] == s;
  }

  lemma {:induction false} SumDropFirst(s: seq<real>)
    requires s != []
    ensures Sum(s) == s[0] + Sum(s[1..])
  {
    if |s| > 1 {
      var init := s[..|s| - 1];
      SumDropFirst(init);
      assert init[1..] == s[1..][..|s[1..]| - 1];
    }
  }

  lemma {:induction false} SumBounds(s: seq<real>, lo: real, hi: real)
    requires forall x :: x in s ==> lo <= x <= hi
    ensures lo * |s| as real <= Sum(s) <= hi * |s| as real
  {
    if s != [] {
      var init, n := s[..|s| - 1], |s| as real;
      forall x | x in init ensures lo <= x <= hi { assert x in s; }
      SumBounds(init, lo, hi);
      assert s[|s| - 1] in s;
      assert lo * n == lo * (n - 1.0) + lo && hi * n == hi * (n - 1.0) + hi;
    }
  }

  lemma {:induction false} ModNext(n: int, p: int)
    requires p > 0
    ensures (n % p + 1) % p == (n + 1) % p
  {
    var q := n / p;
    assert n == p * q + n % p;
    if n % p + 1 == p {
      ModUnique(n + 1, p, q + 1, 0);
      ModUnique(p, p, 1, 0);
    } else {
      ModUnique(n + 1, p, q, n % p + 1);
      ModUnique(n % p + 1, p, 0, n % p + 1);
    }
  }

  lemma ScaleAway(p: int, d: int)
    requires p > 0
    ensures d >= 1 ==> p * d >= p
    ensures d <= -1 ==> p * d <= -p
  {
  }

  /** The Euclidean quotient and remainder are unique. */
  lemma ModUnique(a: int, p: int, q: int, r: int)
    requires p > 0 && a == p * q + r && 0 <= r < p
    ensures a % p == r && a / p == q
  {
    var q', r' := a / p, a % p;
    assert p * (q - q') == r' - r;
    ScaleAway(p, q - q');
  }

  lemma ModShift(a: int, p: int)
    requires p > 0
    ensures (a - p) % p == a % p
  {
    ModUnique(a - p, p, a / p - 1, a % p);
  }

  /** Two numbers less than p apart with the same remainder are equal. */
  lemma ModDistinct(a: int, b: int, p: int)
    requires p > 0 && a % p == b % p && b <= a < b + p
    ensures a == b
  {
    assert a - b == p * (a / p - b / p);
    ScaleAway(p, a / p - b / p);
  }

  // ----- Sorting -----

  predicate SortedBy<T>(s: seq<T>, key: T -> int) {
    forall i, j :: 0 <= i < j < |s| ==> key(s[i]) <= key(s[j])
  }

  lemma InsertSorted<T>(s: seq<T>, x: T, i: nat, key: T -> int)
    requires SortedBy(s, key) && i <= |s| && (i > 0 ==> key(s[i - 1]) <= key(x)) && forall j :: i <= j < |s| ==> key(s[j]) > key(x)
    ensures SortedBy(s[..i] + [x] + s[i..], key)
  {
    var r := s[..i] + [x] + s[i..];
    forall a, b | 0 <= a < b < |r| ensures key(r[a]) <= key(r[b]) {
      var p, q := if a < i then a else a - 1, if b < i then b else b - 1;
      if a != i && b != i {
        assert key(s[p]) <= key(s[q]);
      } else if b == i {
        assert key(s[a]) <= key(s[i - 1]);
      } else {
        assert key(s[q]) > key(x);
      }
    }
  }

  lemma InsertIsPermutation<T>(s: seq<T>, x: T, i: nat)
    requires i <= |s|
    ensures multiset(s[..i] + [x] + s[i..]) == multiset(s + [x])
  {
    assert s[..i] + s[i..] == s;
  }

  method InsertBy<T>(s: seq<T>, x: T, key: T -> int) returns (r: seq<T>)
    requires SortedBy(s, key)
    ensures SortedBy(r, key) && multiset(r) == multiset(s + [x])
  {
    var i := |s|;
    while i > 0 && key(s[i - 1]) > key(x)
      invariant 0 <= i <= |s| && forall j :: i <= j < |s| ==> key(s[j]) > key(x)
      decreases i
    {
      i := i - 1;
    }
    InsertSorted(s, x, i, key);
    InsertIsPermutation(s, x, i);
    hide SortedBy;
    r := s[..i] + [x] + s[i..];
  }

  /** The library sort by a key; elements of one key may come in any order. */
  method SortBy<T>(s: seq<T>, key: T -> int) returns (r: seq<T>)
    ensures SortedBy(r, key) && multiset(r) == multiset(s)
  {
    r := [];
    for i := 0 to |s|
      invariant SortedBy(r, key) && multiset(r) == multiset(s[..i])
    {
      assert s[..i + 1] == s[..i] + [s[i]];
      r := InsertBy(r, s[i], key);
    }
    assert s[..|s|] == s;
  }
}
