/** Sequence epochs: "<start ms in hex>-<random suffix>", ordered by their prefix. */
module Epoch {

  const TWO_63 := 0x8000_0000_0000_0000

  type Int64 = x: int | -TWO_63 <= x < TWO_63

  function HexDigit(d: nat): (c: char)
    requires d < 16
    ensures DigitValue(c) == d
  {
    if d < 10 then ('0' as int + d) as char else ('a' as int + d - 10) as char
  }

  /** %x of a non-negative number: no leading zeros. */
  function Hex(n: nat): string {
    if n < 16 then [HexDigit(n)] else Hex(n / 16) + [HexDigit(n % 16)]
  }

  /** %x of a signed number. */
  function HexSigned(n: int): string { if n < 0 then "-" + Hex(-n) else Hex(n) }

  function DigitValue(c: char): int {
    if '0' <= c <= '9' then c as int - '0' as int
    else if 'a' <= c <= 'f' then c as int - 'a' as int + 10
    else if 'A' <= c <= 'F' then c as int - 'A' as int + 10
    else -1
  }

  predicate AllDigits(s: string) { forall i :: 0 <= i < |s| ==> DigitValue(s[i]) >= 0 }

  function DigitsValue(s: string): int {
    if s == [] then 0 else 16 * DigitsValue(s[..|s| - 1]) + DigitValue(s[|s| - 1])
  }

  /** What strconv.ParseInt(s, 16, 64) gives, with 0 for any error; s holds no minus sign. */
  function ParseHex(s: string): int {
    var d := if s != [] && s[0] == '+' then s[1..] else s;
    if d != [] && AllDigits(d) && DigitsValue(d) < TWO_63 then DigitsValue(d) else 0
  }

  /** The part before the first dash, all of it when there is none. */
  function Prefix(s: string): string {
    if s == [] || s[0] == '-' then [] else [s[0]] + Prefix(s[1..])
  }

  function StartMs(epoch: string): int { ParseHex(Prefix(epoch)) }

  function NewAt(ms: int, suffix: string): string { HexSigned(ms) + "-" + suffix }

  /** 64-bit increment, wrapping at the end. */
  function Increment(x: Int64): Int64 { if x == TWO_63 - 1 then -TWO_63 else x + 1 }

  function NewAfter(prev: string, clock: Int64, suffix: string): string {
    var start := StartMs(prev);
    StartMsRange(prev);
    NewAt(if clock <= start then Increment(start) else clock, suffix)
  }

  lemma {:induction false} PrefixIs(s: string, rest: string)
    requires '-' !in s
    ensures Prefix(s + "-" + rest) == s
  {
    if s == [] {
      assert (s + "-" + rest)[0] == '-';
    } else {
      PrefixIs(s[1..], rest);
      assert (s + "-" + rest)[1..] == s[1..] + "-" + rest;
    }
  }

  lemma {:induction false} HexValue(n: nat)
    ensures Hex(n) != [] && AllDigits(Hex(n)) && DigitsValue(Hex(n)) == n
  {
    hide DigitValue, HexDigit;
    if n >= 16 {
      HexValue(n / 16);
      assert Hex(n)[..|Hex(n)| - 1] == Hex(n / 16);
    } else {
      assert [HexDigit(n)][..0] == [];
      assert DigitsValue([]) == 0;
    }
  }

  lemma DigitsAreNoSigns(s: string)
    requires AllDigits(s)
    ensures '-' !in s && '+' !in s
  {
  }

  /** The prefix round trip: a start time that was printed is the one read back; a negative one reads as 0. */
  lemma StartMsRoundTrip(ms: Int64, suffix: string)
    ensures StartMs(NewAt(ms, suffix)) == if ms >= 0 then ms else 0
  {
    hide Hex, DigitsValue, DigitValue, AllDigits;
    if ms >= 0 {
      HexValue(ms);
      DigitsAreNoSigns(Hex(ms));
      PrefixIs(Hex(ms), suffix);
      assert Hex(ms)[0] in Hex(ms);
    } else {
      assert NewAt(ms, suffix)[0] == '-';
    }
  }

  lemma StartMsRange(epoch: string)
    ensures 0 <= StartMs(epoch) < TWO_63
  {
    hide DigitValue;
    var s := Prefix(epoch);
    var d := if s != [] && s[0] == '+' then s[1..] else s;
    if AllDigits(d) { DigitsNonNegative(d); }
  }

  lemma {:induction false} DigitsNonNegative(s: string)
    requires AllDigits(s)
    ensures DigitsValue(s) >= 0
  {
    if s != [] { DigitsNonNegative(s[..|s| - 1]); }
  }

  /** A bump raises the prefix whatever the clock says, exactly while the old prefix is not the last 64-bit number. */
  lemma BumpRaises(prev: string, clock: Int64, suffix: string)
    ensures StartMs(NewAfter(prev, clock, suffix)) > StartMs(prev) <==> StartMs(prev) < TWO_63 - 1
  {
    hide StartMs, NewAt;
    var start := StartMs(prev);
    StartMsRange(prev);
    StartMsRoundTrip(if clock <= start then Increment(start) else clock, suffix);
  }

  // ----- Runs of bumps -----

  /** The clock reading and suffix of one bump. */
  datatype Bump = Bump(clock: Int64, suffix: string)

  /** The epochs of a process: the first, and one per bump. */
  function Epochs(first: string, bumps: seq<Bump>): (r: seq<string>)
    ensures |r| == |bumps| + 1
  {
    if bumps == [] then [first]
    else
      var before, b := Epochs(first, bumps[..|bumps| - 1]), bumps[|bumps| - 1];
      before + [NewAfter(before[|bumps| - 1], b.clock, b.suffix)]
  }

  /** Over any run of bumps the prefixes strictly increase, even when the clock stands still or goes back, as long as the
      clock stays clear of the 64-bit end by the number of bumps. */
  lemma {:induction false} EpochsIncrease(first: string, bumps: seq<Bump>, top: int)
    requires StartMs(first) <= top && (forall b :: b in bumps ==> b.clock <= top) && top + |bumps| < TWO_63
    ensures var e := Epochs(first, bumps);
            && (forall i, j :: 0 <= i < j < |e| ==> StartMs(e[i]) < StartMs(e[j]))
            && StartMs(e[|bumps|]) <= top + |bumps|
  {
    hide NewAfter, StartMs;
    if bumps != [] {
      var init, b := bumps[..|bumps| - 1], bumps[|bumps| - 1];
      EpochsIncrease(first, init, top);
      var e := Epochs(first, init);
      var last := e[|init|];
      BumpRaises(last, b.clock, b.suffix);
      assert b in bumps;
      BumpBound(last, b.clock, b.suffix);
    }
  }

  lemma BumpBound(prev: string, clock: Int64, suffix: string)
    requires StartMs(prev) < TWO_63 - 1
    ensures var s := StartMs(NewAfter(prev, clock, suffix)); s <= StartMs(prev) + 1 || s <= clock
  {
    hide StartMs, NewAt;
    var p := StartMs(prev);
    StartMsRange(prev);
    StartMsRoundTrip(if clock <= p then Increment(p) else clock, suffix);
  }
}
