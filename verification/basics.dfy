/**
 * Small value-level helpers shared by the wallet store and the pages:
 * an Option type for the source's nullable values, hexadecimal and decimal
 * digit strings as the JavaScript runtime prints them, the clamping
 * semantics of `String.prototype.substring`, and removal from a sequence.
 */
module Basics {

  /** The source's `T | null`. */
  datatype Option<+T> = None | Some(value: T) {
    /** The `x || fallback` idiom for a value that is either absent or truthy. */
    function GetOr(default: T): T {
      match this
      case Some(v) => v
      case None => default
    }
  }

  /** The sequence `s` without its `i`-th element. */
  function Remove<T>(s: seq<T>, i: nat): (r: seq<T>)
    requires i < |s|
    ensures |r| == |s| - 1
    ensures multiset(r) + multiset{s[i]} == multiset(s)
    ensures forall j :: 0 <= j < i ==> r[j] == s[j]
    ensures forall j :: i <= j < |r| ==> r[j] == s[j + 1]
  {
    assert s == s[..i] + [s[i]] + s[i + 1..];
    s[..i] + s[i + 1..]
  }

  // ---------------------------------------------------------------------
  // Hexadecimal digits
  // ---------------------------------------------------------------------

  /** A value `Math.floor(Math.random() * 16)` can produce. */
  type HexDigit = d: int | 0 <= d < 16

  /** The characters `Number.prototype.toString(16)` prints for a digit. */
  predicate IsHexChar(c: char) {
    '0' <= c <= '9' || 'a' <= c <= 'f'
  }

  /** `d.toString(16)` for a single digit. */
  function HexChar(d: HexDigit): (c: char)
    ensures IsHexChar(c)
    ensures d < 10 ==> c as int == '0' as int + d
    ensures 10 <= d ==> c as int == 'a' as int + (d - 10)
  {
    if d < 10 then (('0' as int) + d) as char else (('a' as int) + (d - 10)) as char
  }

  /** The digit a lower-case hexadecimal character stands for. */
  function HexValue(c: char): (r: Option<HexDigit>)
    ensures r.Some? <==> IsHexChar(c)
  {
    if '0' <= c <= '9' then Some(c as int - '0' as int)
    else if 'a' <= c <= 'f' then Some(c as int - 'a' as int + 10)
    else None
  }

  lemma HexCharRoundTrip(d: HexDigit)
    ensures HexValue(HexChar(d)) == Some(d)
  {
  }

  lemma HexValueRoundTrip(c: char)
    requires IsHexChar(c)
    ensures HexChar(HexValue(c).value) == c
  {
  }

  /** The digits printed one after another, as `join('')` of `toString(16)` does. */
  function HexString(ds: seq<HexDigit>): (s: string)
    ensures |s| == |ds|
    ensures forall i :: 0 <= i < |s| ==> IsHexChar(s[i])
  {
    if ds == [] then [] else [HexChar(ds[0])] + HexString(ds[1..])
  }

  /** A slice of the printed digits is the printing of the slice. */
  lemma {:induction false} HexStringSlice(ds: seq<HexDigit>, i: nat, j: nat)
    requires i <= j <= |ds|
    ensures HexString(ds)[i..j] == HexString(ds[i..j])
    decreases |ds|
  {
    if ds != [] {
      assert HexString(ds) == [HexChar(ds[0])] + HexString(ds[1..]);
      if i == 0 {
        if j > 0 {
          HexStringSlice(ds[1..], 0, j - 1);
          assert ds[1..][0..j - 1] == ds[1..j];
          assert ds[0..j] == [ds[0]] + ds[1..j];
        }
      } else {
        HexStringSlice(ds[1..], i - 1, j - 1);
        assert ds[1..][i - 1..j - 1] == ds[i..j];
      }
    }
  }

  /** Reads back a string of lower-case hexadecimal characters; None on any other character. */
  function ParseHex(s: string): (r: Option<seq<HexDigit>>)
    ensures r.Some? ==> |r.value| == |s|
    ensures r.Some? <==> forall i :: 0 <= i < |s| ==> IsHexChar(s[i])
  {
    if s == [] then Some([])
    else
      var head := HexValue(s[0]);
      var tail := ParseHex(s[1..]);
      if head.Some? && tail.Some? then
        assert forall i :: 1 <= i < |s| ==> s[i] == s[1..][i - 1];
        Some([head.value] + tail.value)
      else if head.None? then
        None
      else
        var k :| 0 <= k < |s[1..]| && !IsHexChar(s[1..][k]);
        assert !IsHexChar(s[k + 1]);
        None
  }

  lemma {:induction false} HexStringRoundTrip(ds: seq<HexDigit>)
    ensures ParseHex(HexString(ds)) == Some(ds)
  {
    if ds != [] {
      HexStringRoundTrip(ds[1..]);
      HexCharRoundTrip(ds[0]);
      assert HexString(ds)[1..] == HexString(ds[1..]);
      assert ds == [ds[0]] + ds[1..];
    }
  }

  lemma {:induction false} ParseHexRoundTrip(s: string)
    requires ParseHex(s).Some?
    ensures HexString(ParseHex(s).value) == s
  {
    if s != [] {
      ParseHexRoundTrip(s[1..]);
      HexValueRoundTrip(s[0]);
      var ds := ParseHex(s).value;
      assert ds[1..] == ParseHex(s[1..]).value;
      assert s == [s[0]] + s[1..];
    }
  }

  // ---------------------------------------------------------------------
  // Decimal digits
  // ---------------------------------------------------------------------

  predicate IsDecimalChar(c: char) {
    '0' <= c <= '9'
  }

  /** `String(n)` for a non-negative integer: its decimal digits, no leading zero. */
  function Decimal(n: nat): (s: string)
    ensures |s| >= 1
    ensures forall i :: 0 <= i < |s| ==> IsDecimalChar(s[i])
    ensures n > 0 ==> s[0] != '0'
  {
    if n < 10 then [(('0' as int) + n) as char]
    else Decimal(n / 10) + [(('0' as int) + n % 10) as char]
  }

  /** The number a string of decimal digits denotes. */
  function DecimalValue(s: string): nat
    requires forall i :: 0 <= i < |s| ==> IsDecimalChar(s[i])
  {
    if s == [] then 0
    else
      assert IsDecimalChar(s[|s| - 1]);
      DecimalValue(s[..|s| - 1]) * 10 + (s[|s| - 1] as int - '0' as int)
  }

  lemma {:induction false} DecimalRoundTrip(n: nat)
    ensures DecimalValue(Decimal(n)) == n
  {
    if n >= 10 {
      var s := Decimal(n);
      assert s[..|s| - 1] == Decimal(n / 10);
      DecimalRoundTrip(n / 10);
    }
  }

  // ---------------------------------------------------------------------
  // JavaScript String.prototype.substring
  // ---------------------------------------------------------------------

  /** An index as `substring` treats it: negative becomes 0, past the end becomes the length. */
  function ClampIndex(x: int, len: nat): (r: nat)
    ensures r <= len
    ensures 0 <= x <= len ==> r == x
  {
    if x < 0 then 0 else if x > len then len else x
  }

  /** `s.substring(start, end)`: both indices clamped, and swapped when start exceeds end. */
  function Substring(s: string, start: int, end: int): (r: string)
    ensures 0 <= start <= end <= |s| ==> r == s[start..end]
    ensures |r| <= |s|
  {
    var a := ClampIndex(start, |s|);
    var b := ClampIndex(end, |s|);
    if a <= b then s[a..b] else s[b..a]
  }

  /** `s.substring(start)`: the end defaults to the length. */
  function SubstringFrom(s: string, start: int): (r: string)
    ensures 0 <= start <= |s| ==> r == s[start..]
    ensures start <= 0 ==> r == s
  {
    Substring(s, start, |s|)
  }

  // ---------------------------------------------------------------------
  // Event-driven runs
  // ---------------------------------------------------------------------

  /** The state reached by applying `step` to each event of `es` in turn. */
  function RunSteps<S, E>(step: (S, E) -> S, s: S, es: seq<E>): S
    decreases |es|
  {
    if es == [] then s else RunSteps(step, step(s, es[0]), es[1..])
  }

  /** A property that every single step keeps holds after any run. */
  lemma {:induction false} RunKeeps<S, E>(step: (S, E) -> S, inv: S -> bool, s: S, es: seq<E>)
    requires forall t, e :: inv(t) ==> inv(step(t, e))
    requires inv(s)
    ensures inv(RunSteps(step, s, es))
    decreases |es|
  {
    if es != [] {
      RunKeeps(step, inv, step(s, es[0]), es[1..]);
    }
  }
}
