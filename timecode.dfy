/**
 * timeToSeconds: `sscanf($time, "%d:%d:%d,%d", ...)` followed by
 * `h*3600 + m*60 + s + ms/1000`. Times are integer milliseconds here, the
 * same formula scaled by 1000, so no value is rounded.
 */
module Timecode {
  import opened Wrappers
  import opened Text

  /** The whitespace sscanf's %d skips before a number (C isspace). */
  predicate IsScanSpace(c: char) {
    c == ' ' || c == '\t' || c == '\n' || c == '\U{B}' || c == '\U{C}' || c == '\r'
  }

  function SkipSpace(s: string): (r: string)
    ensures |r| <= |s|
    ensures r == [] || !IsScanSpace(r[0])
  {
    if |s| > 0 && IsScanSpace(s[0]) then SkipSpace(s[1..]) else s
  }

  /** The number of leading digits of s. */
  function DigitRun(s: string): (n: nat)
    ensures n <= |s|
    ensures forall k :: 0 <= k < n ==> IsDigit(s[k])
    ensures n < |s| ==> !IsDigit(s[n])
  {
    if |s| > 0 && IsDigit(s[0]) then 1 + DigitRun(s[1..]) else 0
  }

  /** The decimal value of a string of digits. */
  function Value(digits: string): (v: nat)
    requires AllDigits(digits)
  {
    if digits == [] then 0
    else Value(digits[..|digits| - 1]) * 10 + DigitValue(digits[|digits| - 1])
  }

  function DigitValue(c: char): (d: nat)
    requires IsDigit(c)
    ensures d <= 9
  {
    c as int - '0' as int
  }

  /**
   * One %d conversion: optional whitespace, an optional sign and at least one
   * digit. Gives the number and the unread rest, or None when no number is there.
   */
  function ScanInt(s: string): (r: Option<(int, string)>)
    ensures r.Some? ==> |r.value.1| < |s|
  {
    var t := SkipSpace(s);
    var negative := |t| > 0 && t[0] == '-';
    var u := if |t| > 0 && (t[0] == '-' || t[0] == '+') then t[1..] else t;
    var n := DigitRun(u);
    if n == 0 then None
    else
      var magnitude: int := Value(u[..n]);
      Some((if negative then -magnitude else magnitude, u[n..]))
  }

  /** The literal characters between the four %d conversions of "%d:%d:%d,%d". */
  const Separators: seq<char> := [':', ':', ',']

  /**
   * The groups sscanf fills, in order, when the conversions still to do are
   * separated by `seps`: it stops at the first conversion that finds no number
   * or the first separator that does not match.
   */
  function ScanGroups(s: string, seps: seq<char>): (r: seq<int>)
    ensures |r| <= |seps| + 1
    decreases |s|
  {
    match ScanInt(s)
    case None => []
    case Some((v, rest)) =>
      if seps != [] && |rest| > 0 && rest[0] == seps[0] then [v] + ScanGroups(rest[1..], seps[1..])
      else [v]
  }

  /** A group sscanf left unset is PHP null, which counts as 0 in arithmetic. */
  function Group(groups: seq<int>, k: nat): int {
    if k < |groups| then groups[k] else 0
  }

  /** timeToSeconds, in milliseconds. */
  function TimeToMillis(time: string): int {
    var g := ScanGroups(time, Separators);
    Group(g, 0) * 3600000 + Group(g, 1) * 60000 + Group(g, 2) * 1000 + Group(g, 3)
  }

  /** %d reads exactly the leading run of digits, and its value. */
  lemma {:induction false} ScanDigits(digits: string, rest: string)
    requires IsDigits(digits)
    requires rest == [] || !IsDigit(rest[0])
    ensures ScanInt(digits + rest) == Some((Value(digits), rest))
  {
    var s := digits + rest;
    assert SkipSpace(s) == s;
    DigitRunOf(digits, rest);
    assert s[..|digits|] == digits && s[|digits|..] == rest;
  }

  lemma {:induction false} DigitRunOf(digits: string, rest: string)
    requires AllDigits(digits)
    requires rest == [] || !IsDigit(rest[0])
    ensures DigitRun(digits + rest) == |digits|
  {
    if digits != [] {
      assert (digits + rest)[1..] == digits[1..] + rest;
      DigitRunOf(digits[1..], rest);
    }
  }

  /** A number followed by the next expected separator: sscanf goes on to the next conversion. */
  lemma {:induction false} ScanGroupsStep(digits: string, seps: seq<char>, rest: string)
    requires IsDigits(digits) && seps != [] && !IsDigit(seps[0])
    ensures ScanGroups(digits + [seps[0]] + rest, seps) == [Value(digits)] + ScanGroups(rest, seps[1..])
  {
    var tail := [seps[0]] + rest;
    assert digits + [seps[0]] + rest == digits + tail;
    ScanDigits(digits, tail);
    assert tail[1..] == rest;
  }

  /** A number with nothing after it fills one group and ends the scan. */
  lemma {:induction false} LastGroup(digits: string, seps: seq<char>)
    requires IsDigits(digits)
    ensures ScanGroups(digits, seps) == [Value(digits)]
  {
    ScanDigits(digits, []);
    assert digits + [] == digits;
  }

  /** The fields with seps[k] written between fields[k] and fields[k + 1]. */
  function Interleave(fields: seq<string>, seps: seq<char>): string
    requires |fields| == |seps| + 1
  {
    if seps == [] then fields[0] else fields[0] + [seps[0]] + Interleave(fields[1..], seps[1..])
  }

  /** The decimal value of each field. */
  function Values(fields: seq<string>): (r: seq<nat>)
    requires forall k :: 0 <= k < |fields| ==> IsDigits(fields[k])
    ensures |r| == |fields|
    ensures forall k :: 0 <= k < |fields| ==> assert IsDigits(fields[k]); r[k] == Value(fields[k])
  {
    if fields == [] then [] else assert IsDigits(fields[0]); [Value(fields[0])] + Values(fields[1..])
  }

  /** Digit fields separated exactly as `seps` expects fill one group each, in order. */
  lemma {:induction false} AllGroups(fields: seq<string>, seps: seq<char>)
    requires |fields| == |seps| + 1
    requires forall k :: 0 <= k < |fields| ==> IsDigits(fields[k])
    requires forall k :: 0 <= k < |seps| ==> !IsDigit(seps[k])
    ensures ScanGroups(Interleave(fields, seps), seps) == Values(fields)
  {
    if seps == [] {
      LastGroup(fields[0], seps);
      assert Values(fields) == [Value(fields[0])];
    } else {
      var rest := Interleave(fields[1..], seps[1..]);
      assert Interleave(fields, seps) == fields[0] + [seps[0]] + rest;
      AllGroups(fields[1..], seps[1..]);
      ScanGroupsStep(fields[0], seps, rest);
      var g := ScanGroups(rest, seps[1..]);
      assert ScanGroups(Interleave(fields, seps), seps) == [Value(fields[0])] + g;
    }
  }

  /** The value timeToSeconds computes from four filled groups. */
  lemma {:induction false} MillisOfGroups(time: string)
    requires |ScanGroups(time, Separators)| == 4
    ensures var g := ScanGroups(time, Separators);
      TimeToMillis(time) == g[0] * 3600000 + g[1] * 60000 + g[2] * 1000 + g[3]
  {
  }

  /**
   * A well-formed timecode H:MM:SS,mmm (any number of digits per field) is
   * hours*3600000 + minutes*60000 + seconds*1000 + milliseconds.
   */
  lemma {:induction false} TimecodeValue(h: string, m: string, s: string, ms: string)
    requires IsDigits(h) && IsDigits(m) && IsDigits(s) && IsDigits(ms)
    ensures TimeToMillis(h + ":" + m + ":" + s + "," + ms)
         == Value(h) * 3600000 + Value(m) * 60000 + Value(s) * 1000 + Value(ms)
  {
    var time := h + ":" + m + ":" + s + "," + ms;
    var fields := [h, m, s, ms];
    assert Interleave(fields[3..], Separators[3..]) == ms;
    assert Interleave(fields[2..], Separators[2..]) == s + "," + ms;
    assert Interleave(fields[1..], Separators[1..]) == m + ":" + s + "," + ms;
    assert Interleave(fields, Separators) == time;
    AllGroups(fields, Separators);
    MillisOfGroups(time);
    assert fields[0] == h && fields[1] == m && fields[2] == s && fields[3] == ms;
  }

  /**
   * When the hours are not followed by ':', sscanf fills only the first group
   * and the three unset groups count as 0.
   */
  lemma {:induction false} HoursOnly(h: string, rest: string)
    requires IsDigits(h)
    requires rest == [] || (!IsDigit(rest[0]) && rest[0] != ':')
    ensures TimeToMillis(h + rest) == Value(h) * 3600000
  {
    ScanDigits(h, rest);
  }

  /** Text in which sscanf finds no number at all converts to 0. */
  lemma {:induction false} NoNumber(time: string)
    requires ScanInt(time).None?
    ensures TimeToMillis(time) == 0
  {
  }

  /** The empty string (PHP null or an empty piece) converts to 0. */
  lemma {:induction false} EmptyIsZero()
    ensures TimeToMillis("") == 0
  {
    assert SkipSpace("") == "";
  }
}
