/**
 * The string primitives of PHP that the subtitle loader relies on:
 * trim() with its default character set, the space-joined text of a cue,
 * and the first two pieces of explode().
 */
module Text {
  import opened Wrappers

  /** The characters PHP's trim() strips by default: space, tab, LF, CR, NUL and vertical tab. */
  predicate IsTrimChar(c: char) {
    c == ' ' || c == '\t' || c == '\n' || c == '\r' || c == '\0' || c == '\U{B}'
  }

  /** A string that trim() leaves alone: empty, or neither end is a trim character. */
  predicate IsTrimmed(s: string) {
    s == [] || (!IsTrimChar(s[0]) && !IsTrimChar(s[|s| - 1]))
  }

  function TrimRight(s: string): (r: string)
    ensures |r| <= |s|
  {
    if |s| > 0 && IsTrimChar(s[|s| - 1]) then TrimRight(s[..|s| - 1]) else s
  }

  function TrimLeft(s: string): (r: string)
    ensures |r| <= |s|
  {
    if |s| > 0 && IsTrimChar(s[0]) then TrimLeft(s[1..]) else s
  }

  /** PHP trim(): strip trim characters from both ends. */
  function Trim(s: string): string {
    TrimLeft(TrimRight(s))
  }

  /** TrimRight keeps a prefix that does not end in a trim character and cuts only trim characters. */
  lemma {:induction false} TrimRightCuts(s: string)
    ensures TrimRight(s) == s[..|TrimRight(s)|]
    ensures TrimRight(s) == [] || !IsTrimChar(TrimRight(s)[|TrimRight(s)| - 1])
    ensures forall k :: |TrimRight(s)| <= k < |s| ==> IsTrimChar(s[k])
  {
    if |s| > 0 && IsTrimChar(s[|s| - 1]) {
      TrimRightCuts(s[..|s| - 1]);
    }
  }

  /** TrimLeft keeps a suffix that does not start with a trim character and cuts only trim characters. */
  lemma {:induction false} TrimLeftCuts(s: string)
    ensures TrimLeft(s) == s[|s| - |TrimLeft(s)|..]
    ensures TrimLeft(s) == [] || !IsTrimChar(TrimLeft(s)[0])
    ensures forall k :: 0 <= k < |s| - |TrimLeft(s)| ==> IsTrimChar(s[k])
  {
    if |s| > 0 && IsTrimChar(s[0]) {
      TrimLeftCuts(s[1..]);
    }
  }

  /** How many characters trim() cuts from the front of s. */
  function FrontCut(s: string): nat {
    |TrimRight(s)| - |Trim(s)|
  }

  /**
   * trim() gives a trimmed slice of s, and everything it cut off on either
   * side is a trim character.
   */
  lemma TrimCuts(s: string)
    ensures IsTrimmed(Trim(s))
    ensures FrontCut(s) + |Trim(s)| <= |s|
    ensures Trim(s) == s[FrontCut(s)..FrontCut(s) + |Trim(s)|]
    ensures forall k :: 0 <= k < FrontCut(s) ==> IsTrimChar(s[k])
    ensures forall k :: FrontCut(s) + |Trim(s)| <= k < |s| ==> IsTrimChar(s[k])
  {
    var right := TrimRight(s);
    TrimRightCuts(s);
    TrimLeftCuts(right);
    var r := Trim(s);
    if r != [] {
      assert r[|r| - 1] == right[|right| - 1];
    }
    forall k | 0 <= k < FrontCut(s) ensures IsTrimChar(s[k]) {
      assert s[k] == right[k];
    }
  }

  lemma TrimOfTrimmed(s: string)
    requires IsTrimmed(s)
    ensures Trim(s) == s
  {
  }

  /** A string made only of trim characters, such as a line terminator. */
  predicate IsPadding(w: string) {
    forall k :: 0 <= k < |w| ==> IsTrimChar(w[k])
  }

  /** TrimRight removes trailing padding and stops at a character it keeps. */
  lemma {:induction false} TrimRightOfPadded(s: string, w: string)
    requires IsPadding(w)
    requires s == [] || !IsTrimChar(s[|s| - 1])
    ensures TrimRight(s + w) == TrimRight(s) == (if s == [] then [] else s)
    decreases |w|
  {
    if w == [] {
      assert s + w == s;
      if s != [] {
        assert TrimRight(s) == s;
      }
    } else {
      var t := s + w;
      assert t[|t| - 1] == w[|w| - 1];
      assert t[..|t| - 1] == s + w[..|w| - 1];
      TrimRightOfPadded(s, w[..|w| - 1]);
    }
  }

  /** TrimLeft removes leading padding and stops at a character it keeps. */
  lemma {:induction false} TrimLeftOfPadded(w: string, s: string)
    requires IsPadding(w)
    requires s == [] || !IsTrimChar(s[0])
    ensures TrimLeft(w + s) == s
    decreases |w|
  {
    if w == [] {
      assert w + s == s;
    } else {
      var t := w + s;
      assert t[0] == w[0];
      assert t[1..] == w[1..] + s;
      TrimLeftOfPadded(w[1..], s);
    }
  }

  /** trim() of a trimmed string followed by padding (a line terminator, say) gives that string. */
  lemma TrimOfTerminated(s: string, w: string)
    requires IsPadding(w) && IsTrimmed(s)
    ensures Trim(s + w) == s
  {
    TrimRightOfPadded(s, w);
    if s == [] {
      assert TrimLeft([]) == [];
    }
  }

  /** trim() of a trimmed string between padding on both sides gives that string. */
  lemma TrimOfPadded(w1: string, s: string, w2: string)
    requires IsPadding(w1) && IsPadding(w2) && IsTrimmed(s)
    ensures Trim(w1 + s + w2) == s
  {
    if s == [] {
      assert w1 + s + w2 == w1 + w2;
      assert IsPadding(w1 + w2) by {
        forall k | 0 <= k < |w1 + w2| ensures IsTrimChar((w1 + w2)[k]) {
          if k < |w1| { assert (w1 + w2)[k] == w1[k]; } else { assert (w1 + w2)[k] == w2[k - |w1|]; }
        }
      }
      assert [] + (w1 + w2) == w1 + w2;
      TrimRightOfPadded([], w1 + w2);
      assert TrimLeft([]) == [];
    } else {
      assert (w1 + s)[|w1 + s| - 1] == s[|s| - 1];
      TrimRightOfPadded(w1 + s, w2);
      TrimLeftOfPadded(w1, s);
    }
  }

  /** Trimming a trimmed string with one trailing space gives the string back. */
  lemma TrimTrailingSpace(s: string)
    requires IsTrimmed(s)
    ensures Trim(s + " ") == s
  {
    var t := s + " ";
    assert t[..|t| - 1] == s;
    assert TrimRight(t) == TrimRight(s) == s;
  }

  /** Every string of the sequence passed through trim(). */
  function TrimAll(lines: seq<string>): (r: seq<string>)
    ensures |r| == |lines|
  {
    if lines == [] then [] else TrimAll(lines[..|lines| - 1]) + [Trim(lines[|lines| - 1])]
  }

  lemma {:induction false} TrimAllAt(lines: seq<string>, k: nat)
    requires k < |lines|
    ensures TrimAll(lines)[k] == Trim(lines[k])
  {
    if k < |lines| - 1 {
      TrimAllAt(lines[..|lines| - 1], k);
    }
  }

  /** The parts separated by single spaces: PHP implode(' ', parts). */
  function Join(parts: seq<string>): string
  {
    if |parts| == 0 then ""
    else if |parts| == 1 then parts[0]
    else Join(parts[..|parts| - 1]) + " " + parts[|parts| - 1]
  }

  /** Each part followed by one space, as `$text .= $part . ' '` builds it. */
  function Spaced(parts: seq<string>): string
  {
    if parts == [] then "" else Spaced(parts[..|parts| - 1]) + parts[|parts| - 1] + " "
  }

  lemma {:induction false} SpacedIsJoinPlusSpace(parts: seq<string>)
    requires parts != []
    ensures Spaced(parts) == Join(parts) + " "
  {
    if |parts| > 1 {
      var init := parts[..|parts| - 1];
      SpacedIsJoinPlusSpace(init);
      assert init[..|init| - 1] == parts[..|parts| - 2];
    }
  }

  /**
   * Joining non-empty trimmed parts gives a trimmed string that is empty
   * exactly when there are no parts.
   */
  lemma {:induction false} JoinOfTrimmed(parts: seq<string>)
    requires forall k :: 0 <= k < |parts| ==> parts[k] != [] && IsTrimmed(parts[k])
    ensures IsTrimmed(Join(parts))
    ensures Join(parts) == [] <==> parts == []
    ensures parts != [] ==> Join(parts)[0] == parts[0][0]
  {
    if |parts| > 1 {
      JoinOfTrimmed(parts[..|parts| - 1]);
    }
  }

  /**
   * The accumulated `$text` with every part followed by a space, once trimmed,
   * is exactly the parts joined by single spaces.
   */
  lemma TrimOfSpaced(parts: seq<string>)
    requires forall k :: 0 <= k < |parts| ==> parts[k] != [] && IsTrimmed(parts[k])
    ensures Trim(Spaced(parts)) == Join(parts)
  {
    if parts != [] {
      SpacedIsJoinPlusSpace(parts);
      JoinOfTrimmed(parts);
      TrimTrailingSpace(Join(parts));
    }
  }

  predicate OccursAt(s: string, sep: string, p: int) {
    0 <= p && p + |sep| <= |s| && s[p..p + |sep|] == sep
  }

  /** The first position at or after `from` where sep occurs in s (PHP strpos with offset). */
  function Find(s: string, sep: string, from: nat): (r: Option<nat>)
    ensures r.Some? ==> from <= r.value && OccursAt(s, sep, r.value)
    ensures r.Some? ==> forall p :: from <= p < r.value ==> !OccursAt(s, sep, p)
    ensures r.None? ==> forall p :: from <= p ==> !OccursAt(s, sep, p)
    decreases |s| - from
  {
    if from + |sep| > |s| then None
    else if s[from..from + |sep|] == sep then Some(from)
    else Find(s, sep, from + 1)
  }

  /**
   * `list($a, $b) = explode($sep, $s)`: the text before the first separator and
   * the text between the first and the second. Without a separator, explode
   * yields one piece and $b is null, which every later string use reads as "".
   */
  function FirstTwoPieces(s: string, sep: string): (string, string)
    requires sep != []
  {
    match Find(s, sep, 0)
    case None => (s, "")
    case Some(p) =>
      var after := p + |sep|;
      match Find(s, sep, after)
      case None => (s[..p], s[after..])
      case Some(q) => (s[..p], s[after..q])
  }

  /** A string with no occurrence of sep comes back whole with an empty second piece. */
  lemma NoSeparatorPieces(s: string, sep: string)
    requires sep != []
    requires forall p :: !OccursAt(s, sep, p)
    ensures FirstTwoPieces(s, sep) == (s, "")
  {
  }

  /**
   * When the separator starts and ends with a space and neither side contains
   * a space, explode splits `a <sep> b` back into a and b.
   */
  lemma SplitAtSeparator(a: string, sep: string, b: string)
    requires |sep| >= 1 && sep[0] == ' '
    requires ' ' !in a && ' ' !in b
    ensures FirstTwoPieces(a + sep + b, sep) == (a, b)
  {
    var s := a + sep + b;
    assert OccursAt(s, sep, |a|);
    forall p | 0 <= p < |a| ensures !OccursAt(s, sep, p) {
      assert s[p] == a[p] && a[p] in a;
    }
    assert Find(s, sep, 0) == Some(|a|);
    var after := |a| + |sep|;
    assert s[after..] == b;
    forall p | after <= p ensures !OccursAt(s, sep, p) {
      if p < |s| {
        assert s[p] == b[p - after] && b[p - after] in b;
      }
    }
    assert s[..|a|] == a;
  }

  predicate IsDigit(c: char) {
    '0' <= c <= '9'
  }

  predicate AllDigits(s: string) {
    forall k :: 0 <= k < |s| ==> IsDigit(s[k])
  }

  /** A non-empty run of ASCII digits. */
  predicate IsDigits(s: string) {
    s != [] && AllDigits(s)
  }
}
