/**
 * loadSubtitles: one forward pass over the lines of an .srt file, as fgets
 * returns them (each with its line terminator, if any).
 *
 * A line that is numeric once trimmed starts a block. The next line is the
 * time line, taken without validation and split on " --> ". Then every line
 * up to the first blank one is trimmed and appended with a space; the blank
 * line is consumed. Outside a block, lines that are not numeric are skipped.
 */
module Srt {
  import opened Wrappers
  import opened Text
  import opened Timecode

  /** One subtitle: start and end in milliseconds, and its text. */
  datatype Cue = Cue(start: int, end: int, text: string)

  const TimeSeparator: string := " --> "

  /** is_numeric on the trimmed line, approximated as a non-empty run of ASCII digits. */
  predicate IsIndexLine(line: string) {
    IsDigits(Trim(line))
  }

  /**
   * The test that ends the text loop: the line is blank once trimmed, or it is
   * "0", which PHP reads as false (fgets returns "0" only for a last line "0"
   * without a newline).
   */
  predicate EndsText(line: string) {
    (|line| == 1 && line[0] == '0') || |Trim(line)| == 0
  }

  /** The number of leading lines the text loop appends. */
  function TextRun(lines: seq<string>): (n: nat)
    ensures n <= |lines|
    ensures forall k :: 0 <= k < n ==> !EndsText(lines[k])
    ensures n < |lines| ==> EndsText(lines[n])
  {
    if |lines| > 0 && !EndsText(lines[0]) then 1 + TextRun(lines[1..]) else 0
  }

  /** The lines after the index line and the time line of the block at block[0]. */
  function AfterTimeLine(block: seq<string>): seq<string> {
    if |block| >= 2 then block[2..] else []
  }

  /** The time line, trimmed; at end of input fgets gives false, and trim(false) is "". */
  function TimeLine(block: seq<string>): string {
    if |block| >= 2 then Trim(block[1]) else ""
  }

  /** The lines whose trimmed text makes up the cue of the block at block[0]. */
  function TextLines(block: seq<string>): seq<string> {
    var rest := AfterTimeLine(block);
    rest[..TextRun(rest)]
  }

  /**
   * The number of lines the block at block[0] consumes: the index line, the time
   * line if there is one, the text lines, and the line that ended them if any.
   */
  function BlockLength(block: seq<string>): (n: nat)
    requires block != []
    ensures 1 <= n <= |block|
  {
    var rest := AfterTimeLine(block);
    var t := TextRun(rest);
    (if |block| >= 2 then 2 else 1) + t + (if t < |rest| then 1 else 0)
  }

  /** A block as read from the file: its trimmed time line and its text lines. */
  datatype RawBlock = RawBlock(timeLine: string, texts: seq<string>)

  /** The block whose index line is block[0]. */
  function BlockAt(block: seq<string>): RawBlock {
    RawBlock(TimeLine(block), TextLines(block))
  }

  /** The blocks loadSubtitles reads from these lines, in file order. */
  function Blocks(lines: seq<string>): (blocks: seq<RawBlock>)
    ensures |blocks| <= |lines|
    decreases |lines|
  {
    if lines == [] then []
    else if !IsIndexLine(lines[0]) then Blocks(lines[1..])
    else [BlockAt(lines)] + Blocks(lines[BlockLength(lines)..])
  }

  /** The cue of a block: both ends of the time line converted, the text lines trimmed and joined by spaces. */
  function CueOf(block: RawBlock): Cue {
    var pieces := FirstTwoPieces(block.timeLine, TimeSeparator);
    Cue(TimeToMillis(pieces.0), TimeToMillis(pieces.1), Join(TrimAll(block.texts)))
  }

  /** The cue of each block, in order. */
  function Cues(blocks: seq<RawBlock>): (cues: seq<Cue>)
    ensures |cues| == |blocks|
  {
    if blocks == [] then [] else [CueOf(blocks[0])] + Cues(blocks[1..])
  }

  /** The cues loadSubtitles returns for these lines, in file order. */
  function Parse(lines: seq<string>): seq<Cue> {
    Cues(Blocks(lines))
  }

  /** Converting blocks distributes over concatenation. */
  lemma {:induction false} CuesAppend(a: seq<RawBlock>, b: seq<RawBlock>)
    ensures Cues(a + b) == Cues(a) + Cues(b)
  {
    if a == [] {
      assert a + b == b;
    } else {
      assert (a + b)[0] == a[0];
      assert (a + b)[1..] == a[1..] + b;
      CuesAppend(a[1..], b);
    }
  }

  /**
   * loadSubtitles on a file as fopen finds it: None when it cannot be opened,
   * which yields no subtitles, else the lines fgets returns.
   */
  method LoadSubtitlesFrom(file: Option<seq<string>>) returns (subtitles: seq<Cue>)
    ensures file.None? ==> subtitles == []
    ensures file.Some? ==> subtitles == Parse(file.value)
  {
    subtitles := [];
    if file.Some? {
      subtitles := LoadSubtitles(file.value);
    }
  }

  /**
   * loadSubtitles over the lines of an opened file. Each fgets call takes the
   * next line of the stream, so rest holds the lines not read yet.
   */
  method LoadSubtitles(lines: seq<string>) returns (subtitles: seq<Cue>)
    ensures subtitles == Parse(lines)
  {
    subtitles := [];
    var rest := lines;
    while rest != []
      invariant subtitles + Parse(rest) == Parse(lines)
      decreases |rest|
    {
      var line := Trim(rest[0]);
      if IsDigits(line) {
        var cue, after := ReadBlock(rest);
        EmitFirst(subtitles, cue, Parse(rest), Parse(after));
        subtitles := subtitles + [cue];
        rest := after;
      } else {
        ParseAtOtherLine(rest);
        rest := rest[1..];
      }
    }
    assert subtitles + [] == subtitles;
  }

  /** Moving the first cue still to come to the end of those emitted keeps the whole list. */
  lemma EmitFirst(emitted: seq<Cue>, cue: Cue, toCome: seq<Cue>, afterIt: seq<Cue>)
    requires toCome == [cue] + afterIt
    ensures emitted + toCome == (emitted + [cue]) + afterIt
  {
  }

  /**
   * One block of loadSubtitles, its index line stream[0] already read: the
   * time line (or nothing at the end of the file), then the text lines. The
   * cue read is the first cue of the stream, and the lines left unread are
   * parsed as the rest of the file.
   */
  method ReadBlock(stream: seq<string>) returns (cue: Cue, rest: seq<string>)
    requires stream != [] && IsIndexLine(stream[0])
    ensures |rest| < |stream|
    ensures Parse(stream) == [cue] + Parse(rest)
  {
    var pos := 1;
    var timeLine := "";
    if pos < |stream| {
      timeLine := stream[pos];
      pos := pos + 1;
    }
    var pieces := FirstTwoPieces(Trim(timeLine), TimeSeparator);
    var startMillis := TimeToMillis(pieces.0);
    var endMillis := TimeToMillis(pieces.1);
    var text, next := CollectText(stream, pos);
    CueAtIndexLine(stream, timeLine, startMillis, endMillis, pos, text, next);
    cue := Cue(startMillis, endMillis, text);
    ParseAtIndexLine(stream);
    rest := stream[next..];
  }

  /**
   * The inner loop of loadSubtitles: append each trimmed line and a space until
   * a line ends the text, consume that line, and trim the result.
   */
  method CollectText(lines: seq<string>, from: nat) returns (text: string, next: nat)
    requires from <= |lines|
    ensures var n := TextRun(lines[from..]);
      text == Join(TrimAll(lines[from..from + n]))
      && next == (if from + n < |lines| then from + n + 1 else from + n)
  {
    var acc := "";
    var pos := from;
    while pos < |lines| && !EndsText(lines[pos])
      invariant from <= pos <= |lines|
      invariant forall k :: from <= k < pos ==> !EndsText(lines[k])
      invariant acc == Spaced(TrimAll(lines[from..pos]))
    {
      TextStep(lines, from, pos);
      acc := acc + Trim(lines[pos]) + " ";
      pos := pos + 1;
    }
    TextDone(lines, from, pos, acc);
    text := Trim(acc);
    next := if pos < |lines| then pos + 1 else pos;
  }

  /** Appending the next trimmed line and a space extends the accumulated text by one part. */
  lemma TextStep(lines: seq<string>, from: nat, pos: nat)
    requires from <= pos < |lines|
    ensures Spaced(TrimAll(lines[from..pos + 1])) == Spaced(TrimAll(lines[from..pos])) + Trim(lines[pos]) + " "
  {
    assert lines[from..pos + 1][..pos - from] == lines[from..pos];
  }

  /** When the text loop stops, it has read the whole text run, and the trimmed accumulator is the joined text. */
  lemma TextDone(lines: seq<string>, from: nat, pos: nat, acc: string)
    requires from <= pos <= |lines|
    requires forall k :: from <= k < pos ==> !EndsText(lines[k])
    requires pos < |lines| ==> EndsText(lines[pos])
    requires acc == Spaced(TrimAll(lines[from..pos]))
    ensures var n := TextRun(lines[from..]);
      from + n == pos && Trim(acc) == Join(TrimAll(lines[from..from + n]))
  {
    TextRunIs(lines[from..], pos - from);
    TextPartsTrimmed(lines[from..pos]);
    TrimOfSpaced(TrimAll(lines[from..pos]));
  }

  /** The trimmed text lines are the non-empty, trimmed parts a cue's text is joined from. */
  lemma TextPartsTrimmed(texts: seq<string>)
    requires forall k :: 0 <= k < |texts| ==> !EndsText(texts[k])
    ensures forall k :: 0 <= k < |texts| ==> TrimAll(texts)[k] != [] && IsTrimmed(TrimAll(texts)[k])
  {
    forall k | 0 <= k < |texts| ensures TrimAll(texts)[k] != [] && IsTrimmed(TrimAll(texts)[k]) {
      TrimAllAt(texts, k);
      TrimCuts(texts[k]);
    }
  }

  /** TextRun is the length of the leading run of lines that do not end the text. */
  lemma {:induction false} TextRunIs(lines: seq<string>, n: nat)
    requires n <= |lines|
    requires forall k :: 0 <= k < n ==> !EndsText(lines[k])
    requires n < |lines| ==> EndsText(lines[n])
    ensures TextRun(lines) == n
  {
    if n > 0 {
      TextRunIs(lines[1..], n - 1);
    }
  }

  /** Where the text lines of the block at block[0] start and end, and where the next scan starts. */
  lemma {:induction false} BlockBounds(block: seq<string>, textStart: nat, n: nat)
    requires block != []
    requires textStart == (if |block| >= 2 then 2 else 1)
    requires n == TextRun(block[textStart..])
    ensures TextLines(block) == block[textStart..textStart + n]
    ensures BlockLength(block) == if textStart + n < |block| then textStart + n + 1 else textStart + n
  {
    assert AfterTimeLine(block) == block[textStart..];
  }

  /** Outside a block, a line that is not an index line yields no cue. */
  lemma ParseAtOtherLine(lines: seq<string>)
    requires lines != [] && !IsIndexLine(lines[0])
    ensures Parse(lines) == Parse(lines[1..])
  {
  }

  /**
   * At an index line, the first cue is the cue of the block there, and parsing
   * resumes after the block.
   */
  lemma ParseAtIndexLine(lines: seq<string>)
    requires lines != [] && IsIndexLine(lines[0])
    ensures Parse(lines) == [CueOf(BlockAt(lines))] + Parse(lines[BlockLength(lines)..])
  {
    CuesCons(BlockAt(lines), Blocks(lines[BlockLength(lines)..]));
  }

  /** The first block's cue comes first. */
  lemma CuesCons(block: RawBlock, rest: seq<RawBlock>)
    ensures Cues([block] + rest) == [CueOf(block)] + Cues(rest)
  {
    assert ([block] + rest)[1..] == rest;
  }

  /** The cue ReadBlock builds is the cue of the block at stream[0], and it stops where the block ends. */
  lemma {:induction false} CueAtIndexLine(stream: seq<string>, timeLine: string, startMillis: int, endMillis: int,
                                          textStart: nat, text: string, next: nat)
    requires stream != []
    requires timeLine == if 1 < |stream| then stream[1] else ""
    requires startMillis == TimeToMillis(FirstTwoPieces(Trim(timeLine), TimeSeparator).0)
    requires endMillis == TimeToMillis(FirstTwoPieces(Trim(timeLine), TimeSeparator).1)
    requires textStart == if 1 < |stream| then 2 else 1
    requires var n := TextRun(stream[textStart..]);
      text == Join(TrimAll(stream[textStart..textStart + n]))
      && next == (if textStart + n < |stream| then textStart + n + 1 else textStart + n)
    ensures CueOf(BlockAt(stream)) == Cue(startMillis, endMillis, text)
    ensures next == BlockLength(stream)
  {
    assert TimeLine(stream) == Trim(timeLine);
    BlockBounds(stream, textStart, TextRun(stream[textStart..]));
  }

  /** Lines outside a block that are not index lines produce nothing. */
  lemma {:induction false} BlocksSkipJunk(junk: seq<string>, rest: seq<string>)
    requires forall k :: 0 <= k < |junk| ==> !IsIndexLine(junk[k])
    ensures Blocks(junk + rest) == Blocks(rest)
  {
    if junk == [] {
      assert junk + rest == rest;
    } else {
      var lines := junk + rest;
      assert lines[0] == junk[0];
      assert lines[1..] == junk[1..] + rest;
      BlocksSkipJunk(junk[1..], rest);
    }
  }

  /** loadSubtitles ignores stray lines that are not numeric before a block. */
  lemma ParseSkipsJunk(junk: seq<string>, rest: seq<string>)
    requires forall k :: 0 <= k < |junk| ==> !IsIndexLine(junk[k])
    ensures Parse(junk + rest) == Parse(rest)
  {
    BlocksSkipJunk(junk, rest);
  }

  /** A file without a numeric line yields no subtitles. */
  lemma NoIndexNoCues(lines: seq<string>)
    requires forall k :: 0 <= k < |lines| ==> !IsIndexLine(lines[k])
    ensures Parse(lines) == []
  {
    BlocksSkipJunk(lines, []);
    assert lines + [] == lines;
  }

  /**
   * A block closed by a line that ends the text: the index line, the time
   * line, the text lines, and the closing line, which is consumed.
   */
  lemma {:induction false} BlocksOfClosedBlock(index: string, timeLine: string, texts: seq<string>, ender: string,
                                               rest: seq<string>)
    requires IsIndexLine(index)
    requires forall k :: 0 <= k < |texts| ==> !EndsText(texts[k])
    requires EndsText(ender)
    ensures Blocks([index, timeLine] + texts + [ender] + rest) == [RawBlock(Trim(timeLine), texts)] + Blocks(rest)
  {
    var lines := [index, timeLine] + texts + [ender] + rest;
    var after := lines[2..];
    assert after == texts + [ender] + rest;
    TextRunIs(after, |texts|);
    BlockBounds(lines, 2, |texts|);
    assert lines[..2 + |texts|][2..] == texts;
    assert lines[2 + |texts| + 1..] == rest;
  }

  /**
   * A block at the end of the file: the text loop stops because fgets gives
   * false, and the cue is still emitted.
   */
  lemma {:induction false} BlocksOfFinalBlock(index: string, timeLine: string, texts: seq<string>)
    requires IsIndexLine(index)
    requires forall k :: 0 <= k < |texts| ==> !EndsText(texts[k])
    ensures Blocks([index, timeLine] + texts) == [RawBlock(Trim(timeLine), texts)]
  {
    var lines := [index, timeLine] + texts;
    assert lines[2..] == texts;
    TextRunIs(texts, |texts|);
    BlockBounds(lines, 2, |texts|);
    assert lines[2..2 + |texts|] == texts;
    assert lines[|lines|..] == [];
  }

  /** The cue of a closed block, and the cues of what follows it. */
  lemma ParseClosedBlock(index: string, timeLine: string, texts: seq<string>, ender: string, rest: seq<string>)
    requires IsIndexLine(index)
    requires forall k :: 0 <= k < |texts| ==> !EndsText(texts[k])
    requires EndsText(ender)
    ensures var pieces := FirstTwoPieces(Trim(timeLine), TimeSeparator);
      Parse([index, timeLine] + texts + [ender] + rest)
      == [Cue(TimeToMillis(pieces.0), TimeToMillis(pieces.1), Join(TrimAll(texts)))] + Parse(rest)
  {
    BlocksOfClosedBlock(index, timeLine, texts, ender, rest);
    CuesAppend([RawBlock(Trim(timeLine), texts)], Blocks(rest));
  }

  /** The cue of a block that runs to the end of the file. */
  lemma ParseFinalBlock(index: string, timeLine: string, texts: seq<string>)
    requires IsIndexLine(index)
    requires forall k :: 0 <= k < |texts| ==> !EndsText(texts[k])
    ensures var pieces := FirstTwoPieces(Trim(timeLine), TimeSeparator);
      Parse([index, timeLine] + texts) == [Cue(TimeToMillis(pieces.0), TimeToMillis(pieces.1), Join(TrimAll(texts)))]
  {
    BlocksOfFinalBlock(index, timeLine, texts);
    CuesAppend([RawBlock(Trim(timeLine), texts)], []);
  }

  /** An index line on the last line of the file still yields a cue, at 0 ms with no text. */
  lemma IndexLineAtEnd(index: string)
    requires IsIndexLine(index)
    ensures Parse([index]) == [Cue(0, 0, "")]
  {
    var lines := [index];
    assert BlockLength(lines) == 1;
    assert lines[1..] == [];
    assert BlockAt(lines) == RawBlock("", []);
    NoSeparatorPieces("", TimeSeparator);
    EmptyIsZero();
    assert Cues(Blocks(lines)) == [CueOf(RawBlock("", []))] + Cues([]);
  }

  /** The text lines of a block read by the text loop: none of them ends the text. */
  predicate TextsContinue(block: RawBlock) {
    forall k :: 0 <= k < |block.texts| ==> !EndsText(block.texts[k])
  }

  /** Every block Blocks reads holds only lines the text loop appends. */
  lemma {:induction false} BlocksTextsContinue(lines: seq<string>)
    ensures forall i :: 0 <= i < |Blocks(lines)| ==> TextsContinue(Blocks(lines)[i])
    decreases |lines|
  {
    if lines != [] {
      if !IsIndexLine(lines[0]) {
        BlocksTextsContinue(lines[1..]);
      } else {
        BlocksTextsContinue(lines[BlockLength(lines)..]);
        var rest := AfterTimeLine(lines);
        assert BlockAt(lines).texts == rest[..TextRun(rest)];
      }
    }
  }

  /** The i-th cue is the cue of the i-th block. */
  lemma {:induction false} CuesAt(blocks: seq<RawBlock>, i: nat)
    requires i < |blocks|
    ensures Cues(blocks)[i] == CueOf(blocks[i])
  {
    assert Cues(blocks) == [CueOf(blocks[0])] + Cues(blocks[1..]);
    if i > 0 {
      assert Cues(blocks)[i] == Cues(blocks[1..])[i - 1];
      CuesAt(blocks[1..], i - 1);
      assert blocks[1..][i - 1] == blocks[i];
    }
  }

  /** A cue's text has no leading or trailing whitespace, and is empty only when the block has no text lines. */
  lemma CueTextTrimmed(block: RawBlock)
    requires TextsContinue(block)
    ensures IsTrimmed(CueOf(block).text)
    ensures CueOf(block).text == [] <==> block.texts == []
  {
    TextPartsTrimmed(block.texts);
    JoinOfTrimmed(TrimAll(block.texts));
  }

  /** Every subtitle text loadSubtitles returns is trimmed. */
  lemma ParseTextsTrimmed(lines: seq<string>)
    ensures forall i :: 0 <= i < |Parse(lines)| ==> IsTrimmed(Parse(lines)[i].text)
  {
    var blocks := Blocks(lines);
    BlocksTextsContinue(lines);
    forall i | 0 <= i < |Parse(lines)| ensures IsTrimmed(Parse(lines)[i].text) {
      CuesAt(blocks, i);
      CueTextTrimmed(blocks[i]);
    }
  }

  /**
   * A time line "a --> b", with any whitespace around it on the line (the
   * line terminator fgets keeps, say), splits into the two timecodes when
   * neither contains a space.
   */
  lemma TimeLinePieces(w1: string, a: string, b: string, w2: string)
    requires IsPadding(w1) && IsPadding(w2)
    requires a != [] && b != [] && ' ' !in a && ' ' !in b
    requires !IsTrimChar(a[0]) && !IsTrimChar(b[|b| - 1])
    ensures FirstTwoPieces(Trim(w1 + a + TimeSeparator + b + w2), TimeSeparator) == (a, b)
  {
    var s := a + TimeSeparator + b;
    assert s[0] == a[0] && s[|s| - 1] == b[|b| - 1];
    assert w1 + a + TimeSeparator + b + w2 == w1 + s + w2;
    TrimOfPadded(w1, s, w2);
    SplitAtSeparator(a, TimeSeparator, b);
  }

  /**
   * A block written the usual way, each line ending in the same terminator w
   * ("\n" or "\r\n", say): the index, "start --> end", one line of text and a
   * blank line. It gives one cue from start to end with that text, and
   * parsing goes on after the blank line.
   */
  lemma ParseTerminatedBlock(index: string, start: string, end: string, text: string, w: string, rest: seq<string>)
    requires IsDigits(index)
    requires start != [] && end != [] && ' ' !in start && ' ' !in end
    requires !IsTrimChar(start[0]) && !IsTrimChar(end[|end| - 1])
    requires text != [] && IsTrimmed(text)
    requires w != [] && IsPadding(w)
    ensures Parse([index + w, start + TimeSeparator + end + w, text + w, w] + rest)
         == [Cue(TimeToMillis(start), TimeToMillis(end), text)] + Parse(rest)
  {
    TerminatedLines(index, text, w);
    var timeLine := start + TimeSeparator + end + w;
    TerminatedTimeLine(start, end, w);
    var lines := [index + w, timeLine, text + w, w] + rest;
    assert lines == [index + w, timeLine] + [text + w] + [w] + rest;
    ParseClosedBlock(index + w, timeLine, [text + w], w, rest);
    var pieces := FirstTwoPieces(Trim(timeLine), TimeSeparator);
    assert pieces.0 == start && pieces.1 == end;
    assert Parse(lines) == [Cue(TimeToMillis(pieces.0), TimeToMillis(pieces.1), Join(TrimAll([text + w])))] + Parse(rest);
  }

  /** The index, text and blank lines of a terminated block, as the loop tests them. */
  lemma TerminatedLines(index: string, text: string, w: string)
    requires IsDigits(index)
    requires text != [] && IsTrimmed(text)
    requires w != [] && IsPadding(w)
    ensures IsIndexLine(index + w)
    ensures !EndsText(text + w) && TrimAll([text + w]) == [text] && Join([text]) == text
    ensures EndsText(w)
  {
    assert !IsTrimChar(index[0]) && !IsTrimChar(index[|index| - 1]) by {
      assert IsDigit(index[0]) && IsDigit(index[|index| - 1]);
    }
    TrimOfTerminated(index, w);
    TrimOfTerminated(text, w);
    TrimOfTerminated("", w);
    assert "" + w == w;
    assert TrimAll([text + w]) == TrimAll([]) + [Trim(text + w)];
  }

  /** A terminated time line splits into its two timecodes. */
  lemma TerminatedTimeLine(start: string, end: string, w: string)
    requires start != [] && end != [] && ' ' !in start && ' ' !in end
    requires !IsTrimChar(start[0]) && !IsTrimChar(end[|end| - 1])
    requires IsPadding(w)
    ensures FirstTwoPieces(Trim(start + TimeSeparator + end + w), TimeSeparator) == (start, end)
  {
    var s := start + TimeSeparator + end;
    assert s[0] == start[0] && s[|s| - 1] == end[|end| - 1];
    TrimOfTerminated(s, w);
    SplitAtSeparator(start, TimeSeparator, end);
  }
}
