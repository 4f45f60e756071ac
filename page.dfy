/**
 * The per-pair part of the page: both subtitle files are loaded, and each
 * subtitle of the primary file is shown with the subtitle at the same index of
 * the English file as its tooltip, or a fixed message when there is none.
 * The HTML around it is not modelled; an entry holds the values written into it.
 */
module Page {
  import opened Wrappers
  import opened Srt
  import opened Pairing

  const NoTranslation: string := "No translation available"

  /** `$enSubtitles[$i] ?? ['text' => 'No translation available']`, then its text. */
  function Translation(enSubtitles: Option<seq<Cue>>, i: nat): string {
    if enSubtitles.Some? && i < |enSubtitles.value| then enSubtitles.value[i].text else NoTranslation
  }

  /** One rendered subtitle: the data-start and data-end values, the shown text and the tooltip. */
  datatype Entry = Entry(start: int, end: int, text: string, title: string)

  /** The loop over the primary subtitles, pairing each with its translation by index. */
  method RenderSubtitles(subtitles: seq<Cue>, enSubtitles: Option<seq<Cue>>) returns (entries: seq<Entry>)
    ensures |entries| == |subtitles|
    ensures forall i :: 0 <= i < |entries| ==>
      entries[i] == Entry(subtitles[i].start, subtitles[i].end, subtitles[i].text, Translation(enSubtitles, i))
  {
    entries := [];
    for i := 0 to |subtitles|
      invariant |entries| == i
      invariant forall k :: 0 <= k < i ==>
        entries[k] == Entry(subtitles[k].start, subtitles[k].end, subtitles[k].text, Translation(enSubtitles, k))
    {
      var subtitle := subtitles[i];
      var enText := if enSubtitles.Some? && i < |enSubtitles.value| then enSubtitles.value[i].text else NoTranslation;
      entries := entries + [Entry(subtitle.start, subtitle.end, subtitle.text, enText)];
    }
  }

  /**
   * One media pair: the primary subtitles are loaded from the pair's subtitle
   * file, the English ones only when the pair has an English file. `files`
   * gives each path's lines, or None when fopen fails.
   */
  method RenderPair(pair: MediaPair, files: string -> Option<seq<string>>) returns (entries: seq<Entry>)
    ensures var primary := if files(pair.subtitle).Some? then Parse(files(pair.subtitle).value) else [];
      |entries| == |primary|
      && forall i :: 0 <= i < |entries| ==> entries[i].start == primary[i].start && entries[i].end == primary[i].end
                                             && entries[i].text == primary[i].text
    ensures pair.enSubtitle.None? ==> forall i :: 0 <= i < |entries| ==> entries[i].title == NoTranslation
    ensures pair.enSubtitle.Some? ==>
      var secondary := if files(pair.enSubtitle.value).Some? then Parse(files(pair.enSubtitle.value).value) else [];
      forall i :: 0 <= i < |entries| ==> entries[i].title == Translation(Some(secondary), i)
  {
    var subtitles := LoadSubtitlesFrom(files(pair.subtitle));
    var enSubtitles: Option<seq<Cue>> := None;
    if pair.enSubtitle.Some? {
      var loaded := LoadSubtitlesFrom(files(pair.enSubtitle.value));
      enSubtitles := Some(loaded);
    }
    entries := RenderSubtitles(subtitles, enSubtitles);
  }

  /** A cue with a counterpart at its index in the English file shows that counterpart's text. */
  lemma TranslationAligned(enSubtitles: seq<Cue>, i: nat)
    requires i < |enSubtitles|
    ensures Translation(Some(enSubtitles), i) == enSubtitles[i].text
  {
  }

  /** Without an English file, or past its last cue, the tooltip is the fixed message. */
  lemma TranslationMissing(enSubtitles: Option<seq<Cue>>, i: nat)
    requires enSubtitles.None? || i >= |enSubtitles.value|
    ensures Translation(enSubtitles, i) == NoTranslation
  {
  }
}
