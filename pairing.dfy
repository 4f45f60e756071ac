/**
 * The pairing loop at the top of the page: each media file found in the
 * directory is kept when a subtitle file with the same name and the extension
 * .srt exists, and carries the English subtitle file <name>.en.srt when that
 * exists too. Whether a file exists is a parameter of the model.
 */
module Pairing {
  import opened Wrappers

  /** The index of the last occurrence of c in s. */
  function LastIndexOf(s: string, c: char): (r: Option<nat>)
    ensures r.Some? ==> r.value < |s| && s[r.value] == c
    ensures r.Some? ==> forall k :: r.value < k < |s| ==> s[k] != c
    ensures r.None? ==> c !in s
  {
    if s == [] then None
    else if s[|s| - 1] == c then Some(|s| - 1)
    else LastIndexOf(s[..|s| - 1], c)
  }

  /** basename: the part of a path after its last '/'. */
  function BaseName(path: string): (r: string)
    ensures '/' !in r
  {
    match LastIndexOf(path, '/')
    case None => path
    case Some(i) => path[i + 1..]
  }

  /** pathinfo(path, PATHINFO_FILENAME): the base name up to its last '.'. */
  function FileName(path: string): string {
    var base := BaseName(path);
    match LastIndexOf(base, '.')
    case None => base
    case Some(i) => base[..i]
  }

  /** "$directory/$filename.srt" */
  function SubtitlePath(dir: string, mediaFile: string): string {
    dir + "/" + FileName(mediaFile) + ".srt"
  }

  /** "$directory/$filename.en.srt" */
  function EnSubtitlePath(dir: string, mediaFile: string): string {
    dir + "/" + FileName(mediaFile) + ".en.srt"
  }

  /** One entry of $mediaPairs; enSubtitle is None where PHP stores null. */
  datatype MediaPair = MediaPair(media: string, subtitle: string, enSubtitle: Option<string>)

  /** The entry built for a media file whose subtitle file exists. */
  function PairFor(dir: string, mediaFile: string, fileExists: string -> bool): MediaPair {
    MediaPair(BaseName(mediaFile), SubtitlePath(dir, mediaFile),
              if fileExists(EnSubtitlePath(dir, mediaFile)) then Some(EnSubtitlePath(dir, mediaFile)) else None)
  }

  /** What the loop appends for one media file: its entry if its subtitle file exists, else nothing. */
  function Kept(dir: string, mediaFile: string, fileExists: string -> bool): seq<MediaPair> {
    if fileExists(SubtitlePath(dir, mediaFile)) then [PairFor(dir, mediaFile, fileExists)] else []
  }

  /** f applied to each element in turn, the results concatenated. */
  function FlatMap<T, U>(xs: seq<T>, f: T -> seq<U>): seq<U> {
    if xs == [] then [] else FlatMap(xs[..|xs| - 1], f) + f(xs[|xs| - 1])
  }

  /** FlatMap over a concatenation is the concatenation of the FlatMaps. */
  lemma {:induction false} FlatMapAppend<T, U>(a: seq<T>, b: seq<T>, f: T -> seq<U>)
    ensures FlatMap(a + b, f) == FlatMap(a, f) + FlatMap(b, f)
    decreases |b|
  {
    if b == [] {
      assert a + b == a;
    } else {
      var ab := a + b;
      assert ab[..|ab| - 1] == a + b[..|b| - 1];
      assert ab[|ab| - 1] == b[|b| - 1];
      FlatMapAppend(a, b[..|b| - 1], f);
    }
  }

  /** The entries of $mediaPairs for these media files, in order. */
  function Pairs(dir: string, mediaFiles: seq<string>, fileExists: string -> bool): seq<MediaPair> {
    FlatMap(mediaFiles, m => Kept(dir, m, fileExists))
  }

  /** The foreach over the media files, appending to $mediaPairs. */
  method PairMedia(dir: string, mediaFiles: seq<string>, fileExists: string -> bool) returns (mediaPairs: seq<MediaPair>)
    ensures mediaPairs == Pairs(dir, mediaFiles, fileExists)
  {
    mediaPairs := [];
    for i := 0 to |mediaFiles|
      invariant mediaPairs == Pairs(dir, mediaFiles[..i], fileExists)
    {
      var mediaFile := mediaFiles[i];
      var filename := FileName(mediaFile);
      var subtitleFile := dir + "/" + filename + ".srt";
      var enSubtitleFile := dir + "/" + filename + ".en.srt";
      assert mediaFiles[..i + 1][..i] == mediaFiles[..i];
      if fileExists(subtitleFile) {
        var enSubtitle := if fileExists(enSubtitleFile) then Some(enSubtitleFile) else None;
        mediaPairs := mediaPairs + [MediaPair(BaseName(mediaFile), subtitleFile, enSubtitle)];
      }
    }
    assert mediaFiles[..|mediaFiles|] == mediaFiles;
  }

  /** Pairing one more media file appends what the loop appends for it. */
  lemma PairsSnoc(dir: string, mediaFiles: seq<string>, last: string, fileExists: string -> bool)
    ensures Pairs(dir, mediaFiles + [last], fileExists) == Pairs(dir, mediaFiles, fileExists) + Kept(dir, last, fileExists)
  {
    var all := mediaFiles + [last];
    assert all[..|all| - 1] == mediaFiles;
  }

  /** Pairing two lists of media files one after the other pairs their concatenation: order is kept. */
  lemma PairsAppend(dir: string, a: seq<string>, b: seq<string>, fileExists: string -> bool)
    ensures Pairs(dir, a + b, fileExists) == Pairs(dir, a, fileExists) + Pairs(dir, b, fileExists)
  {
    FlatMapAppend(a, b, m => Kept(dir, m, fileExists));
  }

  /** There are never more pairs than media files. */
  lemma {:induction false} PairsLength(dir: string, mediaFiles: seq<string>, fileExists: string -> bool)
    ensures |Pairs(dir, mediaFiles, fileExists)| <= |mediaFiles|
    decreases |mediaFiles|
  {
    if mediaFiles != [] {
      var init := mediaFiles[..|mediaFiles| - 1];
      assert mediaFiles == init + [mediaFiles[|mediaFiles| - 1]];
      PairsLength(dir, init, fileExists);
      PairsSnoc(dir, init, mediaFiles[|mediaFiles| - 1], fileExists);
    }
  }

  /** A media file is paired exactly when its subtitle file exists, and then with the entry PairFor builds. */
  lemma PairsOfOne(dir: string, mediaFile: string, fileExists: string -> bool)
    ensures Pairs(dir, [mediaFile], fileExists)
         == if fileExists(SubtitlePath(dir, mediaFile)) then [PairFor(dir, mediaFile, fileExists)] else []
  {
    PairsSnoc(dir, [], mediaFile, fileExists);
    assert [] + [mediaFile] == [mediaFile];
    assert Pairs(dir, [], fileExists) == [];
  }

  /** Every entry comes from a media file whose subtitle file exists. */
  lemma {:induction false} PairsSound(dir: string, mediaFiles: seq<string>, fileExists: string -> bool, pair: MediaPair)
    requires pair in Pairs(dir, mediaFiles, fileExists)
    ensures exists m :: m in mediaFiles && fileExists(SubtitlePath(dir, m)) && pair == PairFor(dir, m, fileExists)
  {
    var init := mediaFiles[..|mediaFiles| - 1];
    var last := mediaFiles[|mediaFiles| - 1];
    if pair in Pairs(dir, init, fileExists) {
      PairsSound(dir, init, fileExists, pair);
      var m :| m in init && fileExists(SubtitlePath(dir, m)) && pair == PairFor(dir, m, fileExists);
      assert m in mediaFiles;
    } else {
      assert last in mediaFiles;
    }
  }

  /** Every media file whose subtitle file exists has its entry. */
  lemma {:induction false} PairsComplete(dir: string, mediaFiles: seq<string>, fileExists: string -> bool, m: string)
    requires m in mediaFiles && fileExists(SubtitlePath(dir, m))
    ensures PairFor(dir, m, fileExists) in Pairs(dir, mediaFiles, fileExists)
  {
    var init := mediaFiles[..|mediaFiles| - 1];
    if mediaFiles[|mediaFiles| - 1] != m {
      assert mediaFiles == init + [mediaFiles[|mediaFiles| - 1]];
      PairsComplete(dir, init, fileExists, m);
    }
  }

  /** The English subtitle path is recorded exactly when that file exists. */
  lemma EnSubtitleWhenExists(dir: string, mediaFile: string, fileExists: string -> bool)
    ensures PairFor(dir, mediaFile, fileExists).enSubtitle.Some? <==> fileExists(EnSubtitlePath(dir, mediaFile))
    ensures PairFor(dir, mediaFile, fileExists).enSubtitle.Some? ==>
      PairFor(dir, mediaFile, fileExists).enSubtitle.value == dir + "/" + FileName(mediaFile) + ".en.srt"
  {
  }

  /** The last occurrence of c is at p when s[p] is c and no c follows it. */
  lemma LastIndexOfAt(s: string, c: char, p: nat)
    requires p < |s| && s[p] == c
    requires forall k :: p < k < |s| ==> s[k] != c
    ensures LastIndexOf(s, c) == Some(p)
  {
    var r := LastIndexOf(s, c);
    assert s[p] in s;
  }

  /** The name of "dir/name.ext" is name, when ext has no dot and neither has a slash. */
  lemma FileNameOfPath(dir: string, name: string, ext: string)
    requires '/' !in name && '/' !in ext && '.' !in ext
    ensures BaseName(dir + "/" + name + "." + ext) == name + "." + ext
    ensures FileName(dir + "/" + name + "." + ext) == name
  {
    var base := name + "." + ext;
    var path := dir + "/" + base;
    assert path == dir + "/" + name + "." + ext;
    forall k | |dir| < k < |path| ensures path[k] != '/' {
      assert path[k] == base[k - |dir| - 1];
      assert base[k - |dir| - 1] in base;
    }
    LastIndexOfAt(path, '/', |dir|);
    assert path[|dir| + 1..] == base;
    forall k | |name| < k < |base| ensures base[k] != '.' {
      assert base[k] == ext[k - |name| - 1];
    }
    LastIndexOfAt(base, '.', |name|);
    assert base[..|name|] == name;
  }
}
