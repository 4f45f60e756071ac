# Subtitle player core in Dafny

This project models the subtitle engine of a one-page PHP media player
(`index.php`). The page pairs each media file in its directory with a SubRip
(`.srt`) subtitle file of the same name, and optionally an English `.en.srt`
file. It parses the subtitle files into cues and shows every cue as a line of
text. Hovering a line plays the media from the cue's start and schedules a
pause at its end. The English cue at the same index is the line's tooltip.

The model has six modules:

- `Wrappers` — `Option`, for the places where PHP or JavaScript hold null or undefined.
- `Text` — PHP's `trim`, the space-joining of text lines, and `explode(' --> ', …)` read through `list($start, $end)`.
- `Timecode` — `timeToSeconds`:
  - `sscanf`'s `%d:%d:%d,%d`, where an unset group counts as 0;
  - the result is integer milliseconds, that is `h*3600 + m*60 + s + ms/1000` scaled by 1000.
- `Srt` — `loadSubtitles`:
  - an imperative method over the lines `fgets` returns;
  - proved equal to a specification that first splits the lines into blocks (`Blocks`) and then converts each block into a cue (`Cues`).
- `Pairing` — the loop that builds `$mediaPairs`:
  - an imperative method proved against a specification function;
  - whether a file exists is a function parameter.
- `Page` — per media pair:
  - loading both subtitle files;
  - for each primary cue, the English text at the same index, or "No translation available".
- `Playback` — `playMediaAt`/`stopMedia`:
  - a class whose fields are the shared `mediaTimeout` handle, the browser's scheduled timers and a log of the calls made on media elements;
  - proved against a pure step function.

## Model

| member | source | states |
|---|---|---|
| Text.TrimCuts | index.php:38 | `trim` gives a string with no trim character at either end, and it removes only trim characters (space, tab, LF, CR, NUL, VT) from both ends |
| Text.TrimOfPadded | index.php:38 | trimming a trimmed string with any whitespace before and after it (the line terminator fgets keeps, say) gives that string |
| Text.TrimOfTrimmed | index.php:38 | trimming an already trimmed string leaves it unchanged |
| Text.TrimOfSpaced | index.php:46-53 | trimming the text accumulator (each trimmed line followed by a space) gives the lines joined by single spaces |
| Text.JoinOfTrimmed | index.php:53 | joining trimmed, non-empty lines gives a trimmed text that is empty exactly when there are no lines |
| Text.SplitAtSeparator | index.php:41 | for `a --> b` with no space in a or b, explode plus list gives start `a` and end `b` |
| Text.NoSeparatorPieces | index.php:41 | with no separator, the start is the whole line and the end is empty (list leaves `$end` null) |
| Timecode.TimecodeValue | index.php:27-29 | a well-formed `H:M:S,ms` converts to `H*3600000 + M*60000 + S*1000 + ms` milliseconds |
| Timecode.HoursOnly | index.php:27-29 | when only the hours group is filled, the three unset groups count as 0 |
| Timecode.NoNumber | index.php:27-29 | text where `%d` finds no number converts to 0 |
| Timecode.EmptyIsZero | index.php:27-29 | an empty time (a missing end after explode) converts to 0 |
| Timecode.ScanDigits | index.php:28 | one `%d` conversion reads the leading digit run and its decimal value, and leaves the rest unread |
| Timecode.AllGroups | index.php:28 | when numbers and separators alternate as the format demands, every group is filled with its number's value |
| Srt.LoadSubtitles | index.php:32-59 | the loop, taking lines from the stream as fgets does, returns exactly the cues of the specification, in file order |
| Srt.LoadSubtitlesFrom | index.php:35-58 | a file that cannot be opened yields no subtitles; otherwise the file's lines are parsed |
| Srt.ReadBlock | index.php:39-54 | with an index line at the head of the unread lines, reading its block consumes at least that line and yields the first cue of those lines; the lines left unread are parsed as the rest of the file |
| Srt.CollectText | index.php:46-49 | the text loop appends every line up to the first one that ends the text, consumes that line, and its trimmed result is those lines trimmed and joined |
| Srt.ParseAtIndexLine | index.php:39-54 | a numeric line starts a block whose cue comes first, and parsing resumes after the block's closing line |
| Srt.ParseAtOtherLine | index.php:37-39 | outside a block, a line that is not numeric yields nothing |
| Srt.ParseSkipsJunk | index.php:37-39 | non-numeric lines before a block produce nothing |
| Srt.NoIndexNoCues | index.php:37-39 | a file with no numeric line yields no subtitles |
| Srt.ParseClosedBlock | index.php:39-54 | index line, time line, text lines and a closing blank line give one cue: start and end from the two halves of the time line, and the text lines joined. Parsing resumes after the blank line, and a numeric text line is taken as text |
| Srt.ParseFinalBlock | index.php:39-54 | a block cut off by the end of the file still yields its cue |
| Srt.IndexLineAtEnd | index.php:39-54 | a numeric last line yields a cue at 0 ms with empty text |
| Srt.ParseTextsTrimmed | index.php:53 | every cue text is trimmed |
| Srt.CueTextTrimmed | index.php:46-53 | a cue's text is trimmed, and empty exactly when the block has no text line |
| Srt.TimeLinePieces | index.php:40-41 | a time line `a --> b` splits into `a` and `b` whatever whitespace surrounds it on the line, its line terminator included |
| Srt.ParseTerminatedBlock | index.php:37-54 | a block whose lines all end in the same terminator (index, `start --> end`, one text line, blank line) gives one cue from `start` to `end` with that text, and parsing goes on after the blank line |
| Srt.CuesAppend | index.php:50-54 | cues are appended block by block, so the cues of concatenated block lists are concatenated |
| Pairing.PairMedia | index.php:11-24 | the foreach builds exactly the pairs of the specification, in media order |
| Pairing.PairsAppend | index.php:11-24 | pairing keeps input order: pairing a concatenation is the concatenation of the pairings |
| Pairing.PairsLength | index.php:11-24 | there are never more pairs than media files |
| Pairing.PairsSound | index.php:17-23 | every pair comes from a listed media file whose `.srt` exists |
| Pairing.PairsComplete | index.php:17-23 | every listed media file whose `.srt` exists has its pair |
| Pairing.PairsOfOne | index.php:17-23 | a single media file is paired exactly when its `.srt` exists |
| Pairing.EnSubtitleWhenExists | index.php:14-21 | `enSubtitle` is set exactly when `<name>.en.srt` exists, and then holds that path |
| Pairing.FileNameOfPath | index.php:12-19 | for `dir/name.ext`, basename is `name.ext` and the file name is `name` |
| Pairing.LastIndexOf | index.php:12 | the index found holds the character and none follows it; no index means the character does not occur |
| Page.RenderSubtitles | index.php:136-145 | there is one entry per primary cue, with its start, end and text, and the translation at the same index |
| Page.RenderPair | index.php:124-137 | entries follow the primary file's cues; without an English file every tooltip is the fixed message, otherwise it is the English cue at the same index |
| Page.TranslationAligned | index.php:137 | a cue with an English cue at its index shows that cue's text |
| Page.TranslationMissing | index.php:137 | without English cues, or past their end, the tooltip is "No translation available" |
| Playback.StepValid | index.php:155-172 | every handler and timer keeps the invariant: a still-scheduled timer is the one `mediaTimeout` names |
| Playback.RunValid | index.php:155-172 | the invariant holds after any sequence of events |
| Playback.AtMostOnePending | index.php:155-172 | at most one pause is ever scheduled |
| Playback.PlayAtSchedulesOnlyItsPause | index.php:157-166 | `playMediaAt(i, s, e)` logs seek(i, s) and play(i), and leaves exactly one pause scheduled: media i's, after e - s. Any earlier pause is cancelled, even another media's |
| Playback.StopClearsAll | index.php:168-172 | `stopMedia(i)` logs pause(i) and leaves nothing scheduled |
| Playback.FireEffect | index.php:163-165 | a scheduled pause that runs pauses its own media once; a cancelled timer does nothing |
| Playback.CallsOnlyGrow | index.php:155-172 | the log of media calls is only ever extended |
| Playback.HoverAnotherMedia | index.php:157-166 | hovering media i and then media j cancels i's pause: when the timers run, only j is paused |
| Playback.HoverController.constructor | index.php:155 | the page starts with `mediaTimeout` undefined, nothing scheduled and no calls |
| Playback.HoverController.PlayMediaAt | index.php:157-166 | updates the fields as the step function says, keeps the invariant, and leaves only the new pause scheduled |
| Playback.HoverController.StopMedia | index.php:168-172 | updates the fields as the step function says, keeps the invariant, and leaves nothing scheduled |
| Playback.HoverController.TimerFire | index.php:163-165 | updates the fields as the step function says, and keeps the invariant |

## Left out

- Directory scanning with `glob` and the existence test `file_exists` (index.php:6-7, 17, 21). The media list is an input, and existence is a function parameter.
- Reading files. `fopen` is a value: `None` when the file cannot be opened, else the lines `fgets` returns, each with its line terminator. `fclose` has no observable effect and is not modelled.
- `is_numeric` is approximated as "a non-empty run of ASCII digits" on the trimmed line. Signs, decimals, exponents and leading whitespace inside the trimmed line are not accepted, as they would be in PHP.
- Timecode.ScanInt: does not model `sscanf` clamping a `%d` value that overflows the platform integer. Values are unbounded integers.
- Timecode.TimeToMillis: integer milliseconds replace the float seconds of `timeToSeconds`. `$milliseconds / 1000` is a float division in PHP, so the source is the model divided by 1000, with float rounding.
- Pairing.BaseName: does not model `basename` stripping trailing slashes, which paths returned by `glob` for files do not have.
- HTML assembly, `htmlspecialchars` escaping and the "no pairs" message (index.php:62-153) are rendering. `Page` keeps only the values written into each subtitle line: start, end, text and tooltip.
- The drag-and-resize handlers (index.php:175-205) handle DOM events and pixel geometry.
- Real time.
  - `setTimeout`'s delay is recorded, not waited for.
  - The browser running a timer is the explicit `TimerFire(id)` event, for any still-scheduled handle.
  - A negative delay (a cue whose end is before its start) is recorded as it is, while browsers run such a timer at once.
- PHP warnings and notices are not modelled; they only write to the log. These are the "Undefined array key 1" warning from `list($start, $end)` when `explode` gives one piece (index.php:41), the deprecation notice for `sscanf(null, …)` (index.php:28), and the warning when `fopen` fails (index.php:35).
- Media element state is not modelled. Elements are the log of `currentTime` assignments, `play()` and `pause()` calls made on them, and `getElementById` is assumed to find every index.
