# YTdownloader core, modelled in Dafny

YTdownloader is a desktop front end for the yt-dlp extraction library. Almost
all of `downloader.py` is GUI layout, update handling and calls into yt-dlp.
This project models the small part that makes decisions of its own:

- **Filename sanitiser** (`sanitizer.dfy`, module `Sanitizer`). It deletes
  the characters Windows refuses in file names, strips whitespace as Python's
  `str.strip()` does, and keeps at most 120 characters.
- **Shared log** (`logging.dfy`, module `Logging`). The module-level `Log`
  object is a class holding a `lines` sequence. `Add` stamps a line
  `[ts] s` and appends it; `Clear` (the GUI's clear-log action) empties it. `Text` joins the lines with newlines. A
  `Split`/`Join` pair states that the text can be split back into the lines.
- **Progress hook** (`progress.dfy`, module `Progress`). An event is the
  status dictionary yt-dlp passes, modelled as a record of optional fields.
  The hook's effects are a sequence of `Effect` values (`effects.dfy`): a
  progress report or a log message. The percentage is
  `floor(100 * downloaded / total)`, where the total is `total_bytes`, else
  `total_bytes_estimate`, else 0. There is no clamp and no smoothing.
- **Options builder** (`options.dfy`, module `Options`). `OptionsFor` is the
  specification of `_build_opts`. It maps a `Request` and the ffmpeg lookup
  to an `Options` record whose path-dependent keys are `Option` fields.
  `ParseHeight`, `DigitsOf` and `Decimal` model the quality-label parsing
  and the `str`/`int` round trip.
- **Downloader** (`downloader.dfy`, module `Downloader`). The class
  `YTDLDownloader` holds a reference to the shared `Log` and a trace of the
  calls it made into the UI callbacks. Its methods are written step by step,
  as the Python is:
  - `Log` models `_log`;
  - `ProgressHook` models `_progress_hook`;
  - `BuildOpts` fills the options record key by key;
  - `Download` logs the start, builds the options, clears `noplaylist` for
    playlists and channels, hands the options to the library, replays the
    library's progress events through the hook, and logs the outcome.

  Each method is proved against the pure functions above. These functions
  give its return value, the lines it appends to the log and the calls it
  makes to the UI.

Environment facts are parameters:
- `ffmpegDir: Option<string>` is the result of looking ffmpeg up on the PATH
  (`Some(dir)` when found). The two `has_ffmpeg()` calls therefore always
  agree.
- `ts` is the clock reading used to stamp log lines.
- `LibraryRun` is what yt-dlp did: the status events it passed to the hook,
  and whether `download` completed or raised.

Points of the code's behaviour that a reader might not expect, all modelled
as written:
- **No progress smoothing.** `_progress_hook` (downloader.py:77-104) has no
  "max-seen" clamp, no noise filter and no reset on `finished`. Each event's
  percentage is computed from that event alone, so the value shown can go
  down (`PercentCanGoBack`) and can exceed 100 (`PercentNotClamped`).
- **The height comes from every digit of the label.** downloader.py:149
  keeps all digits of the quality label, so `"1080p60"` asks for height
  108060, and `int` accepts leading zeros, so `"0720"` asks for 720.
- **No metadata keys in mp3 mode.** downloader.py:142 returns from the mp3
  branch before the metadata step at :171-173.
- **An empty bitrate uses the default.** `mp3_bitrate or '192'` at
  downloader.py:133 also replaces the empty string by "192".

## Model

| member | source | states |
|---|---|---|
| `Sanitizer.RemoveUnsafe` | downloader.py:45 | result holds no character of the deleted class, is no longer than the input, and is the input itself when the input has none |
| `Sanitizer.RemoveUnsafeAppend` | downloader.py:45 | removal works character by character and keeps order: the result for `a + b` is the result for `a` followed by the result for `b` |
| `Sanitizer.RemoveUnsafeChar` | downloader.py:45 | a single character is deleted exactly when it is one of the nine unsafe characters; with `RemoveUnsafeAppend` this fixes the result of every input |
| `Sanitizer.RemoveUnsafeCounts` | downloader.py:45 | every occurrence of an unsafe character is deleted and every occurrence of a safe one is kept |
| `Sanitizer.StripLeading` | downloader.py:46 | result is a suffix of the input, everything removed is whitespace, and the result does not start with whitespace |
| `Sanitizer.StripTrailing` | downloader.py:46 | result is a prefix of the input, everything removed is whitespace, and the result does not end with whitespace |
| `Sanitizer.Strip` | downloader.py:46 | result has no whitespace at either end, keeps safe text safe, and is the input when the input has no whitespace at its ends |
| `Sanitizer.StripRemovesEdgeSpace` | downloader.py:46 | the stripped text is a slice `s[i..j]` of the input with only whitespace before `i` and after `j`: nothing inside is removed or reordered |
| `Sanitizer.Sanitize` | downloader.py:44-47 | result has at most 120 characters and no unsafe character, does not start with whitespace, is a prefix of the filtered and stripped name, equals it when that is at most 120 long, and is exactly 120 long otherwise |
| `Sanitizer.SanitizeIdempotentIff` | downloader.py:44-47 | sanitising twice gives the same name exactly when the first result does not end with whitespace; this fails when the 120-character cut falls just after a space |
| `Sanitizer.SanitizeKeepsCleanName` | downloader.py:44-47 | a safe, stripped name of at most 120 characters is returned unchanged |
| `Logging.LineShape` | downloader.py:55 | a stored line is `[`, the timestamp, `] ` and the message unchanged |
| `Logging.JoinStartsWithFirst` | downloader.py:59 | the joined text starts with the first line, followed by a newline when there are more lines |
| `Logging.JoinSnoc` | downloader.py:57-59 | joining one more line extends the joined text by a newline and that line (by the line alone when there were none) |
| `Logging.JoinSplit` | downloader.py:58-59 | joining the newline-separated pieces of any text gives the text back |
| `Logging.SplitJoin` | downloader.py:58-59 | splitting the join of a non-empty list of newline-free lines gives the lines back |
| `Logging.Log.constructor` | downloader.py:51-52 | a new log has no lines |
| `Logging.Log.Add` | downloader.py:53-57 | exactly one line `[ts] s` is appended, earlier lines are unchanged, and the text grows by a newline and that line |
| `Logging.Log.Text` | downloader.py:58-59 | the text of an empty log is empty; when no line holds a newline, splitting the text at newlines gives the lines in insertion order |
| `Logging.Log.Clear` | downloader.py:583-585 | clearing the log view empties the shared list in place |
| `Progress.Total` | downloader.py:81 | the total is `total_bytes` when that is present and non-zero, else the estimate when that is present and non-zero, else 0 |
| `Progress.Percent` | downloader.py:81-83 | with a known total, the percentage is the floor of 100 * downloaded / total, characterised by `p * total <= 100 * downloaded < (p + 1) * total`; with no total it is 0 |
| `Progress.PercentFullIff` | downloader.py:81-83 | with a known total, the percentage reaches 100 exactly when all bytes are in, and is at most 100 while downloaded <= total |
| `Progress.PercentMonotone` | downloader.py:81-83 | for one total, more downloaded bytes never give a smaller percentage |
| `Progress.PercentNotClamped` | downloader.py:81-91 | 150 bytes of an announced 100 are reported as 150, with no clamp |
| `Progress.ZeroTotalFallsBackToEstimate` | downloader.py:81 | a zero `total_bytes` is falsy, so the estimate becomes the total |
| `Progress.PercentCanGoBack` | downloader.py:77-93 | after a video stream at 90 the first event of the audio stream reports 10; nothing keeps the displayed value from going back |
| `Progress.FinishedMessage` | downloader.py:100 | the line starts with "Download finished for: " followed by the file name; a missing `filename` key gives nothing after the prefix and a key holding `None` gives "None" |
| `Progress.HookEffects` | downloader.py:77-104 | a `downloading` event makes exactly one report (percent, speed, eta) and no log line; `finished` reports (100, 0, 0) and logs one line naming the file; `error` logs one line; any other or missing status does nothing |
| `Progress.FinishedWithNoneFilename` | downloader.py:94-100 | a `finished` event whose `filename` is `None` logs "Download finished for: None" |
| `Options.DigitsOf` | downloader.py:149 | result is all ASCII digits, is empty exactly when the label has no digit, and is the label itself when the label is all digits |
| `Options.DigitsOfAppend` | downloader.py:149 | the digits of a concatenation are the digits of each part, in order |
| `Options.Decimal` | downloader.py:150 | `str(h)` is a canonical numeral (no leading zero) whose value is `h` |
| `Options.DecimalValueZeroIff` | downloader.py:149 | `int` of a digit string is 0 exactly when every digit is "0" |
| `Options.LeadingZeroValue` | downloader.py:149 | `int` ignores a leading zero |
| `Options.DecimalOfValue` | downloader.py:149-150 | every canonical numeral is what `str` writes for its `int` value; together with `Decimal` this is a round trip |
| `Options.ParseHeight` | downloader.py:147-154 | a height is found exactly when the label is non-empty, is not "auto" and has a digit; the height is then the `int` value of all the label's digits, and a label whose digits are canonical gets those digits back |
| `Options.ParseHeightLeadingZero` | downloader.py:149 | a zero-padded numeral such as "0720" asks for the same height as "720" |
| `Options.ParseHeightOfNumeral` | downloader.py:147-150 | the labels "h" and "hp" both give height h |
| `Options.RequestedFormat` | downloader.py:147-154 | with a height, the format is `bestvideo[height<=h]+bestaudio/best[height<=h]` for the value of the label's digits; otherwise it is "best" |
| `Options.Bitrate` | downloader.py:133 | the bitrate is the requested one when that is present and non-empty, else "192"; it is never empty |
| `Options.OptionsFor` | downloader.py:106-175 | starting from the dictionary of :109-127 (`BaseOptions`), every path sets: subtitles and automatic subtitles from `save_subs`, thumbnail from `save_thumb`, `noplaylist` true, the output template, the ffmpeg location and a format. In mp3 mode: format `bestaudio/best`, exactly one FFmpegExtractAudio/mp3 postprocessor at the bitrate, no metadata or fragment keys. In video mode without ffmpeg: format `best[ext=mp4]/best` and `abort_on_unavailable_fragments` false. In video mode with ffmpeg: the requested format. In video mode: both metadata keys true exactly when `save_meta` |
| `Options.BuildEffects` | downloader.py:160-162 | the builder logs exactly one line, the fallback message, in video mode without ffmpeg, and nothing otherwise; it never reports progress |
| `Options.Mp3IgnoresVideoChoices` | downloader.py:132-142 | in mp3 mode the quality label and the metadata flag change nothing, no line is logged, and a missing ffmpeg changes only `ffmpeg_location` |
| `Options.MissingFfmpegIgnoresQuality` | downloader.py:147-164 | without ffmpeg the options do not depend on the quality label and the format is the single-file fallback |
| `Options.QualityCapsHeight` | downloader.py:147-166 | with ffmpeg, the label "h" or "hp" caps both legs of the format at h (`CappedFormat(h)`, the f-string at :150) |
| `Options.UnparsableQualityIsBest` | downloader.py:147-166 | with ffmpeg, an empty, "auto" or digit-free label gives format "best" |
| `Options.Scenario720` | downloader.py:147-166 | label "720" with ffmpeg caps both legs at "720" |
| `Options.ScenarioMp3At320` | downloader.py:132-142 | mp3 at bitrate "320" gives format `bestaudio/best` and one extraction step at "320" |
| `Options.ScenarioNoFfmpeg1080` | downloader.py:160-164 | label "1080" without ffmpeg gives the fallback format and one fallback line |
| `Downloader.AsciiLower` | downloader.py:182 | lowering keeps the length, maps each ASCII capital to its small letter and leaves every other character alone |
| `Downloader.IsMp3Iff` | downloader.py:182 | `IsMp3`, the test `fmt.lower() == 'mp3'`, holds exactly for the formats "mp3", "mP3", "Mp3" and "MP3" |
| `Downloader.DownloadOptions` | downloader.py:186-190 | `noplaylist` is false exactly for the modes "playlist" and "channel"; every other key is the builder's |
| `Downloader.FinalMessage` | downloader.py:195-200 | the last line is "Download flow finished" exactly when the library call completed; otherwise it starts with "Download failed: " |
| `Downloader.DownloadEffects` | downloader.py:181-201 | `download` logs the start line (`StartMessage`, the f-string of :183) with the stripped URL, then the builder's lines, then the hook's lines, then the final line; its progress reports are exactly the hook's |
| `Downloader.YTDLDownloader.constructor` | downloader.py:64-69 | the downloader keeps the output directory, the shared log and which UI callbacks are set, and has made no UI call |
| `Downloader.YTDLDownloader.Log` | downloader.py:70-76 | one stamped line is appended to the shared log, and the message is echoed to the UI exactly when a log callback is set |
| `Downloader.YTDLDownloader.ProgressHook` | downloader.py:77-104 | the log gains exactly the stamped messages of `HookEffects`, and the UI gets exactly its calls |
| `Downloader.YTDLDownloader.BuildOpts` | downloader.py:106-175 | the dictionary built key by key equals `OptionsFor`, and the log gains exactly the fallback line that `BuildEffects` names |
| `Downloader.YTDLDownloader.RunHooks` | downloader.py:192-193 | the library calls the hook once per event, in order, so the log and the UI gain the replayed effects |
| `Downloader.YTDLDownloader.Download` | downloader.py:177-201 | the result is true exactly when the library call completed; the library receives `DownloadOptions` and the stripped URL; the log and the UI gain exactly the effects of `DownloadEffects` |

## Left out

- The `App` GUI class, the update check and installer, `run_cli`, and the
  busy flag and worker thread. These are presentation, network I/O, process
  control, argument parsing and concurrency. The one exception is the
  log-clearing action (`Log.Clear`), because it changes the shared log.
- `_update_progress`. It formats MB/s and the ETA with floating-point
  division.
- `print` in `Log.add` (console output) and `datetime.now()`: the timestamp
  is a parameter. The model assumes console output never fails; in the
  program a `print` that raises (say, a file name the console cannot
  encode) leaves the line unappended.
- Timestamps within one call: every line logged by one modelled call carries
  the same timestamp `ts`. In the program each line reads the clock afresh.
- `ensure_dir` in the constructor (file system).
- `shutil.which` and `os.path.dirname`. `ffmpegDir` already holds the
  directory where ffmpeg was found.
- `os.path.join` for `outtmpl`. The template is the symbolic pair
  `InDirectory(outDir, "%(title)s.%(ext)s")`.
- The `progress_hooks` key. Its one entry is the hook itself, which
  `ProgressHook` and `RunHooks` model.
- The `fmt` argument of `_build_opts`. It is unused there; `to_mp3` is
  derived from it in `download`.
- yt-dlp's `YoutubeDL(opts).download([url])`. It is replaced by a
  `LibraryRun`: the events it passes to the hook and whether it completed or
  raised. `Download` returns the `LibraryCall` it makes.
- Progress.Percent: the source computes `int(downloaded / total * 100)` in
  floating point. The model uses exact integer floor division, which can
  differ from the float result by one when rounding falls just below an
  integer. Byte counters are naturals, although yt-dlp's estimate may be a
  float.
- Speed and ETA are passed through untouched as optional reals.
- The outer `except` of `_progress_hook`, which logs "Progress hook error".
  With typed events and console output that never fails, nothing inside the
  modelled hook raises. In the program a failing `print` in the finished
  branch would replace the finished line by "Progress hook error: ...".
- Exceptions raised by the UI callbacks. The source catches and discards
  them, so the model records each call and nothing else changes.
- Options.ParseHeight: Python 3.11 and later refuse `int()` on strings of
  more than 4300 digits, and the source then falls back to "best". The model
  converts digit strings of any length.
- Downloader.IsMp3: the model lowers ASCII letters only. No non-ASCII
  character lowercases to "m", "p" or "3", so the comparison with "mp3" is
  the same.
