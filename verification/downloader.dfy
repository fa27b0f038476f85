/**
 * `YTDLDownloader` of downloader.py: it owns no state of its own beyond the
 * shared log and the two UI callbacks. Every message goes through `_log`
 * (a stamped line in the shared log, echoed to `ui_log` when one is set);
 * progress goes to `ui_progress` when one is set. The UI callbacks are
 * recorded as a trace of calls.
 */
module Downloader {
  import opened Wrappers
  import opened Effects
  import opened Progress
  import opened Options
  import opened Logging
  import Sanitizer

  /** A call into one of the UI callbacks. */
  datatype UiCall =
    | ShowLog(message: string)
    | ShowProgress(percent: nat, speed: Option<real>, eta: Option<real>)

  /** How the extraction library's `download([url])` ended. */
  datatype Outcome = Completed | Raised(error: string, trace: string)

  /** What the library did during the call: the status events it passed to the hook, in order, and how it ended. */
  datatype LibraryRun = LibraryRun(events: seq<Event>, outcome: Outcome)

  /** What `download` hands to the library: the options and the URL list. */
  datatype LibraryCall = LibraryCall(opts: Options, urls: seq<string>)

  const FlowFinishedMessage := "Download flow finished"

  /** The lines the shared log gains when `msgs` are logged at time `ts`. */
  function Stamp(ts: string, msgs: seq<string>): (lines: seq<string>)
    ensures |lines| == |msgs|
    ensures forall i :: 0 <= i < |msgs| ==> lines[i] == Line(ts, msgs[i])
  {
    if msgs == [] then [] else Stamp(ts, msgs[..|msgs| - 1]) + [Line(ts, msgs[|msgs| - 1])]
  }

  lemma StampAppend(ts: string, a: seq<string>, b: seq<string>)
    ensures Stamp(ts, a + b) == Stamp(ts, a) + Stamp(ts, b)
  {
  }

  /** The UI calls `effects` make, given which callbacks are set. */
  function UiCalls(effects: seq<Effect>, hasUiLog: bool, hasUiProgress: bool): (calls: seq<UiCall>)
    ensures |calls| <= |effects|
    ensures !hasUiLog && !hasUiProgress ==> calls == []
  {
    if effects == [] then []
    else
      var last := effects[|effects| - 1];
      UiCalls(effects[..|effects| - 1], hasUiLog, hasUiProgress) +
      match last
      case Note(s) => if hasUiLog then [ShowLog(s)] else []
      case Report(p, speed, eta) => if hasUiProgress then [ShowProgress(p, speed, eta)] else []
  }

  lemma {:induction false} UiCallsAppend(a: seq<Effect>, b: seq<Effect>, hasUiLog: bool, hasUiProgress: bool)
    ensures UiCalls(a + b, hasUiLog, hasUiProgress) == UiCalls(a, hasUiLog, hasUiProgress) + UiCalls(b, hasUiLog, hasUiProgress)
    decreases |b|
  {
    if b == [] {
      assert a + b == a;
    } else {
      assert (a + b)[..|a + b| - 1] == a + b[..|b| - 1];
      UiCallsAppend(a, b[..|b| - 1], hasUiLog, hasUiProgress);
    }
  }

  /** The effects of the hook over a run's events, in order. */
  function Replay(events: seq<Event>): (effects: seq<Effect>)
    ensures |Notes(effects)| <= |events|
  {
    if events == [] then []
    else
      var init := events[..|events| - 1];
      NotesAppend(Replay(init), HookEffects(events[|events| - 1]));
      Replay(init) + HookEffects(events[|events| - 1])
  }

  /** Helpers for the step-by-step proofs of the methods below. */
  lemma Regroup<T>(x: seq<T>, a: seq<T>, b: seq<T>, c: seq<T>, d: seq<T>)
    ensures (((x + a) + b) + c) + d == x + (((a + b) + c) + d)
  {
    assert (x + a) + b == x + (a + b);
    assert (x + (a + b)) + c == x + ((a + b) + c);
    assert (x + ((a + b) + c)) + d == x + (((a + b) + c) + d);
  }

  lemma ReplayStep(events: seq<Event>, i: nat)
    requires i < |events|
    ensures Replay(events[..i + 1]) == Replay(events[..i]) + HookEffects(events[i])
  {
    assert events[..i + 1][..i] == events[..i];
  }

  /** Logging `done` and then `step` logs `done + step`. */
  lemma LoggedStep(ts: string, start: seq<string>, mid: seq<string>, end: seq<string>, done: seq<Effect>, step: seq<Effect>)
    requires mid == start + Stamp(ts, Notes(done))
    requires end == mid + Stamp(ts, Notes(step))
    ensures end == start + Stamp(ts, Notes(done + step))
  {
    NotesAppend(done, step);
    StampAppend(ts, Notes(done), Notes(step));
    assert (start + Stamp(ts, Notes(done))) + Stamp(ts, Notes(step)) == start + (Stamp(ts, Notes(done)) + Stamp(ts, Notes(step)));
  }

  /** Showing `done` and then `step` shows `done + step`. */
  lemma ShownStep(start: seq<UiCall>, mid: seq<UiCall>, end: seq<UiCall>, done: seq<Effect>, step: seq<Effect>, hasUiLog: bool, hasUiProgress: bool)
    requires mid == start + UiCalls(done, hasUiLog, hasUiProgress)
    requires end == mid + UiCalls(step, hasUiLog, hasUiProgress)
    ensures end == start + UiCalls(done + step, hasUiLog, hasUiProgress)
  {
    UiCallsAppend(done, step, hasUiLog, hasUiProgress);
    var u, v := UiCalls(done, hasUiLog, hasUiProgress), UiCalls(step, hasUiLog, hasUiProgress);
    assert (start + u) + v == start + (u + v);
  }

  /** One more hook call extends the log and the UI trace by the next event's effects. */
  lemma HookStep(ts: string, events: seq<Event>, i: nat,
                 l0: seq<string>, lines: seq<string>, lines': seq<string>,
                 c0: seq<UiCall>, calls: seq<UiCall>, calls': seq<UiCall>, hasUiLog: bool, hasUiProgress: bool)
    requires i < |events|
    requires lines == l0 + Stamp(ts, Notes(Replay(events[..i])))
    requires lines' == lines + Stamp(ts, Notes(HookEffects(events[i])))
    requires calls == c0 + UiCalls(Replay(events[..i]), hasUiLog, hasUiProgress)
    requires calls' == calls + UiCalls(HookEffects(events[i]), hasUiLog, hasUiProgress)
    ensures lines' == l0 + Stamp(ts, Notes(Replay(events[..i + 1])))
    ensures calls' == c0 + UiCalls(Replay(events[..i + 1]), hasUiLog, hasUiProgress)
  {
    ReplayStep(events, i);
    LoggedStep(ts, l0, lines, lines', Replay(events[..i]), HookEffects(events[i]));
    ShownStep(c0, calls, calls', Replay(events[..i]), HookEffects(events[i]), hasUiLog, hasUiProgress);
  }

  /** Python's `str.lower()` on ASCII letters. */
  function AsciiLower(s: string): (r: string)
    ensures |r| == |s|
    ensures forall i :: 0 <= i < |s| ==> r[i] == if 'A' <= s[i] <= 'Z' then (s[i] as int + 32) as char else s[i]
  {
    seq(|s|, i requires 0 <= i < |s| => if 'A' <= s[i] <= 'Z' then (s[i] as int + 32) as char else s[i])
  }

  /** `fmt.lower() == 'mp3'`. */
  predicate IsMp3(fmt: string) {
    AsciiLower(fmt) == "mp3"
  }

  /** Exactly the four spellings of "mp3" select audio mode. */
  lemma IsMp3Iff(fmt: string)
    ensures IsMp3(fmt) <==> fmt in {"mp3", "mP3", "Mp3", "MP3"}
  {
    if IsMp3(fmt) {
      var l := AsciiLower(fmt);
      assert l[0] == 'm' && l[1] == 'p' && l[2] == '3';
      assert fmt[0] in {'m', 'M'} && fmt[1] in {'p', 'P'} && fmt[2] == '3';
      assert fmt == [fmt[0], fmt[1], fmt[2]];
    }
  }

  function StartMessage(mode: string, url: string, fmt: string, quality: string): string {
    "Starting download: mode=" + mode + " url=" + url + " format=" + fmt + " quality=" + quality
  }

  /** The last line of `download`: the flow-finished line, or the failure with its traceback. */
  function FinalMessage(outcome: Outcome): (m: string)
    ensures m == FlowFinishedMessage <==> outcome.Completed?
    ensures outcome.Raised? ==> |m| > 17 && m[..17] == "Download failed: "
  {
    match outcome
    case Completed => FlowFinishedMessage
    case Raised(e, tb) =>
      var m := "Download failed: " + e + "\n" + tb;
      assert m[10] == 'a' != FlowFinishedMessage[10];
      m
  }

  predicate IsListMode(mode: string) {
    mode == "playlist" || mode == "channel"
  }

  /** The options `download` passes on: the builder's, with `noplaylist` cleared for playlists and channels. */
  function DownloadOptions(outDir: string, mode: string, req: Request, ffmpegDir: Option<string>): (r: Options)
    ensures r.noplaylist <==> !IsListMode(mode)
    ensures r.(noplaylist := true) == OptionsFor(outDir, req, ffmpegDir)
  {
    var built := OptionsFor(outDir, req, ffmpegDir);
    if IsListMode(mode) then built.(noplaylist := false) else built
  }

  lemma SingleNote(s: string)
    ensures Notes([Note(s)]) == [s] && Reports([Note(s)]) == []
  {
  }

  /** Everything `download` logs and reports, in order. */
  function DownloadEffects(url: string, mode: string, fmt: string, req: Request, ffmpegDir: Option<string>, run: LibraryRun): (effects: seq<Effect>)
    ensures Reports(effects) == Reports(Replay(run.events))
    ensures Notes(effects) == [StartMessage(mode, Sanitizer.Strip(url), fmt, req.qualityLabel)]
      + Notes(BuildEffects(req, ffmpegDir)) + Notes(Replay(run.events)) + [FinalMessage(run.outcome)]
  {
    var m := StartMessage(mode, Sanitizer.Strip(url), fmt, req.qualityLabel);
    var f := FinalMessage(run.outcome);
    var b := BuildEffects(req, ffmpegDir);
    var r := Replay(run.events);
    var effects := [Note(m)] + b + r + [Note(f)];
    SingleNote(m);
    SingleNote(f);
    NotesAppend([Note(m)], b);
    NotesAppend([Note(m)] + b, r);
    NotesAppend([Note(m)] + b + r, [Note(f)]);
    ReportsAppend([Note(m)], b);
    ReportsAppend([Note(m)] + b, r);
    ReportsAppend([Note(m)] + b + r, [Note(f)]);
    assert Reports(b) == [];
    effects
  }

  /** What one note logs and shows. */
  lemma NoteStep(ts: string, s: string, hasUiLog: bool, hasUiProgress: bool)
    ensures Stamp(ts, Notes([Note(s)])) == [Line(ts, s)] && Stamp(ts, [s]) == [Line(ts, s)]
    ensures UiCalls([Note(s)], hasUiLog, hasUiProgress) == if hasUiLog then [ShowLog(s)] else []
  {
    assert [Note(s)][..0] == [];
  }

  /** What the hook logs and shows for each status. */
  lemma DownloadingHook(ts: string, d: Event, hasUiLog: bool, hasUiProgress: bool)
    requires d.status == Some("downloading")
    ensures Stamp(ts, Notes(HookEffects(d))) == []
    ensures UiCalls(HookEffects(d), hasUiLog, hasUiProgress) == if hasUiProgress then [ShowProgress(Percent(d), d.speed, d.eta)] else []
  {
    var effects := HookEffects(d);
    assert effects == [Report(Percent(d), d.speed, d.eta)];
    assert effects[..0] == [];
  }

  lemma FinishedHook(ts: string, d: Event, hasUiLog: bool, hasUiProgress: bool)
    requires d.status == Some("finished")
    ensures Stamp(ts, Notes(HookEffects(d))) == [Line(ts, FinishedMessage(d))]
    ensures UiCalls(HookEffects(d), hasUiLog, hasUiProgress) ==
      (if hasUiProgress then [ShowProgress(100, Some(0.0), Some(0.0))] else []) + (if hasUiLog then [ShowLog(FinishedMessage(d))] else [])
  {
    var effects := HookEffects(d);
    assert effects == [Report(100, Some(0.0), Some(0.0)), Note(FinishedMessage(d))];
    assert effects[..1] == [effects[0]];
    assert effects[..1][..0] == [];
    assert Notes(effects) == [FinishedMessage(d)];
  }

  lemma ErrorHook(ts: string, d: Event, hasUiLog: bool, hasUiProgress: bool)
    requires d.status == Some("error")
    ensures Stamp(ts, Notes(HookEffects(d))) == [Line(ts, ErrorMessage)]
    ensures UiCalls(HookEffects(d), hasUiLog, hasUiProgress) == if hasUiLog then [ShowLog(ErrorMessage)] else []
  {
    NoteStep(ts, ErrorMessage, hasUiLog, hasUiProgress);
  }

  /** Logging four batches of messages one after another logs their concatenation. */
  lemma LoggedStages(ts: string, l0: seq<string>, l1: seq<string>, l2: seq<string>, l3: seq<string>, l4: seq<string>,
                     m: seq<string>, b: seq<string>, r: seq<string>, f: seq<string>)
    requires l1 == l0 + Stamp(ts, m) && l2 == l1 + Stamp(ts, b)
    requires l3 == l2 + Stamp(ts, r) && l4 == l3 + Stamp(ts, f)
    ensures l4 == l0 + Stamp(ts, ((m + b) + r) + f)
  {
    StampAppend(ts, (m + b) + r, f);
    StampAppend(ts, m + b, r);
    StampAppend(ts, m, b);
    Regroup(l0, Stamp(ts, m), Stamp(ts, b), Stamp(ts, r), Stamp(ts, f));
  }

  /** Showing four batches of effects one after another shows their concatenation. */
  lemma ShownStages(c0: seq<UiCall>, c1: seq<UiCall>, c2: seq<UiCall>, c3: seq<UiCall>, c4: seq<UiCall>,
                    m: seq<Effect>, b: seq<Effect>, r: seq<Effect>, f: seq<Effect>, hasUiLog: bool, hasUiProgress: bool)
    requires c1 == c0 + UiCalls(m, hasUiLog, hasUiProgress) && c2 == c1 + UiCalls(b, hasUiLog, hasUiProgress)
    requires c3 == c2 + UiCalls(r, hasUiLog, hasUiProgress) && c4 == c3 + UiCalls(f, hasUiLog, hasUiProgress)
    ensures c4 == c0 + UiCalls(((m + b) + r) + f, hasUiLog, hasUiProgress)
  {
    UiCallsAppend((m + b) + r, f, hasUiLog, hasUiProgress);
    UiCallsAppend(m + b, r, hasUiLog, hasUiProgress);
    UiCallsAppend(m, b, hasUiLog, hasUiProgress);
    Regroup(c0, UiCalls(m, hasUiLog, hasUiProgress), UiCalls(b, hasUiLog, hasUiProgress),
            UiCalls(r, hasUiLog, hasUiProgress), UiCalls(f, hasUiLog, hasUiProgress));
  }

  /** The stages of `download`: a start note, the builder's effects, the hook's effects and a final note. */
  lemma DownloadStages(ts: string, l0: seq<string>, l1: seq<string>, l2: seq<string>, l3: seq<string>, l4: seq<string>,
                       c0: seq<UiCall>, c1: seq<UiCall>, c2: seq<UiCall>, c3: seq<UiCall>, c4: seq<UiCall>,
                       start: string, b: seq<Effect>, r: seq<Effect>, final: string, hasUiLog: bool, hasUiProgress: bool)
    requires l1 == l0 + [Line(ts, start)] && l2 == l1 + Stamp(ts, Notes(b))
    requires l3 == l2 + Stamp(ts, Notes(r)) && l4 == l3 + [Line(ts, final)]
    requires c1 == c0 + (if hasUiLog then [ShowLog(start)] else []) && c2 == c1 + UiCalls(b, hasUiLog, hasUiProgress)
    requires c3 == c2 + UiCalls(r, hasUiLog, hasUiProgress) && c4 == c3 + (if hasUiLog then [ShowLog(final)] else [])
    ensures var effects := [Note(start)] + b + r + [Note(final)];
      l4 == l0 + Stamp(ts, Notes(effects)) && c4 == c0 + UiCalls(effects, hasUiLog, hasUiProgress)
  {
    NoteStep(ts, start, hasUiLog, hasUiProgress);
    NoteStep(ts, final, hasUiLog, hasUiProgress);
    NotesAppend([Note(start)], b);
    NotesAppend([Note(start)] + b, r);
    NotesAppend([Note(start)] + b + r, [Note(final)]);
    LoggedStages(ts, l0, l1, l2, l3, l4, [start], Notes(b), Notes(r), [final]);
    ShownStages(c0, c1, c2, c3, c4, [Note(start)], b, r, [Note(final)], hasUiLog, hasUiProgress);
  }

  class YTDLDownloader {
    const outDir: string
    const logger: Log
    const hasUiLog: bool
    const hasUiProgress: bool
    /** Calls made to `ui_log` and `ui_progress` so far. */
    var uiCalls: seq<UiCall>

    constructor (outDir: string, logger: Log, hasUiLog: bool, hasUiProgress: bool)
      ensures this.outDir == outDir && this.logger == logger
      ensures this.hasUiLog == hasUiLog && this.hasUiProgress == hasUiProgress
      ensures uiCalls == []
    {
      this.outDir := outDir;
      this.logger := logger;
      this.hasUiLog := hasUiLog;
      this.hasUiProgress := hasUiProgress;
      uiCalls := [];
    }

    /** `_log(s)`: one stamped line in the shared log, echoed to the UI when a log callback is set. */
    method Log(ts: string, s: string)
      modifies logger, this
      ensures logger.lines == old(logger.lines) + [Line(ts, s)]
      ensures uiCalls == old(uiCalls) + if hasUiLog then [ShowLog(s)] else []
    {
      logger.Add(ts, s);
      if hasUiLog {
        uiCalls := uiCalls + [ShowLog(s)];
      }
    }

    /** `_progress_hook(d)`, its log lines stamped `ts`. */
    method ProgressHook(ts: string, d: Event)
      modifies logger, this
      ensures logger.lines == old(logger.lines) + Stamp(ts, Notes(HookEffects(d)))
      ensures uiCalls == old(uiCalls) + UiCalls(HookEffects(d), hasUiLog, hasUiProgress)
    {
      if d.status == Some("downloading") {
        var percent := Percent(d);
        if hasUiProgress {
          uiCalls := uiCalls + [ShowProgress(percent, d.speed, d.eta)];
        }
        DownloadingHook(ts, d, hasUiLog, hasUiProgress);
      } else if d.status == Some("finished") {
        if hasUiProgress {
          uiCalls := uiCalls + [ShowProgress(100, Some(0.0), Some(0.0))];
        }
        Log(ts, FinishedMessage(d));
        FinishedHook(ts, d, hasUiLog, hasUiProgress);
      } else if d.status == Some("error") {
        Log(ts, ErrorMessage);
        ErrorHook(ts, d, hasUiLog, hasUiProgress);
      } else {
        assert HookEffects(d) == [];
      }
    }

    /** `_build_opts`: the dictionary filled step by step; the fallback line, if any, stamped `ts`. */
    method BuildOpts(ts: string, req: Request, ffmpegDir: Option<string>) returns (opts: Options)
      modifies logger, this
      ensures opts == OptionsFor(outDir, req, ffmpegDir)
      ensures logger.lines == old(logger.lines) + Stamp(ts, Notes(BuildEffects(req, ffmpegDir)))
      ensures uiCalls == old(uiCalls) + UiCalls(BuildEffects(req, ffmpegDir), hasUiLog, hasUiProgress)
    {
      opts := BaseOptions(outDir, req, ffmpegDir);
      if req.toMp3 {
        opts := opts.(format := Some(AudioFormat),
                      postprocessors := Some([Postprocessor("FFmpegExtractAudio", "mp3", Bitrate(req))]));
        assert BuildEffects(req, ffmpegDir) == [];
        return;
      }
      var requested := RequestedFormat(req.qualityLabel);
      if ffmpegDir.None? {
        Log(ts, FallbackMessage);
        NoteStep(ts, FallbackMessage, hasUiLog, hasUiProgress);
        assert BuildEffects(req, ffmpegDir) == [Note(FallbackMessage)];
        opts := opts.(format := Some(FallbackFormat));
        opts := opts.(abortOnUnavailableFragments := Some(false));
      } else {
        opts := opts.(format := Some(requested));
        assert BuildEffects(req, ffmpegDir) == [];
      }
      if req.saveMeta {
        opts := opts.(writeDescription := Some(true));
        opts := opts.(writeInfoJson := Some(true));
      }
    }

    /** The library's side of `download([url])`: it calls the hook once per event, in order. */
    method RunHooks(ts: string, events: seq<Event>)
      modifies logger, this
      ensures logger.lines == old(logger.lines) + Stamp(ts, Notes(Replay(events)))
      ensures uiCalls == old(uiCalls) + UiCalls(Replay(events), hasUiLog, hasUiProgress)
    {
      var i := 0;
      while i < |events|
        invariant 0 <= i <= |events|
        invariant logger.lines == old(logger.lines) + Stamp(ts, Notes(Replay(events[..i])))
        invariant uiCalls == old(uiCalls) + UiCalls(Replay(events[..i]), hasUiLog, hasUiProgress)
      {
        ghost var lines, calls := logger.lines, uiCalls;
        ProgressHook(ts, events[i]);
        HookStep(ts, events, i, old(logger.lines), lines, logger.lines, old(uiCalls), calls, uiCalls, hasUiLog, hasUiProgress);
        i := i + 1;
      }
      assert events[..i] == events;
    }

    /**
     * `download(url, mode, fmt, ...)`: log the start, build the options,
     * widen them for playlists and channels, hand them to the library
     * (which calls the hook for each event of `run`), then log the end.
     * `ffmpegDir` is where ffmpeg was found, `run` what the library did;
     * every line of the call is stamped `ts`.
     */
    method Download(ts: string, url: string, mode: string, fmt: string, qualityLabel: string,
                    saveSubs: bool, saveThumb: bool, saveMeta: bool, mp3Bitrate: Option<string>,
                    ffmpegDir: Option<string>, run: LibraryRun)
      returns (ok: bool, call: LibraryCall)
      modifies logger, this
      ensures ok <==> run.outcome.Completed?
      ensures var req := Request(IsMp3(fmt), saveSubs, saveThumb, saveMeta, qualityLabel, mp3Bitrate);
        call == LibraryCall(DownloadOptions(outDir, mode, req, ffmpegDir), [Sanitizer.Strip(url)])
      ensures var req := Request(IsMp3(fmt), saveSubs, saveThumb, saveMeta, qualityLabel, mp3Bitrate);
        var effects := DownloadEffects(url, mode, fmt, req, ffmpegDir, run);
        logger.lines == old(logger.lines) + Stamp(ts, Notes(effects)) &&
        uiCalls == old(uiCalls) + UiCalls(effects, hasUiLog, hasUiProgress)
    {
      var u := Sanitizer.Strip(url);
      var toMp3 := IsMp3(fmt);
      var req := Request(toMp3, saveSubs, saveThumb, saveMeta, qualityLabel, mp3Bitrate);
      ghost var l0, c0 := logger.lines, uiCalls;
      Log(ts, StartMessage(mode, u, fmt, qualityLabel));
      ghost var l1, c1 := logger.lines, uiCalls;
      var opts := BuildOpts(ts, req, ffmpegDir);
      if IsListMode(mode) {
        opts := opts.(noplaylist := false);
      }
      call := LibraryCall(opts, [u]);
      ghost var l2, c2 := logger.lines, uiCalls;
      RunHooks(ts, run.events);
      ghost var l3, c3 := logger.lines, uiCalls;
      Log(ts, FinalMessage(run.outcome));
      ok := run.outcome.Completed?;
      DownloadStages(ts, l0, l1, l2, l3, logger.lines, c0, c1, c2, c3, uiCalls,
                     StartMessage(mode, u, fmt, qualityLabel), BuildEffects(req, ffmpegDir), Replay(run.events),
                     FinalMessage(run.outcome), hasUiLog, hasUiProgress);
    }
  }
}
