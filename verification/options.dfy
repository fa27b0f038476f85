/**
 * The download-options builder of downloader.py (`_build_opts`): from the
 * user's choices and whether ffmpeg was found, the record of directives
 * handed to the extraction library, and the log message it emits on the way.
 */
module Options {
  import opened Wrappers
  import opened Effects

  /** The choices `_build_opts` receives. */
  datatype Request = Request(
    toMp3: bool,
    saveSubs: bool,
    saveThumb: bool,
    saveMeta: bool,
    qualityLabel: string,
    mp3Bitrate: Option<string>)

  /** One entry of the `postprocessors` list. */
  datatype Postprocessor = Postprocessor(key: string, preferredCodec: string, preferredQuality: string)

  /** `outtmpl`: the title/extension pattern placed in the output directory (the path join is left symbolic). */
  datatype OutputTemplate = InDirectory(dir: string, pattern: string)

  /** The options dictionary; the keys `_build_opts` sets only on some paths are optional. */
  datatype Options = Options(
    outtmpl: OutputTemplate,
    noplaylist: bool,
    quiet: bool,
    noWarnings: bool,
    writeSubtitles: bool,
    writeAutomaticSub: bool,
    writeThumbnail: bool,
    skipDownload: bool,
    ffmpegLocation: string,
    format: Option<string>,
    postprocessors: Option<seq<Postprocessor>>,
    abortOnUnavailableFragments: Option<bool>,
    writeDescription: Option<bool>,
    writeInfoJson: Option<bool>)

  const TitlePattern := "%(title)s.%(ext)s"
  const DefaultFfmpegLocation := "C:\\ffmpeg\\bin"
  const DefaultBitrate := "192"
  const AudioFormat := "bestaudio/best"
  const BestFormat := "best"
  const FallbackFormat := "best[ext=mp4]/best"
  const FallbackMessage := "ffmpeg not found \U{2014} will prefer single-file mp4 to prevent merge errors if necessary."

  predicate IsDigit(c: char) {
    '0' <= c <= '9'
  }

  predicate AllDigits(s: string) {
    forall i :: 0 <= i < |s| ==> IsDigit(s[i])
  }

  predicate HasDigit(s: string) {
    exists i :: 0 <= i < |s| && IsDigit(s[i])
  }

  /** A decimal numeral as Python's `str` of a non-negative int writes it: digits, no leading zero. */
  predicate Canonical(s: string) {
    s != [] && AllDigits(s) && (s[0] == '0' ==> |s| == 1)
  }

  /** `re.sub(r'[^0-9]', '', quality)`: the ASCII digits of the label, in order. */
  function DigitsOf(quality: string): (ds: string)
    ensures AllDigits(ds) && |ds| <= |quality|
    ensures ds == [] <==> !HasDigit(quality)
    ensures AllDigits(quality) ==> ds == quality
  {
    if quality == [] then []
    else
      var init := quality[..|quality| - 1];
      var last := quality[|quality| - 1];
      assert forall i :: 0 <= i < |init| ==> init[i] == quality[i];
      var ds := DigitsOf(init) + (if IsDigit(last) then [last] else []);
      assert ds == [] ==> forall i :: 0 <= i < |quality| ==> !IsDigit(quality[i]) by {
        if ds == [] {
          forall i | 0 <= i < |quality| ensures !IsDigit(quality[i]) {
            if i < |init| {
              assert !HasDigit(init);
              assert !IsDigit(init[i]);
            }
          }
        }
      }
      assert AllDigits(quality) ==> quality == init + [last];
      ds
  }

  /** The digits of a concatenation are the digits of each part. */
  lemma {:induction false} DigitsOfAppend(a: string, b: string)
    ensures DigitsOf(a + b) == DigitsOf(a) + DigitsOf(b)
    decreases |b|
  {
    if b == [] {
      assert a + b == a;
    } else {
      assert (a + b)[..|a + b| - 1] == a + b[..|b| - 1];
      DigitsOfAppend(a, b[..|b| - 1]);
    }
  }

  function DigitValue(c: char): nat
    requires IsDigit(c)
  {
    c as int - '0' as int
  }

  function DigitChar(d: nat): (c: char)
    requires d < 10
    ensures IsDigit(c) && DigitValue(c) == d
  {
    ('0' as int + d) as char
  }

  /** `int(ds)` for a string of ASCII digits (leading zeros allowed). */
  function DecimalValue(ds: string): nat
    requires AllDigits(ds)
  {
    if ds == [] then 0
    else DecimalValue(ds[..|ds| - 1]) * 10 + DigitValue(ds[|ds| - 1])
  }

  /** `str(h)`: the canonical decimal numeral of `h`, which reads back as `h`. */
  function Decimal(h: nat): (s: string)
    ensures Canonical(s)
    ensures DecimalValue(s) == h
  {
    if h < 10 then [DigitChar(h)]
    else
      var s := Decimal(h / 10) + [DigitChar(h % 10)];
      assert s[..|s| - 1] == Decimal(h / 10);
      s
  }

  /** `int` of a digit string is zero exactly when every digit is '0'. */
  lemma {:induction false} DecimalValueZeroIff(ds: string)
    requires AllDigits(ds)
    ensures DecimalValue(ds) == 0 <==> forall i :: 0 <= i < |ds| ==> ds[i] == '0'
    decreases |ds|
  {
    if ds != [] {
      var init := ds[..|ds| - 1];
      DecimalValueZeroIff(init);
      assert forall i :: 0 <= i < |init| ==> init[i] == ds[i];
    }
  }

  lemma {:induction false} LeadingDigitPositive(ds: string)
    requires ds != [] && AllDigits(ds) && ds[0] != '0'
    ensures DecimalValue(ds) >= 1
  {
    if |ds| > 1 {
      LeadingDigitPositive(ds[..|ds| - 1]);
    }
  }

  /** Every canonical numeral is the one `str` writes for its value. */
  lemma {:induction false} DecimalOfValue(ds: string)
    requires Canonical(ds)
    ensures Decimal(DecimalValue(ds)) == ds
  {
    var n := DecimalValue(ds);
    var init := ds[..|ds| - 1];
    if |ds| == 1 {
      assert init == [];
      assert DecimalValue(init) == 0;
      assert n == DecimalValue(init) * 10 + DigitValue(ds[0]);
      assert n == DigitValue(ds[0]);
    } else {
      LeadingDigitPositive(init);
      assert n / 10 == DecimalValue(init) && n % 10 == DigitValue(ds[|ds| - 1]);
      DecimalOfValue(init);
      assert ds == init + [ds[|ds| - 1]];
    }
  }

  /**
   * The height a quality label asks for: none for an empty label, for "auto"
   * and for a label without digits (the `int` conversion fails and is
   * caught), else the value of the label's digits.
   */
  function ParseHeight(quality: string): (h: Option<nat>)
    ensures h.Some? <==> quality != "" && quality != "auto" && HasDigit(quality)
    ensures h.Some? ==> h.value == DecimalValue(DigitsOf(quality))
    ensures h.Some? && Canonical(DigitsOf(quality)) ==> Decimal(h.value) == DigitsOf(quality)
  {
    if quality != "" && quality != "auto" then
      var ds := DigitsOf(quality);
      if ds == [] then None
      else
        assert Canonical(ds) ==> Decimal(DecimalValue(ds)) == ds by {
          if Canonical(ds) {
            DecimalOfValue(ds);
          }
        }
        Some(DecimalValue(ds))
    else None
  }

  /** A label written the way the quality menu writes heights, with or without a trailing "p", gives that height back. */
  lemma ParseHeightOfNumeral(h: nat)
    ensures ParseHeight(Decimal(h)) == Some(h)
    ensures ParseHeight(Decimal(h) + "p") == Some(h)
  {
    var s := Decimal(h);
    ParseHeightOfDigits(s);
    var t := s + "p";
    assert t[..|t| - 1] == s;
    assert DigitsOf(t) == s;
    assert t[0] == s[0];
    ParseHeightOfDigits(t);
  }

  /** `int` ignores a leading zero. */
  lemma {:induction false} LeadingZeroValue(ds: string)
    requires AllDigits(ds)
    ensures AllDigits("0" + ds) && DecimalValue("0" + ds) == DecimalValue(ds)
    decreases |ds|
  {
    var z := "0" + ds;
    assert AllDigits(z) by {
      forall i | 0 <= i < |z| ensures IsDigit(z[i]) {
        if i > 0 { assert z[i] == ds[i - 1]; }
      }
    }
    if ds == [] {
      assert z[..0] == [];
    } else {
      var init := ds[..|ds| - 1];
      assert z[..|z| - 1] == "0" + init;
      LeadingZeroValue(init);
    }
  }

  /** A zero-padded numeral asks for the same height: "0720" gives 720. */
  lemma ParseHeightLeadingZero(h: nat)
    ensures ParseHeight("0" + Decimal(h)) == Some(h)
  {
    var s := "0" + Decimal(h);
    LeadingZeroValue(Decimal(h));
    ParseHeightOfDigits(s);
  }

  /** A label that starts with a digit is neither empty nor "auto": its height is the value of its digits. */
  lemma ParseHeightOfDigits(s: string)
    requires s != [] && IsDigit(s[0])
    ensures ParseHeight(s) == Some(DecimalValue(DigitsOf(s)))
  {
  }

  /** The format expression that caps both the video and the audio leg at height `h`. */
  function CappedFormat(h: nat): string {
    "bestvideo[height<=" + Decimal(h) + "]+bestaudio/best[height<=" + Decimal(h) + "]"
  }

  /** The format `_build_opts` requests in video mode when ffmpeg is present. */
  function RequestedFormat(quality: string): (f: string)
    ensures ParseHeight(quality).Some? ==> f == CappedFormat(DecimalValue(DigitsOf(quality)))
    ensures ParseHeight(quality).None? ==> f == BestFormat
  {
    match ParseHeight(quality)
    case Some(h) => CappedFormat(h)
    case None => BestFormat
  }

  /** `mp3_bitrate or '192'`. */
  function Bitrate(req: Request): (b: string)
    ensures b != ""
    ensures req.mp3Bitrate.Some? && req.mp3Bitrate.value != "" ==> b == req.mp3Bitrate.value
    ensures req.mp3Bitrate.None? || req.mp3Bitrate.value == "" ==> b == DefaultBitrate
  {
    if req.mp3Bitrate.Some? && req.mp3Bitrate.value != "" then req.mp3Bitrate.value else DefaultBitrate
  }

  /** The dictionary `_build_opts` starts from, with `ffmpeg_location` already updated when ffmpeg was found in `ffmpegDir`. */
  function BaseOptions(outDir: string, req: Request, ffmpegDir: Option<string>): Options {
    Options(
      outtmpl := InDirectory(outDir, TitlePattern),
      noplaylist := true,
      quiet := true,
      noWarnings := true,
      writeSubtitles := req.saveSubs,
      writeAutomaticSub := req.saveSubs,
      writeThumbnail := req.saveThumb,
      skipDownload := false,
      ffmpegLocation := if ffmpegDir.Some? then ffmpegDir.value else DefaultFfmpegLocation,
      format := None,
      postprocessors := None,
      abortOnUnavailableFragments := None,
      writeDescription := None,
      writeInfoJson := None)
  }

  /**
   * The record `_build_opts` returns. `ffmpegDir` is `Some(dir)` when ffmpeg
   * is on the PATH (in `dir`) and `None` when it is not.
   */
  function OptionsFor(outDir: string, req: Request, ffmpegDir: Option<string>): (r: Options)
    // the keys every path sets
    ensures r.outtmpl == InDirectory(outDir, TitlePattern) && r.noplaylist
    ensures r.quiet && r.noWarnings && !r.skipDownload
    ensures r.writeSubtitles == req.saveSubs && r.writeAutomaticSub == req.saveSubs
    ensures r.writeThumbnail == req.saveThumb
    ensures r.ffmpegLocation == if ffmpegDir.Some? then ffmpegDir.value else DefaultFfmpegLocation
    ensures r.format.Some?
    // mp3 mode returns before the quality, ffmpeg and metadata steps
    ensures req.toMp3 ==> r.format == Some(AudioFormat)
    ensures req.toMp3 ==> r.postprocessors == Some([Postprocessor("FFmpegExtractAudio", "mp3", Bitrate(req))])
    ensures req.toMp3 ==> r.abortOnUnavailableFragments.None? && r.writeDescription.None? && r.writeInfoJson.None?
    // video mode
    ensures !req.toMp3 ==> r.postprocessors.None?
    ensures !req.toMp3 && ffmpegDir.None? ==> r.format == Some(FallbackFormat) && r.abortOnUnavailableFragments == Some(false)
    ensures !req.toMp3 && ffmpegDir.Some? ==> r.format == Some(RequestedFormat(req.qualityLabel)) && r.abortOnUnavailableFragments.None?
    ensures !req.toMp3 ==> r.writeDescription == r.writeInfoJson == if req.saveMeta then Some(true) else None
  {
    var base := BaseOptions(outDir, req, ffmpegDir);
    if req.toMp3 then
      base.(format := Some(AudioFormat),
            postprocessors := Some([Postprocessor("FFmpegExtractAudio", "mp3", Bitrate(req))]))
    else
      var chosen :=
        if ffmpegDir.None? then base.(format := Some(FallbackFormat), abortOnUnavailableFragments := Some(false))
        else base.(format := Some(RequestedFormat(req.qualityLabel)));
      if req.saveMeta then chosen.(writeDescription := Some(true), writeInfoJson := Some(true)) else chosen
  }

  /** What `_build_opts` logs: the fallback message, only in video mode without ffmpeg. */
  function BuildEffects(req: Request, ffmpegDir: Option<string>): (effects: seq<Effect>)
    ensures Reports(effects) == []
    ensures |Notes(effects)| == |effects| <= 1
    ensures effects != [] <==> !req.toMp3 && ffmpegDir.None?
    ensures effects != [] ==> Notes(effects) == [FallbackMessage]
  {
    if !req.toMp3 && ffmpegDir.None? then [Note(FallbackMessage)] else []
  }

  /** In mp3 mode the quality label, the metadata flag and the absence of ffmpeg change nothing but `ffmpeg_location`. */
  lemma Mp3IgnoresVideoChoices(outDir: string, req: Request, ffmpegDir: Option<string>, quality: string, meta: bool)
    requires req.toMp3
    ensures var other := req.(qualityLabel := quality, saveMeta := meta);
      OptionsFor(outDir, other, ffmpegDir) == OptionsFor(outDir, req, ffmpegDir) &&
      OptionsFor(outDir, req, None) == OptionsFor(outDir, req, ffmpegDir).(ffmpegLocation := DefaultFfmpegLocation) &&
      BuildEffects(other, ffmpegDir) == BuildEffects(req, None) == []
  {
  }

  /** Without ffmpeg the fallback format overrides whatever the quality label asked for. */
  lemma MissingFfmpegIgnoresQuality(outDir: string, req: Request, quality: string)
    requires !req.toMp3
    ensures OptionsFor(outDir, req.(qualityLabel := quality), None) == OptionsFor(outDir, req, None)
    ensures OptionsFor(outDir, req, None).format == Some(FallbackFormat)
  {
  }

  /** With ffmpeg, a quality such as "720" or "720p" caps both legs of the format at that height. */
  lemma QualityCapsHeight(outDir: string, req: Request, dir: string, h: nat)
    requires !req.toMp3
    requires req.qualityLabel == Decimal(h) || req.qualityLabel == Decimal(h) + "p"
    ensures OptionsFor(outDir, req, Some(dir)).format == Some(CappedFormat(h))
  {
    ParseHeightOfNumeral(h);
  }

  /** Empty, "auto" and digit-free labels fall back to "best"; parsing never fails. */
  lemma UnparsableQualityIsBest(outDir: string, req: Request, dir: string)
    requires !req.toMp3
    requires req.qualityLabel == "" || req.qualityLabel == "auto" || !HasDigit(req.qualityLabel)
    ensures OptionsFor(outDir, req, Some(dir)).format == Some(BestFormat)
  {
  }

  /** The 720p scenario: ffmpeg present, label "720"; the format caps both legs at the numeral "720". */
  lemma Scenario720(outDir: string, dir: string)
    ensures Decimal(720) == "720"
    ensures OptionsFor(outDir, Request(false, false, false, false, "720", None), Some(dir)).format == Some(CappedFormat(720))
  {
    assert DigitChar(7) == '7' && DigitChar(2) == '2' && DigitChar(0) == '0';
    assert Decimal(72) == Decimal(7) + "2";
    assert Decimal(720) == Decimal(72) + "0";
    QualityCapsHeight(outDir, Request(false, false, false, false, "720", None), dir, 720);
  }

  /** The mp3 scenario: bitrate "320". */
  lemma ScenarioMp3At320(outDir: string, ffmpegDir: Option<string>)
    ensures var r := OptionsFor(outDir, Request(true, false, false, false, "auto", Some("320")), ffmpegDir);
      r.format == Some("bestaudio/best") &&
      r.postprocessors == Some([Postprocessor("FFmpegExtractAudio", "mp3", "320")])
  {
  }

  /** The missing-ffmpeg scenario: quality "1080", one fallback line. */
  lemma ScenarioNoFfmpeg1080(outDir: string)
    ensures var req := Request(false, false, false, false, "1080", None);
      OptionsFor(outDir, req, None).format == Some(FallbackFormat) &&
      Notes(BuildEffects(req, None)) == [FallbackMessage]
  {
  }
}
