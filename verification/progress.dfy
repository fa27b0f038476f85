/**
 * `_progress_hook` of downloader.py: the callback the extraction library
 * calls with a status dictionary. A `downloading` event is turned into a
 * percentage of the byte counters, `finished` into a full bar and a log
 * line, `error` into a log line; anything else is ignored. There is no
 * smoothing: the percentage is recomputed from each event alone.
 */
module Progress {
  import opened Wrappers
  import opened Effects

  /**
   * The `filename` entry of the status dictionary. Unlike the other keys,
   * `str(d.get('filename', ''))` tells a missing key (the empty string) from
   * a key holding `None` (the text "None").
   */
  datatype FilenameEntry = Missing | NoneValue | Name(name: string)

  /**
   * The keys of the status dictionary the hook reads. For the `Option`
   * fields `None` is a missing key or a `None` value: `d.get(k)`, `or 0` and
   * the comparisons treat the two alike.
   */
  datatype Event = Event(
    status: Option<string>,
    totalBytes: Option<nat>,
    totalBytesEstimate: Option<nat>,
    downloadedBytes: Option<nat>,
    speed: Option<real>,
    eta: Option<real>,
    filename: FilenameEntry)

  const FinishedPrefix := "Download finished for: "
  const ErrorMessage := "Download error state"

  /** Python's `x or y` for a byte counter: a missing value and 0 are both falsy. */
  function OrElse(x: Option<nat>, y: nat): nat {
    if x.Some? && x.value != 0 then x.value else y
  }

  /** `total_bytes or total_bytes_estimate or 0`. */
  function Total(d: Event): (t: nat)
    ensures t == 0 <==> OrElse(d.totalBytes, 0) == 0 && OrElse(d.totalBytesEstimate, 0) == 0
    ensures d.totalBytes.Some? && d.totalBytes.value != 0 ==> t == d.totalBytes.value
    ensures t != 0 ==> d.totalBytes == Some(t) || d.totalBytesEstimate == Some(t)
  {
    OrElse(d.totalBytes, OrElse(d.totalBytesEstimate, 0))
  }

  /** `downloaded_bytes or 0`. */
  function Downloaded(d: Event): nat {
    OrElse(d.downloadedBytes, 0)
  }

  /** The percentage of a `downloading` event: the floor of 100 * downloaded / total, 0 when the total is unknown. */
  function Percent(d: Event): (p: nat)
    ensures Total(d) == 0 ==> p == 0
    ensures Total(d) != 0 ==> p * Total(d) <= 100 * Downloaded(d) < (p + 1) * Total(d)
  {
    if Total(d) != 0 then 100 * Downloaded(d) / Total(d) else 0
  }

  /** With a known total, the bar reaches 100 exactly when all bytes are in, and stays below before. */
  lemma PercentFullIff(d: Event)
    requires Total(d) != 0
    ensures Percent(d) >= 100 <==> Downloaded(d) >= Total(d)
    ensures Downloaded(d) <= Total(d) ==> Percent(d) <= 100
  {
    var p, t, n := Percent(d), Total(d), Downloaded(d);
    if n >= t {
      MulMonotone(t, n, 100);
      assert (p + 1) * t > 100 * t;
      MulCancel(p + 1, 100, t);
    } else {
      MulMonotone(n + 1, t, 100);
      assert p * t < 100 * t;
      MulCancel(100, p, t);
    }
    if n <= t && p > 100 {
      MulMonotone(n, t, 100);
      MulMonotone(101, p, t);
      assert false;
    }
  }

  /** For one total, more bytes never give a smaller percentage. */
  lemma PercentMonotone(d: Event, e: Event)
    requires Total(d) == Total(e) && Downloaded(d) <= Downloaded(e)
    ensures Percent(d) <= Percent(e)
  {
    var t := Total(d);
    if t != 0 && Percent(d) > Percent(e) {
      MulMonotone(Percent(e) + 1, Percent(d), t);
    }
  }

  lemma MulCancel(a: nat, b: nat, t: nat)
    requires a * t > b * t
    ensures a > b
  {
  }

  lemma MulMonotone(a: nat, b: nat, t: nat)
    requires a <= b
    ensures a * t <= b * t
  {
    assert b * t == a * t + (b - a) * t;
  }

  /** There is no clamp: more bytes than the announced total report more than 100. */
  lemma PercentNotClamped()
    ensures Percent(Event(Some("downloading"), Some(100), None, Some(150), None, None, Missing)) == 150
  {
  }

  /** A zero `total_bytes` is falsy and the estimate is used instead. */
  lemma ZeroTotalFallsBackToEstimate()
    ensures Percent(Event(Some("downloading"), Some(0), Some(200), Some(50), None, None, Missing)) == 25
  {
  }

  /**
   * Each event is judged alone: after the video stream reached 90, the first
   * event of the audio stream reports 10, so the displayed value goes back.
   */
  lemma PercentCanGoBack()
    ensures var video := Event(Some("downloading"), Some(1000), None, Some(900), None, None, Missing);
            var audio := Event(Some("downloading"), Some(200), None, Some(20), None, None, Missing);
            HookEffects(video)[0].percent == 90 && HookEffects(audio)[0].percent == 10
  {
  }

  /** The message logged for a `finished` event: `str(d.get('filename', ''))` after the prefix. */
  function FinishedMessage(d: Event): (m: string)
    ensures |FinishedPrefix| <= |m| && m[..|FinishedPrefix|] == FinishedPrefix
    ensures d.filename.Missing? ==> m == FinishedPrefix
    ensures d.filename.NoneValue? ==> m[|FinishedPrefix|..] == "None"
    ensures d.filename.Name? ==> m[|FinishedPrefix|..] == d.filename.name
  {
    FinishedPrefix + match d.filename
      case Missing => ""
      case NoneValue => "None"
      case Name(s) => s
  }

  /** A `filename` key holding `None` is logged as the text "None". */
  lemma FinishedWithNoneFilename(d: Event)
    requires d.status == Some("finished") && d.filename == NoneValue
    ensures HookEffects(d)[1] == Note("Download finished for: None")
  {
  }

  /** `_progress_hook(d)`: what the hook asks of the UI and the log, in order. */
  function HookEffects(d: Event): (effects: seq<Effect>)
    ensures |Notes(effects)| == (if d.status == Some("finished") || d.status == Some("error") then 1 else 0)
    ensures |Reports(effects)| == (if d.status == Some("downloading") || d.status == Some("finished") then 1 else 0)
    ensures d.status == Some("downloading") ==> effects == [Report(Percent(d), d.speed, d.eta)]
    ensures d.status == Some("finished") ==> effects == [Report(100, Some(0.0), Some(0.0)), Note(FinishedMessage(d))]
    ensures d.status == Some("error") ==> effects == [Note(ErrorMessage)]
    ensures d.status !in {Some("downloading"), Some("finished"), Some("error")} ==> effects == []
  {
    if d.status == Some("downloading") then
      [Report(Percent(d), d.speed, d.eta)]
    else if d.status == Some("finished") then
      var effects := [Report(100, Some(0.0), Some(0.0)), Note(FinishedMessage(d))];
      assert effects[..1] == [effects[0]];
      effects
    else if d.status == Some("error") then
      [Note(ErrorMessage)]
    else
      []
  }
}
