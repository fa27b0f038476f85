/**
 * What the downloader's own code does to the outside world: it reports
 * progress to the UI callback, and it logs a message through `_log`, which
 * appends a stamped line to the shared log and echoes the message to the UI.
 */
module Effects {
  import opened Wrappers

  datatype Effect =
    | Report(percent: nat, speed: Option<real>, eta: Option<real>)  // a call `ui_progress(percent, speed, eta)`
    | Note(message: string)                                          // a call `_log(message)`

  /** The messages logged by `effects`, in order. */
  function Notes(effects: seq<Effect>): (msgs: seq<string>)
    ensures |msgs| <= |effects|
    ensures (forall i :: 0 <= i < |effects| ==> effects[i].Report?) ==> msgs == []
  {
    if effects == [] then []
    else
      var last := effects[|effects| - 1];
      Notes(effects[..|effects| - 1]) + (if last.Note? then [last.message] else [])
  }

  /** The progress reports among `effects`, in order. */
  function Reports(effects: seq<Effect>): (reports: seq<Effect>)
    ensures |reports| <= |effects|
    ensures forall i :: 0 <= i < |reports| ==> reports[i].Report?
  {
    if effects == [] then []
    else
      var last := effects[|effects| - 1];
      Reports(effects[..|effects| - 1]) + (if last.Report? then [last] else [])
  }

  lemma {:induction false} NotesAppend(a: seq<Effect>, b: seq<Effect>)
    ensures Notes(a + b) == Notes(a) + Notes(b)
    decreases |b|
  {
    if b != [] {
      assert (a + b)[..|a + b| - 1] == a + b[..|b| - 1];
      NotesAppend(a, b[..|b| - 1]);
    } else {
      assert a + b == a;
    }
  }

  lemma {:induction false} ReportsAppend(a: seq<Effect>, b: seq<Effect>)
    ensures Reports(a + b) == Reports(a) + Reports(b)
    decreases |b|
  {
    if b != [] {
      assert (a + b)[..|a + b| - 1] == a + b[..|b| - 1];
      ReportsAppend(a, b[..|b| - 1]);
    } else {
      assert a + b == a;
    }
  }
}
