/**
 * The process-wide append-only log of downloader.py: timestamped lines kept
 * in insertion order and shown as one newline-joined text.
 */
module Logging {

  /** The line `add` stores for message `s` stamped `ts`: `[ts] s`. */
  function Line(ts: string, s: string): string {
    "[" + ts + "] " + s
  }

  /** A stamped line is the bracketed stamp, a space, then the message unchanged. */
  lemma LineShape(ts: string, s: string)
    ensures var line := Line(ts, s);
      |line| == |ts| + |s| + 3 && line[0] == '[' && line[1..|ts| + 1] == ts &&
      line[|ts| + 1..|ts| + 3] == "] " && line[|ts| + 3..] == s
  {
  }

  predicate NewlineFree(s: string) {
    forall i :: 0 <= i < |s| ==> s[i] != '\n'
  }

  /** `'\n'.join(lines)`. */
  function Join(lines: seq<string>): string {
    if lines == [] then ""
    else if |lines| == 1 then lines[0]
    else lines[0] + "\n" + Join(lines[1..])
  }

  /** The text starts with the first line, followed by a newline when more lines come. */
  lemma JoinStartsWithFirst(lines: seq<string>)
    requires lines != []
    ensures var text := Join(lines);
      |lines[0]| <= |text| && text[..|lines[0]|] == lines[0] &&
      (|lines| > 1 ==> |lines[0]| < |text| && text[|lines[0]|] == '\n')
  {
  }

  /** Position of the first newline of `s`, if there is one. */
  function FirstNewline(s: string): (k: nat)
    requires !NewlineFree(s)
    ensures k < |s| && s[k] == '\n' && NewlineFree(s[..k])
  {
    if s[0] == '\n' then 0
    else
      var k := FirstNewline(s[1..]);
      assert s[..k + 1] == [s[0]] + s[1..][..k];
      k + 1
  }

  /** `text.split('\n')`: the pieces between newlines (one piece when there is none). */
  function Split(s: string): (pieces: seq<string>)
    ensures pieces != []
    ensures forall i :: 0 <= i < |pieces| ==> NewlineFree(pieces[i])
    decreases |s|
  {
    if NewlineFree(s) then [s]
    else
      var k := FirstNewline(s);
      [s[..k]] + Split(s[k + 1..])
  }

  /** Joining the pieces of a split gives back the text. */
  lemma {:induction false} JoinSplit(s: string)
    ensures Join(Split(s)) == s
    decreases |s|
  {
    if !NewlineFree(s) {
      var k := FirstNewline(s);
      JoinSplit(s[k + 1..]);
      assert s == s[..k] + "\n" + s[k + 1..];
    }
  }

  /** Splitting a join of newline-free lines gives back the lines. */
  lemma {:induction false} SplitJoin(lines: seq<string>)
    requires lines != []
    requires forall i :: 0 <= i < |lines| ==> NewlineFree(lines[i])
    ensures Split(Join(lines)) == lines
  {
    if |lines| > 1 {
      var a := lines[0];
      var t := a + "\n" + Join(lines[1..]);
      assert t[|a|] == '\n' && t[..|a|] == a;
      assert !NewlineFree(t);
      assert FirstNewline(t) == |a|;
      assert t[|a| + 1..] == Join(lines[1..]);
      SplitJoin(lines[1..]);
    }
  }

  /** Joining one more line extends the text by a separator and that line. */
  lemma {:induction false} JoinSnoc(lines: seq<string>, x: string)
    ensures Join(lines + [x]) == if lines == [] then x else Join(lines) + "\n" + x
  {
    if |lines| > 1 {
      var a, rest := lines[0], lines[1..];
      assert (lines + [x])[1..] == rest + [x];
      assert Join(lines + [x]) == a + "\n" + Join(rest + [x]);
      JoinSnoc(rest, x);
      var j := Join(rest);
      assert a + "\n" + (j + "\n" + x) == (a + "\n" + j) + "\n" + x;
    } else if |lines| == 1 {
      assert (lines + [x])[1..] == [x];
    }
  }

  /** The module-level `Log` object: a growing list of stamped lines. */
  class Log {
    var lines: seq<string>

    constructor ()
      ensures lines == []
    {
      lines := [];
    }

    /** `add(s)`, with the clock reading `ts` passed in. */
    method Add(ts: string, s: string)
      modifies this
      ensures lines == old(lines) + [Line(ts, s)]
      ensures Text() == if old(lines) == [] then Line(ts, s) else old(Text()) + "\n" + Line(ts, s)
    {
      JoinSnoc(lines, Line(ts, s));
      lines := lines + [Line(ts, s)];
    }

    /** `text()`: the lines joined with newlines; split back, they are the lines again when none holds a newline. */
    function Text(): (t: string)
      reads this
      ensures lines != [] && (forall i :: 0 <= i < |lines| ==> NewlineFree(lines[i])) ==> Split(t) == lines
      ensures lines == [] ==> t == ""
    {
      if lines != [] && (forall i :: 0 <= i < |lines| ==> NewlineFree(lines[i])) then
        SplitJoin(lines);
        Join(lines)
      else
        Join(lines)
    }

    /** The log view's "clear" action empties the list in place. */
    method Clear()
      modifies this
      ensures lines == []
    {
      lines := [];
    }
  }
}
