/**
 * The filename sanitiser of downloader.py: drop the characters that are not
 * allowed in Windows file names, strip surrounding whitespace, keep at most
 * 120 characters.
 */
module Sanitizer {

  /** The longest name `sanitize_filename` returns. */
  const MaxNameLength: nat := 120

  /** The nine characters the sanitiser deletes: backslash, slash, star, question mark, double quote, angle brackets, bar and colon. */
  predicate IsUnsafe(c: char) {
    c == '\\' || c == '/' || c == '*' || c == '?' || c == '"' ||
    c == '<' || c == '>' || c == '|' || c == ':'
  }

  /** Python's `str.isspace`: the characters `str.strip()` removes by default. */
  predicate IsSpace(c: char) {
    ('\U{9}' <= c <= '\U{D}') || ('\U{1C}' <= c <= '\U{20}') ||
    c == '\U{85}' || c == '\U{A0}' || c == '\U{1680}' ||
    ('\U{2000}' <= c <= '\U{200A}') || c == '\U{2028}' || c == '\U{2029}' ||
    c == '\U{202F}' || c == '\U{205F}' || c == '\U{3000}'
  }

  predicate NoUnsafe(s: string) {
    forall i :: 0 <= i < |s| ==> !IsUnsafe(s[i])
  }

  /** The regular-expression substitution of `sanitize_filename`: keep the safe characters, in order. */
  function RemoveUnsafe(s: string): (r: string)
    ensures |r| <= |s|
    ensures NoUnsafe(r)
    ensures NoUnsafe(s) ==> r == s
  {
    if s == [] then []
    else
      assert s == [s[0]] + s[1..];
      if IsUnsafe(s[0]) then RemoveUnsafe(s[1..])
      else [s[0]] + RemoveUnsafe(s[1..])
  }

  /** Removal deletes every occurrence of an unsafe character and no occurrence of a safe one. */
  lemma {:induction false} RemoveUnsafeCounts(s: string, c: char)
    ensures multiset(RemoveUnsafe(s))[c] == if IsUnsafe(c) then 0 else multiset(s)[c]
  {
    if s != [] {
      assert s == [s[0]] + s[1..];
      RemoveUnsafeCounts(s[1..], c);
    }
  }

  /** Removal distributes over concatenation: it works character by character, in order. */
  lemma {:induction false} RemoveUnsafeAppend(a: string, b: string)
    ensures RemoveUnsafe(a + b) == RemoveUnsafe(a) + RemoveUnsafe(b)
  {
    if a == [] {
      assert a + b == b;
    } else {
      assert (a + b)[0] == a[0] && (a + b)[1..] == a[1..] + b;
      RemoveUnsafeAppend(a[1..], b);
      var head := if IsUnsafe(a[0]) then [] else [a[0]];
      assert RemoveUnsafe(a + b) == head + RemoveUnsafe(a[1..] + b);
      assert RemoveUnsafe(a) == head + RemoveUnsafe(a[1..]);
      assert head + (RemoveUnsafe(a[1..]) + RemoveUnsafe(b)) == (head + RemoveUnsafe(a[1..])) + RemoveUnsafe(b);
    }
  }

  /** On one character, removal deletes it exactly when it is unsafe. */
  lemma RemoveUnsafeChar(c: char)
    ensures RemoveUnsafe([c]) == if IsUnsafe(c) then [] else [c]
  {
    assert [c][1..] == [];
  }

  /** `lstrip()`: the longest suffix of `s` that does not start with whitespace. */
  function StripLeading(s: string): (r: string)
    ensures |r| <= |s| && r == s[|s| - |r|..]
    ensures forall i :: 0 <= i < |s| - |r| ==> IsSpace(s[i])
    ensures r != [] ==> !IsSpace(r[0])
    ensures NoUnsafe(s) ==> NoUnsafe(r)
  {
    if s != [] && IsSpace(s[0]) then StripLeading(s[1..]) else s
  }

  /** `rstrip()`: the longest prefix of `s` that does not end with whitespace. */
  function StripTrailing(s: string): (r: string)
    ensures |r| <= |s| && r == s[..|r|]
    ensures forall i :: |r| <= i < |s| ==> IsSpace(s[i])
    ensures r != [] ==> !IsSpace(r[|r| - 1])
    ensures NoUnsafe(s) ==> NoUnsafe(r)
  {
    if s != [] && IsSpace(s[|s| - 1]) then StripTrailing(s[..|s| - 1]) else s
  }

  /** `strip()`. */
  function Strip(s: string): (r: string)
    ensures |r| <= |s|
    ensures r != [] ==> !IsSpace(r[0]) && !IsSpace(r[|r| - 1])
    ensures (s == [] || (!IsSpace(s[0]) && !IsSpace(s[|s| - 1]))) ==> r == s
    ensures NoUnsafe(s) ==> NoUnsafe(r)
  {
    StripTrailing(StripLeading(s))
  }

  /** `strip()` removes whitespace at the two ends and nothing else: the result is a slice of the input whose surroundings are all whitespace. */
  lemma StripRemovesEdgeSpace(s: string)
    ensures exists i, j ::
      && 0 <= i <= j <= |s|
      && Strip(s) == s[i..j]
      && (forall k :: 0 <= k < i ==> IsSpace(s[k]))
      && (forall k :: j <= k < |s| ==> IsSpace(s[k]))
  {
    var t := StripLeading(s);
    var r := StripTrailing(t);
    var i := |s| - |t|;
    var j := i + |r|;
    assert r == s[i..j];
    forall k | j <= k < |s| ensures IsSpace(s[k]) {
      assert s[k] == t[k - i];
    }
  }

  /** `sanitize_filename(name)`. */
  function Sanitize(name: string): (r: string)
    ensures |r| <= MaxNameLength
    ensures NoUnsafe(r)
    ensures r != [] ==> !IsSpace(r[0])
    ensures var s := Strip(RemoveUnsafe(name));
      |r| <= |s| && r == s[..|r|] && (|s| <= MaxNameLength ==> r == s) && (|s| > MaxNameLength ==> |r| == MaxNameLength)
  {
    var s := Strip(RemoveUnsafe(name));
    assert NoUnsafe(s);
    if |s| <= MaxNameLength then s
    else
      var r := s[..MaxNameLength];
      assert forall i :: 0 <= i < |r| ==> r[i] == s[i];
      r
  }

  /**
   * Sanitising a sanitised name changes it exactly when the first pass left
   * whitespace at the end, which happens when truncation cuts just after a space.
   */
  lemma SanitizeIdempotentIff(name: string)
    ensures var r := Sanitize(name);
      Sanitize(r) == r <==> (r == [] || !IsSpace(r[|r| - 1]))
  {
    var r := Sanitize(name);
    assert RemoveUnsafe(r) == r;
    if r != [] && IsSpace(r[|r| - 1]) {
      assert |Strip(r)| < |r| by {
        assert StripLeading(r) == r;
        assert StripTrailing(r) == StripTrailing(r[..|r| - 1]);
      }
    }
  }

  /** A name that is already safe, stripped and short passes through unchanged. */
  lemma SanitizeKeepsCleanName(name: string)
    requires NoUnsafe(name) && |name| <= MaxNameLength
    requires name == [] || (!IsSpace(name[0]) && !IsSpace(name[|name| - 1]))
    ensures Sanitize(name) == name
  {
  }
}
