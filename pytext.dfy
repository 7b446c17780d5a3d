/** The two Python string operations the record normalisers use:
    `str.strip()` with no argument and `sep.join(parts)`. */
module PyText {

  /** `c.isspace()`: the characters Python's `str.strip()` removes by default. */
  predicate IsSpace(c: char) {
    c == ' ' || ('\t' <= c <= '\r') || ('\U{1C}' <= c <= '\U{1F}') ||
    c == '\U{85}' || c == '\U{A0}' || c == '\U{1680}' || ('\U{2000}' <= c <= '\U{200A}') ||
    c == '\U{2028}' || c == '\U{2029}' || c == '\U{202F}' || c == '\U{205F}' || c == '\U{3000}'
  }

  /** Every character of `s` from `lo` up to `hi` is whitespace. */
  predicate SpaceBetween(s: string, lo: int, hi: int)
    requires 0 <= lo && hi <= |s|
  {
    forall k :: lo <= k < hi ==> IsSpace(s[k])
  }

  /** The index of the first non-whitespace character of `s` at or after
      `i` (`|s|` when there is none). */
  function SkipSpace(s: string, i: nat): (j: nat)
    requires i <= |s|
    ensures i <= j <= |s|
    ensures SpaceBetween(s, i, j)
    ensures j < |s| ==> !IsSpace(s[j])
    decreases |s| - i
  {
    if i < |s| && IsSpace(s[i]) then SkipSpace(s, i + 1) else i
  }

  /** The index just past the last non-whitespace character of `s` before
      `j` (0 when there is none). */
  function SkipSpaceBack(s: string, j: nat): (i: nat)
    requires j <= |s|
    ensures i <= j
    ensures SpaceBetween(s, i, j)
    ensures i > 0 ==> !IsSpace(s[i - 1])
    decreases j
  {
    if j > 0 && IsSpace(s[j - 1]) then SkipSpaceBack(s, j - 1) else j
  }

  /** `s.lstrip()`. */
  function TrimStart(s: string): string {
    s[SkipSpace(s, 0)..]
  }

  /** `s.rstrip()`. */
  function TrimEnd(s: string): string {
    s[..SkipSpaceBack(s, |s|)]
  }

  /** `s.strip()`. */
  function Strip(s: string): string {
    TrimEnd(TrimStart(s))
  }

  /** What `strip` promises: it removes whitespace from both ends and nothing
      else, so the result is a slice `s[i..j]` with only whitespace outside
      it. */
  lemma StripSlice(s: string)
    ensures |s| - |TrimStart(s)| + |Strip(s)| <= |s|
    ensures Strip(s) == s[|s| - |TrimStart(s)|..|s| - |TrimStart(s)| + |Strip(s)|]
    ensures SpaceBetween(s, 0, |s| - |TrimStart(s)|)
    ensures SpaceBetween(s, |s| - |TrimStart(s)| + |Strip(s)|, |s|)
  {
    var i := SkipSpace(s, 0);
    var t := s[i..];
    var j := SkipSpaceBack(t, |t|);
    assert t[..j] == s[i..i + j];
    forall k | i + j <= k < |s|
      ensures IsSpace(s[k])
    {
      assert s[k] == t[k - i];
    }
  }

  /** ... and the result has no whitespace left at either end. */
  lemma StripEnds(s: string)
    ensures var r := Strip(s); r == [] || (!IsSpace(r[0]) && !IsSpace(r[|r| - 1]))
  {
    var t := TrimStart(s);
    var r := TrimEnd(t);
    if r != [] {
      assert r[0] == t[0];
    }
  }

  /** `strip` leaves alone a string that neither starts nor ends with
      whitespace. */
  lemma StripKeeps(s: string)
    requires s == [] || (!IsSpace(s[0]) && !IsSpace(s[|s| - 1]))
    ensures Strip(s) == s
  {
  }

  /** `sep.join(parts)`. */
  function Join(parts: seq<string>, sep: string): (r: string)
    decreases |parts|
  {
    if parts == [] then "" else if |parts| == 1 then parts[0] else parts[0] + sep + Join(parts[1..], sep)
  }

  function TotalLength(parts: seq<string>): nat {
    if parts == [] then 0 else |parts[0]| + TotalLength(parts[1..])
  }

  /** Joining adds exactly one separator between neighbours and none at the
      ends. */
  lemma {:induction false} JoinLength(parts: seq<string>, sep: string)
    requires parts != []
    ensures |Join(parts, sep)| == TotalLength(parts) + |sep| * (|parts| - 1)
  {
    if |parts| > 1 {
      JoinLength(parts[1..], sep);
    }
  }

  /** Joining one more part appends a separator and the part. */
  lemma {:induction false} JoinSnoc(parts: seq<string>, sep: string, last: string)
    requires parts != []
    ensures Join(parts + [last], sep) == Join(parts, sep) + sep + last
    decreases |parts|
  {
    if |parts| == 1 {
      assert (parts + [last])[1..] == [last];
    } else {
      assert (parts + [last])[1..] == parts[1..] + [last];
      JoinSnoc(parts[1..], sep, last);
    }
  }
}
