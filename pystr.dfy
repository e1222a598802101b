/**
  The Python string builtins the grounding check relies on: `str.isspace`
  (per character), `str.strip()` with no argument, `str.startswith`,
  `str.find` and `str.replace(old, new, 1)`.
 */
module PyStr {
  import opened Common

  /** The characters Python's `str.isspace` accepts; `str.strip()` removes exactly these. */
  predicate IsSpace(c: char)
  {
    c == ' ' || ('\t' <= c <= '\r') || ('\U{1C}' <= c <= '\U{1F}')
    || c == '\U{85}' || c == '\U{A0}' || c == '\U{1680}'
    || ('\U{2000}' <= c <= '\U{200A}') || c == '\U{2028}' || c == '\U{2029}'
    || c == '\U{202F}' || c == '\U{205F}' || c == '\U{3000}'
  }

  predicate AllSpace(s: string)
  {
    forall k :: 0 <= k < |s| ==> IsSpace(s[k])
  }

  /** `s.lstrip()`: what is left once leading whitespace is removed. */
  function StripStart(s: string): (r: string)
    ensures |r| <= |s|
  {
    if |s| > 0 && IsSpace(s[0]) then StripStart(s[1..]) else s
  }

  /** `s.rstrip()`: what is left once trailing whitespace is removed. */
  function StripEnd(s: string): (r: string)
    ensures |r| <= |s|
  {
    if |s| > 0 && IsSpace(s[|s| - 1]) then StripEnd(s[..|s| - 1]) else s
  }

  /** `lstrip` leaves a suffix that does not start with whitespace, and what it removed is all whitespace. */
  lemma {:induction false} StripStartShape(s: string)
    ensures StripStart(s) == s[|s| - |StripStart(s)|..]
    ensures AllSpace(s[..|s| - |StripStart(s)|])
    ensures StripStart(s) == [] || !IsSpace(StripStart(s)[0])
    decreases |s|
  {
    if |s| > 0 && IsSpace(s[0]) {
      var t := s[1..];
      StripStartShape(t);
      var k := |s| - |StripStart(t)|;
      assert t[k - 1..] == s[k..];
      assert s[..k] == [s[0]] + t[..k - 1];
    } else {
      assert s[..0] == [];
    }
  }

  /** `rstrip` leaves a prefix that does not end with whitespace, and what it removed is all whitespace. */
  lemma {:induction false} StripEndShape(s: string)
    ensures StripEnd(s) == s[..|StripEnd(s)|]
    ensures AllSpace(s[|StripEnd(s)|..])
    ensures StripEnd(s) == [] || !IsSpace(StripEnd(s)[|StripEnd(s)| - 1])
    decreases |s|
  {
    if |s| > 0 && IsSpace(s[|s| - 1]) {
      var t := s[..|s| - 1];
      StripEndShape(t);
      var k := |StripEnd(t)|;
      assert t[..k] == s[..k];
      assert s[k..] == t[k..] + [s[|s| - 1]];
    } else {
      assert s[|s|..] == [];
    }
  }

  /** The number of leading whitespace characters of `s`. */
  function LeadingSpace(s: string): (n: nat)
    ensures n <= |s|
  {
    |s| - |StripStart(s)|
  }

  /** `s.strip()`: `s` with whitespace removed at both ends. */
  function Strip(s: string): (r: string)
    ensures |r| <= |s|
  {
    StripEnd(StripStart(s))
  }

  /**
    The stripped form is the slice of `s` after its leading whitespace;
    what was removed on either side is all whitespace, and what is left
    neither starts nor ends with it.
   */
  lemma StripShape(s: string)
    ensures LeadingSpace(s) + |Strip(s)| <= |s|
    ensures Strip(s) == s[LeadingSpace(s)..LeadingSpace(s) + |Strip(s)|]
    ensures AllSpace(s[..LeadingSpace(s)]) && AllSpace(s[LeadingSpace(s) + |Strip(s)|..])
    ensures Strip(s) == [] || (!IsSpace(Strip(s)[0]) && !IsSpace(Strip(s)[|Strip(s)| - 1]))
  {
    var left := StripStart(s);
    var r := StripEnd(left);
    var i := |s| - |left|;
    StripStartShape(s);
    StripEndShape(left);
    assert Strip(s) == r && LeadingSpace(s) == i;
    assert r != [] ==> r[0] == left[0];
    SliceOfSuffix(s, i, |r|);
  }

  /** Slicing a suffix of `s` is slicing `s` itself. */
  lemma SliceOfSuffix(s: string, i: nat, k: nat)
    requires i + k <= |s|
    ensures s[i..][..k] == s[i..i + k]
    ensures s[i..][k..] == s[i + k..]
  {
  }

  /** A string is the concatenation of its three slices at `i` and `j`. */
  lemma SliceThree(s: string, i: nat, j: nat)
    requires i <= j <= |s|
    ensures s == s[..i] + s[i..j] + s[j..]
  {
    assert s[..j] == s[..i] + s[i..j];
  }

  /** A string is its stripped form with whitespace before and after it. */
  lemma StripDecompose(s: string) returns (lead: string, trail: string)
    ensures AllSpace(lead) && AllSpace(trail)
    ensures s == lead + Strip(s) + trail
  {
    var r := Strip(s);
    var i := LeadingSpace(s);
    StripShape(s);
    lead, trail := s[..i], s[i + |r|..];
    SliceThree(s, i, i + |r|);
  }

  /** Stripping twice is stripping once. */
  lemma StripIdempotent(s: string)
    ensures Strip(Strip(s)) == Strip(s)
  {
    var r := Strip(s);
    StripShape(s);
    if r != [] {
      assert StripStart(r) == r;
      assert StripEnd(r) == r;
    }
  }

  /** `s.startswith(p)`. */
  predicate StartsWith(s: string, p: string)
  {
    |p| <= |s| && s[..|p|] == p
  }

  predicate OccursAt(s: string, p: string, k: nat)
  {
    k + |p| <= |s| && s[k..k + |p|] == p
  }

  /** The first position at or after `from` where `p` occurs in `s`, if any. */
  function FindFrom(s: string, p: string, from: nat): (r: Option<nat>)
    requires from <= |s|
    ensures r.Some? ==> from <= r.value && OccursAt(s, p, r.value)
    ensures r.Some? ==> forall k :: from <= k < r.value ==> !OccursAt(s, p, k)
    ensures r.None? ==> forall k :: from <= k <= |s| ==> !OccursAt(s, p, k)
    decreases |s| - from
  {
    if OccursAt(s, p, from) then Some(from)
    else if from == |s| then None
    else FindFrom(s, p, from + 1)
  }

  /** `s.find(p)`, with `None` for Python's `-1`. */
  function Find(s: string, p: string): (r: Option<nat>)
    ensures r.Some? ==> OccursAt(s, p, r.value) && forall k :: 0 <= k < r.value ==> !OccursAt(s, p, k)
    ensures r.None? ==> forall k :: 0 <= k <= |s| ==> !OccursAt(s, p, k)
  {
    FindFrom(s, p, 0)
  }

  /** `s.replace(pattern, repl, 1)`: the first occurrence of `pattern`, if any, becomes `repl`. */
  function ReplaceFirst(s: string, pattern: string, repl: string): string
  {
    match Find(s, pattern)
    case None => s
    case Some(i) => s[..i] + repl + s[i + |pattern|..]
  }

  /** When `s` starts with `p`, replacing the first `p` by nothing drops the first |p| characters. */
  lemma ReplacePrefix(s: string, p: string)
    requires StartsWith(s, p)
    ensures ReplaceFirst(s, p, "") == s[|p|..]
  {
    assert OccursAt(s, p, 0);
    assert Find(s, p) == Some(0);
  }

  /** A leading whitespace character makes no difference to the stripped form. */
  lemma StripSkipsSpace(c: char, s: string)
    requires IsSpace(c)
    ensures Strip([c] + s) == Strip(s)
  {
    assert ([c] + s)[1..] == s;
  }

  /** A string that neither starts nor ends with whitespace is its own stripped form. */
  lemma StripFixed(s: string)
    requires s == [] || (!IsSpace(s[0]) && !IsSpace(s[|s| - 1]))
    ensures Strip(s) == s
  {
  }

  /** A prefix, one whitespace character and an unpadded text: dropping the prefix and stripping leaves the text. */
  lemma StripAfterPrefix(text: string, p: string, c: char, w: string)
    requires text == p + [c] + w
    requires IsSpace(c)
    requires w == [] || (!IsSpace(w[0]) && !IsSpace(w[|w| - 1]))
    ensures StartsWith(text, p)
    ensures Strip(text[|p|..]) == w
    ensures Strip(ReplaceFirst(text, p, "")) == w
  {
    assert text[..|p|] == p;
    ReplacePrefix(text, p);
    assert text[|p|..] == [c] + w;
    StripSkipsSpace(c, w);
    StripFixed(w);
  }

  /**
    The grounding example: "!search weather today" starts with "!search",
    and dropping the prefix and stripping leaves "weather today"; the
    stripped text does not start with the prefix.
   */
  lemma StripPrefixExample(text: string, p: string, w: string)
    requires text == "!search weather today" && p == "!search" && w == "weather today"
    ensures StartsWith(text, p) && Strip(ReplaceFirst(text, p, "")) == w
    ensures !StartsWith(w, p)
  {
    assert text == p + [' '] + w;
    StripAfterPrefix(text, p, ' ', w);
    assert w[0] != p[0];
  }
}
