/** `sanitize_filename(name, max_len=200)`: replace every run of characters a
    file system refuses by one underscore, strip white space at both ends,
    and cut an over-long name at `max_len`, then back to its last blank. */
module Sanitizer {
  import opened Wrappers
  import opened Text

  /** The default `max_len`. */
  const DefaultMaxLen: int := 200

  /** The character class `[\\/:*?"<>|\n\r]` of the substitution. */
  predicate IsIllegal(c: char) {
    c == '\\' || c == '/' || c == ':' || c == '*' || c == '?' || c == '"'
    || c == '<' || c == '>' || c == '|' || c == '\n' || c == '\r'
  }

  predicate NoIllegal(s: string) {
    forall k :: 0 <= k < |s| ==> !IsIllegal(s[k])
  }

  /** The characters Python's `str.isspace` accepts, which `str.strip()` removes. */
  predicate IsSpace(c: char) {
    ('\t' <= c <= '\r') || ('\U{1c}' <= c <= ' ') || c == '\U{85}' || c == '\U{a0}'
    || c == '\U{1680}' || ('\U{2000}' <= c <= '\U{200a}') || c == '\U{2028}' || c == '\U{2029}'
    || c == '\U{202f}' || c == '\U{205f}' || c == '\U{3000}'
  }

  /** The input with its leading run of illegal characters removed. */
  function SkipRun(s: string): (r: string)
    ensures |r| < |s| || r == s
  {
    if s != [] && IsIllegal(s[0]) then SkipRun(s[1..]) else s
  }

  /** Only a leading run of illegal characters is dropped, and what is left
      starts with a legal character. */
  lemma {:induction false} SkipRunSpec(s: string)
    ensures var r := SkipRun(s);
      && |r| <= |s| && r == s[|s| - |r|..]
      && (forall k :: 0 <= k < |s| - |r| ==> IsIllegal(s[k]))
      && (r == [] || !IsIllegal(r[0]))
    decreases |s|
  {
    if s != [] && IsIllegal(s[0]) {
      SkipRunSpec(s[1..]);
      var r := SkipRun(s);
      assert s[1..][|s| - 1 - |r|..] == s[|s| - |r|..];
      forall k | 0 < k < |s| - |r| ensures IsIllegal(s[k]) {
        assert s[k] == s[1..][k - 1];
      }
    }
  }

  /** `re.sub(r'[\\/:*?"<>|\n\r]+', '_', s)`: each maximal run of illegal
      characters becomes a single `'_'`. */
  function Substitute(s: string): (r: string)
    ensures NoIllegal(r)
    ensures |r| <= |s|
    decreases |s|
  {
    if s == [] then []
    else if IsIllegal(s[0]) then "_" + Substitute(SkipRun(s))
    else [s[0]] + Substitute(s[1..])
  }

  /** A name without illegal characters passes through unchanged. */
  lemma {:induction false} SubstituteIdentity(s: string)
    requires NoIllegal(s)
    ensures Substitute(s) == s
    decreases |s|
  {
    if s != [] {
      SubstituteIdentity(s[1..]);
      assert s == [s[0]] + s[1..];
    }
  }

  /** A legal character cuts the name in two halves substituted independently. */
  lemma {:induction false} SubstituteAfterLegal(a: string, c: char, b: string)
    requires !IsIllegal(c)
    ensures Substitute(a + [c] + b) == Substitute(a) + [c] + Substitute(b)
    decreases |a|, 1
  {
    if a == [] {
      assert a + [c] + b == [c] + b;
      LegalHead(c, b);
    } else if IsIllegal(a[0]) {
      AfterLegalRun(a, c, b);
    } else {
      AfterLegalChar(a, c, b);
    }
  }

  lemma {:induction false} AfterLegalRun(a: string, c: char, b: string)
    requires !IsIllegal(c) && a != [] && IsIllegal(a[0])
    ensures Substitute(a + [c] + b) == Substitute(a) + [c] + Substitute(b)
    decreases |a|, 0
  {
    var s := a + [c] + b;
    var t := SkipRun(a);
    assert s[0] == a[0];
    IllegalHead(s);
    SkipAcross(a, c, b);
    SubstituteAfterLegal(t, c, b);
    IllegalHead(a);
    assert "_" + (Substitute(t) + [c] + Substitute(b)) == ("_" + Substitute(t)) + [c] + Substitute(b);
  }

  lemma {:induction false} AfterLegalChar(a: string, c: char, b: string)
    requires !IsIllegal(c) && a != [] && !IsIllegal(a[0])
    ensures Substitute(a + [c] + b) == Substitute(a) + [c] + Substitute(b)
    decreases |a|, 0
  {
    var t := a[1..];
    assert a + [c] + b == [a[0]] + (t + [c] + b);
    LegalHead(a[0], t + [c] + b);
    SubstituteAfterLegal(t, c, b);
    assert a == [a[0]] + t;
    LegalHead(a[0], t);
    assert [a[0]] + (Substitute(t) + [c] + Substitute(b)) == ([a[0]] + Substitute(t)) + [c] + Substitute(b);
  }

  lemma LegalHead(c: char, t: string)
    requires !IsIllegal(c)
    ensures Substitute([c] + t) == [c] + Substitute(t)
  {
    assert ([c] + t)[1..] == t;
  }

  lemma IllegalHead(s: string)
    requires s != [] && IsIllegal(s[0])
    ensures Substitute(s) == "_" + Substitute(SkipRun(s))
  {
  }

  /** Skipping a run that ends inside `a` stays inside `a`. */
  lemma {:induction false} SkipAcross(a: string, c: char, b: string)
    requires !IsIllegal(c)
    ensures SkipRun(a + [c] + b) == SkipRun(a) + [c] + b
    decreases |a|
  {
    if a == [] {
      assert a + [c] + b == [c] + b;
    } else if IsIllegal(a[0]) {
      assert (a + [c] + b)[1..] == a[1..] + [c] + b;
      SkipAcross(a[1..], c, b);
    }
  }

  /** A whole run of illegal characters, followed by a legal character or by
      the end of the name, becomes one underscore. */
  lemma SubstituteRun(run: string, b: string)
    requires run != [] && forall k :: 0 <= k < |run| ==> IsIllegal(run[k])
    requires b == [] || !IsIllegal(b[0])
    ensures Substitute(run + b) == "_" + Substitute(b)
    ensures b != [] ==> Substitute(run + b) == "_" + [b[0]] + Substitute(b[1..])
  {
    SkipPast(run, b);
    assert (run + b)[0] == run[0];
  }

  lemma {:induction false} SkipPast(run: string, b: string)
    requires forall k :: 0 <= k < |run| ==> IsIllegal(run[k])
    requires b == [] || !IsIllegal(b[0])
    ensures SkipRun(run + b) == b
    decreases |run|
  {
    if run == [] {
      assert run + b == b;
    } else {
      assert (run + b)[1..] == run[1..] + b;
      SkipPast(run[1..], b);
    }
  }

  /** The characters other than illegal ones and underscores, in order. */
  function Kept(s: string): (r: string)
    ensures |r| <= |s|
  {
    if s == [] then []
    else if IsIllegal(s[0]) || s[0] == '_' then Kept(s[1..])
    else [s[0]] + Kept(s[1..])
  }

  /** Every character that is neither illegal nor an underscore survives the
      substitution, in its original order. */
  lemma {:induction false} SubstituteKeepsOthers(s: string)
    ensures Kept(Substitute(s)) == Kept(s)
    decreases |s|
  {
    if s == [] {
    } else if IsIllegal(s[0]) {
      SubstituteKeepsOthers(SkipRun(s));
      KeptSkip(s);
      assert ("_" + Substitute(SkipRun(s)))[1..] == Substitute(SkipRun(s));
    } else {
      SubstituteKeepsOthers(s[1..]);
      assert ([s[0]] + Substitute(s[1..]))[1..] == Substitute(s[1..]);
    }
  }

  lemma {:induction false} KeptSkip(s: string)
    ensures Kept(SkipRun(s)) == Kept(s)
    decreases |s|
  {
    if s != [] && IsIllegal(s[0]) {
      KeptSkip(s[1..]);
    }
  }

  /** `s.lstrip()`: drop leading white space. */
  function StripStart(s: string): string {
    if s != [] && IsSpace(s[0]) then StripStart(s[1..]) else s
  }

  /** `lstrip` removes a prefix of white space and leaves a string that does
      not start with white space. */
  lemma {:induction false} StripStartSpec(s: string)
    ensures var r := StripStart(s);
      && |r| <= |s| && r == s[|s| - |r|..]
      && (forall k :: 0 <= k < |s| - |r| ==> IsSpace(s[k]))
      && (r == [] || !IsSpace(r[0]))
    decreases |s|
  {
    if s != [] && IsSpace(s[0]) {
      StripStartSpec(s[1..]);
      var r := StripStart(s);
      assert r == StripStart(s[1..]);
      assert s[1..][|s| - 1 - |r|..] == s[|s| - |r|..];
      forall k | 0 < k < |s| - |r| ensures IsSpace(s[k]) {
        assert s[k] == s[1..][k - 1];
      }
    }
  }

  /** `s.rstrip()`: drop trailing white space. */
  function StripEnd(s: string): string {
    if s != [] && IsSpace(s[|s| - 1]) then StripEnd(s[..|s| - 1]) else s
  }

  /** `rstrip` removes a suffix of white space and leaves a string that does
      not end with white space. */
  lemma {:induction false} StripEndSpec(s: string)
    ensures var r := StripEnd(s);
      && |r| <= |s| && r == s[..|r|]
      && (forall k :: |r| <= k < |s| ==> IsSpace(s[k]))
      && (r == [] || !IsSpace(r[|r| - 1]))
    decreases |s|
  {
    if s != [] && IsSpace(s[|s| - 1]) {
      var p := s[..|s| - 1];
      StripEndSpec(p);
      var r := StripEnd(s);
      assert r == StripEnd(p);
      assert p[..|r|] == s[..|r|];
      forall k | |r| <= k < |s| - 1 ensures IsSpace(s[k]) {
        assert s[k] == p[k];
      }
    }
  }

  /** `s.strip()`. */
  function Strip(s: string): string {
    StripEnd(StripStart(s))
  }

  /** `strip` keeps the middle slice of the input that neither starts nor
      ends with white space, and only white space lies around it. */
  lemma StripSpec(s: string)
    ensures var r := Strip(s);
      var i := |s| - |StripStart(s)|;
      && 0 <= i && i + |r| <= |s| && r == s[i..i + |r|]
      && (forall k :: 0 <= k < i ==> IsSpace(s[k]))
      && (forall k :: i + |r| <= k < |s| ==> IsSpace(s[k]))
      && (r == [] || (!IsSpace(r[0]) && !IsSpace(r[|r| - 1])))
  {
    var t := StripStart(s);
    StripStartSpec(s);
    StripEndSpec(t);
    StripMiddle(s, t, StripEnd(t));
    var r := StripEnd(t);
    if r != [] {
      assert r[0] == t[0];
    }
  }

  lemma StripMiddle(s: string, t: string, r: string)
    requires |t| <= |s| && t == s[|s| - |t|..]
    requires |r| <= |t| && r == t[..|r|]
    requires forall k :: |r| <= k < |t| ==> IsSpace(t[k])
    ensures |s| - |t| + |r| <= |s| && r == s[|s| - |t|..|s| - |t| + |r|]
    ensures forall k :: |s| - |t| + |r| <= k < |s| ==> IsSpace(s[k])
  {
    var i := |s| - |t|;
    SliceOfSlice(s, i, |r|);
    forall k | i + |r| <= k < |s| ensures IsSpace(s[k]) {
      assert t[k - i] == s[k];
      assert IsSpace(t[k - i]);
    }
  }

  lemma SliceOfSlice(s: string, i: nat, n: nat)
    requires i + n <= |s|
    ensures s[i..][..n] == s[i..i + n]
  {
  }

  /** Python's `s[:k]`, where a negative `k` counts from the end. */
  function PyPrefix(s: string, k: int): (r: string)
    ensures |r| <= |s| && r == s[..|r|]
    ensures 0 <= k ==> |r| == (if k < |s| then k else |s|)
    ensures k < 0 ==> |r| == (if |s| + k < 0 then 0 else |s| + k)
  {
    if k >= 0 then (if k < |s| then s[..k] else s)
    else if |s| + k < 0 then [] else s[..|s| + k]
  }

  /** `s.rsplit(' ', 1)[0]`: everything before the last blank, or `s` when it
      has none. */
  function BeforeLastBlank(s: string): (r: string)
    ensures |r| <= |s| && r == s[..|r|]
    ensures ' ' !in s ==> r == s
    ensures ' ' in s ==> |r| < |s| && s[|r|] == ' ' && ' ' !in s[|r| + 1..]
  {
    match LastIndexOf(s, ' ')
    case None => s
    case Some(i) => s[..i]
  }

  /** The name after substitution and stripping, before any cut. */
  function Cleaned(name: string): string {
    Strip(Substitute(name))
  }

  /** `sanitize_filename(name, max_len)`. */
  function SanitizeFilename(name: string, maxLen: int): (r: string)
    ensures NoIllegal(r)
    ensures |r| <= |Cleaned(name)| && r == Cleaned(name)[..|r|]
    ensures 0 <= maxLen ==> |r| <= maxLen
    ensures |Cleaned(name)| <= maxLen ==> r == Cleaned(name)
    ensures |Cleaned(name)| > maxLen ==> r == Cut(Cleaned(name), maxLen)
  {
    var s := Cleaned(name);
    StripKeepsLegal(Substitute(name));
    if |s| > maxLen then Cut(s, maxLen) else s
  }

  /** `s[:max_len].rsplit(' ', 1)[0]`, applied to a name that is too long. */
  function Cut(s: string, maxLen: int): (r: string)
    requires |s| > maxLen
    ensures |r| <= |s| && r == s[..|r|]
    ensures 0 <= maxLen ==> |r| <= maxLen
    ensures NoIllegal(s) ==> NoIllegal(r)
  {
    var p := PyPrefix(s, maxLen);
    var r := BeforeLastBlank(p);
    assert r == s[..|r|];
    r
  }

  lemma StripKeepsLegal(s: string)
    requires NoIllegal(s)
    ensures NoIllegal(Strip(s))
  {
    var r := Strip(s);
    var i := |s| - |StripStart(s)|;
    StripSpec(s);
    forall k | 0 <= k < |r| ensures !IsIllegal(r[k]) {
      assert r[k] == s[i + k];
    }
  }

  /** A clean name that fits is returned as it is. */
  lemma SanitizeFits(name: string, maxLen: int)
    requires NoIllegal(name) && |name| <= maxLen
    requires name == [] || (!IsSpace(name[0]) && !IsSpace(name[|name| - 1]))
    ensures SanitizeFilename(name, maxLen) == name
  {
    SubstituteIdentity(name);
    if name != [] {
      assert StripStart(name) == name;
      assert StripEnd(name) == name;
    }
  }

  /** Cutting keeps whole words: a blank inside the first `maxLen` characters
      means the result stops just before the last such blank. */
  lemma SanitizeCutsAtBlank(name: string, maxLen: int)
    requires 0 <= maxLen < |Cleaned(name)|
    requires ' ' in Cleaned(name)[..maxLen]
    ensures var r := SanitizeFilename(name, maxLen);
      |r| < maxLen && Cleaned(name)[|r|] == ' ' && ' ' !in Cleaned(name)[|r| + 1..maxLen]
  {
    var s := Cleaned(name);
    var p := PyPrefix(s, maxLen);
    assert p == s[..maxLen];
    var r := BeforeLastBlank(p);
    assert p[|r| + 1..] == s[|r| + 1..maxLen];
  }

  /** Sanitizing twice changes nothing more when the first result fits. */
  lemma SanitizeIdempotent(name: string, maxLen: int)
    requires |Cleaned(name)| <= maxLen
    ensures SanitizeFilename(SanitizeFilename(name, maxLen), maxLen) == SanitizeFilename(name, maxLen)
  {
    var r := SanitizeFilename(name, maxLen);
    CleanedFits(name, maxLen);
    SanitizeFits(r, maxLen);
  }

  lemma CleanedFits(name: string, maxLen: int)
    requires |Cleaned(name)| <= maxLen
    ensures var r := SanitizeFilename(name, maxLen);
      && NoIllegal(r) && |r| <= maxLen
      && (r == [] || (!IsSpace(r[0]) && !IsSpace(r[|r| - 1])))
  {
    var r := SanitizeFilename(name, maxLen);
    StripSpec(Substitute(name));
    assert r == Strip(Substitute(name));
  }
}
