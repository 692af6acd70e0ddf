/** The parts of CPython's `urllib.parse.urlparse` and `parse_qs` that the URL
    classifier depends on (the steps of CPython 3.12's `urlsplit`, the
    `;params` split of `urlparse`, and the key side of `parse_qsl` with
    `keep_blank_values=False`). */
module UrlSplit {
  import opened Wrappers
  import opened Text

  /** `urlparse`'s six-part result. */
  datatype ParseResult = ParseResult(
    scheme: string, netloc: string, path: string,
    params: string, query: string, fragment: string)

  /** The `ValueError("Invalid IPv6 URL")` that `urlsplit` raises. */
  datatype UrlError = InvalidIPv6

  /** Schemes for which `urlparse` splits `;params` off the path. */
  const UsesParams: set<string> := {"", "ftp", "hdl", "prospero", "http", "imap",
    "https", "shttp", "rtsp", "rtsps", "rtspu", "sip", "sips", "mms", "sftp", "tel"}

  /** A C0 control character or a space, the set `urlsplit` strips on the left. */
  predicate IsC0OrSpace(c: char) { c <= ' ' }

  /** Tab, CR and LF, which `urlsplit` deletes everywhere. */
  predicate IsUnsafe(c: char) { c == '\t' || c == '\r' || c == '\n' }

  predicate IsSchemeChar(c: char) {
    IsAsciiLetter(c) || IsAsciiDigit(c) || c == '+' || c == '-' || c == '.'
  }

  /** `url.lstrip(_WHATWG_C0_CONTROL_OR_SPACE)`. */
  function LStripC0(url: string): (r: string)
    ensures |r| <= |url| && r == url[|url| - |r|..]
    ensures forall k :: 0 <= k < |url| - |r| ==> IsC0OrSpace(url[k])
    ensures r == [] || !IsC0OrSpace(r[0])
  {
    if |url| > 0 && IsC0OrSpace(url[0]) then LStripC0(url[1..]) else url
  }

  /** `url.replace('\t', '').replace('\r', '').replace('\n', '')`. */
  function RemoveUnsafe(url: string): (r: string)
    ensures |r| <= |url|
    ensures forall k :: 0 <= k < |r| ==> !IsUnsafe(r[k])
    ensures forall c :: c in r <==> c in url && !IsUnsafe(c)
  {
    if |url| == 0 then ""
    else if IsUnsafe(url[0]) then RemoveUnsafe(url[1..])
    else [url[0]] + RemoveUnsafe(url[1..])
  }

  /** The deletion works character by character: a tab, CR or LF disappears,
      any other character stays, and concatenation is kept, so the order and
      the number of the remaining characters are those of the input. */
  lemma {:induction false} RemoveUnsafeSpec(a: string, b: string)
    ensures |a| == 1 ==> RemoveUnsafe(a) == if IsUnsafe(a[0]) then "" else a
    ensures RemoveUnsafe(a + b) == RemoveUnsafe(a) + RemoveUnsafe(b)
    decreases |a|
  {
    if a == [] {
      assert a + b == b;
    } else {
      var ab := a + b;
      assert ab[0] == a[0] && ab[1..] == a[1..] + b;
      RemoveUnsafeSpec(a[1..], b);
      var head := if IsUnsafe(a[0]) then "" else [a[0]];
      assert RemoveUnsafe(ab) == head + RemoveUnsafe(a[1..] + b);
      assert RemoveUnsafe(a) == head + RemoveUnsafe(a[1..]);
      Regroup3(head, RemoveUnsafe(a[1..]), RemoveUnsafe(b));
    }
  }

  lemma Regroup3(x: string, y: string, z: string)
    ensures x + (y + z) == x + y + z
  {
  }

  lemma Regroup4(w: string, x: string, y: string, z: string)
    ensures w + ((x + y) + z) == w + x + y + z
  {
  }

  /** The scheme step: the text before the first ':' is the scheme when it is
      non-empty, starts with an ASCII letter and holds only scheme characters. */
  function SplitScheme(url: string): (r: (string, string))
    ensures r.0 == "" ==> r.1 == url
    ensures r.0 != "" ==> |r.0| < |url| && url[|r.0|] == ':' && r.1 == url[|r.0| + 1..]
  {
    match IndexOf(url, ':')
    case Some(i) =>
      if i > 0 && IsAsciiLetter(url[0]) && forall k | 0 <= k < i :: IsSchemeChar(url[k])
      then (Lower(url[..i]), url[i + 1..])
      else ("", url)
    case None => ("", url)
  }

  /** The URL starts with a scheme ending at index `i`: an ASCII letter, then
      scheme characters only, then a ':'. */
  predicate SchemeEndsAt(url: string, i: int) {
    0 < i < |url| && url[i] == ':' && IsAsciiLetter(url[0])
    && forall k :: 0 <= k < i ==> IsSchemeChar(url[k])
  }

  /** A scheme is recognised exactly when the URL starts with one; it is then
      the text before that ':' (the first, as ':' is no scheme character) in
      lower case, and the rest is what follows the ':'. */
  lemma SplitSchemeSpec(url: string)
    ensures SplitScheme(url).0 != "" <==> exists i :: SchemeEndsAt(url, i)
    ensures forall i :: SchemeEndsAt(url, i) ==> SplitScheme(url) == (Lower(url[..i]), url[i + 1..])
  {
    match IndexOf(url, ':')
    case None =>
    case Some(j) =>
      forall i | SchemeEndsAt(url, i)
        ensures SplitScheme(url) == (Lower(url[..i]), url[i + 1..])
      {
        assert !IsSchemeChar(url[j]);
        assert forall k | 0 <= k < j :: url[..j][k] == url[k];
        assert i == j;
      }
      if SplitScheme(url).0 != "" {
        assert SchemeEndsAt(url, j);
      }
  }

  predicate IsNetlocEnd(c: char) { c == '/' || c == '?' || c == '#' }

  /** Length of the longest prefix of `s` free of '/', '?' and '#' (`_splitnetloc`). */
  function NetlocLength(s: string): (n: nat)
    ensures n <= |s|
    ensures forall k :: 0 <= k < n ==> !IsNetlocEnd(s[k])
    ensures n < |s| ==> IsNetlocEnd(s[n])
  {
    if |s| == 0 || IsNetlocEnd(s[0]) then 0 else 1 + NetlocLength(s[1..])
  }

  /** `s.split(c, 1)` when `c in s`, and `(s, '')` otherwise. */
  function SplitFirst(s: string, c: char): (r: (string, string))
    ensures c !in s ==> r == (s, "")
    ensures c in s ==> c !in r.0 && s == r.0 + [c] + r.1
  {
    match IndexOf(s, c)
    case None => (s, "")
    case Some(i) =>
      assert s == s[..i] + [c] + s[i + 1..];
      (s[..i], s[i + 1..])
  }

  /** Where `_splitparams` looks for the ';': at the last '/', or at the start
      when there is none. */
  function ParamsStart(url: string): (i: nat)
    ensures i <= |url|
  {
    match LastIndexOf(url, '/')
    case Some(j) => j
    case None => 0
  }

  /** `_splitparams`: the first ';' from the last '/' on (from the start when
      there is no '/') separates the path from the params. */
  function SplitParams(url: string): (string, string)
    requires ';' in url
  {
    var start := ParamsStart(url);
    match IndexOf(url[start..], ';')
    case None => (url, "")
    case Some(i) => (url[..start + i], url[start + i + 1..])
  }

  /** The path stays whole exactly when it has a '/' and no ';' after its last
      '/'; otherwise it is cut at the first ';' after the last '/' (or the
      first ';' at all, with no '/'), the two parts around that ';' give the
      path back, and the params hold no '/'. */
  lemma SplitParamsSpec(url: string)
    requires ';' in url
    ensures SplitParams(url) == (url, "") <==> '/' in url && ';' !in url[ParamsStart(url)..]
    ensures SplitParams(url) != (url, "") ==>
      var p := |SplitParams(url).0|;
      && ParamsStart(url) <= p < |url| && url[p] == ';' && ';' !in url[ParamsStart(url)..p]
      && SplitParams(url) == (url[..p], url[p + 1..])
      && url == SplitParams(url).0 + ";" + SplitParams(url).1
      && '/' !in SplitParams(url).1
  {
    var start := ParamsStart(url);
    match IndexOf(url[start..], ';') {
      case None =>
        assert '/' in url;
      case Some(i) =>
        var p := start + i;
        SplitParamsAt(url, start, i);
        ParamsCutAt(url, p);
        var r := SplitParams(url);
        assert r.0 == url[..p] && r.1 == url[p + 1..] && |r.0| == p;
        assert url == r.0 + ";" + r.1;
    }
  }

  lemma SplitParamsAt(url: string, start: nat, i: nat)
    requires ';' in url && start == ParamsStart(url) && IndexOf(url[start..], ';') == Some(i)
    ensures SplitParams(url) == (url[..start + i], url[start + i + 1..])
  {
    var r := SplitParams(url);
    assert r == (url[..start + i], url[start + i + 1..]);
  }

  lemma ParamsCutAt(url: string, p: nat)
    requires ';' in url && ParamsStart(url) <= p
    requires IndexOf(url[ParamsStart(url)..], ';') == Some(p - ParamsStart(url))
    ensures p < |url| && url[p] == ';' && ';' !in url[ParamsStart(url)..p]
    ensures url == url[..p] + ";" + url[p + 1..] && '/' !in url[p + 1..]
  {
    var start := ParamsStart(url);
    CutAfterStart(url, start, p);
    if '/' in url {
      NoSlashAfterCut(url, LastIndexOf(url, '/').value, p);
    }
  }

  lemma CutAfterStart(url: string, start: nat, p: nat)
    requires start <= p && start <= |url|
    requires IndexOf(url[start..], ';') == Some(p - start)
    ensures p < |url| && url[p] == ';' && ';' !in url[start..p]
    ensures url == url[..p] + ";" + url[p + 1..]
  {
    var rest := url[start..];
    assert url[p] == rest[p - start];
    assert url[start..p] == rest[..p - start];
  }

  lemma NoSlashAfterCut(url: string, j: nat, p: nat)
    requires LastIndexOf(url, '/') == Some(j) && j < p < |url|
    ensures '/' !in url[p + 1..]
  {
    assert url[p + 1..] == url[j + 1..][p - j..];
  }

  /** `urlsplit`'s five-part result. */
  datatype SplitResult = SplitResult(
    scheme: string, netloc: string, path: string, query: string, fragment: string)

  /** The network-location step of `urlsplit`: after a leading "//", everything
      up to the first '/', '?' or '#'. */
  function SplitNetloc(s: string): (r: (string, string))
    ensures |s| >= 2 && s[..2] == "//" ==> s == "//" + r.0 + r.1
    ensures !(|s| >= 2 && s[..2] == "//") ==> r == ("", s)
    ensures forall c :: c in r.0 ==> !IsNetlocEnd(c)
    ensures r.1 == [] || !(|s| >= 2 && s[..2] == "//") || IsNetlocEnd(r.1[0])
  {
    if |s| >= 2 && s[..2] == "//" then
      var n := NetlocLength(s[2..]);
      assert s == "//" + s[2..2 + n] + s[2 + n..];
      (s[2..2 + n], s[2 + n..])
    else ("", s)
  }

  /** `urlsplit(url)`, or the `ValueError` it raises for an unbalanced '[' or ']'
      in the network location. */
  function Urlsplit(url: string): (r: Result<SplitResult, UrlError>)
    ensures r.Success? ==> ('[' in r.value.netloc <==> ']' in r.value.netloc)
    ensures r.Success? ==> '?' !in r.value.path && '#' !in r.value.path && '#' !in r.value.query
  {
    var u := RemoveUnsafe(LStripC0(url));
    var (scheme, afterScheme) := SplitScheme(u);
    var netloc := SplitNetloc(afterScheme).0;
    if ('[' in netloc) != (']' in netloc) then Failure(InvalidIPv6)
    else Success(SplitRest(scheme, afterScheme))
  }

  /** The text `urlsplit` splits: leading C0 controls and spaces dropped, tab,
      CR and LF deleted. */
  function Cleaned(url: string): string {
    RemoveUnsafe(LStripC0(url))
  }

  /** `text` prefixed by `mark` when `present`, and nothing otherwise. */
  function Piece(present: bool, mark: string, text: string): string {
    if present then mark + text else ""
  }

  predicate StartsWithSlashes(s: string) {
    |s| >= 2 && s[..2] == "//"
  }

  /** `rest` is an optional "//" + netloc (present exactly when `rest` starts
      with "//"), the path, an optional "?" + query and an optional
      "#" + fragment; an absent part is empty. */
  predicate Reassembles(rest: string, p: SplitResult) {
    exists h: bool, q: bool, f: bool ::
      && rest == Piece(h, "//", p.netloc) + p.path + Piece(q, "?", p.query) + Piece(f, "#", p.fragment)
      && (h <==> StartsWithSlashes(rest))
      && (h || p.netloc == "") && (q || p.query == "") && (f || p.fragment == "")
  }

  /** `urlsplit` raises exactly when the network location has a '[' without
      a ']' or the reverse; otherwise the scheme is the recognised one, and
      the other four parts put back together give the cleaned URL after its
      scheme. */
  lemma UrlsplitSpec(url: string)
    ensures var net := SplitNetloc(SplitScheme(Cleaned(url)).1).0;
      Urlsplit(url).Failure? <==> (('[' in net) != (']' in net))
    ensures Urlsplit(url).Success? ==>
      && Urlsplit(url).value.scheme == SplitScheme(Cleaned(url)).0
      && Reassembles(SplitScheme(Cleaned(url)).1, Urlsplit(url).value)
      && (forall c :: c in Urlsplit(url).value.netloc ==> !IsNetlocEnd(c))
      && (StartsWithSlashes(SplitScheme(Cleaned(url)).1) && Urlsplit(url).value.path != "" ==>
            Urlsplit(url).value.path[0] == '/')
  {
    var (scheme, rest) := SplitScheme(Cleaned(url));
    var r := Urlsplit(url);
    if r.Success? {
      assert r.value == SplitRest(scheme, rest);
      SplitRestSpec(scheme, rest);
    }
  }

  /** The four parts cut after the scheme reassemble the text they came from,
      the host holds no delimiter, and a path after a host starts with '/'. */
  lemma SplitRestSpec(scheme: string, rest: string)
    ensures var p := SplitRest(scheme, rest);
      && Reassembles(rest, p)
      && (forall c :: c in p.netloc ==> !IsNetlocEnd(c))
      && (StartsWithSlashes(rest) && p.path != "" ==> p.path[0] == '/')
  {
    PartsReassemble(rest, SplitRest(scheme, rest));
    if StartsWithSlashes(rest) {
      PathAfterHost(scheme, rest);
    }
  }

  /** After a network location the path, when there is one, starts with '/':
      the host stops at its first '/', '?' or '#', and the path holds neither
      '?' nor '#'. */
  lemma PathAfterHost(scheme: string, rest: string)
    requires StartsWithSlashes(rest)
    ensures var path := SplitRest(scheme, rest).path;
      path != "" ==> path[0] == '/'
  {
    var net := SplitNetloc(rest);
    var frag := SplitFirst(net.1, '#');
    var path := SplitFirst(frag.0, '?').0;
    if path != "" {
      PrefixOfSplitFirst(net.1, '#');
      PrefixOfSplitFirst(frag.0, '?');
      assert path[0] == frag.0[0] == net.1[0];
    }
  }

  /** What `UrlsplitSpec` promises of the parts cut from `rest`. */
  predicate CutsRest(rest: string, p: SplitResult) {
    && Reassembles(rest, p)
    && (forall c :: c in p.netloc ==> !IsNetlocEnd(c))
    && (StartsWithSlashes(rest) && p.path != "" ==> p.path[0] == '/')
    && '?' !in p.path && '#' !in p.path && '#' !in p.query
  }

  /** Those promises leave no choice: any parts that meet them are the ones
      `urlsplit` cuts. */
  lemma CutsRestUnique(rest: string, p: SplitResult)
    requires CutsRest(rest, p)
    ensures p == SplitRest(p.scheme, rest)
  {
    var h: bool, q: bool, f: bool :|
      && rest == Piece(h, "//", p.netloc) + p.path + Piece(q, "?", p.query) + Piece(f, "#", p.fragment)
      && (h <==> StartsWithSlashes(rest))
      && (h || p.netloc == "") && (q || p.query == "") && (f || p.fragment == "");
    CutsRestWith(rest, p, h, q, f);
  }

  lemma CutsRestWith(rest: string, p: SplitResult, h: bool, q: bool, f: bool)
    requires rest == Piece(h, "//", p.netloc) + p.path + Piece(q, "?", p.query) + Piece(f, "#", p.fragment)
    requires h <==> StartsWithSlashes(rest)
    requires (h || p.netloc == "") && (q || p.query == "") && (f || p.fragment == "")
    requires forall c :: c in p.netloc ==> !IsNetlocEnd(c)
    requires h && p.path != "" ==> p.path[0] == '/'
    requires '?' !in p.path && '#' !in p.path && '#' !in p.query
    ensures p == SplitRest(p.scheme, rest)
  {
    var head := p.path + Piece(q, "?", p.query);
    var tail := head + Piece(f, "#", p.fragment);
    Regroup4(Piece(h, "//", p.netloc), p.path, Piece(q, "?", p.query), Piece(f, "#", p.fragment));
    assert rest == Piece(h, "//", p.netloc) + tail;
    if h {
      TailAtDelimiter(p.path, q, p.query, f, p.fragment);
    }
    NetlocCut(rest, h, p.netloc, tail);
    NoMarkBefore(p.path, q, p.query);
    CutAtFirst(head, '#', f, p.fragment);
    CutAtFirst(p.path, '?', q, p.query);
    var net := SplitNetloc(rest);
    var frag := SplitFirst(net.1, '#');
    var query := SplitFirst(frag.0, '?');
    assert net == (p.netloc, tail) && frag == (head, p.fragment) && query == (p.path, p.query);
  }

  lemma TailAtDelimiter(path: string, q: bool, query: string, f: bool, fragment: string)
    requires path != "" ==> path[0] == '/'
    ensures var tail := path + Piece(q, "?", query) + Piece(f, "#", fragment);
      tail == [] || IsNetlocEnd(tail[0])
  {
  }

  lemma NoMarkBefore(path: string, q: bool, query: string)
    requires '#' !in path && '#' !in query
    ensures '#' !in path + Piece(q, "?", query)
  {
  }

  /** The host cut: after "//", the host runs up to the first delimiter. */
  lemma NetlocCut(rest: string, h: bool, netloc: string, tail: string)
    requires rest == Piece(h, "//", netloc) + tail
    requires h <==> StartsWithSlashes(rest)
    requires h || netloc == ""
    requires forall c :: c in netloc ==> !IsNetlocEnd(c)
    requires h ==> tail == [] || IsNetlocEnd(tail[0])
    ensures SplitNetloc(rest) == (netloc, tail)
  {
    if h {
      assert rest == "//" + netloc + tail;
      assert rest[2..] == netloc + tail;
      NetlocLengthAt(netloc, tail);
      assert rest[2..2 + |netloc|] == netloc;
      assert rest[2 + |netloc|..] == tail;
    } else {
      assert rest == tail;
    }
  }

  lemma {:induction false} NetlocLengthAt(x: string, t: string)
    requires forall c :: c in x ==> !IsNetlocEnd(c)
    requires t == [] || IsNetlocEnd(t[0])
    ensures NetlocLength(x + t) == |x|
    decreases |x|
  {
    if x != [] {
      assert x[0] in x;
      assert (x + t)[1..] == x[1..] + t;
      forall c | c in x[1..] ensures !IsNetlocEnd(c) {
        assert c in x;
      }
      NetlocLengthAt(x[1..], t);
    } else {
      assert x + t == t;
    }
  }

  /** Splitting at `c` text that holds no `c` before an optional `c`-marked
      piece. */
  lemma CutAtFirst(a: string, c: char, present: bool, b: string)
    requires c !in a
    requires present || b == ""
    ensures SplitFirst(a + Piece(present, [c], b), c) == (a, b)
  {
    var s := a + Piece(present, [c], b);
    if present {
      assert s == a + [c] + b;
      assert s[|a|] == c;
      assert s[..|a|] == a;
      assert IndexOf(s, c) == Some(|a|);
      assert s[|a| + 1..] == b;
    } else {
      assert s == a;
    }
  }

  /** The head of a split is a prefix of the input, and holds no `c`. */
  lemma PrefixOfSplitFirst(s: string, c: char)
    ensures var h := SplitFirst(s, c).0;
      |h| <= |s| && h == s[..|h|] && (h != "" ==> s[0] != c)
  {
    var h := SplitFirst(s, c).0;
    if c in s {
      assert s == h + [c] + SplitFirst(s, c).1;
      assert s[..|h|] == h;
      if h != "" {
        assert s[0] == h[0];
      }
    }
  }

  /** The four parts `urlsplit` cuts from the text after the scheme. */
  function SplitRest(scheme: string, rest: string): SplitResult {
    var net := SplitNetloc(rest);
    var frag := SplitFirst(net.1, '#');
    var query := SplitFirst(frag.0, '?');
    SplitResult(scheme, net.0, query.0, query.1, frag.1)
  }

  lemma PartsReassemble(rest: string, p: SplitResult)
    requires p == SplitRest(p.scheme, rest)
    ensures Reassembles(rest, p)
  {
    var net := SplitNetloc(rest);
    var frag := SplitFirst(net.1, '#');
    var query := SplitFirst(frag.0, '?');
    var h, q, f := StartsWithSlashes(rest), '?' in frag.0, '#' in net.1;
    SplitFirstPiece(net.1, '#', "#");
    SplitFirstPiece(frag.0, '?', "?");
    assert rest == Piece(h, "//", net.0) + net.1;
    Regroup4(Piece(h, "//", net.0), query.0, Piece(q, "?", query.1), Piece(f, "#", frag.1));
    assert rest == Piece(h, "//", p.netloc) + p.path + Piece(q, "?", p.query) + Piece(f, "#", p.fragment);
  }

  /** Splitting at the first `c` and putting the parts back together. */
  lemma SplitFirstPiece(s: string, c: char, mark: string)
    requires mark == [c]
    ensures s == SplitFirst(s, c).0 + Piece(c in s, mark, SplitFirst(s, c).1)
    ensures c !in s ==> SplitFirst(s, c).1 == ""
  {
  }

  /** `urlparse(url)`: `urlsplit`, then the `;params` split for the schemes in
      `UsesParams`. */
  function Urlparse(url: string): (r: Result<ParseResult, UrlError>)
    ensures r.Success? <==> Urlsplit(url).Success?
    ensures r.Success? ==> r.value.netloc == Urlsplit(url).value.netloc
    ensures r.Success? ==> r.value.query == Urlsplit(url).value.query
    ensures r.Success? ==> r.value.path == Urlsplit(url).value.path
                           || Urlsplit(url).value.path == r.value.path + ";" + r.value.params
    ensures r.Success? ==> r.value.scheme == Urlsplit(url).value.scheme
                           && r.value.fragment == Urlsplit(url).value.fragment
    ensures r.Success? ==> var parts := Urlsplit(url).value;
      if parts.scheme in UsesParams && ';' in parts.path
      then (r.value.path, r.value.params) == SplitParams(parts.path)
      else r.value.path == parts.path && r.value.params == ""
  {
    match Urlsplit(url)
    case Failure(e) => Failure(e)
    case Success(parts) =>
      var (path, params) :=
        if parts.scheme in UsesParams && ';' in parts.path then
          SplitParamsSpec(parts.path);
          SplitParams(parts.path)
        else (parts.path, "");
      Success(ParseResult(parts.scheme, parts.netloc, path, params, parts.query, parts.fragment))
  }

  /** The name of one `name=value` field as `parse_qsl` records it: a field with
      no '=' or with an empty value is dropped (`keep_blank_values=False`), and
      '+' in the name becomes a space. */
  function FieldName(field: string): (r: Option<string>)
    ensures r.Some? ==> '=' in field && |r.value| < |field| - 1
  {
    match IndexOf(field, '=')
    case None => None
    case Some(i) =>
      if i + 1 < |field| then Some(PlusToSpace(field[..i])) else None
  }

  function PlusToSpace(s: string): (r: string)
    ensures |r| == |s|
    ensures forall k :: 0 <= k < |s| ==> r[k] == (if s[k] == '+' then ' ' else s[k])
  {
    if |s| == 0 then "" else [if s[0] == '+' then ' ' else s[0]] + PlusToSpace(s[1..])
  }

  /** The keys of `parse_qs(query)`: the names of the '&'-separated fields that
      carry a non-empty value. */
  function QueryKeys(query: string): set<string>
  {
    var fields := Fields(query);
    set k | 0 <= k < |fields| && FieldName(fields[k]).Some? :: FieldName(fields[k]).value
  }

  /** `field` reads `key=value` with a non-empty value. */
  predicate HasValueFor(field: string, key: string) {
    |field| > |key| + 1 && field[..|key| + 1] == key + "="
  }

  /** The fields `parse_qsl` looks at. */
  function Fields(query: string): seq<string> {
    if query == "" then [] else Split(query, '&')
  }

  /** A key with no '=', '+' or space is among the keys exactly when some field
      is that key, an '=' and at least one more character; so `?list=` yields no
      `list` key while `?list=A` does. */
  lemma KeyPresent(query: string, key: string)
    requires '=' !in key && '+' !in key && ' ' !in key
    ensures key in QueryKeys(query) <==>
      exists k :: 0 <= k < |Fields(query)| && HasValueFor(Fields(query)[k], key)
  {
    var fields := Fields(query);
    if key in QueryKeys(query) {
      var k :| 0 <= k < |fields| && FieldName(fields[k]).Some? && FieldName(fields[k]).value == key;
      FieldNameIs(fields[k], key);
    }
    forall k | 0 <= k < |fields| && HasValueFor(fields[k], key)
      ensures key in QueryKeys(query)
    {
      FieldNameIs(fields[k], key);
    }
  }

  lemma FieldNameIs(field: string, key: string)
    requires '=' !in key && '+' !in key && ' ' !in key
    ensures FieldName(field) == Some(key) <==> HasValueFor(field, key)
  {
    if FieldName(field) == Some(key) {
      var i := IndexOf(field, '=').value;
      NoPlusIdentity(field[..i], key);
      assert field[..i + 1] == field[..i] + "=";
    }
    if HasValueFor(field, key) {
      assert field[|key|] == (key + "=")[|key|];
      var i := IndexOf(field, '=').value;
      assert forall k :: 0 <= k < |key| ==> field[k] == key[k];
      assert i == |key|;
      assert field[..i] == key;
      assert PlusToSpace(key) == key;
    }
  }

  /** Undoing `PlusToSpace` for a name with no '+' and no space. */
  lemma NoPlusIdentity(s: string, key: string)
    requires PlusToSpace(s) == key && '+' !in key && ' ' !in key
    ensures s == key
  {
    forall k | 0 <= k < |s| ensures s[k] == key[k] {
      assert PlusToSpace(s)[k] == key[k];
    }
  }
}
