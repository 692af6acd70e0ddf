/** `classify_youtube_url`: a first-match-wins decision over the path, the
    query keys and the network location of a URL. */
module UrlClassifier {
  import opened Wrappers
  import opened Text
  import opened UrlSplit

  /** The four tags the classifier returns. */
  datatype Category = Playlist | Song | Video | Unsupported

  /** The string the source returns for each tag. */
  function Tag(c: Category): (t: string)
    ensures t == "playlist" <==> c == Playlist
  {
    match c
    case Playlist => "playlist"
    case Song => "song (YouTube Music)"
    case Video => "video"
    case Unsupported => "unknown or unsupported"
  }

  /** The first rule: a collection marker in the path, or a `list` key and no `v` key. */
  predicate IsPlaylistUrl(path: string, keys: set<string>) {
    Contains(path, "playlist") || ("list" in keys && "v" !in keys)
  }

  /** The second rule: an item marker in the path, a `v` key, or the short-link host. */
  predicate IsItemUrl(netloc: string, path: string, keys: set<string>) {
    Contains(path, "watch") || "v" in keys || Contains(netloc, "youtu.be")
  }

  predicate IsMusicHost(netloc: string) {
    Contains(netloc, "music.youtube.com")
  }

  /** The decision itself, over the three parts the source inspects. */
  function Classify(netloc: string, path: string, keys: set<string>): Category
  {
    if IsPlaylistUrl(path, keys) then Playlist
    else if IsItemUrl(netloc, path, keys) then
      if IsMusicHost(netloc) then Song else Video
    else Unsupported
  }

  /** `classify_youtube_url(url)`: split the URL, take the query keys, decide;
      `urlparse`'s `ValueError` escapes. */
  function ClassifyUrl(url: string): (r: Result<Category, UrlError>)
    ensures r.Failure? <==> Urlsplit(url).Failure?
  {
    var parts :- Urlparse(url);
    Success(Classify(parts.netloc, parts.path, QueryKeys(parts.query)))
  }

  /** Rule 1 wins whatever the host and the other keys. */
  lemma PlaylistPathWins(netloc: string, path: string, keys: set<string>)
    requires Contains(path, "playlist")
    ensures Classify(netloc, path, keys) == Playlist
  {
  }

  lemma ListWithoutItemIsPlaylist(netloc: string, path: string, keys: set<string>)
    requires "list" in keys && "v" !in keys
    ensures Classify(netloc, path, keys) == Playlist
  {
  }

  /** The exact conditions for each of the four tags. */
  lemma ClassifyCases(netloc: string, path: string, keys: set<string>)
    ensures Classify(netloc, path, keys) == Playlist <==> IsPlaylistUrl(path, keys)
    ensures Classify(netloc, path, keys) == Song <==>
      !IsPlaylistUrl(path, keys) && IsItemUrl(netloc, path, keys) && IsMusicHost(netloc)
    ensures Classify(netloc, path, keys) == Video <==>
      !IsPlaylistUrl(path, keys) && IsItemUrl(netloc, path, keys) && !IsMusicHost(netloc)
    ensures Classify(netloc, path, keys) == Unsupported <==>
      !IsPlaylistUrl(path, keys) && !IsItemUrl(netloc, path, keys)
  {
  }

  /** A `v` key beside a `list` key makes the URL an item, never a playlist,
      unless the path says "playlist". */
  lemma ListAndItemIsNotPlaylist(netloc: string, path: string, keys: set<string>)
    requires "list" in keys && "v" in keys && !Contains(path, "playlist")
    ensures Classify(netloc, path, keys) in {Song, Video}
  {
  }

  /** The short-link host always gives an item: music or video, by host. */
  lemma ShortLinkIsItem(netloc: string, path: string, keys: set<string>)
    requires Contains(netloc, "youtu.be") && !IsPlaylistUrl(path, keys)
    ensures Classify(netloc, path, keys) == (if IsMusicHost(netloc) then Song else Video)
  {
  }

  /** Characters that may stand in an identifier of the examples below. */
  predicate IsIdChar(c: char) {
    ' ' < c && !IsNetlocEnd(c) && c != ';' && c != '&' && c != '=' && c != '[' && c != ']'
  }

  /** Text that may stand in an identifier of the examples below. */
  predicate IdText(s: string) { forall c :: c in s ==> IsIdChar(c) }

  /** Text with no delimiter `urlparse` looks for in a host. */
  predicate HostText(s: string) { forall c :: c in s ==> ' ' < c && !IsNetlocEnd(c) && c != '[' && c != ']' }

  /** Text with no delimiter `urlparse` looks for in a path or a query. */
  predicate PlainText(s: string) { forall c :: c in s ==> ' ' < c && c != '?' && c != '#' && c != ';' }

  lemma PlainConcat(a: string, b: string)
    requires PlainText(a) && PlainText(b)
    ensures PlainText(a + b)
  {
  }

  lemma ClassifyParsed(url: string, p: ParseResult, c: Category)
    requires Urlparse(url) == Success(p)
    requires Classify(p.netloc, p.path, QueryKeys(p.query)) == c
    ensures ClassifyUrl(url) == Success(c)
  {
  }

  /** A playlist page, `https://youtube.com/playlist?list=<id>`, is a playlist,
      for example with id "ABC123". */
  lemma PlaylistPageIsPlaylist(id: string)
    requires IdText(id)
    ensures ClassifyUrl("https://youtube.com/playlist?list=" + id) == Success(Playlist)
  {
    PlaylistPageParts(id);
    PlaylistPageDecision(id);
    ClassifyParsed("https://youtube.com/playlist?list=" + id,
      ParseResult("https", "youtube.com", "/playlist", "", "list=" + id, ""), Playlist);
  }

  lemma PlaylistPageDecision(id: string)
    ensures Classify("youtube.com", "/playlist", QueryKeys("list=" + id)) == Playlist
  {
    PlaylistPathWins("youtube.com", "/playlist", QueryKeys("list=" + id));
  }

  lemma PlaylistPageParts(id: string)
    requires IdText(id)
    ensures Urlparse("https://youtube.com/playlist?list=" + id)
         == Success(ParseResult("https", "youtube.com", "/playlist", "", "list=" + id, ""))
  {
    PlaylistPageText(id);
    PlainConcat("list=", id);
    HttpsQueryParts("https://youtube.com/playlist?list=" + id, "youtube.com", "/playlist", "list=" + id);
  }

  lemma PlaylistPageText(id: string)
    ensures "https://youtube.com/playlist?list=" + id == "https://" + "youtube.com" + "/playlist" + "?" + ("list=" + id)
    ensures HostText("youtube.com") && PlainText("/playlist") && PlainText("list=")
  {
    assert "https://youtube.com/playlist?list=" == "https://" + "youtube.com" + "/playlist" + "?" + "list=";
    Regroup5("https://", "youtube.com", "/playlist", "?", "list=", id);
    PlainLiterals();
  }

  /** A short link, `https://youtu.be/<id>`, is a video unless its id mentions
      "playlist", for example with id "xyz". */
  lemma ShortLinkIsVideo(id: string)
    requires IdText(id)
    requires !Contains(id, "playlist")
    ensures ClassifyUrl("https://youtu.be/" + id) == Success(Video)
  {
    ShortLinkParts(id);
    ShortLinkDecision(id);
    ClassifyParsed("https://youtu.be/" + id, ParseResult("https", "youtu.be", "/" + id, "", "", ""), Video);
  }

  lemma ShortLinkDecision(id: string)
    requires !Contains(id, "playlist")
    ensures Classify("youtu.be", "/" + id, QueryKeys("")) == Video
  {
    assert OccursAt("youtu.be", "youtu.be", 0);
    ContainsIff("youtu.be", "youtu.be");
    ContainsAfterOtherChar('/', id, "playlist");
    assert QueryKeys("") == {};
  }

  lemma ShortLinkParts(id: string)
    requires IdText(id)
    ensures Urlparse("https://youtu.be/" + id) == Success(ParseResult("https", "youtu.be", "/" + id, "", "", ""))
  {
    ShortLinkText(id);
    PlainConcat("/", id);
    HttpsPathParts("https://youtu.be/" + id, "youtu.be", "/" + id);
  }

  lemma ShortLinkText(id: string)
    ensures "https://youtu.be/" + id == "https://" + "youtu.be" + ("/" + id)
    ensures HostText("youtu.be") && PlainText("/")
  {
  }

  /** A watch page with both a `v` and a `list` key is a video, not a playlist. */
  lemma WatchInPlaylistIsVideo(vid: string, lid: string)
    requires vid != "" && IdText(vid)
    requires IdText(lid)
    ensures ClassifyUrl("https://www.youtube.com/watch?v=" + vid + "&list=" + lid) == Success(Video)
  {
    WatchInPlaylistParts(vid, lid);
    WatchInPlaylistDecision(vid, lid);
    ClassifyParsed("https://www.youtube.com/watch?v=" + vid + "&list=" + lid,
      ParseResult("https", "www.youtube.com", "/watch", "", "v=" + vid + "&list=" + lid, ""), Video);
  }

  lemma WatchInPlaylistDecision(vid: string, lid: string)
    requires vid != "" && IdText(vid)
    ensures Classify("www.youtube.com", "/watch", QueryKeys("v=" + vid + "&list=" + lid)) == Video
  {
    FirstFieldNamesV(vid, "&list=" + lid);
    assert "v=" + vid + "&list=" + lid == "v=" + vid + ("&list=" + lid);
    assert OccursAt("/watch", "watch", 1);
    ContainsIff("/watch", "watch");
    assert !Contains("www.youtube.com", "music.youtube.com");
  }

  lemma WatchInPlaylistParts(vid: string, lid: string)
    requires IdText(vid)
    requires IdText(lid)
    ensures Urlparse("https://www.youtube.com/watch?v=" + vid + "&list=" + lid)
         == Success(ParseResult("https", "www.youtube.com", "/watch", "", "v=" + vid + "&list=" + lid, ""))
  {
    WatchInPlaylistText(vid, lid);
    PlainConcat("v=", vid);
    PlainConcat("v=" + vid, "&list=");
    PlainConcat("v=" + vid + "&list=", lid);
    HttpsQueryParts("https://www.youtube.com/watch?v=" + vid + "&list=" + lid,
      "www.youtube.com", "/watch", "v=" + vid + "&list=" + lid);
  }

  lemma WatchInPlaylistText(vid: string, lid: string)
    ensures "https://www.youtube.com/watch?v=" + vid + "&list=" + lid
         == "https://" + "www.youtube.com" + "/watch" + "?" + ("v=" + vid + "&list=" + lid)
    ensures HostText("www.youtube.com") && PlainText("/watch") && PlainText("v=") && PlainText("&list=")
  {
    assert "https://www.youtube.com/watch?v=" == "https://" + "www.youtube.com" + "/watch" + "?" + "v=";
    Regroup5("https://", "www.youtube.com", "/watch", "?", "v=", vid);
    var q := "v=" + vid;
    assert "https://" + "www.youtube.com" + "/watch" + "?" + q + "&list=" + lid
        == "https://" + "www.youtube.com" + "/watch" + "?" + (q + "&list=" + lid);
    PlainLiterals();
  }

  lemma Regroup5(a: string, b: string, c: string, d: string, e: string, x: string)
    ensures a + b + c + d + e + x == a + b + c + d + (e + x)
  {
  }

  /** The literal parts of the example URLs hold no delimiter. */
  lemma PlainLiterals()
    ensures HostText("youtube.com") && HostText("www.youtube.com") && HostText("music.youtube.com")
    ensures HostText("youtu.be")
    ensures PlainText("/playlist") && PlainText("/watch") && PlainText("/")
    ensures PlainText("list=") && PlainText("v=") && PlainText("&list=")
  {
    HostLiteral("youtube.com");
    HostLiteral("www.youtube.com");
    HostLiteral("music.youtube.com");
    HostLiteral("youtu.be");
  }

  /** A host made of letters and dots. */
  lemma HostLiteral(h: string)
    requires forall k :: 0 <= k < |h| ==> IsAsciiLower(h[k]) || h[k] == '.'
    ensures HostText(h)
  {
  }

  /** A watch page on the music host is a song. */
  lemma MusicWatchIsSong(vid: string)
    requires vid != "" && IdText(vid)
    ensures ClassifyUrl("https://music.youtube.com/watch?v=" + vid) == Success(Song)
  {
    MusicWatchParts(vid);
    MusicWatchDecision(vid);
    ClassifyParsed("https://music.youtube.com/watch?v=" + vid,
      ParseResult("https", "music.youtube.com", "/watch", "", "v=" + vid, ""), Song);
  }

  lemma MusicWatchDecision(vid: string)
    requires vid != "" && IdText(vid)
    ensures Classify("music.youtube.com", "/watch", QueryKeys("v=" + vid)) == Song
  {
    FirstFieldNamesV(vid, "");
    assert "v=" + vid + "" == "v=" + vid;
    assert OccursAt("/watch", "watch", 1);
    ContainsIff("/watch", "watch");
    assert OccursAt("music.youtube.com", "music.youtube.com", 0);
    ContainsIff("music.youtube.com", "music.youtube.com");
  }

  lemma MusicWatchParts(vid: string)
    requires IdText(vid)
    ensures Urlparse("https://music.youtube.com/watch?v=" + vid)
         == Success(ParseResult("https", "music.youtube.com", "/watch", "", "v=" + vid, ""))
  {
    MusicWatchText(vid);
    PlainConcat("v=", vid);
    HttpsQueryParts("https://music.youtube.com/watch?v=" + vid, "music.youtube.com", "/watch", "v=" + vid);
  }

  lemma MusicWatchText(vid: string)
    ensures "https://music.youtube.com/watch?v=" + vid == "https://" + "music.youtube.com" + "/watch" + "?" + ("v=" + vid)
    ensures HostText("music.youtube.com") && PlainText("/watch") && PlainText("v=")
  {
    assert "https://music.youtube.com/watch?v=" == "https://" + "music.youtube.com" + "/watch" + "?" + "v=";
    Regroup5("https://", "music.youtube.com", "/watch", "?", "v=", vid);
    PlainLiterals();
  }

  /** A query that starts with `v=<vid>` (then '&' or nothing) has a `v` key. */
  lemma FirstFieldNamesV(vid: string, more: string)
    requires vid != "" && '&' !in vid
    requires more == [] || more[0] == '&'
    ensures "v" in QueryKeys("v=" + vid + more)
  {
    var query := "v=" + vid + more;
    var first := "v=" + vid;
    assert '&' !in first;
    if more == [] {
      assert query == first;
      assert Split(query, '&') == [first];
    } else {
      assert query[|first|] == '&' && query[..|first|] == first;
      assert IndexOf(query, '&') == Some(|first|);
      assert Split(query, '&')[0] == first;
    }
    assert HasValueFor(Fields(query)[0], "v");
    KeyPresent(query, "v");
  }

  /** Putting a character in front that `sub` does not start with does not
      change whether `sub` occurs. */
  lemma ContainsAfterOtherChar(c: char, s: string, sub: string)
    requires |sub| > 0 && sub[0] != c
    ensures Contains([c] + s, sub) == Contains(s, sub)
  {
    assert ([c] + s)[1..] == s;
  }

  /** A blank `list=` value is dropped by `parse_qs`, so it does not make a
      playlist, while any non-empty value does. */
  lemma BlankListValueIgnored(netloc: string, path: string)
    requires !Contains(path, "playlist") && !IsItemUrl(netloc, path, {})
    ensures Classify(netloc, path, QueryKeys("list=")) == Unsupported
    ensures Classify(netloc, path, QueryKeys("list=A")) == Playlist
  {
    BlankListHasNoKeys();
    ListValueKeys();
  }

  lemma BlankListHasNoKeys()
    ensures QueryKeys("list=") == {}
  {
    assert Fields("list=") == ["list="];
    assert FieldName("list=") == None;
  }

  lemma ListValueKeys()
    ensures "list" in QueryKeys("list=A") && "v" !in QueryKeys("list=A")
  {
    assert Fields("list=A") == ["list=A"];
    assert HasValueFor(Fields("list=A")[0], "list");
    assert !HasValueFor(Fields("list=A")[0], "v");
    KeyPresent("list=A", "list");
    KeyPresent("list=A", "v");
  }

  /** How `urlparse` splits `https://` + host + path + '?' + query. */
  lemma HttpsQueryParts(url: string, host: string, path: string, query: string)
    requires url == "https://" + host + path + "?" + query
    requires HostText(host) && PlainText(path) && PlainText(query) && query != ""
    requires |path| > 0 && path[0] == '/'
    ensures Urlparse(url) == Success(ParseResult("https", host, path, "", query, ""))
  {
    PlainConcat(path, query);
    HttpsUrlParts(url, host, path, query);
  }

  /** How `urlparse` splits `https://` + host + path. */
  lemma HttpsPathParts(url: string, host: string, path: string)
    requires url == "https://" + host + path
    requires HostText(host) && PlainText(path)
    requires |path| > 0 && path[0] == '/'
    ensures Urlparse(url) == Success(ParseResult("https", host, path, "", "", ""))
  {
    assert path + "" == path;
    HttpsUrlParts(url, host, path, "");
  }

  lemma HttpsUrlParts(url: string, host: string, path: string, query: string)
    requires url == "https://" + host + path + (if query == "" then "" else "?" + query)
    requires HostText(host) && PlainText(path + query)
    requires |path| > 0 && path[0] == '/'
    ensures Urlparse(url) == Success(ParseResult("https", host, path, "", query, ""))
  {
    var rest := path + (if query == "" then "" else "?" + query);
    var tail := host + rest;
    Regroup("https://", host, path, if query == "" then "" else "?" + query);
    UrlHasNoUnsafe(url, host, path, query);
    NoUnsafeUnchanged(url);
    NoLeadingSpaceUnchanged(url);
    HttpsScheme(url, tail);
    HostNetloc(host, rest);
    PathAndQuery(path, query);
    Regroup("//", host, rest, "");
    AssembleParts(url, host, path, query, rest);
  }

  lemma Regroup(a: string, b: string, c: string, d: string)
    ensures a + b + c + d == a + (b + (c + d))
    ensures a + (b + c) == a + b + c
    ensures c + "" == c
  {
  }

  lemma UrlHasNoUnsafe(url: string, host: string, path: string, query: string)
    requires url == "https://" + host + path + (if query == "" then "" else "?" + query)
    requires forall c :: c in host ==> ' ' < c
    requires forall c :: c in path + query ==> ' ' < c
    ensures forall c :: c in url ==> !IsUnsafe(c)
  {
    forall c | c in url ensures !IsUnsafe(c) {
      assert c in "https://" || c in host || c in path + query || c == '?';
    }
  }

  lemma AssembleParts(url: string, host: string, path: string, query: string, rest: string)
    requires LStripC0(url) == url && RemoveUnsafe(url) == url
    requires SplitScheme(url) == ("https", "//" + host + rest)
    requires SplitNetloc("//" + host + rest) == (host, rest)
    requires '[' !in host && ']' !in host
    requires SplitFirst(rest, '#') == (rest, "") && SplitFirst(rest, '?') == (path, query)
    requires ';' !in path
    ensures Urlparse(url) == Success(ParseResult("https", host, path, "", query, ""))
  {
    assert Urlsplit(url) == Success(SplitResult("https", host, path, query, ""));
  }

  lemma HttpsScheme(url: string, tail: string)
    requires url == "https://" + tail
    ensures SplitScheme(url) == ("https", "//" + tail)
  {
    HttpsPrefix(url, tail);
    SchemeAt(url, 5);
    assert Lower("https") == "https";
  }

  lemma HttpsPrefix(url: string, tail: string)
    requires url == "https://" + tail
    ensures url[5] == ':' && ':' !in url[..5] && url[..5] == "https" && url[6..] == "//" + tail
    ensures forall k :: 0 <= k < 5 ==> IsSchemeChar(url[k])
    ensures IsAsciiLetter(url[0])
  {
    assert url[..5] == "https";
  }

  /** A valid scheme of length `i` followed by ':' is split off and lower-cased. */
  lemma SchemeAt(url: string, i: nat)
    requires 0 < i < |url| && url[i] == ':' && ':' !in url[..i]
    requires IsAsciiLetter(url[0]) && forall k :: 0 <= k < i ==> IsSchemeChar(url[k])
    ensures SplitScheme(url) == (Lower(url[..i]), url[i + 1..])
  {
    assert IndexOf(url, ':') == Some(i);
  }

  lemma HostNetloc(host: string, rest: string)
    requires forall c :: c in host ==> !IsNetlocEnd(c)
    requires |rest| > 0 && rest[0] == '/'
    ensures SplitNetloc("//" + host + rest) == (host, rest)
  {
    var s := "//" + host + rest;
    var tail := s[2..];
    assert tail == host + rest;
    assert tail[|host|] == '/';
    assert forall k :: 0 <= k < |host| ==> tail[k] == host[k];
    assert NetlocLength(tail) == |host|;
  }

  lemma PathAndQuery(path: string, query: string)
    requires forall c :: c in path + query ==> c != '?' && c != '#' && c != ';'
    ensures var rest := path + (if query == "" then "" else "?" + query);
      SplitFirst(rest, '#') == (rest, "") && SplitFirst(rest, '?') == (path, query)
    ensures ';' !in path
  {
    assert forall c :: c in path ==> c in path + query;
    assert '?' !in path;
    if query == "" {
      assert '#' !in path;
      assert path + "" == path;
    } else {
      var rest := path + "?" + query;
      assert forall c :: c in rest ==> c in path + query || c == '?';
      assert '#' !in rest;
      assert rest[..|path|] == path;
      assert rest[|path|] == '?';
      assert IndexOf(rest, '?') == Some(|path|);
      assert rest[|path| + 1..] == query;
      assert SplitFirst(rest, '?') == (path, query);
      assert path + ("?" + query) == rest;
    }
  }

  lemma NoLeadingSpaceUnchanged(url: string)
    requires |url| > 0 && url[0] == 'h'
    ensures LStripC0(url) == url
  {
  }

  /** Removing tab, CR and LF leaves a string that has none unchanged. */
  lemma {:induction false} NoUnsafeUnchanged(s: string)
    requires forall c :: c in s ==> !IsUnsafe(c)
    ensures RemoveUnsafe(s) == s
  {
    if |s| > 0 {
      assert s[0] in s;
      assert forall c :: c in s[1..] ==> c in s;
      NoUnsafeUnchanged(s[1..]);
    }
  }

  /** A host with an opening bracket and no closing one makes the classifier
      raise `ValueError` instead of returning a tag. */
  lemma UnbalancedBracketRaises()
    ensures ClassifyUrl("https://[::1/watch?v=x").Failure?
  {
    var host, rest := "[::1", "/watch?v=x";
    var url := "https://[::1/watch?v=x";
    BracketUrlText();
    NoLeadingSpaceUnchanged(url);
    NoUnsafeUnchanged(url);
    HttpsScheme(url, host + rest);
    HostNetloc(host, rest);
    BracketFails(url, host, rest);
  }

  lemma BracketUrlText()
    ensures "https://[::1/watch?v=x" == "https://" + ("[::1" + "/watch?v=x")
    ensures "//" + ("[::1" + "/watch?v=x") == "//" + "[::1" + "/watch?v=x"
    ensures forall c :: c in "https://[::1/watch?v=x" ==> !IsUnsafe(c)
    ensures forall c :: c in "[::1" ==> !IsNetlocEnd(c)
    ensures '[' in "[::1" && ']' !in "[::1"
  {
  }

  lemma BracketFails(url: string, host: string, rest: string)
    requires RemoveUnsafe(LStripC0(url)) == url
    requires SplitScheme(url).1 == "//" + host + rest
    requires SplitNetloc("//" + host + rest) == (host, rest)
    requires '[' in host && ']' !in host
    ensures ClassifyUrl(url).Failure?
  {
  }
}
