/** The command-line entry point `main(argv)`: an optional override of the
    download directory, one classification of the URL, a dry run that only
    reports, and the dispatch to the playlist or the single-item download. */
module Cli {
  import opened Wrappers
  import opened Text
  import opened UrlSplit
  import opened UrlClassifier
  import opened Downloading

  /** The two values `--type` accepts. */
  datatype MediaType = AudioType | VideoType

  /** `--type` when it is not given. */
  const DefaultType: MediaType := AudioType

  /** The string `download_video` and `download_playlist` receive. */
  function TypeName(t: MediaType): (s: string)
    ensures s == "audio" <==> t == AudioType
    ensures s == "video" <==> t == VideoType
  {
    match t
    case AudioType => "audio"
    case VideoType => "video"
  }

  /** The parsed command line: the URL, `--type`, `--out` and `--dry-run`. */
  datatype Args = Args(url: string, mediaType: MediaType, out: Option<string>, dryRun: bool)

  /** `if args.out:` — an empty `--out` is false and changes nothing. */
  predicate Overrides(out: Option<string>) {
    out.Some? && out.value != []
  }

  /** What `main` goes on to do once the URL is classified. */
  datatype Action =
    | DryRunOnly(category: Category)   // report the classification, download nothing
    | GetPlaylist                      // `download_playlist(url, type)`
    | GetVideo(category: Category)     // `download_video(url, type)`

  /** The decision of `main` after the directory override: the `ValueError`
      of `urlparse` escapes, a dry run stops, and only the tag `"playlist"`
      leads to the playlist download. */
  function Decide(url: string, dryRun: bool): (r: Result<Action, UrlError>)
    ensures r.Failure? <==> ClassifyUrl(url).Failure?
    ensures r.Success? ==> (r.value.DryRunOnly? <==> dryRun)
    ensures r.Success? && !dryRun ==> (r.value.GetPlaylist? <==> Tag(ClassifyUrl(url).value) == "playlist")
    ensures r.Success? && r.value.GetVideo? ==> r.value.category == ClassifyUrl(url).value
  {
    var c :- ClassifyUrl(url);
    if dryRun then Success(DryRunOnly(c))
    else if Tag(c) == "playlist" then Success(GetPlaylist)
    else Success(GetVideo(c))
  }

  /** How `main` ends: a return value (`None` when it falls off the end), or
      an exception nothing catches. */
  datatype MainOutcome = Returned(value: Option<int>) | Uncaught(error: MainError)

  /** The two exceptions that leave `main`. */
  datatype MainError =
    | InvalidUrl          // `urlparse` raised `ValueError`
    | PlaylistUnreadable  // reading the playlist's metadata raised

  /** `sys.exit(main())`: `None` exits with 0, an integer with itself, and an
      uncaught exception with 1. */
  function ExitStatus(o: MainOutcome): (code: int)
    ensures o.Uncaught? ==> code == 1
    ensures o == Returned(None) || o == Returned(Some(0)) ==> code == 0
  {
    match o
    case Returned(None) => 0
    case Returned(Some(c)) => c
    case Uncaught(_) => 1
  }

  /** `main` returns only `0` or `None`, so the process exits with status 0
      exactly when no exception escaped `main`. */
  lemma ExitZeroIffNothingEscaped(o: MainOutcome)
    requires o.Returned? ==> o.value == None || o.value == Some(0)
    ensures ExitStatus(o) == 0 <==> o.Returned?
  {
  }

  /** A playlist page goes to the playlist download. */
  lemma PlaylistPageDispatch(id: string)
    requires IdText(id)
    ensures Decide("https://youtube.com/playlist?list=" + id, false) == Success(GetPlaylist)
  {
    var url := "https://youtube.com/playlist?list=" + id;
    PlaylistPageIsPlaylist(id);
    DecideClassified(url, Playlist);
  }

  /** A short link whose id does not mention "playlist" goes to the
      single-item download. */
  lemma ShortLinkDispatch(id: string)
    requires IdText(id)
    requires !Contains(id, "playlist")
    ensures Decide("https://youtu.be/" + id, false) == Success(GetVideo(Video))
  {
    var url := "https://youtu.be/" + id;
    ShortLinkIsVideo(id);
    DecideClassified(url, Video);
  }

  lemma DecideClassified(url: string, c: Category)
    requires ClassifyUrl(url) == Success(c)
    ensures Decide(url, false) == Success(if c == Playlist then GetPlaylist else GetVideo(c))
  {
  }

  /** `main(argv)` against the downloader's module state `d`. `outDir` stands
      for `abspath(expanduser(out))`, `env` for what the world does during a
      single-item download, and `playlist` for the playlist's metadata
      (`None` when reading it raises). */
  method RunMain(d: Downloader, args: Args, outDir: string, env: Item, playlist: Option<PlaylistInfo>)
    returns (outcome: MainOutcome)
    modifies d
    ensures var path0 := if Overrides(args.out) then outDir else old(d.downloadPath);
      var dirs0 := if Overrides(args.out) then old(d.dirs) + {outDir} else old(d.dirs);
      var log0 := if Overrides(args.out) then old(d.log) + [MakeDirs(outDir)] else old(d.log);
      match Decide(args.url, args.dryRun)
      case Failure(_) =>
        outcome == Uncaught(InvalidUrl) && d.downloadPath == path0 && d.dirs == dirs0 && d.log == log0
      case Success(DryRunOnly(_)) =>
        outcome == Returned(Some(0)) && d.downloadPath == path0 && d.dirs == dirs0 && d.log == log0
      case Success(GetVideo(_)) =>
        var item := ItemRun(args.url, TypeName(args.mediaType), path0, dirs0, env, d.ytDlpAvailable, d.ffmpegAvailable);
        && outcome == Returned(None)
        && d.downloadPath == path0
        && d.dirs == dirs0 + {path0}
        && d.log == log0 + item.effects
      case Success(GetPlaylist) =>
        if playlist.None? then
          outcome == Uncaught(PlaylistUnreadable) && d.downloadPath == path0 && d.dirs == dirs0 && d.log == log0
        else
          var newPath := path0 + "/" + playlist.value.title;
          var known := dirs0 + {path0, newPath};
          var run := PlaylistRun(playlist.value.members, TypeName(args.mediaType), newPath, known,
                                 d.ytDlpAvailable, d.ffmpegAvailable);
          && outcome == Returned(None)
          && d.downloadPath == newPath
          && d.dirs == known
          && d.log == log0 + EnsureDir(path0, dirs0) + EnsureDir(newPath, dirs0 + {path0}) + run.effects
  {
    ApplyOut(d, args.out, outDir);
    outcome := Dispatch(d, Decide(args.url, args.dryRun), args, env, playlist);
  }

  /** `if args.out:` — the module's download directory becomes `outDir`,
      created first. */
  method ApplyOut(d: Downloader, out: Option<string>, outDir: string)
    modifies d
    ensures d.downloadPath == if Overrides(out) then outDir else old(d.downloadPath)
    ensures d.dirs == if Overrides(out) then old(d.dirs) + {outDir} else old(d.dirs)
    ensures d.log == if Overrides(out) then old(d.log) + [MakeDirs(outDir)] else old(d.log)
  {
    if Overrides(out) {
      d.dirs := d.dirs + {outDir};
      d.log := d.log + [MakeDirs(outDir)];
      d.downloadPath := outDir;
    }
  }

  /** The rest of `main` once the directory is settled and the URL
      classified (`decision`): stop on an invalid URL or a dry run, or
      download. */
  method Dispatch(d: Downloader, decision: Result<Action, UrlError>, args: Args, env: Item,
                  playlist: Option<PlaylistInfo>)
    returns (outcome: MainOutcome)
    modifies d
    ensures var path0 := old(d.downloadPath);
      var dirs0 := old(d.dirs);
      var log0 := old(d.log);
      match decision
      case Failure(_) =>
        outcome == Uncaught(InvalidUrl) && d.downloadPath == path0 && d.dirs == dirs0 && d.log == log0
      case Success(DryRunOnly(_)) =>
        outcome == Returned(Some(0)) && d.downloadPath == path0 && d.dirs == dirs0 && d.log == log0
      case Success(GetVideo(_)) =>
        var item := ItemRun(args.url, TypeName(args.mediaType), path0, dirs0, env, d.ytDlpAvailable, d.ffmpegAvailable);
        && outcome == Returned(None)
        && d.downloadPath == path0
        && d.dirs == dirs0 + {path0}
        && d.log == log0 + item.effects
      case Success(GetPlaylist) =>
        if playlist.None? then
          outcome == Uncaught(PlaylistUnreadable) && d.downloadPath == path0 && d.dirs == dirs0 && d.log == log0
        else
          var newPath := path0 + "/" + playlist.value.title;
          var known := dirs0 + {path0, newPath};
          var run := PlaylistRun(playlist.value.members, TypeName(args.mediaType), newPath, known,
                                 d.ytDlpAvailable, d.ffmpegAvailable);
          && outcome == Returned(None)
          && d.downloadPath == newPath
          && d.dirs == known
          && d.log == log0 + EnsureDir(path0, dirs0) + EnsureDir(newPath, dirs0 + {path0}) + run.effects
  {
    match decision
    case Failure(_) =>
      return Uncaught(InvalidUrl);
    case Success(DryRunOnly(_)) =>
      return Returned(Some(0));
    case Success(GetPlaylist) =>
      var reports := d.DownloadPlaylist(TypeName(args.mediaType), playlist);
      if reports.None? {
        return Uncaught(PlaylistUnreadable);
      }
      return Returned(None);
    case Success(GetVideo(_)) =>
      var report := d.DownloadVideo(args.url, TypeName(args.mediaType), env);
      return Returned(None);
  }
}
