# YTDownloader core, modelled in Dafny

This project models the core of a small command-line tool that downloads YouTube videos, audio tracks and playlists. The core has three parts:

- **URL classification.** `classify_youtube_url` splits a URL the way Python's `urlparse` does and looks at its path, its query keys (as `parse_qs` yields them) and its host. From these it returns one of four tags: playlist, song (YouTube Music), video, or unsupported. The first matching rule wins.
- **The downloader.** It includes:
  - `sanitize_filename`, which replaces runs of illegal characters, strips white space and cuts the name to a maximum length;
  - `check_path_exists`;
  - `merge_video_audio`, the ffmpeg command;
  - `download_video`, which has a bounded retry of the primary provider with pauses, a fallback to a secondary downloader with an option dictionary, a choice of streams, a merge plan with file names, clean-up, and an exception boundary that turns every error into a report;
  - `download_playlist`, which moves the download directory into a sub-directory named after the playlist and downloads each member in order.
- **The entry point.** `main` applies an optional output-directory override, classifies the URL once, stops after a dry run, and otherwise dispatches to the playlist download or the single-item download.

The world outside is a parameter:

- What the primary provider does on each attempt (`Attempt`).
- The stream catalogue, which saves raise, ffmpeg's exit code, which files cannot be removed, and whether the fallback raises (`Item`).
- The playlist's metadata (`PlaylistInfo`).
- Whether ffmpeg and the fallback library are installed.

The downloader's module state is a class, `Downloading.Downloader`, with these fields:

- `downloadPath`, the module-global `DOWNLOAD_PATH`;
- `dirs`, the directories that exist;
- `log`, an append-only list of every outside action. The actions are a provider call, a pause, a directory creation, the fallback run, a stream save, a process run and a file removal.

Each method is proved against a pure function of the world and the old state (`ItemRun`, `PlaylistRun`, `PlanRun`, …). The properties are proved as lemmas about those functions.

Files:

- `wrappers.dfy`: `Option` and `Result`.
- `text.dfy`: Python's `in`, `find`, `rfind`, `split` and `join` on strings.
- `url_split.dfy`: the steps of `urlsplit`/`urlparse`/`parse_qs` the classifier depends on.
- `url_classifier.dfy`: the classifier itself.
- `sanitize.dfy`: file-name sanitising.
- `streams.dfy`: stream records and the choice of streams.
- `paths.dfy`: `os.path.join` and `os.path.basename`.
- `downloader.dfy`: the downloader.
- `cli.dfy`: the entry point.

Where the code does something other than what it evidently intends, the model follows the code:

- **Unbalanced brackets raise.** The classifier's last branch evidently means a URL it cannot place to come out as unsupported. But `urlparse` raises `ValueError` when the host has an unbalanced `[` or `]`, and neither the classifier nor `main` catches it (`UrlClassifier.UnbalancedBracketRaises`).
- **Playlist metadata errors escape.** Reading a playlist's metadata sits outside any `try` in `download_playlist`, so a failure there leaves `main` as an uncaught exception (`Cli.RunMain`, outcome `Uncaught(PlaylistUnreadable)`).
- **A progressive stream can still be merged.** When no adaptive video exists, the best progressive stream is merged with the best audio stream whenever their tags differ. It is not saved on its own.

## Model

| member | source | states |
|---|---|---|
| Text.ContainsIff | youtubePlaylist_checker.py:8-11 | Python's `sub in s` holds exactly when `sub` occurs at some index of `s` |
| Text.IndexOf | youtubePlaylist_checker.py:5 | the first index of a character, or `None` exactly when it is absent; nothing before the index is that character |
| Text.LastIndexOf | downloader.py:41 | the last index of a character, or `None` exactly when it is absent; nothing after the index is that character |
| Text.Split | youtubePlaylist_checker.py:5 | `s.split(sep)` has at least one part and no part holds the separator |
| Text.SplitJoin | youtubePlaylist_checker.py:5 | joining the parts of a split with the separator gives back the input |
| UrlSplit.LStripC0 | youtubePlaylist_checker.py:4 | only leading C0 controls and spaces are dropped, and the result does not start with one |
| UrlSplit.RemoveUnsafe | youtubePlaylist_checker.py:4 | the result holds exactly the input's characters other than tab, CR and LF |
| UrlSplit.RemoveUnsafeSpec | youtubePlaylist_checker.py:4 | one character is kept exactly when it is not tab, CR or LF, and the removal distributes over concatenation, so the result is the input with those characters deleted and the rest in order |
| UrlSplit.SplitScheme | youtubePlaylist_checker.py:4 | a non-empty scheme ends at a ':' of the URL and the rest follows it; with no scheme the URL is unchanged |
| UrlSplit.SplitSchemeSpec | youtubePlaylist_checker.py:4 | a scheme is taken exactly when the URL starts with an ASCII letter and only scheme characters come before its first ':', which is not at position 0; the scheme is then that prefix lowercased and the rest is what follows the ':' |
| UrlSplit.NetlocLength | youtubePlaylist_checker.py:4 | the network location stops at the first '/', '?' or '#' |
| UrlSplit.SplitFirst | youtubePlaylist_checker.py:4 | splitting at the first occurrence of a character reassembles to the input and the head does not hold it |
| UrlSplit.SplitParamsSpec | youtubePlaylist_checker.py:4 | `_splitparams` splits at the first ';' after the last '/' (or after the start when there is no '/'); it leaves the path whole exactly when a '/' exists and no ';' follows the last one; otherwise path and params reassemble around that ';' and the params hold no '/' |
| UrlSplit.SplitNetloc | youtubePlaylist_checker.py:4 | after "//" the URL is host + rest, the host holds no delimiter, and the rest starts at one |
| UrlSplit.Urlsplit | youtubePlaylist_checker.py:4 | a successful split has balanced brackets in the host, no '?' or '#' in the path and no '#' in the query |
| UrlSplit.UrlsplitSpec | youtubePlaylist_checker.py:4 | `urlsplit` raises exactly when the host has a '[' without a ']' or a ']' without a '['. Otherwise the scheme is `SplitScheme`'s, and `//host`, path, `?query` and `#fragment` put back together give the cleaned URL after its scheme, with `//` present exactly when that text starts with it. The host stops at the first '/', '?' or '#', so a path after a host starts with '/' |
| UrlSplit.CutsRestUnique | youtubePlaylist_checker.py:4 | those promises fix the split: any host, path, query and fragment that meet them are the ones `urlsplit` cuts |
| UrlSplit.Urlparse | youtubePlaylist_checker.py:4 | `urlparse` fails exactly when `urlsplit` does and keeps its scheme, host, query and fragment; the path is split into path and `;params` by `SplitParams` exactly when the scheme uses params and the path holds a ';', and is otherwise unchanged with empty params |
| UrlSplit.FieldName | youtubePlaylist_checker.py:5 | a field yields a name only when it has an '=' and a non-empty value after it |
| UrlSplit.PlusToSpace | youtubePlaylist_checker.py:5 | every '+' of a field name becomes a space and nothing else changes |
| UrlSplit.KeyPresent | youtubePlaylist_checker.py:5 | a plain key is among `parse_qs`'s keys exactly when some field reads `key=` followed by a non-empty value |
| UrlSplit.FieldNameIs | youtubePlaylist_checker.py:5 | one field names a plain key exactly when it reads `key=value` with a non-empty value |
| UrlClassifier.Tag | youtubePlaylist_checker.py:9-15 | only the playlist category is tagged "playlist" |
| UrlClassifier.ClassifyUrl | youtubePlaylist_checker.py:3-5 | classification raises exactly when `urlsplit` raises |
| UrlClassifier.PlaylistPathWins | youtubePlaylist_checker.py:8-9 | "playlist" in the path makes a playlist, whatever the host and keys |
| UrlClassifier.ListWithoutItemIsPlaylist | youtubePlaylist_checker.py:8-9 | a `list` key without a `v` key makes a playlist |
| UrlClassifier.ClassifyCases | youtubePlaylist_checker.py:8-15 | the exact condition for each of the four tags, in first-match order |
| UrlClassifier.ListAndItemIsNotPlaylist | youtubePlaylist_checker.py:8-13 | a `v` key beside a `list` key gives a song or a video, unless the path says "playlist" |
| UrlClassifier.ShortLinkIsItem | youtubePlaylist_checker.py:10-13 | the short-link host gives a song on the music host and a video otherwise, once the playlist rule failed |
| UrlClassifier.PlaylistPageIsPlaylist | youtubePlaylist_checker.py:3-9 | `https://youtube.com/playlist?list=<id>` is classified as a playlist |
| UrlClassifier.ShortLinkIsVideo | youtubePlaylist_checker.py:3-13 | `https://youtu.be/<id>` is a video when the id does not mention "playlist" |
| UrlClassifier.WatchInPlaylistIsVideo | youtubePlaylist_checker.py:3-13 | a watch page with both `v` and `list` keys is a video |
| UrlClassifier.MusicWatchIsSong | youtubePlaylist_checker.py:3-12 | a watch page on `music.youtube.com` is a song |
| UrlClassifier.FirstFieldNamesV | youtubePlaylist_checker.py:5 | a query starting `v=<id>` has a `v` key |
| UrlClassifier.BlankListValueIgnored | youtubePlaylist_checker.py:5-15 | `?list=` with an empty value yields no key and no playlist, while `?list=A` makes a playlist |
| UrlClassifier.UnbalancedBracketRaises | youtubePlaylist_checker.py:4 | a host with `[` and no `]` makes classification raise |
| Sanitizer.SkipRunSpec | downloader.py:38 | only a leading run of illegal characters is dropped, and the rest starts with a legal one |
| Sanitizer.Substitute | downloader.py:38 | the substitution leaves no illegal character and never lengthens the name |
| Sanitizer.SubstituteIdentity | downloader.py:38 | a name without illegal characters is unchanged |
| Sanitizer.SubstituteAfterLegal | downloader.py:38 | a legal character splits the name into halves substituted independently |
| Sanitizer.SubstituteRun | downloader.py:38 | a whole run of illegal characters followed by a legal character or by the end of the name becomes one underscore, and the rest is substituted on its own |
| Sanitizer.SubstituteKeepsOthers | downloader.py:38 | every character that is neither illegal nor an underscore survives, in order |
| Sanitizer.StripStartSpec | downloader.py:39 | only leading white space (Python's `isspace`) is removed |
| Sanitizer.StripEndSpec | downloader.py:39 | only trailing white space is removed |
| Sanitizer.StripSpec | downloader.py:39 | the result is a middle slice of the input with only white space around it, and it neither starts nor ends with white space |
| Sanitizer.PyPrefix | downloader.py:41 | `s[:k]` is a prefix of length `k`, or of `len(s)+k` for negative `k`, clamped to the string |
| Sanitizer.BeforeLastBlank | downloader.py:41 | `rsplit(' ', 1)[0]` is the text before the last blank, or all of it when there is none |
| Sanitizer.SanitizeFilename | downloader.py:35-42 | the result has no illegal character, is a prefix of the cleaned name, is unchanged when that fits, and otherwise is at most `max_len` long and cut as `[:max_len].rsplit(' ', 1)[0]` |
| Sanitizer.Cut | downloader.py:40-41 | an over-long name is cut to a prefix no longer than `max_len` that keeps legality |
| Sanitizer.SanitizeFits | downloader.py:35-42 | a clean, stripped name that fits comes back unchanged |
| Sanitizer.SanitizeCutsAtBlank | downloader.py:40-41 | with a blank among the first `max_len` characters, the cut ends just before the last such blank |
| Sanitizer.SanitizeIdempotent | downloader.py:35-42 | sanitizing a sanitized name changes nothing when it fits |
| Streams.Select | downloader.py:142-143 | a filter keeps exactly the catalogue's streams that match the query |
| Streams.Best | downloader.py:142-154 | `order_by(...).desc().first()` is a stream of the pool with no higher figure in it |
| Streams.BestIsLastOfEqual | downloader.py:142-154 | of streams with equal highest figures the last one in the pool is taken: every later stream has a strictly lower figure, as a stable ascending sort reversed by `desc()` gives |
| Streams.BestOf | downloader.py:146 | there is no best stream exactly when the query selects nothing, and otherwise it is a best one |
| Streams.BestOfIsLastOfEqual | downloader.py:142-154 | the chosen stream is a catalogue entry above every later entry the query selects, so ties go to the last selected stream in catalogue order |
| Streams.PlanVideoSpec | downloader.py:139-179 | the video branch merges the best adaptive (else best progressive) mp4 video with the best audio when their tags differ, under the source's names; it saves one file when it has only a video candidate, and raises with no video candidate |
| Streams.VideoFilesAreMp4 | downloader.py:142-177 | both video queries ask for the mp4 file extension, so the chosen video's subtype is `mp4` and it is saved as `<title>_video.mp4` or `<title>.mp4` |
| Streams.PlanAudioSpec | downloader.py:181-190 | the audio branch saves the best audio stream as `<title>.<subtype>` and raises exactly when there is no audio stream |
| Streams.AdaptivePreferred | downloader.py:148-154 | the chosen video is adaptive exactly when an adaptive mp4 video exists |
| Streams.MergeIffBoth | downloader.py:156 | with distinct tags, the video branch merges exactly when it has a video candidate and an audio stream |
| Streams.MergeNamesDistinct | downloader.py:158-160 | the video, audio and merged names differ |
| Paths.BasenameSpec | downloader.py:162 | the base name holds no separator and is a suffix of the path |
| Paths.BasenameOfJoin | downloader.py:162 | the base name of a directory joined with a plain name is that name |
| Paths.JoinInjective | downloader.py:158-160 | different plain names give different paths in one directory |
| Downloading.FirstLoaded | downloader.py:89-110 | the loop leaves no object exactly when every attempt raised |
| Downloading.RetryCounts | downloader.py:89-108 | the loop calls the provider one to three times and pauses once fewer |
| Downloading.RetryStep | downloader.py:89-108 | one attempt adds the provider call and, after a failure that is not the last, one pause; the effects end after a success and the remaining attempts follow a failure |
| Downloading.RetryStopsAtFirstSuccess | downloader.py:89-100 | after `k` failures and a success the loop called the provider `k+1` times and keeps that attempt's object |
| Downloading.FallbackOptions | downloader.py:119-130 | the option dictionary holds the base options, then the audio options for `'audio'` and the video options for every other type |
| Downloading.FallbackRun | downloader.py:116-134 | with no fallback installed nothing runs and the item raises; otherwise one run, which raises exactly when the fallback does |
| Downloading.MergeCommand | downloader.py:53-56 | the ffmpeg command carries the video, audio and output paths in their places |
| Downloading.MergeCommandRoundTrip | downloader.py:53-56 | reading the three paths back from the command gives the paths it was built from |
| Downloading.ParsedIsMergeCommand | downloader.py:53-56 | any command read as a merge is the merge command of its three paths |
| Downloading.MergeRun | downloader.py:49-60 | the merge raises exactly when ffmpeg is missing or exits non-zero, with the matching error |
| Downloading.SaveRun | downloader.py:162-164 | a save raises exactly when that stream's download does |
| Downloading.RemoveRun | downloader.py:168-172 | removing the intermediate files never raises |
| Downloading.FallbackIffPrimaryUnusable | downloader.py:112-134 | the fallback is reported done only when the primary left no usable object; without a usable object and with a fallback installed, the retries and the directory check are followed by exactly one fallback run as the last action, reported done exactly when it does not raise; without a fallback the item fails as unavailable; with no usable object nothing is saved or merged; with a usable object the fallback never runs |
| Downloading.UsablePrimaryItem | downloader.py:112-194 | after a usable primary no fallback runs |
| Downloading.UnusablePrimaryItem | downloader.py:112-134 | without a usable primary the item's effects are the retries, the directory check and, when installed, one fallback run; its report is unavailable, fallback failed or fallback done accordingly; nothing is saved or merged |
| Downloading.UsablePrimaryNoFallback | downloader.py:136-194 | after a usable primary the item only saves, runs ffmpeg or removes files |
| Downloading.UnreadableStreamsFailItem | downloader.py:138-186 | when reading the stream catalogue raises for a video or audio item, the item fails with that error right after the retries and the directory check, and nothing is saved |
| Downloading.RetryOnlyOpensAndSleeps | downloader.py:89-110 | the retry loop only calls the provider and pauses |
| Downloading.MergePathsDistinct | downloader.py:158-160 | the three joined merge paths of a sanitized title differ |
| Downloading.MergeSteps | downloader.py:156-172 | ffmpeg runs exactly when both saves succeeded and ffmpeg is present, after the two saves and with the exact command; files are removed exactly when the merge succeeded |
| Downloading.NamesArePlain | downloader.py:158-160 | names built from a sanitized title are non-empty and not absolute |
| Downloading.PlaylistRun | downloader.py:70-72 | a playlist run gives one report per member |
| Downloading.PlaylistReports | downloader.py:70-72 | the k-th report is the k-th member's `download_video` report |
| Downloading.PlaylistRunStep | downloader.py:70-72 | one more member appends exactly that member's run |
| Downloading.QuietCounts | downloader.py:112-197 | a stretch with no provider call and no pause counts zero of each |
| Downloading.PlanRunQuiet | downloader.py:139-190 | carrying out a plan never calls the provider or pauses |
| Downloading.ItemCounts | downloader.py:75-197 | one item calls the provider one to three times and pauses once fewer, whatever else happens |
| Downloading.PlaylistCounts | downloader.py:62-72 | `n` members call the provider between `n` and `3n` times, with `n` fewer pauses |
| Downloading.Downloader.constructor | downloader.py:27 | the download directory starts as `temp_downloads` in the home directory with an empty log |
| Downloading.Downloader.MakeDirsIfMissing | downloader.py:30-31 | the directory exists afterwards, and it is created only when it was missing |
| Downloading.Downloader.CheckPathExists | downloader.py:29-32 | returns the download directory and ensures it exists |
| Downloading.Downloader.ConnectPrimary | downloader.py:88-110 | the loop leaves `FirstLoaded`'s object and logs exactly `RetryFrom`'s calls and pauses |
| Downloading.Downloader.TryAttempt | downloader.py:90-108 | one pass of the loop body logs the provider call and, after a failure that is not the last, the pause; it yields the attempt's object after a success and nothing after a failure |
| Downloading.Downloader.SaveStream | downloader.py:162-164 | logs the save under the base name and raises as `SaveRun` does |
| Downloading.Downloader.MergeVideoAudio | downloader.py:49-60 | logs and raises as `MergeRun` does |
| Downloading.Downloader.RemoveIntermediates | downloader.py:168-172 | logs the removals as `RemoveRun` does; an error stops the removals silently |
| Downloading.Downloader.ExecutePlan | downloader.py:156-190 | carries out the plan as `PlanRun`: effects in order, stopping at the first exception |
| Downloading.Downloader.Fallback | downloader.py:116-134 | builds the option dictionary of `FallbackOptions` step by step and runs the fallback as `FallbackRun` |
| Downloading.Downloader.DownloadPrimary | downloader.py:138-194 | sanitizes the title, plans for the type and carries it out as `PrimaryTail` |
| Downloading.Downloader.TryDownloadVideo | downloader.py:76-194 | the body of the `try` logs exactly `ItemRun`'s effects and ensures the download directory exists |
| Downloading.Downloader.Continue | downloader.py:112-194 | what follows the retry loop matches `AfterRetry` |
| Downloading.Downloader.DownloadFallback | downloader.py:115-134 | the fallback branch matches `FallbackTail` |
| Downloading.Downloader.DownloadVideo | downloader.py:75-197 | `download_video` never raises: it logs `ItemRun`'s effects and returns its report, with every exception turned into `Failed` |
| Downloading.Downloader.DownloadPlaylist | downloader.py:62-72 | a metadata failure escapes with nothing done; otherwise it ensures the old and the new directory, moves into `<path>/<title>`, and downloads every member as `PlaylistRun` |
| Downloading.Downloader.DownloadNext | downloader.py:70-72 | one more member is one `download_video` call in the playlist directory, extending the log and the reports to `PlaylistRun` of one more member |
| Downloading.Downloader.DownloadMembers | downloader.py:70-72 | the loop logs exactly `PlaylistRun`'s effects and returns its reports, in member order |
| Cli.TypeName | main.py:16 | the two `--type` choices map to the strings "audio" and "video" |
| Cli.Decide | main.py:35-51 | `main` raises exactly when classification raises; a dry run stops; only the "playlist" tag leads to the playlist download |
| Cli.ExitStatus | main.py:54-55 | an uncaught exception exits with 1, and `None` or `0` with 0 |
| Cli.ExitZeroIffNothingEscaped | main.py:38-55 | since `main` returns only `0` or `None`, the process exits with 0 exactly when no exception escaped |
| Cli.PlaylistPageDispatch | main.py:35-48 | a playlist page goes to the playlist download |
| Cli.ShortLinkDispatch | main.py:35-51 | a short link goes to the single-item download |
| Cli.RunMain | main.py:8-51 | applies a non-empty `--out` override (creating the directory), then raises, dry-runs or dispatches as `Decide` says, with the downloader's state as the called function promises |
| Cli.ApplyOut | main.py:27-37 | a non-empty `--out` creates the directory and becomes the download directory; an empty or missing one changes nothing |
| Cli.Dispatch | main.py:39-51 | given the classification's decision: an invalid URL escapes and a dry run returns 0, both changing nothing; a playlist or single item is downloaded with exactly the state change the called function promises |
| Cli.DecideClassified | main.py:39-51 | without a dry run, the "playlist" category leads to the playlist download and every other category to the single-item download |

## Left out

- Network access, pytube and yt-dlp themselves: what they do is a parameter (`Attempt`, `Item`, `PlaylistInfo`).
- Printing, progress and completion callbacks, and `traceback.print_exc`: output only.
- The user-agent header update at import time (downloader.py:14-24): a side effect on a third-party module.
- argparse: `Cli.Args` is the parsed command line. Argument errors, `--help` and the choice check are argparse's own behaviour.
- `os.path.abspath(os.path.expanduser(out))`: the normalised directory is a parameter of `Cli.RunMain`.
- Paths.Join and Paths.Basename follow POSIX `os.path` with '/' as the only separator. Windows paths, drive letters and backslash separators are not modelled, and downloader.py:67 joins with '/' itself.
- `os.path.expanduser('~')`: the home directory is a parameter of the constructor.
- Downloading.AttemptAt: a provider with fewer listed outcomes than attempts raises on the rest, so that any list of outcomes describes a run.
- UrlSplit.FieldName: query names are not percent-decoded; only `+` becomes a space. So `https://youtube.com/?%6Cist=A` has a `list` key in Python and is a playlist, but the model finds no key and classifies it as unsupported.
- UrlSplit.Urlsplit: the bracketed-host check of Python 3.12 is not modelled, only the balance of `[` and `]`. So `https://[abc]/watch?v=x` raises `ValueError` in Python, but the model classifies it as a video, and `Cli.Decide` and `Cli.RunMain` go on to download it. The NFKC check of non-ASCII hosts is not modelled either; it can only make such a host raise.
- Downloading.Item: reading `yt.streams` raises either on the first read of an item or never (`streamsRaise`). A read that succeeds and a later read (downloader.py:153) that raises is not modelled.
- Downloading.Downloader.MakeDirsIfMissing: `os.makedirs` always succeeds. A failure at downloader.py:31 or 69 or main.py:28, such as a missing permission or a file in the way, is not modelled. Inside `download_video` such a failure would become a failed report; elsewhere it would escape `main`.
- Downloading.Downloader.DownloadPlaylist: the member URLs are a list given up front. In the source `playlist.video_urls` is read lazily and can raise at any read, including the first. The first read comes after `DOWNLOAD_PATH` has changed and the directory has been created (downloader.py:67-70). That exception is not modelled.
- The file paths a stream save writes to are the directory and base name the call receives. File contents and the files ffmpeg writes are not modelled.
- `yt.title` is read once: the model does not capture a provider whose title changes between reads.
- `ffmpeg_available` (downloader.py:45-46) is a flag fixed for the downloader's lifetime.
