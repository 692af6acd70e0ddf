/** `download_video` and `download_playlist`: a bounded retry of the primary
    provider, a fallback to the secondary downloader, the stream plan and its
    execution, and the exception boundary around each item. The module-global
    download directory is a field of a `Downloader` object; every outside
    action (provider call, sleep, directory creation, file save, process run,
    file removal) is appended to its log. */
module Downloading {
  import opened Wrappers
  import opened Sanitizer
  import opened Streams
  import opened Paths

  /** The outcome of constructing the primary provider's object and reading
      its title: an exception, or the title (possibly `None`). */
  datatype Attempt = Raised | Loaded(title: Option<string>)

  /** The primary provider's object (`yt`) once its title has been read. */
  datatype Handle = Handle(title: Option<string>)

  const MaxAttempts: nat := 3
  const RetryDelay: int := 2

  /** The outcome of the attempt with index `i`; a provider that has no
      further outcome listed raises. */
  function AttemptAt(attempts: seq<Attempt>, i: nat): Attempt {
    if i < |attempts| then attempts[i] else Raised
  }

  /** The values of the fallback downloader's option dictionary. */
  datatype OptValue = Str(s: string) | Flag(b: bool) | PostProcessors(ps: seq<map<string, string>>)

  /** The actions the downloader takes on the world outside. */
  datatype Effect =
    | OpenPrimary(url: string)
    | Sleep(seconds: int)
    | MakeDirs(path: string)
    | RunFallback(url: string, options: map<string, OptValue>)
    | Save(itag: int, dir: string, file: string)
    | RunProcess(argv: seq<string>)
    | Remove(path: string)

  /** The exceptions raised inside one item's download. */
  datatype Failure =
    | PrimaryUnavailable        // no title after the retries and no fallback installed
    | FallbackFailed            // the fallback downloader raised
    | StreamsUnreadable         // reading `yt.streams` raised
    | NoSuitableStream(reason: NoStreamReason)
    | SaveFailed(itag: int)     // a stream's download raised
    | FfmpegMissing
    | FfmpegFailed(exitCode: int)

  /** What the world does during one item: the primary provider's outcomes,
      whether reading the stream catalogue raises, the catalogue, which
      stream saves raise, ffmpeg's exit code, which files cannot be removed,
      and whether the fallback raises. */
  datatype Item = Item(
    attempts: seq<Attempt>,
    streamsRaise: bool,
    catalogue: seq<Stream>,
    failingSaves: set<int>,
    ffmpegExit: int,
    undeletable: set<string>,
    fallbackRaises: bool)

  /** The effects of a step and whether it raised. */
  datatype Run = Run(effects: seq<Effect>, result: Result<(), Failure>) {
    /** Sequencing under exceptions: `next` runs only if this step did not raise. */
    function Then(next: Run): (r: Run)
      ensures result.Failure? ==> r == this
      ensures result.Success? ==> r == Run(effects + next.effects, next.result)
    {
      if result.Failure? then this else Run(effects + next.effects, next.result)
    }
  }

  /** How a call of `download_video` ends: it never raises. */
  datatype Report = Completed(title: string) | FallbackDone | Failed(failure: Failure)

  datatype ItemOutcome = ItemOutcome(effects: seq<Effect>, report: Report)

  // ---------------------------------------------------------------------
  // The retry loop

  /** The effects of the retry loop from attempt `i` on: one provider call per
      attempt, a pause after each failed attempt but the last, and no further
      attempt after a success. */
  function RetryFrom(url: string, attempts: seq<Attempt>, i: nat): seq<Effect>
    requires i <= MaxAttempts
    decreases MaxAttempts - i
  {
    if i == MaxAttempts then []
    else if AttemptAt(attempts, i).Loaded? then [OpenPrimary(url)]
    else
      [OpenPrimary(url)] + (if i == MaxAttempts - 1 then [] else [Sleep(RetryDelay)])
      + RetryFrom(url, attempts, i + 1)
  }

  /** The effects of attempt `i` alone: the provider call, then the pause
      when it failed and is not the last. */
  function AttemptEffects(url: string, attempts: seq<Attempt>, i: nat): seq<Effect> {
    [OpenPrimary(url)]
      + (if AttemptAt(attempts, i).Raised? && i != MaxAttempts - 1 then [Sleep(RetryDelay)] else [])
  }

  /** Attempt `i` moves the retry loop's effects from `before` towards `total`:
      they end there after a success, and the remaining attempts follow a
      failure. */
  lemma RetryStep(url: string, attempts: seq<Attempt>, i: nat, before: seq<Effect>, total: seq<Effect>)
    requires i < MaxAttempts
    requires before + RetryFrom(url, attempts, i) == total
    ensures AttemptAt(attempts, i).Loaded? ==> before + AttemptEffects(url, attempts, i) == total
    ensures AttemptAt(attempts, i).Raised? ==>
      before + AttemptEffects(url, attempts, i) + RetryFrom(url, attempts, i + 1) == total
  {
    if AttemptAt(attempts, i).Raised? {
      Concat3(before, AttemptEffects(url, attempts, i), RetryFrom(url, attempts, i + 1));
    }
  }

  /** The object the retry loop leaves in `yt`, from attempt `i` on. */
  function FirstLoaded(attempts: seq<Attempt>, i: nat): (yt: Option<Handle>)
    requires i <= MaxAttempts
    ensures yt.None? <==> forall k :: i <= k < MaxAttempts ==> AttemptAt(attempts, k).Raised?
    decreases MaxAttempts - i
  {
    if i == MaxAttempts then None
    else match AttemptAt(attempts, i)
      case Loaded(title) => Some(Handle(title))
      case Raised => FirstLoaded(attempts, i + 1)
  }

  function Opens(log: seq<Effect>): nat {
    if log == [] then 0 else (if log[0].OpenPrimary? then 1 else 0) + Opens(log[1..])
  }

  function Sleeps(log: seq<Effect>): nat {
    if log == [] then 0 else (if log[0].Sleep? then 1 else 0) + Sleeps(log[1..])
  }

  lemma {:induction false} CountsConcat(a: seq<Effect>, b: seq<Effect>)
    ensures Opens(a + b) == Opens(a) + Opens(b)
    ensures Sleeps(a + b) == Sleeps(a) + Sleeps(b)
    decreases |a|
  {
    if a == [] {
      assert a + b == b;
    } else {
      assert (a + b)[0] == a[0];
      assert (a + b)[1..] == a[1..] + b;
      CountsConcat(a[1..], b);
    }
  }

  /** The loop makes at most three attempts and pauses once fewer than it
      attempts, so never more than twice. */
  lemma {:induction false} RetryCounts(url: string, attempts: seq<Attempt>, i: nat)
    requires i < MaxAttempts
    ensures 1 <= Opens(RetryFrom(url, attempts, i)) <= MaxAttempts - i
    ensures Sleeps(RetryFrom(url, attempts, i)) == Opens(RetryFrom(url, attempts, i)) - 1
    decreases MaxAttempts - i
  {
    var r := RetryFrom(url, attempts, i);
    if AttemptAt(attempts, i).Loaded? {
      assert r == [OpenPrimary(url)];
      assert r[1..] == [];
    } else {
      var pause: seq<Effect> := if i == MaxAttempts - 1 then [] else [Sleep(RetryDelay)];
      var rest := RetryFrom(url, attempts, i + 1);
      assert r == [OpenPrimary(url)] + pause + rest;
      CountsConcat([OpenPrimary(url)] + pause, rest);
      CountsConcat([OpenPrimary(url)], pause);
      assert Opens([OpenPrimary(url)]) == 1 && Sleeps([OpenPrimary(url)]) == 0;
      if i == MaxAttempts - 1 {
        assert rest == [];
      } else {
        assert Opens(pause) == 0 && Sleeps(pause) == 1;
        RetryCounts(url, attempts, i + 1);
      }
    }
  }

  /** The loop stops at the first attempt that reads a title: with `k` failed
      attempts before it, it calls the provider `k + 1` times and keeps that
      attempt's object. */
  lemma {:induction false} RetryStopsAtFirstSuccess(url: string, attempts: seq<Attempt>, i: nat, k: nat)
    requires i <= k < MaxAttempts
    requires AttemptAt(attempts, k).Loaded?
    requires forall j :: i <= j < k ==> AttemptAt(attempts, j).Raised?
    ensures Opens(RetryFrom(url, attempts, i)) == k - i + 1
    ensures FirstLoaded(attempts, i) == Some(Handle(AttemptAt(attempts, k).title))
    decreases k - i
  {
    var r := RetryFrom(url, attempts, i);
    if i == k {
      assert r == [OpenPrimary(url)];
      assert r[1..] == [];
    } else {
      var pause: seq<Effect> := if i == MaxAttempts - 1 then [] else [Sleep(RetryDelay)];
      var rest := RetryFrom(url, attempts, i + 1);
      assert r == [OpenPrimary(url)] + pause + rest;
      CountsConcat([OpenPrimary(url)] + pause, rest);
      CountsConcat([OpenPrimary(url)], pause);
      assert Opens([OpenPrimary(url)]) == 1;
      assert Opens(pause) == 0;
      RetryStopsAtFirstSuccess(url, attempts, i + 1, k);
    }
  }

  // ---------------------------------------------------------------------
  // The fallback

  /** The key of the template naming the fallback's output files. */
  const TitleTemplate := "%(title)s.%(ext)s"

  /** The post-processor that turns the fallback's audio into 192 kbit/s mp3. */
  const Mp3Extractor: map<string, string> :=
    map["key" := "FFmpegExtractAudio", "preferredcodec" := "mp3", "preferredquality" := "192"]

  /** The option dictionary handed to the fallback downloader: the same base
      options for every type, then audio options when the type is `'audio'`
      and video options for any other type. */
  function FallbackOptions(path: string, downloadType: string): (opts: map<string, OptValue>)
    ensures "outtmpl" in opts && opts["outtmpl"] == Str(Join(path, TitleTemplate))
    ensures "quiet" in opts && opts["quiet"] == Flag(false)
    ensures "no_warnings" in opts && opts["no_warnings"] == Flag(true)
    ensures "format" in opts
    ensures downloadType == "audio" <==> opts["format"] == Str("bestaudio/best")
    ensures downloadType != "audio" <==> opts["format"] == Str("bestvideo+bestaudio/best")
    ensures "postprocessors" in opts <==> downloadType == "audio"
    ensures "merge_output_format" in opts <==> downloadType != "audio"
    ensures downloadType == "audio" ==> opts["postprocessors"] == PostProcessors([Mp3Extractor])
    ensures downloadType != "audio" ==> opts["merge_output_format"] == Str("mp4")
  {
    var base := map["outtmpl" := Str(Join(path, TitleTemplate)), "quiet" := Flag(false), "no_warnings" := Flag(true)];
    if downloadType == "audio" then
      base["format" := Str("bestaudio/best")]["postprocessors" := PostProcessors([Mp3Extractor])]
    else
      base["format" := Str("bestvideo+bestaudio/best")]["merge_output_format" := Str("mp4")]
  }

  /** The fallback branch: raise when no fallback is installed, otherwise run
      it once and return. */
  function FallbackRun(url: string, path: string, downloadType: string, installed: bool, raises: bool): (r: Run)
    ensures !installed ==> r == Run([], Failure(PrimaryUnavailable))
    ensures installed ==> r.effects == [RunFallback(url, FallbackOptions(path, downloadType))]
    ensures installed ==> (r.result.Failure? <==> raises)
  {
    if !installed then Run([], Failure(PrimaryUnavailable))
    else Run([RunFallback(url, FallbackOptions(path, downloadType))],
             if raises then Failure(FallbackFailed) else Success(()))
  }

  // ---------------------------------------------------------------------
  // The merge

  /** The ffmpeg command line that copies a video and an audio file into one. */
  function MergeCommand(video: string, audio: string, out: string): (argv: seq<string>)
    ensures |argv| == 9 && argv[0] == "ffmpeg"
    ensures argv[3] == video && argv[5] == audio && argv[8] == out
  {
    ["ffmpeg", "-y", "-i", video, "-i", audio, "-c", "copy", out]
  }

  /** Reads a merge command back into its three paths. */
  function ParseMergeCommand(argv: seq<string>): Option<(string, string, string)> {
    if |argv| == 9 && argv[0] == "ffmpeg" && argv[1] == "-y" && argv[2] == "-i" && argv[4] == "-i"
       && argv[6] == "-c" && argv[7] == "copy"
    then Some((argv[3], argv[5], argv[8]))
    else None
  }

  /** The command determines its three paths and nothing else. */
  lemma MergeCommandRoundTrip(video: string, audio: string, out: string)
    ensures ParseMergeCommand(MergeCommand(video, audio, out)) == Some((video, audio, out))
  {
  }

  lemma ParsedIsMergeCommand(argv: seq<string>)
    requires ParseMergeCommand(argv).Some?
    ensures var (v, a, o) := ParseMergeCommand(argv).value; argv == MergeCommand(v, a, o)
  {
  }

  /** `merge_video_audio`: raise when ffmpeg is missing; otherwise run the
      command and raise when it exits with a non-zero code. */
  function MergeRun(video: string, audio: string, out: string, ffmpeg: bool, exitCode: int): (r: Run)
    ensures r.result.Failure? <==> !ffmpeg || exitCode != 0
    ensures !ffmpeg ==> r.result == Failure(FfmpegMissing)
    ensures ffmpeg && exitCode != 0 ==> r.result == Failure(FfmpegFailed(exitCode))
  {
    if !ffmpeg then Run([], Failure(FfmpegMissing))
    else Run([RunProcess(MergeCommand(video, audio, out))],
             if exitCode != 0 then Failure(FfmpegFailed(exitCode)) else Success(()))
  }

  // ---------------------------------------------------------------------
  // Executing a plan

  /** `stream.download(output_path=path, filename=basename(file))`. */
  function SaveRun(s: Stream, path: string, file: string, failingSaves: set<int>): (r: Run)
    ensures r.result.Failure? <==> s.itag in failingSaves
  {
    Run([Save(s.itag, path, Basename(file))],
        if s.itag in failingSaves then Failure(SaveFailed(s.itag)) else Success(()))
  }

  /** Removing the two intermediate files; a failure is swallowed, and a
      failure on the first leaves the second in place. */
  function RemoveRun(videoFile: string, audioFile: string, undeletable: set<string>): (r: Run)
    ensures r.result.Success?
  {
    Run([Remove(videoFile)] + (if videoFile in undeletable then [] else [Remove(audioFile)]), Success(()))
  }

  /** The downloads, merge and clean-up a plan calls for, in the source's order. */
  function PlanRun(plan: Plan, path: string, env: Item, ffmpeg: bool): Run {
    match plan
    case NoStream(reason) => Run([], Failure(NoSuitableStream(reason)))
    case Single(s, file) => SaveRun(s, path, Join(path, file), env.failingSaves)
    case Merge(v, a, vName, aName, oName) =>
      var videoFile := Join(path, vName);
      var audioFile := Join(path, aName);
      var outFile := Join(path, oName);
      SaveRun(v, path, videoFile, env.failingSaves)
        .Then(SaveRun(a, path, audioFile, env.failingSaves))
        .Then(MergeRun(videoFile, audioFile, outFile, ffmpeg, env.ffmpegExit))
        .Then(RemoveRun(videoFile, audioFile, env.undeletable))
  }

  /** The plan for the requested type; any type but `'video'` and `'audio'`
      downloads nothing. */
  function PlanFor(downloadType: string, catalogue: seq<Stream>, title: string): Option<Plan> {
    if downloadType == "video" then Some(PlanVideo(catalogue, title))
    else if downloadType == "audio" then Some(PlanAudio(catalogue, title))
    else None
  }

  /** `os.makedirs` when the directory is missing. */
  function EnsureDir(path: string, dirs: set<string>): seq<Effect> {
    if path in dirs then [] else [MakeDirs(path)]
  }

  /** Whether the primary provider left a usable object. */
  predicate UsablePrimary(yt: Option<Handle>) {
    yt.Some? && yt.value.title.Some?
  }

  /** How `download_video` reports an exception that reached its boundary. */
  function Caught(res: Result<Report, Failure>): Report {
    match res
    case Success(r) => r
    case Failure(e) => Failed(e)
  }

  /** What follows the retry loop when the primary left no usable object. */
  function FallbackTail(url: string, path: string, downloadType: string, ytDlp: bool, raises: bool): ItemOutcome {
    var fb := FallbackRun(url, path, downloadType, ytDlp, raises);
    ItemOutcome(fb.effects, if fb.result.Failure? then Failed(fb.result.error) else FallbackDone)
  }

  /** What follows the retry loop when the primary read `title`: both
      branches read the catalogue before anything else, so a catalogue that
      cannot be read fails the item with no further action. */
  function PrimaryTail(title: string, downloadType: string, path: string, env: Item, ffmpeg: bool): ItemOutcome {
    var run := match PlanFor(downloadType, env.catalogue, SanitizeFilename(title, DefaultMaxLen))
      case None => Run([], Success(()))
      case Some(plan) => if env.streamsRaise then Run([], Failure(StreamsUnreadable)) else PlanRun(plan, path, env, ffmpeg);
    ItemOutcome(run.effects, if run.result.Failure? then Failed(run.result.error) else Completed(title))
  }

  /** One call of `download_video(url, download_type)` against the world
      `env`, with `path` the download directory and `dirs` the directories
      that exist. */
  function ItemRun(url: string, downloadType: string, path: string, dirs: set<string>,
                   env: Item, ytDlp: bool, ffmpeg: bool): ItemOutcome
  {
    var tail := AfterRetry(FirstLoaded(env.attempts, 0), url, downloadType, path, env, ytDlp, ffmpeg);
    ItemOutcome(RetryFrom(url, env.attempts, 0) + EnsureDir(path, dirs) + tail.effects, tail.report)
  }

  /** What `download_video` does once the retry loop has left `yt`. */
  function AfterRetry(yt: Option<Handle>, url: string, downloadType: string, path: string,
                      env: Item, ytDlp: bool, ffmpeg: bool): ItemOutcome
  {
    if !UsablePrimary(yt) then FallbackTail(url, path, downloadType, ytDlp, env.fallbackRaises)
    else PrimaryTail(yt.value.title.value, downloadType, path, env, ffmpeg)
  }

  // ---------------------------------------------------------------------
  // Properties of one item

  /** The fallback runs exactly when the primary left no usable object and a
      fallback is installed, then exactly once and as the last action, and
      the item saves nothing itself; with a usable primary it never runs. */
  lemma FallbackIffPrimaryUnusable(url: string, downloadType: string, path: string, dirs: set<string>,
                                   env: Item, ytDlp: bool, ffmpeg: bool)
    ensures var out := ItemRun(url, downloadType, path, dirs, env, ytDlp, ffmpeg);
      var yt := FirstLoaded(env.attempts, 0);
      && (out.report == FallbackDone ==> !UsablePrimary(yt) && ytDlp && !env.fallbackRaises)
      && (!UsablePrimary(yt) && !ytDlp ==> out.report == Failed(PrimaryUnavailable))
      && (!UsablePrimary(yt) ==> forall e :: e in out.effects ==> !e.Save? && !e.RunProcess?)
    ensures var out := ItemRun(url, downloadType, path, dirs, env, ytDlp, ffmpeg);
      !UsablePrimary(FirstLoaded(env.attempts, 0)) && ytDlp ==>
        && out.effects == RetryFrom(url, env.attempts, 0) + EnsureDir(path, dirs)
                          + [RunFallback(url, FallbackOptions(path, downloadType))]
        && out.report == (if env.fallbackRaises then Failed(FallbackFailed) else FallbackDone)
    ensures var out := ItemRun(url, downloadType, path, dirs, env, ytDlp, ffmpeg);
      UsablePrimary(FirstLoaded(env.attempts, 0)) ==> forall e :: e in out.effects ==> !e.RunFallback?
  {
    if UsablePrimary(FirstLoaded(env.attempts, 0)) {
      UsablePrimaryItem(url, downloadType, path, dirs, env, ytDlp, ffmpeg);
    } else {
      UnusablePrimaryItem(url, downloadType, path, dirs, env, ytDlp, ffmpeg);
    }
  }

  lemma UsablePrimaryItem(url: string, downloadType: string, path: string, dirs: set<string>,
                          env: Item, ytDlp: bool, ffmpeg: bool)
    requires UsablePrimary(FirstLoaded(env.attempts, 0))
    ensures forall e :: e in ItemRun(url, downloadType, path, dirs, env, ytDlp, ffmpeg).effects ==> !e.RunFallback?
  {
    var yt := FirstLoaded(env.attempts, 0);
    var retry := RetryFrom(url, env.attempts, 0);
    var tail := AfterRetry(yt, url, downloadType, path, env, ytDlp, ffmpeg);
    RetryOnlyOpensAndSleeps(url, env.attempts, 0);
    UsablePrimaryNoFallback(yt, url, downloadType, path, env, ytDlp, ffmpeg);
    NoFallbackIn(retry, EnsureDir(path, dirs), tail.effects);
  }

  lemma NoFallbackIn(retry: seq<Effect>, dir: seq<Effect>, tail: seq<Effect>)
    requires forall e :: e in retry ==> e.OpenPrimary? || e.Sleep?
    requires forall e :: e in dir ==> e.MakeDirs?
    requires FileActions(tail)
    ensures forall e :: e in retry + dir + tail ==> !e.RunFallback?
  {
  }

  lemma UnusablePrimaryItem(url: string, downloadType: string, path: string, dirs: set<string>,
                            env: Item, ytDlp: bool, ffmpeg: bool)
    requires !UsablePrimary(FirstLoaded(env.attempts, 0))
    ensures var out := ItemRun(url, downloadType, path, dirs, env, ytDlp, ffmpeg);
      && (ytDlp ==> out.effects == RetryFrom(url, env.attempts, 0) + EnsureDir(path, dirs)
                                   + [RunFallback(url, FallbackOptions(path, downloadType))])
      && (!ytDlp ==> out.effects == RetryFrom(url, env.attempts, 0) + EnsureDir(path, dirs))
      && out.report == (if !ytDlp then Failed(PrimaryUnavailable)
                        else if env.fallbackRaises then Failed(FallbackFailed) else FallbackDone)
      && forall e :: e in out.effects ==> !e.Save? && !e.RunProcess?
  {
    RetryOnlyOpensAndSleeps(url, env.attempts, 0);
    if !ytDlp {
      assert FallbackTail(url, path, downloadType, ytDlp, env.fallbackRaises).effects == [];
    }
  }

  /** A catalogue that cannot be read fails a video or audio item right after
      the retries and the directory check: nothing is saved and nothing
      escapes. */
  lemma UnreadableStreamsFailItem(url: string, downloadType: string, path: string, dirs: set<string>,
                                  env: Item, ytDlp: bool, ffmpeg: bool)
    requires UsablePrimary(FirstLoaded(env.attempts, 0))
    requires downloadType == "video" || downloadType == "audio"
    requires env.streamsRaise
    ensures var out := ItemRun(url, downloadType, path, dirs, env, ytDlp, ffmpeg);
      && out.report == Failed(StreamsUnreadable)
      && out.effects == RetryFrom(url, env.attempts, 0) + EnsureDir(path, dirs)
  {
  }

  /** After a usable primary, the item's actions are file actions only. */
  lemma UsablePrimaryNoFallback(yt: Option<Handle>, url: string, downloadType: string, path: string,
                                env: Item, ytDlp: bool, ffmpeg: bool)
    requires UsablePrimary(yt)
    ensures FileActions(AfterRetry(yt, url, downloadType, path, env, ytDlp, ffmpeg).effects)
  {
    var plan := PlanFor(downloadType, env.catalogue, SanitizeFilename(yt.value.title.value, DefaultMaxLen));
    if plan.Some? {
      PlanRunFileActions(plan.value, path, env, ffmpeg);
    }
  }

  lemma {:induction false} RetryOnlyOpensAndSleeps(url: string, attempts: seq<Attempt>, i: nat)
    requires i <= MaxAttempts
    ensures forall e :: e in RetryFrom(url, attempts, i) ==> e.OpenPrimary? || e.Sleep?
    decreases MaxAttempts - i
  {
    if i < MaxAttempts && AttemptAt(attempts, i).Raised? {
      RetryOnlyOpensAndSleeps(url, attempts, i + 1);
    }
  }

  /** The plan `PlanVideo` builds when it merges `v` and `a` for `title`. */
  function MergePlan(title: string, v: Stream, a: Stream): Plan {
    Merge(v, a, VideoName(title, v), AudioName(title, a), MergedName(title))
  }

  predicate RunsProcess(effects: seq<Effect>) {
    exists e :: e in effects && e.RunProcess?
  }

  predicate RemovesFiles(effects: seq<Effect>) {
    exists e :: e in effects && e.Remove?
  }

  /** The three paths of a merge for a sanitized title differ. */
  lemma MergePathsDistinct(title: string, v: Stream, a: Stream, path: string)
    requires NoIllegal(title)
    ensures Join(path, VideoName(title, v)) != Join(path, AudioName(title, a))
    ensures Join(path, VideoName(title, v)) != Join(path, MergedName(title))
    ensures Join(path, AudioName(title, a)) != Join(path, MergedName(title))
  {
    MergeNamesDistinct(title, v, a);
    NamesArePlain(title, v, a);
    var vn, an, on := VideoName(title, v), AudioName(title, a), MergedName(title);
    if Join(path, vn) == Join(path, an) { JoinInjective(path, vn, an); }
    if Join(path, vn) == Join(path, on) { JoinInjective(path, vn, on); }
    if Join(path, an) == Join(path, on) { JoinInjective(path, an, on); }
  }

  /** ffmpeg runs only after both streams were saved, with the exact command
      over the joined paths, and the intermediate files are removed only after
      it succeeded. */
  lemma MergeSteps(title: string, v: Stream, a: Stream, path: string, env: Item, ffmpeg: bool)
    ensures RunsProcess(PlanRun(MergePlan(title, v, a), path, env, ffmpeg).effects) <==>
      ffmpeg && v.itag !in env.failingSaves && a.itag !in env.failingSaves
    ensures RunsProcess(PlanRun(MergePlan(title, v, a), path, env, ffmpeg).effects) ==>
      PlanRun(MergePlan(title, v, a), path, env, ffmpeg).effects[..3] ==
        [Save(v.itag, path, Basename(Join(path, VideoName(title, v)))),
         Save(a.itag, path, Basename(Join(path, AudioName(title, a)))),
         RunProcess(MergeCommand(Join(path, VideoName(title, v)), Join(path, AudioName(title, a)),
                                 Join(path, MergedName(title))))]
    ensures RemovesFiles(PlanRun(MergePlan(title, v, a), path, env, ffmpeg).effects) <==>
      PlanRun(MergePlan(title, v, a), path, env, ffmpeg).result.Success?
  {
    var vf, af, of := Join(path, VideoName(title, v)), Join(path, AudioName(title, a)), Join(path, MergedName(title));
    var r := PlanRun(MergePlan(title, v, a), path, env, ffmpeg);
    var saves := [Save(v.itag, path, Basename(vf)), Save(a.itag, path, Basename(af))];
    MergeEffects(title, v, a, path, env, ffmpeg);
    if v.itag !in env.failingSaves && a.itag !in env.failingSaves && ffmpeg {
      var tail := if env.ffmpegExit == 0 then RemoveRun(vf, af, env.undeletable).effects else [];
      assert r.effects[2] == RunProcess(MergeCommand(vf, af, of));
      assert r.effects[..3] == saves + [RunProcess(MergeCommand(vf, af, of))];
      if r.result.Success? {
        assert r.effects[3] == Remove(vf);
      }
    } else {
      assert forall e :: e in r.effects ==> e.Save?;
    }
  }

  /** The effects of a merge plan, case by case: the saves up to the first
      that raises, then the merge when ffmpeg is present, then the removals
      when it succeeded. */
  lemma MergeEffects(title: string, v: Stream, a: Stream, path: string, env: Item, ffmpeg: bool)
    ensures var vf, af, of := Join(path, VideoName(title, v)), Join(path, AudioName(title, a)), Join(path, MergedName(title));
      var r := PlanRun(MergePlan(title, v, a), path, env, ffmpeg);
      var saves := [Save(v.itag, path, Basename(vf)), Save(a.itag, path, Basename(af))];
      && (v.itag in env.failingSaves ==> r.effects == saves[..1] && r.result.Failure?)
      && (v.itag !in env.failingSaves && (a.itag in env.failingSaves || !ffmpeg) ==> r.effects == saves && r.result.Failure?)
      && (v.itag !in env.failingSaves && a.itag !in env.failingSaves && ffmpeg ==>
            && r.effects == saves + [RunProcess(MergeCommand(vf, af, of))]
                 + (if env.ffmpegExit == 0 then RemoveRun(vf, af, env.undeletable).effects else [])
            && (r.result.Success? <==> env.ffmpegExit == 0))
  {
    var vf, af, of := Join(path, VideoName(title, v)), Join(path, AudioName(title, a)), Join(path, MergedName(title));
    var s1 := SaveRun(v, path, vf, env.failingSaves);
    var s2 := SaveRun(a, path, af, env.failingSaves);
    var m := MergeRun(vf, af, of, ffmpeg, env.ffmpegExit);
    if v.itag !in env.failingSaves && a.itag !in env.failingSaves && ffmpeg {
      assert s1.Then(s2).effects == s1.effects + s2.effects;
      Concat3(s1.effects + s2.effects, m.effects,
              if env.ffmpegExit == 0 then RemoveRun(vf, af, env.undeletable).effects else []);
    }
  }

  lemma NamesArePlain(title: string, v: Stream, a: Stream)
    requires NoIllegal(title)
    ensures VideoName(title, v) != [] && VideoName(title, v)[0] != '/'
    ensures AudioName(title, a) != [] && AudioName(title, a)[0] != '/'
    ensures MergedName(title) != [] && MergedName(title)[0] != '/'
  {
    if title != [] {
      assert !IsIllegal(title[0]);
      assert VideoName(title, v)[0] == title[0];
      assert AudioName(title, a)[0] == title[0];
      assert MergedName(title)[0] == title[0];
    }
  }

  // ---------------------------------------------------------------------
  // Playlists

  /** One entry of a playlist: its URL and what the world does while it downloads. */
  datatype Member = Member(url: string, item: Item)

  /** The playlist's metadata: its title and its entries in order. */
  datatype PlaylistInfo = PlaylistInfo(title: string, members: seq<Member>)

  datatype PlaylistOutcome = PlaylistOutcome(effects: seq<Effect>, reports: seq<Report>)

  /** `download_video` once per member, in order, into `path`. */
  function PlaylistRun(members: seq<Member>, downloadType: string, path: string, dirs: set<string>,
                       ytDlp: bool, ffmpeg: bool): (out: PlaylistOutcome)
    ensures |out.reports| == |members|
    decreases |members|
  {
    if members == [] then PlaylistOutcome([], [])
    else
      var prev := PlaylistRun(members[..|members| - 1], downloadType, path, dirs, ytDlp, ffmpeg);
      var last := members[|members| - 1];
      var item := ItemRun(last.url, downloadType, path, dirs, last.item, ytDlp, ffmpeg);
      PlaylistOutcome(prev.effects + item.effects, prev.reports + [item.report])
  }

  /** The playlist reports, in order, what each member's download reported. */
  lemma {:induction false} PlaylistReports(members: seq<Member>, downloadType: string, path: string,
                                           dirs: set<string>, ytDlp: bool, ffmpeg: bool)
    ensures forall k :: 0 <= k < |members| ==>
      PlaylistRun(members, downloadType, path, dirs, ytDlp, ffmpeg).reports[k]
        == ItemRun(members[k].url, downloadType, path, dirs, members[k].item, ytDlp, ffmpeg).report
    decreases |members|
  {
    if members != [] {
      var init := members[..|members| - 1];
      PlaylistReports(init, downloadType, path, dirs, ytDlp, ffmpeg);
      forall k | 0 <= k < |members| - 1
        ensures PlaylistRun(members, downloadType, path, dirs, ytDlp, ffmpeg).reports[k]
          == ItemRun(members[k].url, downloadType, path, dirs, members[k].item, ytDlp, ffmpeg).report
      {
        assert init[k] == members[k];
      }
    }
  }

  /** Extending the members by one appends that member's run. */
  lemma PlaylistRunStep(members: seq<Member>, i: nat, downloadType: string, path: string,
                        dirs: set<string>, ytDlp: bool, ffmpeg: bool)
    requires i < |members|
    ensures var prev := PlaylistRun(members[..i], downloadType, path, dirs, ytDlp, ffmpeg);
      var item := ItemRun(members[i].url, downloadType, path, dirs, members[i].item, ytDlp, ffmpeg);
      PlaylistRun(members[..i + 1], downloadType, path, dirs, ytDlp, ffmpeg)
        == PlaylistOutcome(prev.effects + item.effects, prev.reports + [item.report])
  {
    assert members[..i + 1][..i] == members[..i];
  }

  lemma Concat3(a: seq<Effect>, b: seq<Effect>, c: seq<Effect>)
    ensures a + b + c == a + (b + c)
  {
  }

  lemma Associative(a: seq<Effect>, b: seq<Effect>, c: seq<Effect>, d: seq<Effect>)
    ensures a + b + c + d == a + (b + c + d)
  {
  }

  /** Effects with no provider call and no pause. */
  predicate Quiet(effects: seq<Effect>) {
    forall e :: e in effects ==> !e.OpenPrimary? && !e.Sleep?
  }

  lemma {:induction false} QuietCounts(effects: seq<Effect>)
    requires Quiet(effects)
    ensures Opens(effects) == 0 && Sleeps(effects) == 0
    decreases |effects|
  {
    if effects != [] {
      assert forall e :: e in effects[1..] ==> e in effects;
      QuietCounts(effects[1..]);
    }
  }

  lemma PlanRunQuiet(plan: Plan, path: string, env: Item, ffmpeg: bool)
    ensures Quiet(PlanRun(plan, path, env, ffmpeg).effects)
  {
    match plan
    case NoStream(_) =>
    case Single(s, file) =>
    case Merge(v, a, vName, aName, oName) =>
      var videoFile, audioFile := Join(path, vName), Join(path, aName);
      var r1 := SaveRun(v, path, videoFile, env.failingSaves);
      var r2 := SaveRun(a, path, audioFile, env.failingSaves);
      var r3 := MergeRun(videoFile, audioFile, Join(path, oName), ffmpeg, env.ffmpegExit);
      var r4 := RemoveRun(videoFile, audioFile, env.undeletable);
      ThenQuiet(r1, r2);
      ThenQuiet(r1.Then(r2), r3);
      ThenQuiet(r1.Then(r2).Then(r3), r4);
  }

  /** Effects that only save, run a process or remove files. */
  predicate FileActions(effects: seq<Effect>) {
    forall e :: e in effects ==> e.Save? || e.RunProcess? || e.Remove?
  }

  lemma PlanRunFileActions(plan: Plan, path: string, env: Item, ffmpeg: bool)
    ensures FileActions(PlanRun(plan, path, env, ffmpeg).effects)
  {
    match plan
    case NoStream(_) =>
    case Single(s, file) =>
    case Merge(v, a, vName, aName, oName) =>
      var videoFile, audioFile := Join(path, vName), Join(path, aName);
      var r1 := SaveRun(v, path, videoFile, env.failingSaves);
      var r2 := SaveRun(a, path, audioFile, env.failingSaves);
      var r3 := MergeRun(videoFile, audioFile, Join(path, oName), ffmpeg, env.ffmpegExit);
      var r4 := RemoveRun(videoFile, audioFile, env.undeletable);
      ThenFileActions(r1, r2);
      ThenFileActions(r1.Then(r2), r3);
      ThenFileActions(r1.Then(r2).Then(r3), r4);
  }

  lemma ThenFileActions(a: Run, b: Run)
    requires FileActions(a.effects) && FileActions(b.effects)
    ensures FileActions(a.Then(b).effects)
  {
  }

  lemma ThenQuiet(a: Run, b: Run)
    requires Quiet(a.effects) && Quiet(b.effects)
    ensures Quiet(a.Then(b).effects)
  {
  }

  /** One item calls the primary provider one to three times and pauses once
      fewer than that, whatever else happens. */
  lemma ItemCounts(url: string, downloadType: string, path: string, dirs: set<string>,
                   env: Item, ytDlp: bool, ffmpeg: bool)
    ensures var out := ItemRun(url, downloadType, path, dirs, env, ytDlp, ffmpeg);
      1 <= Opens(out.effects) <= MaxAttempts && Sleeps(out.effects) == Opens(out.effects) - 1
  {
    var retry := RetryFrom(url, env.attempts, 0);
    var tail := AfterRetry(FirstLoaded(env.attempts, 0), url, downloadType, path, env, ytDlp, ffmpeg);
    var rest := EnsureDir(path, dirs) + tail.effects;
    RetryCounts(url, env.attempts, 0);
    AfterRetryQuiet(FirstLoaded(env.attempts, 0), url, downloadType, path, env, ytDlp, ffmpeg);
    assert Quiet(rest);
    QuietCounts(rest);
    Concat3(retry, EnsureDir(path, dirs), tail.effects);
    CountsConcat(retry, rest);
  }

  /** Nothing after the retry loop calls the primary provider or pauses. */
  lemma AfterRetryQuiet(yt: Option<Handle>, url: string, downloadType: string, path: string,
                        env: Item, ytDlp: bool, ffmpeg: bool)
    ensures Quiet(AfterRetry(yt, url, downloadType, path, env, ytDlp, ffmpeg).effects)
  {
    if UsablePrimary(yt) {
      var plan := PlanFor(downloadType, env.catalogue, SanitizeFilename(yt.value.title.value, DefaultMaxLen));
      if plan.Some? {
        PlanRunQuiet(plan.value, path, env, ffmpeg);
      }
    }
  }

  /** A playlist of `n` members calls the primary provider between `n` and
      `3n` times: every member is tried, none more than three times. */
  lemma {:induction false} PlaylistCounts(members: seq<Member>, downloadType: string, path: string,
                                          dirs: set<string>, ytDlp: bool, ffmpeg: bool)
    ensures var out := PlaylistRun(members, downloadType, path, dirs, ytDlp, ffmpeg);
      |members| <= Opens(out.effects) <= MaxAttempts * |members|
      && Sleeps(out.effects) == Opens(out.effects) - |members|
    decreases |members|
  {
    if members != [] {
      var init := members[..|members| - 1];
      var last := members[|members| - 1];
      PlaylistCounts(init, downloadType, path, dirs, ytDlp, ffmpeg);
      ItemCounts(last.url, downloadType, path, dirs, last.item, ytDlp, ffmpeg);
      CountsConcat(PlaylistRun(init, downloadType, path, dirs, ytDlp, ffmpeg).effects,
                   ItemRun(last.url, downloadType, path, dirs, last.item, ytDlp, ffmpeg).effects);
    }
  }

  // ---------------------------------------------------------------------
  // The downloader and its module state

  class Downloader {
    /** `DOWNLOAD_PATH`, the directory downloads go to. */
    var downloadPath: string
    /** The directories that exist. */
    var dirs: set<string>
    /** Every outside action so far, in order. */
    var log: seq<Effect>
    /** Whether the fallback downloader could be imported. */
    const ytDlpAvailable: bool
    /** Whether `ffmpeg` is on the search path. */
    const ffmpegAvailable: bool

    /** Module import: the download directory is `temp_downloads` in the
        user's home directory. */
    constructor(home: string, existing: set<string>, ytDlp: bool, ffmpeg: bool)
      ensures downloadPath == Join(home, "temp_downloads")
      ensures dirs == existing && log == []
      ensures ytDlpAvailable == ytDlp && ffmpegAvailable == ffmpeg
    {
      downloadPath := Join(home, "temp_downloads");
      dirs := existing;
      log := [];
      ytDlpAvailable := ytDlp;
      ffmpegAvailable := ffmpeg;
    }

    /** `if not os.path.exists(p): os.makedirs(p, exist_ok=True)`. */
    method MakeDirsIfMissing(path: string)
      modifies this`dirs, this`log
      ensures dirs == old(dirs) + {path}
      ensures log == old(log) + EnsureDir(path, old(dirs))
    {
      if path !in dirs {
        dirs := dirs + {path};
        log := log + [MakeDirs(path)];
      }
    }

    /** `check_path_exists()`: create the download directory when missing and
        return it. */
    method CheckPathExists() returns (path: string)
      modifies this`dirs, this`log
      ensures path == downloadPath
      ensures dirs == old(dirs) + {downloadPath}
      ensures log == old(log) + EnsureDir(downloadPath, old(dirs))
    {
      MakeDirsIfMissing(downloadPath);
      path := downloadPath;
    }

    /** The retry loop: up to three attempts to build the primary provider's
        object and read its title, pausing two seconds after each failure but
        the last, and stopping at the first success. */
    method ConnectPrimary(url: string, attempts: seq<Attempt>) returns (yt: Option<Handle>)
      modifies this`log
      ensures yt == FirstLoaded(attempts, 0)
      ensures log == old(log) + RetryFrom(url, attempts, 0)
    {
      yt := None;
      var attempt := 0;
      while attempt < MaxAttempts
        invariant 0 <= attempt <= MaxAttempts
        invariant yt == None
        invariant log + RetryFrom(url, attempts, attempt) == old(log) + RetryFrom(url, attempts, 0)
        invariant FirstLoaded(attempts, attempt) == FirstLoaded(attempts, 0)
      {
        RetryStep(url, attempts, attempt, log, old(log) + RetryFrom(url, attempts, 0));
        yt := TryAttempt(url, attempts, attempt);
        if yt.Some? {
          return;
        }
        attempt := attempt + 1;
      }
    }

    /** One pass of the retry loop's body: build the provider's object and
        read its title, or pause after a failure that is not the last. */
    method TryAttempt(url: string, attempts: seq<Attempt>, attempt: nat) returns (yt: Option<Handle>)
      requires attempt < MaxAttempts
      modifies this`log
      ensures yt == (match AttemptAt(attempts, attempt) case Loaded(title) => Some(Handle(title)) case Raised => None)
      ensures log == old(log) + AttemptEffects(url, attempts, attempt)
    {
      log := log + [OpenPrimary(url)];
      match AttemptAt(attempts, attempt)
      case Loaded(title) =>
        yt := Some(Handle(title));
      case Raised =>
        yt := None;
        if attempt != MaxAttempts - 1 {
          log := log + [Sleep(RetryDelay)];
        }
    }

    /** `stream.download(output_path=path, filename=os.path.basename(file))`. */
    method SaveStream(s: Stream, path: string, file: string, failingSaves: set<int>)
      returns (res: Result<(), Failure>)
      modifies this`log
      ensures log == old(log) + SaveRun(s, path, file, failingSaves).effects
      ensures res == SaveRun(s, path, file, failingSaves).result
    {
      log := log + [Save(s.itag, path, Basename(file))];
      if s.itag in failingSaves {
        return Failure(SaveFailed(s.itag));
      }
      return Success(());
    }

    /** `merge_video_audio(video, audio, out)`. */
    method MergeVideoAudio(video: string, audio: string, out: string, exitCode: int)
      returns (res: Result<(), Failure>)
      modifies this`log
      ensures log == old(log) + MergeRun(video, audio, out, ffmpegAvailable, exitCode).effects
      ensures res == MergeRun(video, audio, out, ffmpegAvailable, exitCode).result
    {
      if !ffmpegAvailable {
        return Failure(FfmpegMissing);
      }
      var cmd := ["ffmpeg", "-y", "-i", video, "-i", audio, "-c", "copy", out];
      log := log + [RunProcess(cmd)];
      if exitCode != 0 {
        return Failure(FfmpegFailed(exitCode));
      }
      return Success(());
    }

    /** Removing the intermediate files inside a `try` that swallows errors. */
    method RemoveIntermediates(videoFile: string, audioFile: string, undeletable: set<string>)
      modifies this`log
      ensures log == old(log) + RemoveRun(videoFile, audioFile, undeletable).effects
    {
      log := log + [Remove(videoFile)];
      if videoFile in undeletable {
        return;
      }
      log := log + [Remove(audioFile)];
    }

    /** The downloads, merge and clean-up of a plan; `Failure` stands for the
        exception that leaves the `try`. */
    method ExecutePlan(plan: Plan, path: string, env: Item) returns (res: Result<(), Failure>)
      modifies this`log
      ensures log == old(log) + PlanRun(plan, path, env, ffmpegAvailable).effects
      ensures res == PlanRun(plan, path, env, ffmpegAvailable).result
    {
      match plan
      case NoStream(reason) =>
        return Failure(NoSuitableStream(reason));
      case Single(s, name) =>
        res := SaveStream(s, path, Join(path, name), env.failingSaves);
      case Merge(v, a, vName, aName, oName) =>
        var videoFile := Join(path, vName);
        var audioFile := Join(path, aName);
        var outFile := Join(path, oName);
        res := SaveStream(v, path, videoFile, env.failingSaves);
        if res.Failure? {
          return;
        }
        res := SaveStream(a, path, audioFile, env.failingSaves);
        if res.Failure? {
          return;
        }
        res := MergeVideoAudio(videoFile, audioFile, outFile, env.ffmpegExit);
        if res.Failure? {
          return;
        }
        RemoveIntermediates(videoFile, audioFile, env.undeletable);
    }

    /** The fallback branch: build the option dictionary step by step and run
        the fallback downloader once. */
    method Fallback(url: string, path: string, downloadType: string, raises: bool)
      returns (res: Result<(), Failure>)
      modifies this`log
      ensures log == old(log) + FallbackRun(url, path, downloadType, ytDlpAvailable, raises).effects
      ensures res == FallbackRun(url, path, downloadType, ytDlpAvailable, raises).result
    {
      if !ytDlpAvailable {
        return Failure(PrimaryUnavailable);
      }
      var opts := map["outtmpl" := Str(Join(path, TitleTemplate)), "quiet" := Flag(false), "no_warnings" := Flag(true)];
      if downloadType == "audio" {
        opts := opts["format" := Str("bestaudio/best")]["postprocessors" := PostProcessors([Mp3Extractor])];
      } else {
        opts := opts["format" := Str("bestvideo+bestaudio/best")]["merge_output_format" := Str("mp4")];
      }
      log := log + [RunFallback(url, opts)];
      if raises {
        return Failure(FallbackFailed);
      }
      return Success(());
    }

    /** The part of `download_video` after the primary read `title`: pick
        the plan for the type and carry it out. */
    method DownloadPrimary(title: string, downloadType: string, path: string, env: Item)
      returns (res: Result<Report, Failure>)
      modifies this`log
      ensures log == old(log) + PrimaryTail(title, downloadType, path, env, ffmpegAvailable).effects
      ensures Caught(res) == PrimaryTail(title, downloadType, path, env, ffmpegAvailable).report
    {
      var titleSafe := SanitizeFilename(title, DefaultMaxLen);
      if (downloadType == "video" || downloadType == "audio") && env.streamsRaise {
        return Failure(StreamsUnreadable);
      }
      if downloadType == "video" {
        var r := ExecutePlan(PlanVideo(env.catalogue, titleSafe), path, env);
        if r.Failure? {
          return Failure(r.error);
        }
      } else if downloadType == "audio" {
        var r := ExecutePlan(PlanAudio(env.catalogue, titleSafe), path, env);
        if r.Failure? {
          return Failure(r.error);
        }
      }
      return Success(Completed(title));
    }

    /** The body of `download_video` inside its `try`. */
    method TryDownloadVideo(url: string, downloadType: string, env: Item) returns (res: Result<Report, Failure>)
      modifies this`dirs, this`log
      ensures dirs == old(dirs) + {downloadPath}
      ensures log == old(log) + ItemRun(url, downloadType, downloadPath, old(dirs), env, ytDlpAvailable, ffmpegAvailable).effects
      ensures Caught(res) == ItemRun(url, downloadType, downloadPath, old(dirs), env, ytDlpAvailable, ffmpegAvailable).report
    {
      ghost var retry := RetryFrom(url, env.attempts, 0);
      ghost var ensure := EnsureDir(downloadPath, dirs);
      var yt := ConnectPrimary(url, env.attempts);
      var path := CheckPathExists();
      assert log == old(log) + retry + ensure;
      ghost var tail := AfterRetry(yt, url, downloadType, path, env, ytDlpAvailable, ffmpegAvailable);
      ghost var out := ItemRun(url, downloadType, path, old(dirs), env, ytDlpAvailable, ffmpegAvailable);
      assert out == ItemOutcome(retry + ensure + tail.effects, tail.report);
      res := Continue(yt, url, path, downloadType, env);
      assert log == old(log) + retry + ensure + tail.effects;
      Associative(old(log), retry, ensure, tail.effects);
    }

    /** `download_video` after the retry loop and the first directory check. */
    method Continue(yt: Option<Handle>, url: string, path: string, downloadType: string, env: Item)
      returns (res: Result<Report, Failure>)
      requires path in dirs
      modifies this`dirs, this`log
      ensures dirs == old(dirs)
      ensures log == old(log) + AfterRetry(yt, url, downloadType, path, env, ytDlpAvailable, ffmpegAvailable).effects
      ensures Caught(res) == AfterRetry(yt, url, downloadType, path, env, ytDlpAvailable, ffmpegAvailable).report
    {
      if !UsablePrimary(yt) {
        res := DownloadFallback(url, path, downloadType, env.fallbackRaises);
        return;
      }
      assert EnsureDir(path, dirs) == [];
      MakeDirsIfMissing(path);
      assert log == old(log);
      assert dirs == old(dirs);
      res := DownloadPrimary(yt.value.title.value, downloadType, path, env);
      assert log == old(log) + PrimaryTail(yt.value.title.value, downloadType, path, env, ffmpegAvailable).effects;
      assert Caught(res) == PrimaryTail(yt.value.title.value, downloadType, path, env, ffmpegAvailable).report;
    }

    /** The fallback branch as `download_video` sees it: an exception, or a
        completed fallback download. */
    method DownloadFallback(url: string, path: string, downloadType: string, raises: bool)
      returns (res: Result<Report, Failure>)
      modifies this`log
      ensures log == old(log) + FallbackTail(url, path, downloadType, ytDlpAvailable, raises).effects
      ensures Caught(res) == FallbackTail(url, path, downloadType, ytDlpAvailable, raises).report
    {
      var r := Fallback(url, path, downloadType, raises);
      if r.Failure? {
        return Failure(r.error);
      }
      return Success(FallbackDone);
    }

    /** `download_video(url, download_type)`: every exception of the item is
        caught and reported, so the call always returns. */
    method DownloadVideo(url: string, downloadType: string, env: Item) returns (report: Report)
      modifies this`dirs, this`log
      ensures dirs == old(dirs) + {downloadPath}
      ensures log == old(log) + ItemRun(url, downloadType, downloadPath, old(dirs), env, ytDlpAvailable, ffmpegAvailable).effects
      ensures report == ItemRun(url, downloadType, downloadPath, old(dirs), env, ytDlpAvailable, ffmpegAvailable).report
    {
      var res := TryDownloadVideo(url, downloadType, env);
      match res
      case Success(r) => report := r;
      case Failure(e) => report := Failed(e);
    }

    /** `download_playlist(url, download_type)`: read the playlist's metadata
        (`None` when that raises, an exception nothing catches), move the
        download directory into a sub-directory named after the playlist, and
        download each member in order. */
    method DownloadPlaylist(downloadType: string, playlist: Option<PlaylistInfo>) returns (reports: Option<seq<Report>>)
      modifies this`downloadPath, this`dirs, this`log
      ensures playlist.None? ==> reports.None? && downloadPath == old(downloadPath) && dirs == old(dirs) && log == old(log)
      ensures playlist.Some? ==>
        var newPath := old(downloadPath) + "/" + playlist.value.title;
        var known := old(dirs) + {old(downloadPath), newPath};
        var run := PlaylistRun(playlist.value.members, downloadType, newPath, known, ytDlpAvailable, ffmpegAvailable);
        && downloadPath == newPath
        && dirs == known
        && log == old(log) + EnsureDir(old(downloadPath), old(dirs))
                           + EnsureDir(newPath, old(dirs) + {old(downloadPath)}) + run.effects
        && reports == Some(run.reports)
    {
      if playlist.None? {
        return None;
      }
      var info := playlist.value;
      ghost var first := EnsureDir(downloadPath, dirs);
      var path := CheckPathExists();
      downloadPath := path + "/" + info.title;
      ghost var second := EnsureDir(downloadPath, dirs);
      MakeDirsIfMissing(downloadPath);
      assert log == old(log) + first + second;
      ghost var mid := log;
      var rs := DownloadMembers(info.members, downloadType);
      assert log == mid + PlaylistRun(info.members, downloadType, downloadPath, dirs, ytDlpAvailable, ffmpegAvailable).effects;
      return Some(rs);
    }

    /** One more member of the playlist, downloaded into a directory that
        exists: the log and the reports grow to those of one member more. */
    method DownloadNext(members: seq<Member>, i: nat, downloadType: string, ghost base: seq<Effect>,
                        reports: seq<Report>) returns (reports': seq<Report>)
      requires i < |members| && downloadPath in dirs
      requires log == base + PlaylistRun(members[..i], downloadType, downloadPath, dirs, ytDlpAvailable, ffmpegAvailable).effects
      requires reports == PlaylistRun(members[..i], downloadType, downloadPath, dirs, ytDlpAvailable, ffmpegAvailable).reports
      modifies this`dirs, this`log
      ensures dirs == old(dirs)
      ensures log == base + PlaylistRun(members[..i + 1], downloadType, downloadPath, dirs, ytDlpAvailable, ffmpegAvailable).effects
      ensures reports' == PlaylistRun(members[..i + 1], downloadType, downloadPath, dirs, ytDlpAvailable, ffmpegAvailable).reports
    {
      ghost var prev := PlaylistRun(members[..i], downloadType, downloadPath, dirs, ytDlpAvailable, ffmpegAvailable);
      ghost var item := ItemRun(members[i].url, downloadType, downloadPath, dirs, members[i].item, ytDlpAvailable, ffmpegAvailable);
      var r := DownloadVideo(members[i].url, downloadType, members[i].item);
      Concat3(base, prev.effects, item.effects);
      PlaylistRunStep(members, i, downloadType, downloadPath, dirs, ytDlpAvailable, ffmpegAvailable);
      reports' := reports + [r];
    }

    /** The loop of `download_playlist`: `download_video` once per member, in
        order, into the current download directory. */
    method DownloadMembers(members: seq<Member>, downloadType: string) returns (reports: seq<Report>)
      requires downloadPath in dirs
      modifies this`dirs, this`log
      ensures dirs == old(dirs)
      ensures log == old(log) + PlaylistRun(members, downloadType, downloadPath, dirs, ytDlpAvailable, ffmpegAvailable).effects
      ensures reports == PlaylistRun(members, downloadType, downloadPath, dirs, ytDlpAvailable, ffmpegAvailable).reports
    {
      reports := [];
      var i := 0;
      while i < |members|
        invariant 0 <= i <= |members|
        invariant dirs == old(dirs)
        invariant log == old(log) + PlaylistRun(members[..i], downloadType, downloadPath, dirs, ytDlpAvailable, ffmpegAvailable).effects
        invariant reports == PlaylistRun(members[..i], downloadType, downloadPath, dirs, ytDlpAvailable, ffmpegAvailable).reports
      {
        reports := DownloadNext(members, i, downloadType, old(log), reports);
        i := i + 1;
      }
      assert members[..|members|] == members;
    }
  }
}
