/** The stream catalogue of one item and the choice `download_video` makes
    from it: a video stream and an audio stream to merge, one file to save,
    or no suitable stream. */
module Streams {
  import opened Wrappers

  /** The three sorts of stream a catalogue lists. */
  datatype Kind = AdaptiveVideo | Progressive | AudioOnly

  /** One stream record: its tag, sort, quality figures and container
      subtype (the file extension `filter(file_extension=...)` tests). */
  datatype Stream = Stream(itag: int, kind: Kind, resolution: int, abr: int, subtype: string)

  /** The three queries the source runs over the catalogue. */
  datatype Query =
    | AdaptiveMp4Video   // filter(adaptive=True, file_extension='mp4', only_video=True)
    | ProgressiveMp4     // filter(progressive=True, file_extension='mp4')
    | AnyAudio           // filter(only_audio=True)

  /** The two orderings: by resolution for video, by bitrate for audio. */
  datatype Metric = Resolution | Abr

  predicate Matches(s: Stream, q: Query) {
    match q
    case AdaptiveMp4Video => s.kind == AdaptiveVideo && s.subtype == "mp4"
    case ProgressiveMp4 => s.kind == Progressive && s.subtype == "mp4"
    case AnyAudio => s.kind == AudioOnly
  }

  function MetricOf(s: Stream, m: Metric): int {
    match m
    case Resolution => s.resolution
    case Abr => s.abr
  }

  /** The streams of the catalogue a query selects, in catalogue order. */
  function Select(catalogue: seq<Stream>, q: Query): (r: seq<Stream>)
    ensures forall s :: s in r <==> s in catalogue && Matches(s, q)
  {
    if catalogue == [] then []
    else (if Matches(catalogue[0], q) then [catalogue[0]] else []) + Select(catalogue[1..], q)
  }

  /** The query selects at least one stream. */
  predicate Has(catalogue: seq<Stream>, q: Query) {
    exists s :: s in catalogue && Matches(s, q)
  }

  /** `s` is a stream the query selects with no selected stream ranked above it. */
  predicate IsBest(s: Stream, catalogue: seq<Stream>, q: Query, m: Metric) {
    s in catalogue && Matches(s, q)
    && forall t :: t in catalogue && Matches(t, q) ==> MetricOf(t, m) <= MetricOf(s, m)
  }

  /** `order_by(m).desc().first()`: a stream with the highest figure. The
      sort is stable and `desc` reverses it, so of several equal streams the
      last one in the pool comes first. */
  function Best(pool: seq<Stream>, m: Metric): (r: Stream)
    requires pool != []
    ensures r in pool
    ensures forall t :: t in pool ==> MetricOf(t, m) <= MetricOf(r, m)
  {
    if |pool| == 1 then pool[0]
    else
      var rest := Best(pool[1..], m);
      if MetricOf(pool[0], m) > MetricOf(rest, m) then pool[0] else rest
  }

  /** The stream at index `i` ranks strictly above every stream of the pool
      after it. */
  predicate AboveLater(pool: seq<Stream>, i: int, m: Metric) {
    0 <= i < |pool| && forall j :: i < j < |pool| ==> MetricOf(pool[j], m) < MetricOf(pool[i], m)
  }

  /** Ties go to the last of the equal streams. */
  lemma {:induction false} BestIsLastOfEqual(pool: seq<Stream>, m: Metric)
    requires pool != []
    ensures exists i :: AboveLater(pool, i, m) && pool[i] == Best(pool, m)
    decreases |pool|
  {
    if |pool| == 1 {
      assert AboveLater(pool, 0, m);
    } else {
      var rest := pool[1..];
      var b := Best(rest, m);
      BestIsLastOfEqual(rest, m);
      var i :| AboveLater(rest, i, m) && rest[i] == b;
      if MetricOf(pool[0], m) > MetricOf(b, m) {
        FirstAboveLater(pool, m);
      } else {
        LaterAboveLater(pool, i, m);
      }
    }
  }

  lemma FirstAboveLater(pool: seq<Stream>, m: Metric)
    requires |pool| > 1 && MetricOf(pool[0], m) > MetricOf(Best(pool[1..], m), m)
    ensures AboveLater(pool, 0, m)
  {
    forall j | 0 < j < |pool| ensures MetricOf(pool[j], m) < MetricOf(pool[0], m) {
      assert pool[j] == pool[1..][j - 1];
    }
  }

  lemma LaterAboveLater(pool: seq<Stream>, i: int, m: Metric)
    requires |pool| > 1 && AboveLater(pool[1..], i, m)
    ensures AboveLater(pool, i + 1, m) && pool[i + 1] == pool[1..][i]
  {
    forall j | i + 1 < j < |pool| ensures pool[j] == pool[1..][j - 1] {
    }
  }

  /** The best stream a query selects, or `None` when it selects nothing. */
  function BestOf(catalogue: seq<Stream>, q: Query, m: Metric): (r: Option<Stream>)
    ensures r.None? <==> !Has(catalogue, q)
    ensures r.Some? ==> IsBest(r.value, catalogue, q, m)
  {
    var pool := Select(catalogue, q);
    if pool == [] then None else Some(Best(pool, m))
  }

  /** The stream at index `i` of the catalogue ranks strictly above every
      later stream the query selects. */
  predicate RanksAboveLater(catalogue: seq<Stream>, i: int, q: Query, m: Metric) {
    0 <= i < |catalogue|
    && forall j :: i < j < |catalogue| && Matches(catalogue[j], q) ==>
         MetricOf(catalogue[j], m) < MetricOf(catalogue[i], m)
  }

  /** Of several equally ranked streams the query selects, the last one in
      catalogue order is the best. */
  lemma {:induction false} BestOfIsLastOfEqual(catalogue: seq<Stream>, q: Query, m: Metric)
    ensures BestOf(catalogue, q, m).Some? ==>
      exists i :: RanksAboveLater(catalogue, i, q, m) && catalogue[i] == BestOf(catalogue, q, m).value
    decreases |catalogue|
  {
    if catalogue != [] {
      var rest := catalogue[1..];
      BestOfIsLastOfEqual(rest, q, m);
      BestOfCons(catalogue, q, m);
      var r := BestOf(rest, q, m);
      if Matches(catalogue[0], q) && (r.None? || MetricOf(catalogue[0], m) > MetricOf(r.value, m)) {
        HeadAbove(catalogue, q, m);
      } else if r.Some? {
        var i :| RanksAboveLater(rest, i, q, m) && rest[i] == BestOf(rest, q, m).value;
        ShiftAbove(catalogue, i, q, m);
      }
    }
  }

  /** `BestOf` on a catalogue in terms of its first stream and the rest. */
  lemma BestOfCons(catalogue: seq<Stream>, q: Query, m: Metric)
    requires catalogue != []
    ensures var x, rest := catalogue[0], BestOf(catalogue[1..], q, m);
      BestOf(catalogue, q, m) ==
        if !Matches(x, q) then rest
        else if rest.None? || MetricOf(x, m) > MetricOf(rest.value, m) then Some(x)
        else rest
  {
    var sub := Select(catalogue[1..], q);
    if Matches(catalogue[0], q) {
      assert Select(catalogue, q) == [catalogue[0]] + sub;
      assert Select(catalogue, q)[1..] == sub;
    } else {
      assert Select(catalogue, q) == sub;
    }
  }

  lemma HeadAbove(catalogue: seq<Stream>, q: Query, m: Metric)
    requires catalogue != [] && Matches(catalogue[0], q)
    requires BestOf(catalogue, q, m) == Some(catalogue[0])
    requires var rest := BestOf(catalogue[1..], q, m);
      rest.None? || MetricOf(catalogue[0], m) > MetricOf(rest.value, m)
    ensures RanksAboveLater(catalogue, 0, q, m)
  {
    forall j | 0 < j < |catalogue| && Matches(catalogue[j], q)
      ensures MetricOf(catalogue[j], m) < MetricOf(catalogue[0], m)
    {
      assert catalogue[j] == catalogue[1..][j - 1];
    }
  }

  lemma ShiftAbove(catalogue: seq<Stream>, i: int, q: Query, m: Metric)
    requires catalogue != [] && RanksAboveLater(catalogue[1..], i, q, m)
    ensures RanksAboveLater(catalogue, i + 1, q, m) && catalogue[i + 1] == catalogue[1..][i]
  {
    assert forall j :: i + 1 < j < |catalogue| ==> catalogue[j] == catalogue[1..][j - 1];
  }

  /** What the item's download does with the catalogue. File names are the
      base names inside the download directory. */
  datatype Plan =
    | Merge(video: Stream, audio: Stream, videoFile: string, audioFile: string, outFile: string)
    | Single(stream: Stream, file: string)
    | NoStream(reason: NoStreamReason)

  /** The two "no suitable stream" exceptions. */
  datatype NoStreamReason = NoVideoStream | NoAudioStream

  /** The video stream a plan downloads, if any. */
  function VideoOf(p: Plan): Option<Stream> {
    match p
    case Merge(v, _, _, _, _) => Some(v)
    case Single(s, _) => Some(s)
    case NoStream(_) => None
  }

  /** The video the source takes: the best adaptive mp4 video-only stream,
      or, when there is none, the best progressive mp4 stream. */
  predicate IsVideoChoice(s: Stream, catalogue: seq<Stream>) {
    IsBest(s, catalogue, AdaptiveMp4Video, Resolution)
    || (!Has(catalogue, AdaptiveMp4Video) && IsBest(s, catalogue, ProgressiveMp4, Resolution))
  }

  function VideoName(title: string, s: Stream): string { title + "_video." + s.subtype }
  function AudioName(title: string, s: Stream): string { title + "_audio." + s.subtype }
  function MergedName(title: string): string { title + ".mp4" }
  function SingleName(title: string, s: Stream): string { title + "." + s.subtype }

  /** The video branch of `download_video` (type `'video'`). */
  function PlanVideo(catalogue: seq<Stream>, title: string): (p: Plan)
  {
    var audio := BestOf(catalogue, AnyAudio, Abr);
    var video := match BestOf(catalogue, AdaptiveMp4Video, Resolution)
      case Some(v) => Some(v)
      case None => BestOf(catalogue, ProgressiveMp4, Resolution);
    if video.Some? && audio.Some? && video.value.itag != audio.value.itag then
      Merge(video.value, audio.value, VideoName(title, video.value), AudioName(title, audio.value), MergedName(title))
    else if video.Some? then
      Single(video.value, SingleName(title, video.value))
    else
      NoStream(NoVideoStream)
  }

  /** The audio branch of `download_video` (type `'audio'`). */
  function PlanAudio(catalogue: seq<Stream>, title: string): (p: Plan)
  {
    match BestOf(catalogue, AnyAudio, Abr)
    case None => NoStream(NoAudioStream)
    case Some(a) => Single(a, SingleName(title, a))
  }

  /** The video branch takes the best adaptive mp4 video (or, only without
      one, the best progressive mp4 video) and merges it with the best audio
      stream exactly when their tags differ; with no video candidate it
      raises. */
  lemma PlanVideoSpec(catalogue: seq<Stream>, title: string)
    ensures var p := PlanVideo(catalogue, title);
      && (p.NoStream? <==> !Has(catalogue, AdaptiveMp4Video) && !Has(catalogue, ProgressiveMp4))
      && (p.NoStream? ==> p.reason == NoVideoStream)
    ensures var p := PlanVideo(catalogue, title);
      p.Merge? ==>
        && IsVideoChoice(p.video, catalogue) && IsBest(p.audio, catalogue, AnyAudio, Abr)
        && p.video.itag != p.audio.itag
        && p.videoFile == VideoName(title, p.video) && p.audioFile == AudioName(title, p.audio)
        && p.outFile == MergedName(title)
    ensures var p := PlanVideo(catalogue, title);
      p.Single? ==>
        && IsVideoChoice(p.stream, catalogue) && p.file == SingleName(title, p.stream)
        && (!Has(catalogue, AnyAudio) || exists a :: IsBest(a, catalogue, AnyAudio, Abr) && a.itag == p.stream.itag)
  {
  }

  /** Both video queries ask for the mp4 container, so the video branch
      always writes its video to an `.mp4` name. */
  lemma VideoFilesAreMp4(catalogue: seq<Stream>, title: string)
    ensures var p := PlanVideo(catalogue, title);
      && (p.Merge? ==> p.video.subtype == "mp4" && p.videoFile == title + "_video.mp4")
      && (p.Single? ==> p.stream.subtype == "mp4" && p.file == title + ".mp4")
  {
    var p := PlanVideo(catalogue, title);
    var v := VideoOf(p);
    VideoIsMp4(catalogue, title);
    if p.Merge? {
      Mp4Names(title, v.value);
    } else if p.Single? {
      Mp4Names(title, v.value);
    }
  }

  lemma VideoIsMp4(catalogue: seq<Stream>, title: string)
    ensures var p := PlanVideo(catalogue, title);
      && (p.Merge? ==> p.videoFile == VideoName(title, p.video))
      && (p.Single? ==> p.file == SingleName(title, p.stream))
      && (VideoOf(p).Some? ==> VideoOf(p).value.subtype == "mp4")
  {
    var adaptive := BestOf(catalogue, AdaptiveMp4Video, Resolution);
    var progressive := BestOf(catalogue, ProgressiveMp4, Resolution);
    assert adaptive.Some? ==> adaptive.value.subtype == "mp4";
    assert progressive.Some? ==> progressive.value.subtype == "mp4";
  }

  lemma Mp4Names(title: string, s: Stream)
    requires s.subtype == "mp4"
    ensures VideoName(title, s) == title + "_video.mp4"
    ensures SingleName(title, s) == title + ".mp4"
  {
    assert "_video." + s.subtype == "_video.mp4";
    assert "." + s.subtype == ".mp4";
  }

  /** The audio branch saves the best audio-only stream as one file and
      raises when there is none. */
  lemma PlanAudioSpec(catalogue: seq<Stream>, title: string)
    ensures var p := PlanAudio(catalogue, title);
      && !p.Merge?
      && (p.NoStream? <==> !Has(catalogue, AnyAudio))
      && (p.NoStream? ==> p.reason == NoAudioStream)
      && (p.Single? ==> IsBest(p.stream, catalogue, AnyAudio, Abr) && p.file == SingleName(title, p.stream))
  {
  }

  /** A progressive stream is chosen only when no adaptive mp4 video exists,
      and an adaptive one is chosen whenever one exists. */
  lemma AdaptivePreferred(catalogue: seq<Stream>, title: string)
    ensures var v := VideoOf(PlanVideo(catalogue, title));
      v.Some? ==> (v.value.kind == AdaptiveVideo <==> Has(catalogue, AdaptiveMp4Video))
  {
    PlanVideoSpec(catalogue, title);
  }

  /** Tags identify streams within a catalogue. */
  predicate DistinctTags(catalogue: seq<Stream>) {
    forall i, j :: 0 <= i < j < |catalogue| ==> catalogue[i].itag != catalogue[j].itag
  }

  /** With distinct tags, the video branch merges exactly when it has both a
      video candidate and an audio-only stream. */
  lemma MergeIffBoth(catalogue: seq<Stream>, title: string)
    requires DistinctTags(catalogue)
    ensures PlanVideo(catalogue, title).Merge? <==>
      (Has(catalogue, AdaptiveMp4Video) || Has(catalogue, ProgressiveMp4)) && Has(catalogue, AnyAudio)
  {
    var p := PlanVideo(catalogue, title);
    PlanVideoSpec(catalogue, title);
    if p.Single? && Has(catalogue, AnyAudio) {
      var a :| IsBest(a, catalogue, AnyAudio, Abr) && a.itag == p.stream.itag;
      SameTagSameStream(catalogue, a, p.stream);
    }
  }

  lemma SameTagSameStream(catalogue: seq<Stream>, s: Stream, t: Stream)
    requires DistinctTags(catalogue)
    requires s in catalogue && t in catalogue && s.itag == t.itag
    ensures s == t
  {
    var i :| 0 <= i < |catalogue| && catalogue[i] == s;
    var j :| 0 <= j < |catalogue| && catalogue[j] == t;
    if i < j {
    } else if j < i {
    }
  }

  /** The three names of a merge differ from each other, so no download
      overwrites another and the merged file is none of its inputs. */
  lemma MergeNamesDistinct(title: string, v: Stream, a: Stream)
    ensures VideoName(title, v) != AudioName(title, a)
    ensures VideoName(title, v) != MergedName(title)
    ensures AudioName(title, a) != MergedName(title)
  {
    assert VideoName(title, v)[|title| + 1] == 'v';
    assert AudioName(title, a)[|title| + 1] == 'a';
    assert VideoName(title, v)[|title|] == '_';
    assert AudioName(title, a)[|title|] == '_';
    assert MergedName(title)[|title|] == '.';
  }
}
