/** Stream selection of `download_video_from_youtube` and
    `download_audio_from_youtube`: which of a video's streams gets fetched.

    pytube's stream list becomes a `seq<Stream>` in enumeration order.
    `filter(...).first()` is the first stream that matches; pytube's
    `order_by('resolution')` is a stable sort on the numeric resolution, so
    `asc().first()` is the first stream of least resolution and, because
    `desc()` reverses that sorted list, `desc().first()` is the LAST stream of
    greatest resolution. The fetch itself is left abstract. */
module StreamSelection {
  import opened Wrappers

  /** One stream descriptor. `itag` is pytube's identifier for the stream,
      `res` the numeric part of its resolution label (720 for "720p"). */
  datatype Stream = Stream(itag: nat, progressive: bool, ext: string, onlyAudio: bool, res: nat)

  /** The keyword filters the source passes to `streams.filter`. */
  datatype Criterion =
    | ProgressiveMp4                  // progressive=True, file_extension='mp4'
    | ProgressiveMp4At(height: nat)   // ... and res="<height>p"
    | AudioOnly                       // only_audio=True

  /** The error the source raises: `ValueError(message)`. */
  datatype SelectionError = ValueError(message: string)

  const LowQuality := "Low"
  const HighQuality := "High (HD)"
  const Mp4 := "mp4"

  /** The message of the error raised when no video stream fits `quality`. */
  function VideoError(quality: string): SelectionError {
    ValueError("Unable to download video at the selected quality: " + quality)
  }

  const NoAudioError := ValueError("No audio stream found.")

  predicate Matches(s: Stream, c: Criterion) {
    match c
    case ProgressiveMp4 => s.progressive && s.ext == Mp4
    case ProgressiveMp4At(height) => s.progressive && s.ext == Mp4 && s.res == height
    case AudioOnly => s.onlyAudio
  }

  /** Some stream of `ss` passes the filter `c`. */
  ghost predicate AnyMatch(ss: seq<Stream>, c: Criterion) {
    exists i :: 0 <= i < |ss| && Matches(ss[i], c)
  }

  /** `filter(c).first()`: the position of the first matching stream. */
  function First(ss: seq<Stream>, c: Criterion): (r: Option<nat>)
    ensures r.Some? <==> AnyMatch(ss, c)
    ensures r.Some? ==> r.value < |ss| && Matches(ss[r.value], c)
    ensures r.Some? ==> forall j :: 0 <= j < r.value ==> !Matches(ss[j], c)
    decreases |ss|
  {
    if |ss| == 0 then None
    else if Matches(ss[0], c) then Some(0)
    else
      match First(ss[1..], c)
      case None => None
      case Some(i) => Some(i + 1)
  }

  /** `filter(c).order_by('resolution').asc().first()`: the position of the
      first matching stream among those of least resolution. */
  function Lowest(ss: seq<Stream>, c: Criterion): (r: Option<nat>)
    ensures r.Some? <==> AnyMatch(ss, c)
    ensures r.Some? ==> r.value < |ss| && Matches(ss[r.value], c)
    ensures r.Some? ==> forall j :: 0 <= j < |ss| && Matches(ss[j], c) ==> ss[r.value].res <= ss[j].res
    ensures r.Some? ==> forall j :: 0 <= j < r.value && Matches(ss[j], c) ==> ss[r.value].res < ss[j].res
    decreases |ss|
  {
    if |ss| == 0 then None
    else
      var k := |ss| - 1;
      var best := Lowest(ss[..k], c);
      if !Matches(ss[k], c) then best
      else if best.None? || ss[k].res < ss[best.value].res then Some(k)
      else best
  }

  /** `filter(c).order_by('resolution').desc().first()`: the position of the
      last matching stream among those of greatest resolution. */
  function Highest(ss: seq<Stream>, c: Criterion): (r: Option<nat>)
    ensures r.Some? <==> AnyMatch(ss, c)
    ensures r.Some? ==> r.value < |ss| && Matches(ss[r.value], c)
    ensures r.Some? ==> forall j :: 0 <= j < |ss| && Matches(ss[j], c) ==> ss[j].res <= ss[r.value].res
    ensures r.Some? ==> forall j :: r.value < j < |ss| && Matches(ss[j], c) ==> ss[j].res < ss[r.value].res
    decreases |ss|
  {
    if |ss| == 0 then None
    else
      var k := |ss| - 1;
      var best := Highest(ss[..k], c);
      if !Matches(ss[k], c) then best
      else if best.None? || ss[best.value].res <= ss[k].res then Some(k)
      else best
  }

  /** The position of the stream `download_video_from_youtube` picks, if any:
      "Low" takes the least resolution; "High (HD)" tries 1080p, then 720p,
      then the greatest resolution; any other quality picks nothing. */
  function PickVideo(ss: seq<Stream>, quality: string): (r: Option<nat>)
    ensures r.Some? ==> r.value < |ss| && Matches(ss[r.value], ProgressiveMp4)
    ensures r.Some? <==> (quality == LowQuality || quality == HighQuality) && AnyMatch(ss, ProgressiveMp4)
  {
    if quality == LowQuality then Lowest(ss, ProgressiveMp4)
    else if quality == HighQuality then
      var full := First(ss, ProgressiveMp4At(1080));
      if full.Some? then full
      else
        var mid := First(ss, ProgressiveMp4At(720));
        if mid.Some? then mid
        else Highest(ss, ProgressiveMp4)
    else None
  }

  /** The stream `download_video_from_youtube` would fetch, or the
      `ValueError` it raises. */
  function SelectVideo(ss: seq<Stream>, quality: string): (r: Result<Stream, SelectionError>)
    ensures r.Success? ==> r.value in ss && Matches(r.value, ProgressiveMp4)
    ensures r.Success? <==> (quality == LowQuality || quality == HighQuality) && AnyMatch(ss, ProgressiveMp4)
    ensures r.Failure? ==> r.error == VideoError(quality)
  {
    match PickVideo(ss, quality)
    case Some(i) => Success(ss[i])
    case None => Failure(VideoError(quality))
  }

  /** The stream `download_audio_from_youtube` would fetch: the first
      audio-only one, or the `ValueError` it raises. */
  function SelectAudio(ss: seq<Stream>): (r: Result<Stream, SelectionError>)
    ensures r.Success? <==> AnyMatch(ss, AudioOnly)
    ensures r.Success? ==> r.value.onlyAudio
    ensures r.Success? ==> exists i :: 0 <= i < |ss| && ss[i] == r.value && forall j :: 0 <= j < i ==> !ss[j].onlyAudio
    ensures r.Failure? ==> r.error == NoAudioError
  {
    match First(ss, AudioOnly)
    case Some(i) => Success(ss[i])
    case None => Failure(NoAudioError)
  }

  /** The abstract side effect of a download: `stream` was written to
      `target`, and the function returned `path`. */
  datatype Download = Download(stream: Stream, target: string, path: string)

  /** `download_audio_from_youtube(url, outputPath)`: fetches the selected
      stream to `outputPath` and returns `outputPath` itself. */
  function DownloadAudio(ss: seq<Stream>, outputPath: string): (r: Result<Download, SelectionError>)
    ensures r.Success? <==> AnyMatch(ss, AudioOnly)
    ensures r.Success? ==> r.value.stream in ss && r.value.stream.onlyAudio
    ensures r.Success? ==> SelectAudio(ss) == Success(r.value.stream)
    ensures r.Success? ==> r.value.target == outputPath && r.value.path == outputPath
    ensures r.Failure? ==> r.error == NoAudioError
  {
    match SelectAudio(ss)
    case Success(s) => Success(Download(s, outputPath, outputPath))
    case Failure(e) => Failure(e)
  }

  /** `download_video_from_youtube(url, quality, outputPath)`: fetches the
      selected stream to `outputPath` and returns the path the fetch reports,
      which `fetch` stands for. */
  function DownloadVideo(ss: seq<Stream>, quality: string, outputPath: string,
                         fetch: (Stream, string) -> string): (r: Result<Download, SelectionError>)
    ensures r.Success? <==> (quality == LowQuality || quality == HighQuality) && AnyMatch(ss, ProgressiveMp4)
    ensures r.Success? ==> r.value.stream in ss && Matches(r.value.stream, ProgressiveMp4)
    ensures r.Success? ==> SelectVideo(ss, quality) == Success(r.value.stream)
    ensures r.Success? ==> r.value.target == outputPath && r.value.path == fetch(r.value.stream, outputPath)
    ensures r.Failure? ==> r.error == VideoError(quality)
  {
    match SelectVideo(ss, quality)
    case Success(s) => Success(Download(s, outputPath, fetch(s, outputPath)))
    case Failure(e) => Failure(e)
  }

  // ---------------------------------------------------------------------
  // The selection policy, quality by quality.

  /** "Low" picks a progressive mp4 of least resolution, the first of those
      in enumeration order, and fails only when there is no progressive mp4. */
  lemma LowPicksLeastResolution(ss: seq<Stream>)
    ensures SelectVideo(ss, LowQuality).Success? <==> AnyMatch(ss, ProgressiveMp4)
    ensures var r := SelectVideo(ss, LowQuality);
      r.Success? ==>
        && (forall j :: 0 <= j < |ss| && Matches(ss[j], ProgressiveMp4) ==> r.value.res <= ss[j].res)
        && exists i :: 0 <= i < |ss| && ss[i] == r.value
             && forall j :: 0 <= j < i && Matches(ss[j], ProgressiveMp4) ==> r.value.res < ss[j].res
    ensures SelectVideo(ss, LowQuality).Failure? ==> SelectVideo(ss, LowQuality).error == VideoError(LowQuality)
  {
    var p := Lowest(ss, ProgressiveMp4);
    if p.Some? {
      assert SelectVideo(ss, LowQuality).value == ss[p.value];
    }
  }

  /** "High (HD)" takes the first progressive mp4 at 1080p whenever there is one. */
  lemma HighPrefers1080(ss: seq<Stream>)
    requires AnyMatch(ss, ProgressiveMp4At(1080))
    ensures var r := SelectVideo(ss, HighQuality);
      && r.Success?
      && Matches(r.value, ProgressiveMp4At(1080))
      && exists i :: 0 <= i < |ss| && ss[i] == r.value
           && forall j :: 0 <= j < i ==> !Matches(ss[j], ProgressiveMp4At(1080))
  {
    var p := First(ss, ProgressiveMp4At(1080));
    assert SelectVideo(ss, HighQuality).value == ss[p.value];
  }

  /** Without a 1080p progressive mp4, "High (HD)" takes the first one at 720p. */
  lemma HighFallsBackTo720(ss: seq<Stream>)
    requires !AnyMatch(ss, ProgressiveMp4At(1080))
    requires AnyMatch(ss, ProgressiveMp4At(720))
    ensures var r := SelectVideo(ss, HighQuality);
      && r.Success?
      && Matches(r.value, ProgressiveMp4At(720))
      && exists i :: 0 <= i < |ss| && ss[i] == r.value
           && forall j :: 0 <= j < i ==> !Matches(ss[j], ProgressiveMp4At(720))
  {
    var p := First(ss, ProgressiveMp4At(720));
    assert SelectVideo(ss, HighQuality).value == ss[p.value];
  }

  /** Without 1080p or 720p, "High (HD)" takes a progressive mp4 of greatest
      resolution, the last of those in enumeration order, and fails exactly
      when there is no progressive mp4 at all. */
  lemma HighFallsBackToGreatest(ss: seq<Stream>)
    requires !AnyMatch(ss, ProgressiveMp4At(1080))
    requires !AnyMatch(ss, ProgressiveMp4At(720))
    ensures SelectVideo(ss, HighQuality).Success? <==> AnyMatch(ss, ProgressiveMp4)
    ensures var r := SelectVideo(ss, HighQuality);
      r.Success? ==>
        && (forall j :: 0 <= j < |ss| && Matches(ss[j], ProgressiveMp4) ==> ss[j].res <= r.value.res)
        && exists i :: 0 <= i < |ss| && ss[i] == r.value
             && forall j :: i < j < |ss| && Matches(ss[j], ProgressiveMp4) ==> ss[j].res < r.value.res
  {
    var p := Highest(ss, ProgressiveMp4);
    if p.Some? {
      assert SelectVideo(ss, HighQuality).value == ss[p.value];
    }
  }

  /** Two 480p progressive mp4 streams and nothing at 720p or 1080p: "High
      (HD)" takes the one enumerated last, as pytube's `desc()` reverses the
      stably sorted list. */
  lemma HighTieGoesToLastEnumerated()
    ensures var a := Stream(18, true, Mp4, false, 480);
            var b := Stream(22, true, Mp4, false, 480);
            SelectVideo([a, b], HighQuality) == Success(b)
  {
    var a := Stream(18, true, Mp4, false, 480);
    var b := Stream(22, true, Mp4, false, 480);
    assert !AnyMatch([a, b], ProgressiveMp4At(1080));
    assert !AnyMatch([a, b], ProgressiveMp4At(720));
    assert [a, b][..1] == [a];
  }
}
