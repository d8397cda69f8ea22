/**
  Interpretation of the media probe (`getVideoAspectRatio`) and the fast-start
  remux path rule (`processVideoForFastStart`). The ffprobe and ffmpeg runs
  themselves are abstract outcomes: the probe either fails to run, prints
  output that does not unmarshal, or yields a list of stream geometries.
 */
module Probe {
  import opened Wrappers
  import opened Aspect

  /** One entry of ffprobe's `streams` array; absent JSON fields decode as 0. */
  datatype Stream = Stream(width: int, height: int)

  datatype ProbeOutcome =
    | CommandFailed
    | MalformedOutput
    | Parsed(streams: seq<Stream>)

  datatype ProbeError = RunFailed | UnmarshalFailed | NoStreams

  datatype FastStartError = FfmpegFailed

  /** ffprobe's arguments: error-level logging, JSON output, stream list only. */
  function FfprobeArgs(path: string): (args: seq<string>)
    ensures |args| == 6 && args[5] == path
  {
    ["-v", "error", "-print_format", "json", "-show_streams", path]
  }

  /** The probe produced at least one stream. */
  predicate ProbeSucceeded(probe: ProbeOutcome) {
    probe.Parsed? && |probe.streams| > 0
  }

  /** The aspect class of the first stream; an error for every other outcome. */
  function GetVideoAspectRatio(probe: ProbeOutcome): (r: Result<string, ProbeError>)
    ensures r.Ok? <==> ProbeSucceeded(probe)
    ensures r.Ok? ==> r.value in {Landscape, Portrait, Other}
    ensures probe == Parsed([]) ==> r == Err(NoStreams)
  {
    match probe
    case CommandFailed => Err(RunFailed)
    case MalformedOutput => Err(UnmarshalFailed)
    case Parsed(streams) =>
      if |streams| == 0 then Err(NoStreams)
      else Ok(DetermineStandardRatio(streams[0].width, streams[0].height))
  }

  /** Only the first stream is classified; whatever follows it is ignored. */
  lemma LaterStreamsIgnored(first: Stream, rest: seq<Stream>, other: seq<Stream>)
    ensures GetVideoAspectRatio(Parsed([first] + rest)) == GetVideoAspectRatio(Parsed([first] + other))
    ensures GetVideoAspectRatio(Parsed([first] + rest)) == Ok(DetermineStandardRatio(first.width, first.height))
  {
  }

  /** A 1920x1080 stream is reported as landscape. */
  lemma FullHdIsLandscape(rest: seq<Stream>)
    ensures GetVideoAspectRatio(Parsed([Stream(1920, 1080)] + rest)) == Ok(Landscape)
  {
  }

  /** The remuxed copy is written next to the input, under the input's name plus ".processing". */
  function FastStartOutputPath(input: string): string {
    input + ".processing"
  }

  /** The output path extends the input path, so the two never coincide. */
  lemma FastStartOutputExtendsInput(input: string)
    ensures |FastStartOutputPath(input)| == |input| + 11
    ensures FastStartOutputPath(input)[..|input|] == input
    ensures FastStartOutputPath(input) != input
  {
  }

  /** ffmpeg's arguments: stream copy, fast-start flag, mp4 container, output path last. */
  function FfmpegArgs(input: string, output: string): (args: seq<string>)
    ensures |args| == 9 && args[1] == input && args[8] == output
  {
    ["-i", input, "-c", "copy", "-movflags", "faststart", "-f", "mp4", output]
  }

  /**
   * An external program run through exec.Command, recorded by the paths it is
   * given: `Ffprobe(path)` runs ffprobe with `FfprobeArgs(path)` and
   * `Ffmpeg(input, output)` runs ffmpeg with `FfmpegArgs(input, output)`.
   * The argument lists are stated for the record only: no other member
   * consults them, and a trace event carries the paths, not the arguments.
   */
  datatype Command = Ffprobe(path: string) | Ffmpeg(input: string, output: string)

  /** The output path when ffmpeg succeeded; an error (and no path) when it failed. */
  function ProcessVideoForFastStart(input: string, ffmpegSucceeded: bool): (r: Result<string, FastStartError>)
    ensures r.Ok? <==> ffmpegSucceeded
    ensures r.Ok? ==> r.value == FastStartOutputPath(input)
  {
    if ffmpegSucceeded then Ok(FastStartOutputPath(input)) else Err(FfmpegFailed)
  }
}
