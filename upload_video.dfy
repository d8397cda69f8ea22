/**
  The video upload handler `handlerUploadVideo` with `checkUploadSize` and
  `checkMimeTypeMp4` (handler_upload_video.go).

  Every external call (JWT validation, the database, the multipart file, MIME
  parsing, temp-file creation and copy, ffprobe, ffmpeg, opening the remuxed
  file, S3, the record update) is an input outcome in `VideoExternals`. The
  handler is a method that records its side effects in a trace and its
  deferred calls on a stack. `FirstFailure` is its specification: the checks
  in source order, the first that fails deciding the response status.
 */
module UploadVideo {
  import opened Wrappers
  import opened Probe
  import opened StorageKey
  import opened Api

  /** 1 << 30 bytes, 1 GiB. */
  const UploadSizeLimit: int := 0x4000_0000

  const VideoMediaType: string := "video/mp4"

  /** The outcomes of the external calls one upload makes. */
  datatype VideoExternals = VideoExternals(
    jwtUser: Option<Uuid>,      // auth.ValidateJWT
    lookup: Lookup,             // cfg.db.GetVideo
    formFile: Option<string>,   // r.FormFile("video"): the part's Content-Type header
    mediaType: Option<string>,  // mime.ParseMediaType of that header
    tempCreated: bool,          // os.CreateTemp succeeded ...
    tempName: string,           // ... and named the file this
    copyOk: bool,               // io.Copy into the temp file
    probe: ProbeOutcome,        // ffprobe
    random: RandomKey,          // rand.Read into the 32-byte key buffer
    ffmpegOk: bool,             // ffmpeg -movflags faststart
    openOk: bool,               // os.Open of the remuxed file
    putObjectOk: bool,          // s3Client.PutObject (never consulted)
    updateOk: bool)             // cfg.db.UpdateVideo

  /** The handler's checks, in the order it makes them. */
  datatype Step =
    | SizeCheck | ParseVideoID | FindToken | ValidateToken
    | FindVideo | CheckOwner | LookupError
    | ReadFormFile | CheckMimeType
    | CreateTemp | CopyToTemp | ProbeAspect | FastStart | OpenProcessed | UpdateRecord
  {
    function Index(): nat {
      match this
      case SizeCheck => 0
      case ParseVideoID => 1
      case FindToken => 2
      case ValidateToken => 3
      case FindVideo => 4
      case CheckOwner => 5
      case LookupError => 6
      case ReadFormFile => 7
      case CheckMimeType => 8
      case CreateTemp => 9
      case CopyToTemp => 10
      case ProbeAspect => 11
      case FastStart => 12
      case OpenProcessed => 13
      case UpdateRecord => 14
    }

    /** The status the handler responds with when this check fails. */
    function Status(): int {
      match this
      case SizeCheck => StatusRequestEntityTooLarge
      case ParseVideoID => StatusBadRequest
      case FindToken | ValidateToken => StatusUnauthorized
      case FindVideo => StatusNotFound
      case CheckOwner | LookupError => StatusUnauthorized
      case ReadFormFile | CheckMimeType => StatusBadRequest
      case _ => StatusInternalServerError
    }
  }

  /** The media type, parameters stripped, must be exactly "video/mp4"; a parse error rejects. */
  function CheckMimeTypeMp4(mediaType: Option<string>): (ok: bool)
    ensures ok <==> mediaType == Some(VideoMediaType)
  {
    match mediaType
    case None => false
    case Some(t) => t == VideoMediaType
  }

  /** The declared length is at most 1 GiB and the form parses within a 1 GiB body. */
  predicate SizeAccepted(req: Request) {
    req.contentLength <= UploadSizeLimit && MultipartParses(req, Some(UploadSizeLimit))
  }

  /** The first failing check among size, video ID, token, JWT and the database lookup (lines 27-65). */
  function AuthFailure(req: Request, ext: VideoExternals): Option<Step> {
    if !SizeAccepted(req) then Some(SizeCheck)
    else if req.videoID.None? then Some(ParseVideoID)
    else if req.bearerToken.None? then Some(FindToken)
    else if ext.jwtUser.None? then Some(ValidateToken)
    else if ext.lookup.err == NoRows then Some(FindVideo)
    else if ext.lookup.video.userID != ext.jwtUser.value then Some(CheckOwner)
    else if ext.lookup.err != NoError then Some(LookupError)
    else None
  }

  /** The first failing check among form file, MIME type, temp file and probe (lines 67-102). */
  function StagingFailure(ext: VideoExternals): Option<Step> {
    if ext.formFile.None? then Some(ReadFormFile)
    else if !CheckMimeTypeMp4(ext.mediaType) then Some(CheckMimeType)
    else if !ext.tempCreated then Some(CreateTemp)
    else if !ext.copyOk then Some(CopyToTemp)
    else if GetVideoAspectRatio(ext.probe).Err? then Some(ProbeAspect)
    else None
  }

  /** The first failing step among remux, open and record update (lines 122-151); S3 is not among them. */
  function PublishFailure(ext: VideoExternals): Option<Step> {
    if !ext.ffmpegOk then Some(FastStart)
    else if !ext.openOk then Some(OpenProcessed)
    else if !ext.updateOk then Some(UpdateRecord)
    else None
  }

  /** The first check that fails, None when every check passes. */
  function FirstFailure(req: Request, ext: VideoExternals): Option<Step> {
    if AuthFailure(req, ext).Some? then AuthFailure(req, ext)
    else if StagingFailure(ext).Some? then StagingFailure(ext)
    else PublishFailure(ext)
  }

  /** The status the client sees; on success the handler writes nothing, so net/http sends 200. */
  function ResponseStatus(failure: Option<Step>): int {
    match failure
    case None => StatusOK
    case Some(step) => step.Status()
  }

  /** The step ran and succeeded. */
  predicate Passed(failure: Option<Step>, step: Step) {
    failure.None? || failure.value.Index() > step.Index()
  }

  /** The storage key of an upload whose probe succeeded. */
  function VideoKey(probe: ProbeOutcome, random: RandomKey): string
    requires ProbeSucceeded(probe)
  {
    FileS3Key(S3Prefix(GetVideoAspectRatio(probe).value), random)
  }

  /** The record the handler writes back: the fetched record with its VideoURL set. */
  function UpdatedRecord(cfg: Config, ext: VideoExternals): Video
    requires ProbeSucceeded(ext.probe)
  {
    ext.lookup.video.(videoURL := Some(VideoUrl(cfg.s3Bucket, cfg.s3Region, VideoKey(ext.probe, ext.random))))
  }

  /*
    The specification of the trace. Each group of effects happens exactly when
    the check that guards it in the source has passed; the response, if any,
    comes after all of them, and the deferred calls run last, newest first.
   */

  /** The size check caps the body and parses the form unless the declared length is already too large. */
  function SizeEffects(req: Request): seq<Effect> {
    if req.contentLength > UploadSizeLimit then []
    else [LimitBody(UploadSizeLimit), ParseMultipartForm(UploadSizeLimit)]
  }

  /** Lines 27-65: the size check, then the record lookup once the JWT is valid. */
  function AuthEffects(req: Request, ext: VideoExternals): seq<Effect> {
    var f := FirstFailure(req, ext);
    SizeEffects(req) + if Passed(f, ValidateToken) then [GetVideo(req.videoID.value)] else []
  }

  /** Lines 67-102: the temp file and the copy once it exists, ffprobe once the copy succeeded. */
  function StageEffects(req: Request, ext: VideoExternals): seq<Effect> {
    var f := FirstFailure(req, ext);
    (if Passed(f, CreateTemp) then [CreateFile(TempFile, ext.tempName), CopyInto(TempFile)] else [])
    + if Passed(f, CopyToTemp) then [RunCommand(Ffprobe(ext.tempName))] else []
  }

  /**
    Lines 113-151, once the probe succeeded and given the first failing
    step: rewind, key and ffmpeg; open once ffmpeg succeeded; upload and
    record update once the output is open.
   */
  function PublishGroups(cfg: Config, ext: VideoExternals, f: Option<Step>): seq<Effect>
    requires ProbeSucceeded(ext.probe) && ext.formFile.Some?
  {
    var processed := FastStartOutputPath(ext.tempName);
    [Rewind(TempFile), GenerateKey(VideoKey(ext.probe, ext.random)), RunCommand(Ffmpeg(ext.tempName, processed))]
    + (if Passed(f, FastStart) then [Open(processed)] else [])
    + if Passed(f, OpenProcessed)
      then [PutObject(cfg.s3Bucket, VideoKey(ext.probe, ext.random), ext.formFile.value), UpdateVideo(UpdatedRecord(cfg, ext))]
      else []
  }

  /** Lines 113-151: nothing unless the probe succeeded. */
  function PublishEffects(cfg: Config, req: Request, ext: VideoExternals): seq<Effect> {
    var f := FirstFailure(req, ext);
    if Passed(f, ProbeAspect) then PublishGroups(cfg, ext, f) else []
  }

  /** The error response of a failed check; nothing on success. */
  function Response(failure: Option<Step>): seq<Effect> {
    if failure.Some? then [Respond(failure.value.Status(), None)] else []
  }

  /** Calls deferred in lines 73-90: the form part once it is read, the temp file once it exists. */
  function StageDeferred(req: Request, ext: VideoExternals): seq<Effect> {
    var f := FirstFailure(req, ext);
    (if Passed(f, ReadFormFile) then [Close(UploadedPart)] else [])
    + if Passed(f, CreateTemp) then [Close(TempFile), Remove(ext.tempName)] else []
  }

  /** Calls deferred in lines 134-135, given the first failing step: the remuxed file, once it is open. */
  function PublishDeferredGroup(ext: VideoExternals, f: Option<Step>): seq<Effect> {
    if Passed(f, OpenProcessed) then [Close(ProcessedFile), Remove(FastStartOutputPath(ext.tempName))] else []
  }

  function PublishDeferred(req: Request, ext: VideoExternals): seq<Effect> {
    PublishDeferredGroup(ext, FirstFailure(req, ext))
  }

  /** Everything one request does, in order. */
  function VideoTrace(cfg: Config, req: Request, ext: VideoExternals): seq<Effect> {
    AuthEffects(req, ext) + StageEffects(req, ext) + PublishEffects(cfg, req, ext)
    + Response(FirstFailure(req, ext))
    + Unwind(StageDeferred(req, ext) + PublishDeferred(req, ext))
  }

  /**
    `checkUploadSize`: a declared length over 1 GiB is rejected at once;
    otherwise the body is capped at 1 GiB and the form parsed, and a parse
    error is rejected too. Both rejections are 413.
   */
  method CheckUploadSize(req: Request) returns (ok: bool, trace: seq<Effect>)
    ensures ok <==> SizeAccepted(req)
    ensures trace == SizeEffects(req) + if ok then [] else [Respond(StatusRequestEntityTooLarge, None)]
  {
    if req.contentLength > UploadSizeLimit {
      return false, [Respond(StatusRequestEntityTooLarge, None)];
    }
    trace := [LimitBody(UploadSizeLimit), ParseMultipartForm(UploadSizeLimit)];
    ok := MultipartParses(req, Some(UploadSizeLimit));
    if !ok {
      trace := trace + [Respond(StatusRequestEntityTooLarge, None)];
    }
  }

  /**
    Lines 27-65: the size guard, the video ID, the bearer token and the JWT,
    then the record lookup. The owner comparison comes before the lookup
    error is examined, so a failed lookup ends in 401 as well.
   */
  method Authorize(req: Request, ext: VideoExternals) returns (failure: Option<Step>, trace: seq<Effect>)
    ensures failure == AuthFailure(req, ext)
    ensures trace == AuthEffects(req, ext) + Response(failure)
  {
    var sizeOk;
    sizeOk, trace := CheckUploadSize(req);
    if !sizeOk {
      return Some(SizeCheck), trace;
    }
    if req.videoID.None? {
      return Some(ParseVideoID), trace + [Respond(StatusBadRequest, None)];
    }
    var videoID := req.videoID.value;
    if req.bearerToken.None? {
      return Some(FindToken), trace + [Respond(StatusUnauthorized, None)];
    }
    if ext.jwtUser.None? {
      return Some(ValidateToken), trace + [Respond(StatusUnauthorized, None)];
    }
    var userID := ext.jwtUser.value;
    trace := trace + [GetVideo(videoID)];
    if ext.lookup.err == NoRows {
      return Some(FindVideo), trace + [Respond(StatusNotFound, None)];
    }
    if ext.lookup.video.userID != userID {
      return Some(CheckOwner), trace + [Respond(StatusUnauthorized, None)];
    }
    if ext.lookup.err != NoError {
      return Some(LookupError), trace + [Respond(StatusUnauthorized, None)];
    }
    failure := None;
  }

  /**
    Lines 67-102: the form file and its MIME type, the temp file (whose close
    and removal are deferred as soon as it exists), the copy, and the probe.
   */
  method StageUpload(req: Request, ext: VideoExternals)
    returns (failure: Option<Step>, trace: seq<Effect>, deferred: seq<Effect>)
    requires AuthFailure(req, ext).None?
    ensures failure == StagingFailure(ext)
    ensures trace == StageEffects(req, ext) + Response(failure)
    ensures deferred == StageDeferred(req, ext)
  {
    trace, deferred := [], [];
    if ext.formFile.None? {
      return Some(ReadFormFile), [Respond(StatusBadRequest, None)], deferred;
    }
    deferred := deferred + [Close(UploadedPart)];
    if !CheckMimeTypeMp4(ext.mediaType) {
      return Some(CheckMimeType), [Respond(StatusBadRequest, None)], deferred;
    }
    if !ext.tempCreated {
      return Some(CreateTemp), [Respond(StatusInternalServerError, None)], deferred;
    }
    var tempName := ext.tempName;
    trace := [CreateFile(TempFile, tempName)];
    deferred := deferred + [Close(TempFile), Remove(tempName)];
    trace := trace + [CopyInto(TempFile)];
    if !ext.copyOk {
      return Some(CopyToTemp), trace + [Respond(StatusInternalServerError, None)], deferred;
    }
    trace := trace + [RunCommand(Ffprobe(tempName))];
    var videoAspectRatio := GetVideoAspectRatio(ext.probe);
    if videoAspectRatio.Err? {
      return Some(ProbeAspect), trace + [Respond(StatusInternalServerError, None)], deferred;
    }
    failure := None;
  }

  /**
    Lines 104-151: the prefix and the key (generated before ffmpeg runs), the
    remux, opening its output (whose close and removal are deferred only once
    it is open), the S3 upload whose result is ignored, and the record update.
   */
  method Publish(cfg: Config, req: Request, ext: VideoExternals)
    returns (failure: Option<Step>, trace: seq<Effect>, deferred: seq<Effect>)
    requires ProbeSucceeded(ext.probe) && ext.formFile.Some?
    ensures failure == PublishFailure(ext)
    ensures trace == PublishGroups(cfg, ext, failure) + Response(failure)
    ensures deferred == PublishDeferredGroup(ext, failure)
  {
    var contentType := ext.formFile.value;
    var tempName := ext.tempName;
    var videoS3Prefix := S3Prefix(GetVideoAspectRatio(ext.probe).value);
    trace := [Rewind(TempFile)];
    var fileS3Key := FileS3Key(videoS3Prefix, ext.random);
    assert fileS3Key == VideoKey(ext.probe, ext.random);
    trace := trace + [GenerateKey(fileS3Key)];
    deferred := [];

    trace := trace + [RunCommand(Ffmpeg(tempName, FastStartOutputPath(tempName)))];
    var processed := ProcessVideoForFastStart(tempName, ext.ffmpegOk);
    if processed.Err? {
      return Some(FastStart), trace + [Respond(StatusInternalServerError, None)], deferred;
    }
    var processedVideoPath := processed.value;
    trace := trace + [Open(processedVideoPath)];
    if !ext.openOk {
      return Some(OpenProcessed), trace + [Respond(StatusInternalServerError, None)], deferred;
    }
    deferred := deferred + [Close(ProcessedFile), Remove(processedVideoPath)];

    // the PutObject result is not looked at
    trace := trace + [PutObject(cfg.s3Bucket, fileS3Key, contentType)];
    var videoUrl := VideoUrl(cfg.s3Bucket, cfg.s3Region, fileS3Key);
    var videoMetadata := ext.lookup.video.(videoURL := Some(videoUrl));
    assert videoMetadata == UpdatedRecord(cfg, ext);
    trace := trace + [UpdateVideo(videoMetadata)];
    if !ext.updateOk {
      return Some(UpdateRecord), trace + [Respond(StatusInternalServerError, None)], deferred;
    }
    failure := None;
  }

  /** When a check among lines 27-65 fails, nothing else runs and nothing was deferred. */
  lemma TraceAfterAuthFailure(cfg: Config, req: Request, ext: VideoExternals)
    requires AuthFailure(req, ext).Some?
    ensures VideoTrace(cfg, req, ext) == AuthEffects(req, ext) + Response(AuthFailure(req, ext))
  {
    assert StageEffects(req, ext) == [] && PublishEffects(cfg, req, ext) == [];
    assert StageDeferred(req, ext) + PublishDeferred(req, ext) == [];
  }

  /** When a check among lines 67-102 fails, the remux stretch does not run. */
  lemma TraceAfterStageFailure(cfg: Config, req: Request, ext: VideoExternals)
    requires AuthFailure(req, ext).None? && StagingFailure(ext).Some?
    ensures VideoTrace(cfg, req, ext)
      == AuthEffects(req, ext) + (StageEffects(req, ext) + Response(StagingFailure(ext))) + Unwind(StageDeferred(req, ext))
  {
    var a, s, r := AuthEffects(req, ext), StageEffects(req, ext), Response(StagingFailure(ext));
    assert PublishEffects(cfg, req, ext) == [] && PublishDeferred(req, ext) == [];
    assert StageDeferred(req, ext) + [] == StageDeferred(req, ext);
    assert a + s + [] + r == a + (s + r);
  }

  /** Once lines 27-102 pass, the trace is the three stretches, the response and both sets of deferred calls. */
  lemma TraceAfterStaging(cfg: Config, req: Request, ext: VideoExternals)
    requires AuthFailure(req, ext).None? && StagingFailure(ext).None?
    ensures ProbeSucceeded(ext.probe) && ext.formFile.Some?
    ensures VideoTrace(cfg, req, ext)
      == AuthEffects(req, ext) + StageEffects(req, ext)
         + (PublishGroups(cfg, ext, PublishFailure(ext)) + Response(PublishFailure(ext)))
         + Unwind(StageDeferred(req, ext) + PublishDeferredGroup(ext, PublishFailure(ext)))
  {
    var f := FirstFailure(req, ext);
    assert f == PublishFailure(ext) && Passed(f, ProbeAspect);
    var a, s, p, r := AuthEffects(req, ext), StageEffects(req, ext), PublishEffects(cfg, req, ext), Response(f);
    assert p == PublishGroups(cfg, ext, f);
    assert PublishDeferred(req, ext) == PublishDeferredGroup(ext, f);
    assert a + s + p + r == a + s + (p + r);
  }

  /**
    `handlerUploadVideo` (lines 26-153): the three stretches in turn, each
    only when the one before passed, then the deferred calls, newest first.
   */
  method HandleUploadVideo(cfg: Config, req: Request, ext: VideoExternals) returns (status: int, trace: seq<Effect>)
    ensures status == ResponseStatus(FirstFailure(req, ext))
    ensures trace == VideoTrace(cfg, req, ext)
  {
    var failure, authTrace := Authorize(req, ext);
    if failure.Some? {
      TraceAfterAuthFailure(cfg, req, ext);
      return ResponseStatus(failure), authTrace;
    }
    assert authTrace == AuthEffects(req, ext);
    var stageTrace, staged;
    failure, stageTrace, staged := StageUpload(req, ext);
    if failure.Some? {
      TraceAfterStageFailure(cfg, req, ext);
      return ResponseStatus(failure), authTrace + stageTrace + Unwind(staged);
    }
    assert stageTrace == StageEffects(req, ext);
    TraceAfterStaging(cfg, req, ext);
    var publishTrace, published;
    failure, publishTrace, published := Publish(cfg, req, ext);
    status := ResponseStatus(failure);
    trace := authTrace + stageTrace + publishTrace + Unwind(staged + published);
  }
}
