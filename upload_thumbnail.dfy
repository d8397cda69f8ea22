/**
  The thumbnail upload handler `handlerUploadThumbnail`
  (handler_upload_thumbnail.go).

  As for the video handler, every external call (JWT validation, the
  multipart form, the database, `mime.ExtensionsByType`, file creation and
  copy, the record update) is an input outcome, and the handler records its
  side effects in a trace with its deferred calls on a stack.
  `ThumbnailFailure` is its check order and `ThumbnailTrace` its trace.
 */
module UploadThumbnail {
  import opened Wrappers
  import opened Api

  /** 10 << 20 bytes: what `ParseMultipartForm` keeps in memory; the rest spills to disk. */
  const MaxMemory: int := 10 * 1024 * 1024

  const DefaultExtension: string := ".bin"

  /** The outcomes of the external calls one thumbnail upload makes. */
  datatype ThumbnailExternals = ThumbnailExternals(
    jwtUser: Option<Uuid>,              // auth.ValidateJWT
    formFile: Option<string>,           // r.FormFile("thumbnail"): the part's Content-Type header
    lookup: Lookup,                     // cfg.db.GetVideo
    extensions: Option<seq<string>>,    // mime.ExtensionsByType of that header; None on error
    createOk: bool,                     // os.Create of the asset file
    copyOk: bool,                       // io.Copy into it
    updateOk: bool)                     // cfg.db.UpdateVideo

  /** The handler's checks, in the order it makes them. */
  datatype Step =
    | ParseVideoID | FindToken | ValidateToken | ParseForm | ReadFormFile
    | FindVideo | LookupError | CheckOwner
    | CreateAsset | CopyToAsset | UpdateRecord
  {
    function Index(): nat {
      match this
      case ParseVideoID => 0
      case FindToken => 1
      case ValidateToken => 2
      case ParseForm => 3
      case ReadFormFile => 4
      case FindVideo => 5
      case LookupError => 6
      case CheckOwner => 7
      case CreateAsset => 8
      case CopyToAsset => 9
      case UpdateRecord => 10
    }

    /** The status the handler responds with when this check fails. */
    function Status(): int {
      match this
      case ParseVideoID | ReadFormFile => StatusBadRequest
      case FindToken | ValidateToken | CheckOwner => StatusUnauthorized
      case FindVideo => StatusNotFound
      case _ => StatusInternalServerError
    }
  }

  /** The first check that fails, None when every check passes (lines 21-101). */
  function ThumbnailFailure(req: Request, ext: ThumbnailExternals): Option<Step> {
    if req.videoID.None? then Some(ParseVideoID)
    else if req.bearerToken.None? then Some(FindToken)
    else if ext.jwtUser.None? then Some(ValidateToken)
    else if !MultipartParses(req, None) then Some(ParseForm)
    else if ext.formFile.None? then Some(ReadFormFile)
    else if ext.lookup.err == NoRows then Some(FindVideo)
    else if ext.lookup.err != NoError then Some(LookupError)
    else if ext.lookup.video.userID != ext.jwtUser.value then Some(CheckOwner)
    else if !ext.createOk then Some(CreateAsset)
    else if !ext.copyOk then Some(CopyToAsset)
    else if !ext.updateOk then Some(UpdateRecord)
    else None
  }

  /** The step ran and succeeded. */
  predicate Passed(failure: Option<Step>, step: Step) {
    failure.None? || failure.value.Index() > step.Index()
  }

  function ResponseStatus(failure: Option<Step>): int {
    match failure
    case None => StatusOK
    case Some(step) => step.Status()
  }

  /** Lines 72-77: the first registered extension, ".bin" when the lookup failed or found none. */
  function FileExtension(extensions: Option<seq<string>>): string {
    if extensions.Some? && |extensions.value| > 0 then extensions.value[0] else DefaultExtension
  }

  /**
    `filepath.Join` of two elements, the second non-empty: one separator
    between them, none added after an empty root. The lexical clean-up Join
    also does (`.`, `..`, repeated separators) is not modelled.
   */
  function JoinPath(root: string, name: string): string {
    if |root| == 0 then name
    else if root[|root| - 1] == '/' then root + name
    else root + "/" + name
  }

  /** Line 78: the asset file's path, from the raw path value and the extension. */
  function ThumbnailPath(cfg: Config, pathVideoID: string, fileExt: string): string {
    JoinPath(cfg.assetsRoot, pathVideoID) + fileExt
  }

  /** Line 93: the URL the asset is served under. */
  function ThumbnailUrl(cfg: Config, pathVideoID: string, fileExt: string): string {
    "http://localhost:" + cfg.port + "/assets/" + pathVideoID + fileExt
  }

  /** Lines 95-96: the fetched record with its thumbnail URL set. */
  function UpdatedRecord(cfg: Config, req: Request, ext: ThumbnailExternals): Video {
    ext.lookup.video.(thumbnailURL := Some(ThumbnailUrl(cfg, req.pathVideoID, FileExtension(ext.extensions))))
  }

  /*
    The specification of the trace: each group of effects happens exactly
    when the check guarding it in the source has passed, then the one
    response, then the deferred calls, newest first.
   */

  /** Lines 42-93: the form parse once the JWT is valid, the lookup once the form file is read, the asset file once it is created, the update once the copy succeeded. */
  function ThumbnailEffects(cfg: Config, req: Request, ext: ThumbnailExternals): seq<Effect> {
    var f := ThumbnailFailure(req, ext);
    (if Passed(f, ValidateToken) then [ParseMultipartForm(MaxMemory)] else [])
    + (if Passed(f, ReadFormFile) then [GetVideo(req.videoID.value)] else [])
    + AssetEffects(cfg, req, ext)
    + if Passed(f, CopyToAsset) then [UpdateVideo(UpdatedRecord(cfg, req, ext))] else []
  }

  /** The error response of the failed check, or 200 with the updated record. */
  function ThumbnailResponse(cfg: Config, req: Request, ext: ThumbnailExternals): Effect {
    var f := ThumbnailFailure(req, ext);
    if f.Some? then Respond(f.value.Status(), None) else Respond(StatusOK, Some(UpdatedRecord(cfg, req, ext)))
  }

  /** Calls deferred at lines 54 and 85: the form part once read, the asset file once created. */
  function ThumbnailDeferred(req: Request, ext: ThumbnailExternals): seq<Effect> {
    var f := ThumbnailFailure(req, ext);
    (if Passed(f, ReadFormFile) then [Close(UploadedPart)] else [])
    + if Passed(f, CreateAsset) then [Close(ThumbnailFile)] else []
  }

  function ThumbnailTrace(cfg: Config, req: Request, ext: ThumbnailExternals): seq<Effect> {
    ThumbnailEffects(cfg, req, ext) + [ThumbnailResponse(cfg, req, ext)] + Unwind(ThumbnailDeferred(req, ext))
  }

  /**
    Lines 21-54: the video ID, the bearer token and the JWT, the multipart
    form, and the form file, all before the database is touched.
   */
  method ReceiveThumbnail(req: Request, ext: ThumbnailExternals)
    returns (failure: Option<Step>, trace: seq<Effect>, deferred: seq<Effect>)
    ensures failure.Some? ==> failure == ThumbnailFailure(req, ext) && failure.value.Index() <= ReadFormFile.Index()
    ensures failure.None? <==> Passed(ThumbnailFailure(req, ext), ReadFormFile)
    ensures trace == (if Passed(ThumbnailFailure(req, ext), ValidateToken) then [ParseMultipartForm(MaxMemory)] else [])
      + if failure.Some? then [Respond(failure.value.Status(), None)] else []
    ensures deferred == if failure.None? then [Close(UploadedPart)] else []
  {
    trace, deferred := [], [];
    if req.videoID.None? {
      return Some(ParseVideoID), [Respond(StatusBadRequest, None)], deferred;
    }
    if req.bearerToken.None? {
      return Some(FindToken), [Respond(StatusUnauthorized, None)], deferred;
    }
    if ext.jwtUser.None? {
      return Some(ValidateToken), [Respond(StatusUnauthorized, None)], deferred;
    }
    trace := [ParseMultipartForm(MaxMemory)];
    if !MultipartParses(req, None) {
      return Some(ParseForm), trace + [Respond(StatusInternalServerError, None)], deferred;
    }
    if ext.formFile.None? {
      return Some(ReadFormFile), trace + [Respond(StatusBadRequest, None)], deferred;
    }
    deferred := [Close(UploadedPart)];
    failure := None;
  }

  /**
    Lines 55-102: the lookup (not found 404, any other error 500), the owner
    check, the extension, the asset file and the copy (the file is closed on
    return but never removed), the record update, and the 200 response.
   */
  method StoreThumbnail(cfg: Config, req: Request, ext: ThumbnailExternals)
    returns (failure: Option<Step>, trace: seq<Effect>, deferred: seq<Effect>)
    requires Passed(ThumbnailFailure(req, ext), ReadFormFile)
    ensures failure == ThumbnailFailure(req, ext)
    ensures trace == [GetVideo(req.videoID.value)] + AssetEffects(cfg, req, ext)
      + (if Passed(failure, CopyToAsset) then [UpdateVideo(UpdatedRecord(cfg, req, ext))] else [])
      + [ThumbnailResponse(cfg, req, ext)]
    ensures deferred == if Passed(failure, CreateAsset) then [Close(ThumbnailFile)] else []
  {
    var videoIDString := req.pathVideoID;
    var userID := ext.jwtUser.value;
    trace, deferred := [GetVideo(req.videoID.value)], [];
    var video := ext.lookup.video;
    if ext.lookup.err == NoRows {
      return Some(FindVideo), trace + [Respond(StatusNotFound, None)], deferred;
    }
    if ext.lookup.err != NoError {
      return Some(LookupError), trace + [Respond(StatusInternalServerError, None)], deferred;
    }
    if video.userID != userID {
      return Some(CheckOwner), trace + [Respond(StatusUnauthorized, None)], deferred;
    }

    var fileExt := DefaultExtension;
    if ext.extensions.Some? && |ext.extensions.value| > 0 {
      fileExt := ext.extensions.value[0];
    }
    var filePath := JoinPath(cfg.assetsRoot, videoIDString) + fileExt;
    if !ext.createOk {
      return Some(CreateAsset), trace + [Respond(StatusInternalServerError, None)], deferred;
    }
    trace := trace + [CreateFile(ThumbnailFile, filePath)];
    deferred := [Close(ThumbnailFile)];
    trace := trace + [CopyInto(ThumbnailFile)];
    if !ext.copyOk {
      return Some(CopyToAsset), trace + [Respond(StatusInternalServerError, None)], deferred;
    }

    var thumbURL := "http://localhost:" + cfg.port + "/assets/" + videoIDString + fileExt;
    video := video.(thumbnailURL := Some(thumbURL));
    trace := trace + [UpdateVideo(video)];
    if !ext.updateOk {
      return Some(UpdateRecord), trace + [Respond(StatusInternalServerError, None)], deferred;
    }
    trace := trace + [Respond(StatusOK, Some(video))];
    failure := None;
  }

  /** The asset file's effects, once it is created. */
  function AssetEffects(cfg: Config, req: Request, ext: ThumbnailExternals): seq<Effect> {
    var f := ThumbnailFailure(req, ext);
    if Passed(f, CreateAsset)
    then [CreateFile(ThumbnailFile, ThumbnailPath(cfg, req.pathVideoID, FileExtension(ext.extensions))), CopyInto(ThumbnailFile)]
    else []
  }

  /** When a check among lines 21-52 fails, the database is never reached and nothing was deferred. */
  lemma TraceWhenReceiveFails(cfg: Config, req: Request, ext: ThumbnailExternals)
    requires !Passed(ThumbnailFailure(req, ext), ReadFormFile)
    ensures ThumbnailTrace(cfg, req, ext)
      == (if Passed(ThumbnailFailure(req, ext), ValidateToken) then [ParseMultipartForm(MaxMemory)] else [])
         + [Respond(ThumbnailFailure(req, ext).value.Status(), None)]
  {
    var f := ThumbnailFailure(req, ext);
    var parse := if Passed(f, ValidateToken) then [ParseMultipartForm(MaxMemory)] else [];
    assert ThumbnailEffects(cfg, req, ext) == parse + [] + [] + [];
    assert ThumbnailDeferred(req, ext) == [];
  }

  /** Once the form file is read, the trace is the form parse, the second stretch, and both deferred closes. */
  lemma TraceWhenReceived(cfg: Config, req: Request, ext: ThumbnailExternals)
    requires Passed(ThumbnailFailure(req, ext), ReadFormFile)
    ensures ThumbnailTrace(cfg, req, ext)
      == [ParseMultipartForm(MaxMemory)]
         + ([GetVideo(req.videoID.value)] + AssetEffects(cfg, req, ext)
            + (if Passed(ThumbnailFailure(req, ext), CopyToAsset) then [UpdateVideo(UpdatedRecord(cfg, req, ext))] else [])
            + [ThumbnailResponse(cfg, req, ext)])
         + Unwind([Close(UploadedPart)] + if Passed(ThumbnailFailure(req, ext), CreateAsset) then [Close(ThumbnailFile)] else [])
  {
    var p, g, a := [ParseMultipartForm(MaxMemory)], [GetVideo(req.videoID.value)], AssetEffects(cfg, req, ext);
    var u := if Passed(ThumbnailFailure(req, ext), CopyToAsset) then [UpdateVideo(UpdatedRecord(cfg, req, ext))] else [];
    var r := [ThumbnailResponse(cfg, req, ext)];
    assert ThumbnailEffects(cfg, req, ext) == p + g + a + u;
    assert p + g + a + u + r == p + (g + a + u + r);
  }

  /** `handlerUploadThumbnail` (lines 20-103): both stretches, then the deferred calls, newest first. */
  method HandleUploadThumbnail(cfg: Config, req: Request, ext: ThumbnailExternals)
    returns (status: int, trace: seq<Effect>)
    ensures status == ResponseStatus(ThumbnailFailure(req, ext))
    ensures trace == ThumbnailTrace(cfg, req, ext)
  {
    var failure, received, deferred := ReceiveThumbnail(req, ext);
    if failure.Some? {
      TraceWhenReceiveFails(cfg, req, ext);
      return ResponseStatus(failure), received;
    }
    assert received == [ParseMultipartForm(MaxMemory)] && deferred == [Close(UploadedPart)];
    var stored, more;
    failure, stored, more := StoreThumbnail(cfg, req, ext);
    TraceWhenReceived(cfg, req, ext);
    status := ResponseStatus(failure);
    trace := received + stored + Unwind(deferred + more);
  }
}
