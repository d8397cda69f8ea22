/**
  What `handlerUploadThumbnail` promises, stated over its check order
  `ThumbnailFailure` and its trace specification `ThumbnailTrace`.
 */
module UploadThumbnailProperties {
  import opened Wrappers
  import opened Api
  import opened UploadThumbnail

  /** Whether one check fails, judged on its own, without regard to the others. */
  predicate StepFails(req: Request, ext: ThumbnailExternals, step: Step) {
    match step
    case ParseVideoID => req.videoID.None?
    case FindToken => req.bearerToken.None?
    case ValidateToken => ext.jwtUser.None?
    case ParseForm => !MultipartParses(req, None)
    case ReadFormFile => ext.formFile.None?
    case FindVideo => ext.lookup.err == NoRows
    case LookupError => ext.lookup.err != NoError
    case CheckOwner => ext.jwtUser.Some? && ext.lookup.video.userID != ext.jwtUser.value
    case CreateAsset => !ext.createOk
    case CopyToAsset => !ext.copyOk
    case UpdateRecord => !ext.updateOk
  }

  /** No two checks share a position. */
  lemma IndexInjective(s: Step, t: Step)
    requires s.Index() == t.Index()
    ensures s == t
  {
  }

  /**
    The handler answers for the earliest failing check: the reported step
    fails and every step before it passes, and it reports nothing exactly
    when no check fails.
   */
  lemma FirstFailureIsEarliest(req: Request, ext: ThumbnailExternals, s: Step)
    ensures ThumbnailFailure(req, ext) == Some(s) <==>
      (StepFails(req, ext, s) && forall t: Step :: t.Index() < s.Index() ==> !StepFails(req, ext, t))
    ensures ThumbnailFailure(req, ext).None? <==> forall t: Step :: !StepFails(req, ext, t)
  {
    var f := ThumbnailFailure(req, ext);
    if f.Some? {
      EarliestFails(req, ext);
      if StepFails(req, ext, s) && forall t: Step :: t.Index() < s.Index() ==> !StepFails(req, ext, t) {
        assert !(f.value.Index() < s.Index());
        assert !(s.Index() < f.value.Index());
        IndexInjective(s, f.value);
      }
    } else {
      forall t: Step ensures !StepFails(req, ext, t) {
        NoneFails(req, ext, t);
      }
    }
  }

  lemma EarliestFails(req: Request, ext: ThumbnailExternals)
    requires ThumbnailFailure(req, ext).Some?
    ensures StepFails(req, ext, ThumbnailFailure(req, ext).value)
    ensures forall t: Step :: t.Index() < ThumbnailFailure(req, ext).value.Index() ==> !StepFails(req, ext, t)
  {
  }

  lemma NoneFails(req: Request, ext: ThumbnailExternals, t: Step)
    requires ThumbnailFailure(req, ext).None?
    ensures !StepFails(req, ext, t)
  {
  }

  /**
    Lines 21-52: the video ID (400), the token (401), the JWT (401), the
    multipart form (500) and the form file (400), in that order, and a
    failure among them leaves the database untouched: the trace is at most
    the form parse and the error response.
   */
  lemma ReceiveChecks(cfg: Config, req: Request, ext: ThumbnailExternals)
    ensures req.videoID.None? ==> ResponseStatus(ThumbnailFailure(req, ext)) == StatusBadRequest
    ensures req.videoID.Some? && req.bearerToken.None? ==>
      ResponseStatus(ThumbnailFailure(req, ext)) == StatusUnauthorized
    ensures req.videoID.Some? && req.bearerToken.Some? && ext.jwtUser.None? ==>
      ResponseStatus(ThumbnailFailure(req, ext)) == StatusUnauthorized
    ensures req.videoID.Some? && req.bearerToken.Some? && ext.jwtUser.Some? && !MultipartParses(req, None) ==>
      ResponseStatus(ThumbnailFailure(req, ext)) == StatusInternalServerError
    ensures (req.videoID.Some? && req.bearerToken.Some? && ext.jwtUser.Some? && MultipartParses(req, None)
      && ext.formFile.None?) ==> ResponseStatus(ThumbnailFailure(req, ext)) == StatusBadRequest
    ensures !Passed(ThumbnailFailure(req, ext), ReadFormFile) ==>
      ThumbnailTrace(cfg, req, ext) == [Respond(ResponseStatus(ThumbnailFailure(req, ext)), None)]
      || ThumbnailTrace(cfg, req, ext) == [ParseMultipartForm(MaxMemory), Respond(ResponseStatus(ThumbnailFailure(req, ext)), None)]
  {
    if !Passed(ThumbnailFailure(req, ext), ReadFormFile) {
      TraceWhenReceiveFails(cfg, req, ext);
    }
  }

  /**
    Lines 57-70: once the form is read, a missing record is 404 and any
    other lookup error 500, and the owner is compared only with a record
    that was found (a mismatch is 401).
   */
  lemma LookupOutcomes(req: Request, ext: ThumbnailExternals)
    requires Passed(ThumbnailFailure(req, ext), ReadFormFile)
    ensures ext.lookup.err == NoRows ==> ResponseStatus(ThumbnailFailure(req, ext)) == StatusNotFound
    ensures ext.lookup.err == OtherError ==> ResponseStatus(ThumbnailFailure(req, ext)) == StatusInternalServerError
    ensures ThumbnailFailure(req, ext) == Some(CheckOwner) <==>
      ext.lookup.err == NoError && ext.lookup.video.userID != ext.jwtUser.value
    ensures ThumbnailFailure(req, ext) == Some(CheckOwner) ==> ResponseStatus(ThumbnailFailure(req, ext)) == StatusUnauthorized
  {
  }

  /** Lines 72-77: the first registered extension when there is one, ".bin" otherwise. */
  lemma ExtensionFallback(extensions: Option<seq<string>>)
    ensures extensions.Some? && |extensions.value| > 0 ==> FileExtension(extensions) == extensions.value[0]
    ensures extensions.None? || |extensions.value| == 0 ==> FileExtension(extensions) == ".bin"
    ensures FileExtension(extensions) == ".bin" || FileExtension(extensions) in extensions.value
  {
  }

  /**
    `JoinPath` keeps both parts and puts exactly one separator between a
    non-empty root and the name (one already ending the root is reused).
   */
  lemma JoinPathLayout(root: string, name: string)
    ensures |root| <= |JoinPath(root, name)|
    ensures JoinPath(root, name)[..|root|] == root
    ensures |JoinPath(root, name)| - |name| >= |root|
    ensures JoinPath(root, name)[|JoinPath(root, name)| - |name|..] == name
    ensures |root| > 0 ==> JoinPath(root, name)[|JoinPath(root, name)| - |name| - 1] == '/'
    ensures |JoinPath(root, name)| - |name| - |root| <= 1
  {
  }

  /**
    Lines 78 and 93: the asset path lies under the assets root and the URL
    under `http://localhost:<port>/assets/`, and both end in the same file
    name, the raw path value followed by the extension. "Under" is a string
    prefix here: `JoinPath` does not model filepath.Clean, which would turn
    `./assets` joined with `id` into `assets/id` and resolve `..` in the
    path value, so the prefix holds of the joined string, not of Go's result.
   */
  lemma SharedFileName(cfg: Config, pathVideoID: string, fileExt: string)
    ensures var path := ThumbnailPath(cfg, pathVideoID, fileExt);
      |path| >= |cfg.assetsRoot| + |pathVideoID + fileExt| && path[..|cfg.assetsRoot|] == cfg.assetsRoot
      && path[|path| - |pathVideoID + fileExt|..] == pathVideoID + fileExt
    ensures var url := ThumbnailUrl(cfg, pathVideoID, fileExt);
      var host := "http://localhost:" + cfg.port + "/assets/";
      |url| == |host| + |pathVideoID + fileExt| && url[..|host|] == host && url[|host|..] == pathVideoID + fileExt
  {
    PathFileName(cfg.assetsRoot, pathVideoID, fileExt);
    var host := "http://localhost:" + cfg.port + "/assets/";
    assert ThumbnailUrl(cfg, pathVideoID, fileExt) == host + (pathVideoID + fileExt);
  }

  /** A joined path followed by an extension starts with the root and ends with the name and the extension. */
  lemma PathFileName(root: string, name: string, fileExt: string)
    ensures var path := JoinPath(root, name) + fileExt;
      |path| >= |root| + |name + fileExt| && path[..|root|] == root
      && path[|path| - |name + fileExt|..] == name + fileExt
  {
    var joined := JoinPath(root, name);
    JoinPathLayout(root, name);
    var path := joined + fileExt;
    var cut := |joined| - |name|;
    assert joined == joined[..cut] + name;
    assert path == joined[..cut] + (name + fileExt);
    assert path[..|root|] == joined[..|root|];
  }

  /** The updated record differs from the fetched one in its thumbnail URL only. */
  lemma UpdatedRecordChangesOnlyThumbnail(cfg: Config, req: Request, ext: ThumbnailExternals)
    ensures UpdatedRecord(cfg, req, ext).thumbnailURL == Some(ThumbnailUrl(cfg, req.pathVideoID, FileExtension(ext.extensions)))
    ensures UpdatedRecord(cfg, req, ext).(thumbnailURL := ext.lookup.video.thumbnailURL) == ext.lookup.video
  {
  }

  /** Membership in the trace, effect group by effect group. */
  lemma TraceMembers(cfg: Config, req: Request, ext: ThumbnailExternals, e: Effect)
    ensures e in ThumbnailTrace(cfg, req, ext) <==>
      (Passed(ThumbnailFailure(req, ext), ValidateToken) && e == ParseMultipartForm(MaxMemory))
      || (Passed(ThumbnailFailure(req, ext), ReadFormFile) && e == GetVideo(req.videoID.value))
      || e in AssetEffects(cfg, req, ext)
      || (Passed(ThumbnailFailure(req, ext), CopyToAsset) && e == UpdateVideo(UpdatedRecord(cfg, req, ext)))
      || e == ThumbnailResponse(cfg, req, ext)
      || e in ThumbnailDeferred(req, ext)
  {
    UnwindMembers(ThumbnailDeferred(req, ext));
  }

  /** The database is read only once every check of lines 21-52 passed, and for the requested ID. */
  lemma DatabaseUntouchedUntilForm(cfg: Config, req: Request, ext: ThumbnailExternals)
    ensures forall id :: GetVideo(id) in ThumbnailTrace(cfg, req, ext) ==>
      Passed(ThumbnailFailure(req, ext), ReadFormFile) && req.videoID == Some(id)
    ensures Passed(ThumbnailFailure(req, ext), ReadFormFile) ==>
      req.videoID.Some? && GetVideo(req.videoID.value) in ThumbnailTrace(cfg, req, ext)
  {
    forall id | GetVideo(id) in ThumbnailTrace(cfg, req, ext)
      ensures Passed(ThumbnailFailure(req, ext), ReadFormFile) && req.videoID == Some(id)
    {
      TraceMembers(cfg, req, ext, GetVideo(id));
    }
    if Passed(ThumbnailFailure(req, ext), ReadFormFile) {
      TraceMembers(cfg, req, ext, GetVideo(req.videoID.value));
    }
  }

  /**
    Lines 87-96: the record is written exactly when the copy succeeded, and
    what is written is the fetched record with the new thumbnail URL.
   */
  lemma RecordUpdatedOnlyAfterCopy(cfg: Config, req: Request, ext: ThumbnailExternals)
    ensures forall v :: UpdateVideo(v) in ThumbnailTrace(cfg, req, ext) ==>
      Passed(ThumbnailFailure(req, ext), CopyToAsset) && v == UpdatedRecord(cfg, req, ext)
    ensures Passed(ThumbnailFailure(req, ext), CopyToAsset) ==>
      UpdateVideo(UpdatedRecord(cfg, req, ext)) in ThumbnailTrace(cfg, req, ext)
  {
    forall v | UpdateVideo(v) in ThumbnailTrace(cfg, req, ext)
      ensures Passed(ThumbnailFailure(req, ext), CopyToAsset) && v == UpdatedRecord(cfg, req, ext)
    {
      UpdateInTrace(cfg, req, ext, v);
    }
    UpdateInTrace(cfg, req, ext, UpdatedRecord(cfg, req, ext));
  }

  lemma UpdateInTrace(cfg: Config, req: Request, ext: ThumbnailExternals, v: Video)
    ensures UpdateVideo(v) in ThumbnailTrace(cfg, req, ext) <==>
      Passed(ThumbnailFailure(req, ext), CopyToAsset) && v == UpdatedRecord(cfg, req, ext)
  {
    TraceMembers(cfg, req, ext, UpdateVideo(v));
  }

  /** Lines 96-102: a failed write is 500; when nothing fails the response is 200 with the written record. */
  lemma UpdateOutcome(cfg: Config, req: Request, ext: ThumbnailExternals)
    ensures ThumbnailFailure(req, ext) == Some(UpdateRecord) ==>
      ResponseStatus(ThumbnailFailure(req, ext)) == StatusInternalServerError
    ensures ThumbnailFailure(req, ext).None? ==>
      ResponseStatus(ThumbnailFailure(req, ext)) == StatusOK
      && ThumbnailResponse(cfg, req, ext) == Respond(StatusOK, Some(UpdatedRecord(cfg, req, ext)))
  {
  }

  /**
    Lines 79-91: once the owner is checked, a failed create or a failed copy
    of the asset file is 500, the create before the copy.
   */
  lemma AssetOutcomes(req: Request, ext: ThumbnailExternals)
    requires Passed(ThumbnailFailure(req, ext), CheckOwner)
    ensures !ext.createOk ==>
      ThumbnailFailure(req, ext) == Some(CreateAsset)
      && ResponseStatus(ThumbnailFailure(req, ext)) == StatusInternalServerError
    ensures ext.createOk && !ext.copyOk ==>
      ThumbnailFailure(req, ext) == Some(CopyToAsset)
      && ResponseStatus(ThumbnailFailure(req, ext)) == StatusInternalServerError
  {
  }

  /** The asset file is never removed, whatever the outcome (there is no deferred removal). */
  lemma NoFileRemoved(cfg: Config, req: Request, ext: ThumbnailExternals)
    ensures forall p :: Remove(p) !in ThumbnailTrace(cfg, req, ext)
  {
    forall p ensures Remove(p) !in ThumbnailTrace(cfg, req, ext) {
      TraceMembers(cfg, req, ext, Remove(p));
    }
  }

  /** The effects before the response include no response. */
  lemma BodyIsSilent(cfg: Config, req: Request, ext: ThumbnailExternals)
    ensures NoResponse(ThumbnailEffects(cfg, req, ext))
  {
  }

  /**
    Every run writes exactly one response, with the status of the first
    failing check (200 with the record when none fails), and only deferred
    closes run after it.
   */
  lemma RespondsOnce(cfg: Config, req: Request, ext: ThumbnailExternals)
    ensures RespondsOnceThenCleansUp(ThumbnailTrace(cfg, req, ext), ThumbnailResponse(cfg, req, ext))
    ensures ThumbnailResponse(cfg, req, ext).status == ResponseStatus(ThumbnailFailure(req, ext))
  {
    var body := ThumbnailEffects(cfg, req, ext);
    var response := ThumbnailResponse(cfg, req, ext);
    BodyIsSilent(cfg, req, ext);
    assert EndsWithResponse([response], response);
    ResponseAfterSilence(body, [response], response);
    ResponseThenCleanup(body + [response], ThumbnailDeferred(req, ext), response);
  }

  /**
    Lines 54 and 85: the asset file is closed exactly when it was created,
    and the uploaded part exactly when it was read.
   */
  lemma FilesClosed(cfg: Config, req: Request, ext: ThumbnailExternals)
    ensures Close(ThumbnailFile) in ThumbnailTrace(cfg, req, ext) <==> Passed(ThumbnailFailure(req, ext), CreateAsset)
    ensures Close(UploadedPart) in ThumbnailTrace(cfg, req, ext) <==> Passed(ThumbnailFailure(req, ext), ReadFormFile)
  {
    TraceMembers(cfg, req, ext, Close(ThumbnailFile));
    TraceMembers(cfg, req, ext, Close(UploadedPart));
  }

  /**
    Once created, the asset file is closed after its creation and before
    the uploaded part, which was deferred first.
   */
  lemma AssetClosedBeforePart(cfg: Config, req: Request, ext: ThumbnailExternals)
    requires Passed(ThumbnailFailure(req, ext), CreateAsset)
    ensures Precedes(ThumbnailTrace(cfg, req, ext),
      CreateFile(ThumbnailFile, ThumbnailPath(cfg, req.pathVideoID, FileExtension(ext.extensions))), Close(ThumbnailFile))
    ensures Precedes(ThumbnailTrace(cfg, req, ext), Close(ThumbnailFile), Close(UploadedPart))
  {
    var body := ThumbnailEffects(cfg, req, ext) + [ThumbnailResponse(cfg, req, ext)];
    var create := CreateFile(ThumbnailFile, ThumbnailPath(cfg, req.pathVideoID, FileExtension(ext.extensions)));
    var run := Unwind(ThumbnailDeferred(req, ext));
    assert ThumbnailDeferred(req, ext) == [Close(UploadedPart), Close(ThumbnailFile)];
    assert run == [Close(ThumbnailFile), Close(UploadedPart)];
    assert create in AssetEffects(cfg, req, ext);
    assert create in body;
    PrecedesAcross(body, run, create, Close(ThumbnailFile));
    var trace := body + run;
    assert trace[|body|] == Close(ThumbnailFile) && trace[|body| + 1] == Close(UploadedPart);
  }
}
