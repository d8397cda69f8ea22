/**
  What `handlerUploadVideo` promises, stated over its check order
  `FirstFailure` and its trace specification `VideoTrace`.
 */
module UploadVideoProperties {
  import opened Wrappers
  import opened Probe
  import opened StorageKey
  import opened Api
  import opened UploadVideo

  /** Whether one check fails, judged on its own, without regard to the others. */
  predicate StepFails(req: Request, ext: VideoExternals, step: Step) {
    match step
    case SizeCheck => !SizeAccepted(req)
    case ParseVideoID => req.videoID.None?
    case FindToken => req.bearerToken.None?
    case ValidateToken => ext.jwtUser.None?
    case FindVideo => ext.lookup.err == NoRows
    case CheckOwner => ext.jwtUser.Some? && ext.lookup.video.userID != ext.jwtUser.value
    case LookupError => ext.lookup.err != NoError
    case ReadFormFile => ext.formFile.None?
    case CheckMimeType => ext.mediaType != Some(VideoMediaType)
    case CreateTemp => !ext.tempCreated
    case CopyToTemp => !ext.copyOk
    case ProbeAspect => !ProbeSucceeded(ext.probe)
    case FastStart => !ext.ffmpegOk
    case OpenProcessed => !ext.openOk
    case UpdateRecord => !ext.updateOk
  }

  /** No two checks share a position. */
  lemma IndexInjective(s: Step, t: Step)
    requires s.Index() == t.Index()
    ensures s == t
  {
  }

  /**
    The handler answers for the earliest failing check: the reported step
    fails and every step before it passes, and it reports nothing exactly
    when no check fails.
   */
  lemma FirstFailureIsEarliest(req: Request, ext: VideoExternals, s: Step)
    ensures FirstFailure(req, ext) == Some(s) <==>
      (StepFails(req, ext, s) && forall t: Step :: t.Index() < s.Index() ==> !StepFails(req, ext, t))
    ensures FirstFailure(req, ext).None? <==> forall t: Step :: !StepFails(req, ext, t)
  {
    var f := FirstFailure(req, ext);
    if f.Some? {
      EarliestFails(req, ext);
      if StepFails(req, ext, s) && forall t: Step :: t.Index() < s.Index() ==> !StepFails(req, ext, t) {
        assert !(f.value.Index() < s.Index());
        assert !(s.Index() < f.value.Index());
        IndexInjective(s, f.value);
      }
    } else {
      forall t: Step ensures !StepFails(req, ext, t) {
        NoneFails(req, ext, t);
      }
    }
  }

  lemma EarliestFails(req: Request, ext: VideoExternals)
    requires FirstFailure(req, ext).Some?
    ensures StepFails(req, ext, FirstFailure(req, ext).value)
    ensures forall t: Step :: t.Index() < FirstFailure(req, ext).value.Index() ==> !StepFails(req, ext, t)
  {
  }

  lemma NoneFails(req: Request, ext: VideoExternals, t: Step)
    requires FirstFailure(req, ext).None?
    ensures !StepFails(req, ext, t)
  {
  }

  /** Line 57 runs before line 62: any lookup error other than "no rows" ends in 401, never 404 or 500. */
  lemma DbErrorIsUnauthorized(req: Request, ext: VideoExternals)
    requires SizeAccepted(req) && req.videoID.Some? && req.bearerToken.Some? && ext.jwtUser.Some?
    requires ext.lookup.err == OtherError
    ensures FirstFailure(req, ext) == Some(CheckOwner) || FirstFailure(req, ext) == Some(LookupError)
    ensures ResponseStatus(FirstFailure(req, ext)) == StatusUnauthorized
  {
  }

  /** A missing record is 404, whatever else the request carries. */
  lemma MissingVideoIsNotFound(req: Request, ext: VideoExternals)
    requires SizeAccepted(req) && req.videoID.Some? && req.bearerToken.Some? && ext.jwtUser.Some?
    requires ext.lookup.err == NoRows
    ensures ResponseStatus(FirstFailure(req, ext)) == StatusNotFound
  {
  }

  /**
    Lines 33-48: once the size is accepted, a missing or malformed video ID
    is 400, and a missing bearer token or an invalid JWT is 401, in that order.
   */
  lemma RequestChecks(req: Request, ext: VideoExternals)
    requires SizeAccepted(req)
    ensures req.videoID.None? ==>
      FirstFailure(req, ext) == Some(ParseVideoID) && ResponseStatus(FirstFailure(req, ext)) == StatusBadRequest
    ensures req.videoID.Some? && req.bearerToken.None? ==>
      FirstFailure(req, ext) == Some(FindToken) && ResponseStatus(FirstFailure(req, ext)) == StatusUnauthorized
    ensures req.videoID.Some? && req.bearerToken.Some? && ext.jwtUser.None? ==>
      FirstFailure(req, ext) == Some(ValidateToken) && ResponseStatus(FirstFailure(req, ext)) == StatusUnauthorized
  {
  }

  /**
    Lines 67-78: once the record is authorized, a missing form file is 400,
    and so is a media type that is not exactly "video/mp4".
   */
  lemma FormChecks(req: Request, ext: VideoExternals)
    requires Passed(FirstFailure(req, ext), LookupError)
    ensures ext.formFile.None? ==>
      FirstFailure(req, ext) == Some(ReadFormFile) && ResponseStatus(FirstFailure(req, ext)) == StatusBadRequest
    ensures ext.formFile.Some? && ext.mediaType != Some(VideoMediaType) ==>
      FirstFailure(req, ext) == Some(CheckMimeType) && ResponseStatus(FirstFailure(req, ext)) == StatusBadRequest
  {
  }

  /**
    The client sees 500 exactly when a server-side step failed: creating or
    filling the temp file, probing, remuxing, opening the remuxed file or
    writing the record (lines 80-151). Every earlier check answers 4xx.
   */
  lemma ServerErrorsAfterChecks(req: Request, ext: VideoExternals)
    ensures ResponseStatus(FirstFailure(req, ext)) == StatusInternalServerError <==>
      FirstFailure(req, ext).Some? && FirstFailure(req, ext).value.Index() >= CreateTemp.Index()
  {
  }

  /** A rejected size ends the request: the size check's own effects, the 413, and nothing after. */
  lemma RejectedSizeStopsHandler(cfg: Config, req: Request, ext: VideoExternals)
    requires !SizeAccepted(req)
    ensures ResponseStatus(FirstFailure(req, ext)) == StatusRequestEntityTooLarge
    ensures VideoTrace(cfg, req, ext) == SizeEffects(req) + [Respond(StatusRequestEntityTooLarge, None)]
    ensures req.contentLength > UploadSizeLimit ==> VideoTrace(cfg, req, ext) == [Respond(StatusRequestEntityTooLarge, None)]
  {
    TraceAfterAuthFailure(cfg, req, ext);
  }

  /** Whatever the declared length (even -1, unknown), an accepted body holds at most 1 GiB. */
  lemma AcceptedBodiesBounded(req: Request, ext: VideoExternals)
    requires Passed(FirstFailure(req, ext), SizeCheck)
    ensures req.bodyLength <= UploadSizeLimit && req.contentLength <= UploadSizeLimit
  {
  }

  /** The S3 upload's outcome changes neither the status nor anything the handler does. */
  lemma PutObjectResultIgnored(cfg: Config, req: Request, ext: VideoExternals, putObjectOk: bool)
    ensures FirstFailure(req, ext.(putObjectOk := putObjectOk)) == FirstFailure(req, ext)
    ensures VideoTrace(cfg, req, ext.(putObjectOk := putObjectOk)) == VideoTrace(cfg, req, ext)
  {
    var other := ext.(putObjectOk := putObjectOk);
    assert AuthFailure(req, other) == AuthFailure(req, ext);
    assert StagingFailure(other) == StagingFailure(ext);
    assert PublishFailure(other) == PublishFailure(ext);
    SameOutcomesSameTrace(cfg, req, ext, other);
  }

  /** Two outcome records that differ only in the S3 result give the same trace. */
  lemma SameOutcomesSameTrace(cfg: Config, req: Request, ext: VideoExternals, other: VideoExternals)
    requires other == ext.(putObjectOk := other.putObjectOk)
    requires FirstFailure(req, other) == FirstFailure(req, ext)
    ensures VideoTrace(cfg, req, other) == VideoTrace(cfg, req, ext)
  {
    assert AuthEffects(req, other) == AuthEffects(req, ext);
    assert StageEffects(req, other) == StageEffects(req, ext);
    if ProbeSucceeded(ext.probe) && ext.formFile.Some? {
      assert UpdatedRecord(cfg, other) == UpdatedRecord(cfg, ext);
      assert PublishGroups(cfg, other, FirstFailure(req, ext)) == PublishGroups(cfg, ext, FirstFailure(req, ext));
    }
    assert PublishEffects(cfg, req, other) == PublishEffects(cfg, req, ext);
    assert StageDeferred(req, other) == StageDeferred(req, ext);
    assert PublishDeferred(req, other) == PublishDeferred(req, ext);
  }

  /** Membership in the trace, group by group. */
  lemma VideoTraceMembers(cfg: Config, req: Request, ext: VideoExternals, e: Effect)
    ensures e in VideoTrace(cfg, req, ext) <==>
      e in AuthEffects(req, ext) || e in StageEffects(req, ext) || e in PublishEffects(cfg, req, ext)
      || e in Response(FirstFailure(req, ext)) || e in StageDeferred(req, ext) || e in PublishDeferred(req, ext)
  {
    UnwindMembers(StageDeferred(req, ext) + PublishDeferred(req, ext));
  }

  /** What passing the probe, the remux and the open imply about the outcomes. */
  lemma PublishPassedFacts(req: Request, ext: VideoExternals)
    ensures Passed(FirstFailure(req, ext), ProbeAspect) ==> ProbeSucceeded(ext.probe) && ext.formFile.Some?
    ensures Passed(FirstFailure(req, ext), FastStart) ==> Passed(FirstFailure(req, ext), ProbeAspect)
    ensures Passed(FirstFailure(req, ext), OpenProcessed) ==> Passed(FirstFailure(req, ext), FastStart)
  {
  }

  /** Membership in the publishing group, for any first failing step. */
  lemma PublishGroupsMembers(cfg: Config, ext: VideoExternals, f: Option<Step>, e: Effect)
    requires ProbeSucceeded(ext.probe) && ext.formFile.Some?
    ensures e in PublishGroups(cfg, ext, f) <==>
      e == Rewind(TempFile) || e == GenerateKey(VideoKey(ext.probe, ext.random))
      || e == RunCommand(Ffmpeg(ext.tempName, FastStartOutputPath(ext.tempName)))
      || (Passed(f, FastStart) && e == Open(FastStartOutputPath(ext.tempName)))
      || (Passed(f, OpenProcessed) && e == PutObject(cfg.s3Bucket, VideoKey(ext.probe, ext.random), ext.formFile.value))
      || (Passed(f, OpenProcessed) && e == UpdateVideo(UpdatedRecord(cfg, ext)))
  {
  }

  /** Membership in the publishing stretch of the trace. */
  lemma PublishMembers(cfg: Config, req: Request, ext: VideoExternals, e: Effect)
    ensures e in PublishEffects(cfg, req, ext) <==>
      Passed(FirstFailure(req, ext), ProbeAspect) && ProbeSucceeded(ext.probe) && ext.formFile.Some?
      && e in PublishGroups(cfg, ext, FirstFailure(req, ext))
  {
    PublishPassedFacts(req, ext);
  }

  /** What kinds of effect each group can hold. */
  lemma GroupKinds(cfg: Config, req: Request, ext: VideoExternals, e: Effect)
    ensures e in AuthEffects(req, ext) ==> e.LimitBody? || e.ParseMultipartForm? || e.GetVideo?
    ensures e in StageEffects(req, ext) ==> e.CreateFile? || e.CopyInto? || e.RunCommand?
    ensures e in PublishEffects(cfg, req, ext) ==>
      e.Rewind? || e.GenerateKey? || e.RunCommand? || e.Open? || e.PutObject? || e.UpdateVideo?
    ensures e in Response(FirstFailure(req, ext)) ==> e.Respond?
    ensures e in StageDeferred(req, ext) + PublishDeferred(req, ext) ==> e.Close? || e.Remove?
  {
    PublishMembers(cfg, req, ext, e);
    if e in PublishEffects(cfg, req, ext) {
      PublishGroupsMembers(cfg, ext, FirstFailure(req, ext), e);
    }
  }

  /** The effects before the response include no response. */
  lemma BodyIsSilent(cfg: Config, req: Request, ext: VideoExternals)
    ensures NoResponse(AuthEffects(req, ext) + StageEffects(req, ext) + PublishEffects(cfg, req, ext))
  {
    var a, s, p := AuthEffects(req, ext), StageEffects(req, ext), PublishEffects(cfg, req, ext);
    assert NoResponse(a) && NoResponse(s);
    forall i | 0 <= i < |p| ensures !p[i].Respond? {
      GroupKinds(cfg, req, ext, p[i]);
    }
    SilentConcat(a, s);
    SilentConcat(a + s, p);
  }

  /** Every deferred call is a close or a removal. */
  lemma DeferredAreCleanup(req: Request, ext: VideoExternals)
    ensures forall e :: e in StageDeferred(req, ext) + PublishDeferred(req, ext) ==> e.IsCleanup()
  {
  }

  /**
    A failing check writes exactly one response, its status, and only the
    deferred cleanup runs after it; a request that passes every check writes
    none (net/http then sends 200).
   */
  lemma RespondsOnce(cfg: Config, req: Request, ext: VideoExternals)
    ensures FirstFailure(req, ext).Some? ==>
      RespondsOnceThenCleansUp(VideoTrace(cfg, req, ext), Respond(ResponseStatus(FirstFailure(req, ext)), None))
    ensures FirstFailure(req, ext).None? ==>
      NoResponse(VideoTrace(cfg, req, ext)) && ResponseStatus(FirstFailure(req, ext)) == StatusOK
  {
    var f := FirstFailure(req, ext);
    var body := AuthEffects(req, ext) + StageEffects(req, ext) + PublishEffects(cfg, req, ext);
    var deferred := StageDeferred(req, ext) + PublishDeferred(req, ext);
    BodyIsSilent(cfg, req, ext);
    DeferredAreCleanup(req, ext);
    if f.Some? {
      var response := Respond(f.value.Status(), None);
      assert EndsWithResponse([response], response);
      ResponseAfterSilence(body, [response], response);
      ResponseThenCleanup(body + [response], deferred, response);
    } else {
      assert body + Response(f) == body;
      SilentCleanup(body, deferred);
    }
  }

  /** The lookup runs exactly when the JWT validated, and for the requested ID. */
  lemma LookupOnlyAfterJwt(cfg: Config, req: Request, ext: VideoExternals)
    ensures forall id :: GetVideo(id) in VideoTrace(cfg, req, ext) ==>
      Passed(FirstFailure(req, ext), ValidateToken) && req.videoID == Some(id)
    ensures Passed(FirstFailure(req, ext), ValidateToken) ==>
      req.videoID.Some? && GetVideo(req.videoID.value) in VideoTrace(cfg, req, ext)
  {
    forall id | GetVideo(id) in VideoTrace(cfg, req, ext)
      ensures Passed(FirstFailure(req, ext), ValidateToken) && req.videoID == Some(id)
    {
      VideoTraceMembers(cfg, req, ext, GetVideo(id));
      GroupKinds(cfg, req, ext, GetVideo(id));
      assert GetVideo(id) !in SizeEffects(req);
    }
    if Passed(FirstFailure(req, ext), ValidateToken) {
      VideoTraceMembers(cfg, req, ext, GetVideo(req.videoID.value));
    }
  }

  /** The temp file is created exactly when os.CreateTemp succeeds. */
  lemma TempFileCreatedWhenPassed(cfg: Config, req: Request, ext: VideoExternals)
    ensures CreateFile(TempFile, ext.tempName) in VideoTrace(cfg, req, ext) <==>
      Passed(FirstFailure(req, ext), CreateTemp)
  {
    VideoTraceMembers(cfg, req, ext, CreateFile(TempFile, ext.tempName));
    GroupKinds(cfg, req, ext, CreateFile(TempFile, ext.tempName));
  }

  /**
    Once created, the temp file is removed on every exit after the response,
    and removed before it is closed (the two defers unwind in reverse).
   */
  lemma TempFileAlwaysRemoved(cfg: Config, req: Request, ext: VideoExternals)
    requires Passed(FirstFailure(req, ext), CreateTemp)
    ensures Precedes(VideoTrace(cfg, req, ext), CreateFile(TempFile, ext.tempName), Remove(ext.tempName))
    ensures Precedes(VideoTrace(cfg, req, ext), Remove(ext.tempName), Close(TempFile))
  {
    var n := ext.tempName;
    var front := AuthEffects(req, ext) + StageEffects(req, ext) + PublishEffects(cfg, req, ext)
      + Response(FirstFailure(req, ext));
    var staged, published := StageDeferred(req, ext), PublishDeferred(req, ext);
    var deferred := staged + published;
    var run := Unwind(deferred);
    assert VideoTrace(cfg, req, ext) == front + run;
    assert CreateFile(TempFile, n) in front;
    var k := |staged| - 2;
    assert staged[k] == Close(TempFile) && staged[k + 1] == Remove(n);
    assert deferred[k] == Close(TempFile) && deferred[k + 1] == Remove(n);
    var i := |deferred| - 2 - k;
    assert run[i] == Remove(n) && run[i + 1] == Close(TempFile);
    PrecedesAcross(front, run, CreateFile(TempFile, n), Remove(n));
    assert (front + run)[|front| + i] == Remove(n) && (front + run)[|front| + i + 1] == Close(TempFile);
  }

  /**
    No key is generated unless the probe succeeded, and then it is the key of
    the first stream's aspect class and the random bytes.
   */
  lemma KeyOnlyAfterProbe(cfg: Config, req: Request, ext: VideoExternals)
    ensures forall key :: GenerateKey(key) in VideoTrace(cfg, req, ext) ==>
      Passed(FirstFailure(req, ext), ProbeAspect) && ProbeSucceeded(ext.probe) && key == VideoKey(ext.probe, ext.random)
    ensures Passed(FirstFailure(req, ext), ProbeAspect) ==>
      ProbeSucceeded(ext.probe) && GenerateKey(VideoKey(ext.probe, ext.random)) in VideoTrace(cfg, req, ext)
  {
    var f := FirstFailure(req, ext);
    forall key | GenerateKey(key) in VideoTrace(cfg, req, ext)
      ensures Passed(f, ProbeAspect) && ProbeSucceeded(ext.probe) && key == VideoKey(ext.probe, ext.random)
    {
      VideoTraceMembers(cfg, req, ext, GenerateKey(key));
      GroupKinds(cfg, req, ext, GenerateKey(key));
      PublishMembers(cfg, req, ext, GenerateKey(key));
      PublishGroupsMembers(cfg, ext, f, GenerateKey(key));
    }
    PublishPassedFacts(req, ext);
    if Passed(f, ProbeAspect) {
      var key := GenerateKey(VideoKey(ext.probe, ext.random));
      PublishGroupsMembers(cfg, ext, f, key);
      PublishMembers(cfg, req, ext, key);
      VideoTraceMembers(cfg, req, ext, key);
    }
  }

  /** The open of the remuxed file is attempted exactly when ffmpeg succeeded; the attempt may itself fail. */
  lemma ProcessedFileOpenedAfterRemux(cfg: Config, req: Request, ext: VideoExternals)
    ensures Open(FastStartOutputPath(ext.tempName)) in VideoTrace(cfg, req, ext) <==>
      Passed(FirstFailure(req, ext), FastStart)
  {
    var f := FirstFailure(req, ext);
    var opening := Open(FastStartOutputPath(ext.tempName));
    VideoTraceMembers(cfg, req, ext, opening);
    GroupKinds(cfg, req, ext, opening);
    PublishMembers(cfg, req, ext, opening);
    PublishPassedFacts(req, ext);
    if Passed(f, ProbeAspect) {
      PublishGroupsMembers(cfg, ext, f, opening);
    }
  }

  /**
    The remuxed file is removed only when opening it succeeded: when ffmpeg
    succeeds and the open fails, it is left behind.
   */
  lemma ProcessedFileRemovedOnlyAfterOpen(cfg: Config, req: Request, ext: VideoExternals)
    ensures Remove(FastStartOutputPath(ext.tempName)) in VideoTrace(cfg, req, ext) <==>
      Passed(FirstFailure(req, ext), OpenProcessed)
  {
    var processed := FastStartOutputPath(ext.tempName);
    FastStartOutputExtendsInput(ext.tempName);
    VideoTraceMembers(cfg, req, ext, Remove(processed));
    GroupKinds(cfg, req, ext, Remove(processed));
    assert Remove(processed) !in StageDeferred(req, ext);
  }

  /** The record update happens only once every earlier check passed, and writes `UpdatedRecord`. */
  lemma RecordUpdatedOnlyAfterChecks(cfg: Config, req: Request, ext: VideoExternals)
    ensures forall v :: UpdateVideo(v) in VideoTrace(cfg, req, ext) ==>
      Passed(FirstFailure(req, ext), OpenProcessed) && ProbeSucceeded(ext.probe) && v == UpdatedRecord(cfg, ext)
  {
    forall v | UpdateVideo(v) in VideoTrace(cfg, req, ext)
      ensures Passed(FirstFailure(req, ext), OpenProcessed) && ProbeSucceeded(ext.probe) && v == UpdatedRecord(cfg, ext)
    {
      VideoTraceMembers(cfg, req, ext, UpdateVideo(v));
      GroupKinds(cfg, req, ext, UpdateVideo(v));
      UpdateWithinPublish(cfg, req, ext, v);
    }
  }

  lemma UpdateWithinPublish(cfg: Config, req: Request, ext: VideoExternals, v: Video)
    requires UpdateVideo(v) in PublishEffects(cfg, req, ext)
    ensures Passed(FirstFailure(req, ext), OpenProcessed) && ProbeSucceeded(ext.probe) && v == UpdatedRecord(cfg, ext)
  {
    PublishMembers(cfg, req, ext, UpdateVideo(v));
    PublishGroupsMembers(cfg, ext, FirstFailure(req, ext), UpdateVideo(v));
  }

  /** The record written is the fetched one with only its video URL changed, to the object's public URL. */
  lemma UpdatedRecordChangesOnlyUrl(cfg: Config, ext: VideoExternals)
    requires ProbeSucceeded(ext.probe)
    ensures UpdatedRecord(cfg, ext).videoURL == Some(VideoUrl(cfg.s3Bucket, cfg.s3Region, VideoKey(ext.probe, ext.random)))
    ensures UpdatedRecord(cfg, ext).(videoURL := ext.lookup.video.videoURL) == ext.lookup.video
  {
  }

  /** Once the remuxed file is open, the object is uploaded and the record updated. */
  lemma UploadAndUpdateAfterOpen(cfg: Config, req: Request, ext: VideoExternals)
    requires Passed(FirstFailure(req, ext), OpenProcessed)
    ensures ProbeSucceeded(ext.probe) && ext.formFile.Some?
    ensures PutObject(cfg.s3Bucket, VideoKey(ext.probe, ext.random), ext.formFile.value) in VideoTrace(cfg, req, ext)
    ensures UpdateVideo(UpdatedRecord(cfg, ext)) in VideoTrace(cfg, req, ext)
  {
    var f := FirstFailure(req, ext);
    PublishPassedFacts(req, ext);
    var put := PutObject(cfg.s3Bucket, VideoKey(ext.probe, ext.random), ext.formFile.value);
    var update := UpdateVideo(UpdatedRecord(cfg, ext));
    PublishGroupsMembers(cfg, ext, f, put);
    PublishGroupsMembers(cfg, ext, f, update);
    PublishMembers(cfg, req, ext, put);
    PublishMembers(cfg, req, ext, update);
    VideoTraceMembers(cfg, req, ext, put);
    VideoTraceMembers(cfg, req, ext, update);
  }
}
