/**
  What the two upload handlers share: configuration, the request, the video
  record and the database lookup, HTTP status codes, and the trace of side
  effects a handler performs. Go's `defer` is modelled by a stack of cleanup
  effects that `Unwind` runs last-in first-out after the handler body returns.
 */
module Api {
  import opened Wrappers
  import opened Hex
  import opened Probe

  const StatusOK: int := 200
  const StatusBadRequest: int := 400
  const StatusUnauthorized: int := 401
  const StatusNotFound: int := 404
  const StatusRequestEntityTooLarge: int := 413
  const StatusInternalServerError: int := 500

  /** A `uuid.UUID`; its 16-byte layout plays no part here. */
  type Uuid = seq<byte>

  /** The fields of the stored video record that the handlers read or write. */
  datatype Video = Video(id: Uuid, userID: Uuid, thumbnailURL: Option<string>, videoURL: Option<string>)

  datatype DbError = NoError | NoRows | OtherError

  /** `cfg.db.GetVideo`'s `(video, err)` pair; on an error the record is whatever the store returned. */
  datatype Lookup = Lookup(video: Video, err: DbError)

  /** The parts of `apiConfig` the handlers use. */
  datatype Config = Config(s3Bucket: string, s3Region: string, assetsRoot: string, port: string)

  /**
    An upload request. `videoID` is the outcome of `uuid.Parse` on the path
    value and `bearerToken` that of `auth.GetBearerToken` on the headers.
    `contentLength` is the declared length (-1 when unknown), `bodyLength` the
    number of bytes actually sent.
   */
  datatype Request = Request(
    pathVideoID: string,
    videoID: Option<Uuid>,
    bearerToken: Option<string>,
    contentLength: int,
    bodyLength: nat,
    formWellFormed: bool)

  /**
    Whether `ParseMultipartForm` succeeds: the form must be well formed and,
    when the body was wrapped in `http.MaxBytesReader`, no longer than its limit.
   */
  predicate MultipartParses(req: Request, readLimit: Option<int>) {
    req.formWellFormed && (readLimit.None? || req.bodyLength <= readLimit.value)
  }

  datatype FileRole = UploadedPart | TempFile | ProcessedFile | ThumbnailFile

  /**
    A side effect of a handler, in the order it happens. A call that can
    fail and is followed by its own error check (`Open`, `RunCommand`,
    `CopyInto`, `UpdateVideo`, `PutObject`) records the attempt, so it is in
    the trace whether or not it succeeded; `CreateFile` records only a
    successful creation, since nothing is created when it fails.
   */
  datatype Effect =
    | Respond(status: int, body: Option<Video>)
    | LimitBody(limit: int)
    | ParseMultipartForm(maxMemory: int)
    | GetVideo(id: Uuid)
    | CreateFile(role: FileRole, path: string)
    | CopyInto(role: FileRole)
    | Rewind(role: FileRole)
    | RunCommand(command: Command)
    | GenerateKey(key: string)
    | Open(path: string)
    | PutObject(bucket: string, key: string, contentType: string)
    | UpdateVideo(video: Video)
    | Close(role: FileRole)
    | Remove(path: string)
  {
    /** The effects a handler defers. */
    predicate IsCleanup() {
      Close? || Remove?
    }
  }

  /** The deferred calls, in the order Go runs them: last deferred, first run. */
  function Unwind(deferred: seq<Effect>): (run: seq<Effect>)
    ensures |run| == |deferred|
    ensures forall i :: 0 <= i < |run| ==> run[i] == deferred[|deferred| - 1 - i]
  {
    if |deferred| == 0 then []
    else [deferred[|deferred| - 1]] + Unwind(deferred[..|deferred| - 1])
  }

  lemma UnwindMembers(deferred: seq<Effect>)
    ensures forall e :: e in Unwind(deferred) <==> e in deferred
  {
    var run := Unwind(deferred);
    forall e | e in deferred ensures e in run {
      var i :| 0 <= i < |deferred| && deferred[i] == e;
      assert run[|deferred| - 1 - i] == e;
    }
  }

  predicate NoResponse(trace: seq<Effect>) {
    forall i :: 0 <= i < |trace| ==> !trace[i].Respond?
  }

  /** The trace ends with `response` and holds no other response. */
  predicate EndsWithResponse(trace: seq<Effect>, response: Effect) {
    |trace| > 0 && trace[|trace| - 1] == response && NoResponse(trace[..|trace| - 1])
  }

  lemma SilentConcat(first: seq<Effect>, second: seq<Effect>)
    requires NoResponse(first) && NoResponse(second)
    ensures NoResponse(first + second)
  {
    forall i | 0 <= i < |first + second| ensures !(first + second)[i].Respond? {
      if i >= |first| {
        assert (first + second)[i] == second[i - |first|];
      }
    }
  }

  lemma ResponseAfterSilence(first: seq<Effect>, second: seq<Effect>, response: Effect)
    requires NoResponse(first) && EndsWithResponse(second, response)
    ensures EndsWithResponse(first + second, response)
  {
    var whole := first + second;
    assert whole[..|whole| - 1] == first + second[..|second| - 1];
    SilentConcat(first, second[..|second| - 1]);
  }

  /** Exactly one response is written, and after it only deferred cleanup runs. */
  ghost predicate RespondsOnceThenCleansUp(trace: seq<Effect>, response: Effect) {
    exists i :: 0 <= i < |trace| && trace[i] == response && NoResponse(trace[..i])
      && (forall j :: i < j < |trace| ==> trace[j].IsCleanup())
  }

  ghost predicate Precedes(trace: seq<Effect>, a: Effect, b: Effect) {
    exists i, j :: 0 <= i < j < |trace| && trace[i] == a && trace[j] == b
  }

  /** A body that ends by responding, followed by its deferred cleanup. */
  lemma ResponseThenCleanup(body: seq<Effect>, deferred: seq<Effect>, response: Effect)
    requires EndsWithResponse(body, response)
    requires forall e :: e in deferred ==> e.IsCleanup()
    ensures RespondsOnceThenCleansUp(body + Unwind(deferred), response)
  {
    var trace := body + Unwind(deferred);
    var i := |body| - 1;
    assert trace[..i] == body[..i];
    forall j | i < j < |trace| ensures trace[j].IsCleanup() {
      assert trace[j] == Unwind(deferred)[j - |body|];
      assert trace[j] in deferred;
    }
  }

  /** A body that writes no response stays silent through its cleanup. */
  lemma SilentCleanup(body: seq<Effect>, deferred: seq<Effect>)
    requires NoResponse(body)
    requires forall e :: e in deferred ==> e.IsCleanup()
    ensures NoResponse(body + Unwind(deferred))
  {
    var trace := body + Unwind(deferred);
    forall j | |body| <= j < |trace| ensures !trace[j].Respond? {
      assert trace[j] == Unwind(deferred)[j - |body|];
      assert trace[j] in deferred;
    }
  }

  lemma PrecedesAcross(first: seq<Effect>, second: seq<Effect>, a: Effect, b: Effect)
    requires a in first && b in second
    ensures Precedes(first + second, a, b)
  {
    var i :| 0 <= i < |first| && first[i] == a;
    var j :| 0 <= j < |second| && second[j] == b;
    assert (first + second)[i] == a && (first + second)[|first| + j] == b;
  }
}
