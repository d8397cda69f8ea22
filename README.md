# Tubely upload handlers, modelled in Dafny

This project models the two upload handlers of the Tubely video service,
`handlerUploadVideo` and `handlerUploadThumbnail`, together with the pure
logic they rely on:

- the aspect-ratio classifier `determineStandardRatio`;
- the interpretation of the ffprobe result in `getVideoAspectRatio`;
- the fast-start output path of `processVideoForFastStart`;
- the storage-key layout: aspect prefix, lower-case hex of 32 random bytes, `.mp4`;
- the public S3 URL;
- the thumbnail's file extension fallback, asset path and asset URL.

Each handler is an imperative method that runs its checks in the source's
order with early returns. It appends every side effect to a trace: form
parsing, database reads and writes, files created, copied, opened, closed and
removed, external commands, key generation, the S3 upload and the response.
Its `defer`red calls go on a stack that runs last-in first-out after the body
returns.

Every external call is an input outcome:

- JWT validation, the database lookup and update;
- the multipart form, the form file and its `Content-Type`;
- `mime.ParseMediaType` and `mime.ExtensionsByType`;
- temp-file creation and copy;
- the ffprobe result and the ffmpeg outcome;
- `os.Open`;
- the S3 upload;
- the 32 bytes `crypto/rand` produces.

Each handler is proved against a specification: a function giving the first
failing check (`FirstFailure`, `ThumbnailFailure`), and a trace function
(`VideoTrace`, `ThumbnailTrace`) in which each group of effects happens
exactly when the check guarding it has passed. The promises of the handlers
are lemmas over those specifications:

- the check order and status mapping;
- exactly one response, followed only by cleanup;
- the temp file is removed on every exit after it was created;
- no key is generated before probing succeeds;
- the record is written only after every earlier step passed, and only its URL changes;
- the S3 result is ignored;
- the database is not read before the form;
- the thumbnail file is closed and never removed.

The aspect classifier uses exact integer cross-multiplication: 0.02 is 1/50,
so `|w/h - num/den| < 0.02` becomes `50*|den*w - num*h| < den*|h|`. It is
proved equivalent to the exact-real statement.

Modules: `Wrappers` (Option, Result), `Hex` (`encoding/hex`), `Aspect`,
`Probe`, `StorageKey`, `Api` (shared records, requests, the effect trace and
defer unwinding), `UploadVideo`, `UploadVideoProperties`, `UploadThumbnail`,
`UploadThumbnailProperties`.

## Model

| member | source | states |
|---|---|---|
| `Hex.DigitChar` | handler_upload_video.go:119 | each nibble maps to a lower-case hexadecimal digit |
| `Hex.DigitValue` | handler_upload_video.go:119 | a digit's value is below 16, and decoding a lower-case digit inverts `DigitChar` |
| `Hex.EncodeToString` | handler_upload_video.go:119 | the encoding has two characters per byte, all lower-case hexadecimal |
| `Hex.DecodeString` | handler_upload_video.go:119 | a successful decode yields half as many bytes as characters |
| `Hex.DecodeEncode` | handler_upload_video.go:119 | decoding an encoding gives back the bytes |
| `Hex.EncodeDecode` | handler_upload_video.go:119 | every even-length lower-case hexadecimal string is the encoding of what it decodes to |
| `Hex.EncodeInjective` | handler_upload_video.go:119 | distinct byte strings have distinct encodings |
| `Aspect.DetermineStandardRatio` | handler_upload_video.go:202-226 | the result is always one of "16:9", "9:16" and "other"; height 0 gives "other" |
| `Aspect.NearRatioIsTolerance` | handler_upload_video.go:207-221 | the integer cross-multiplication test holds iff \|w/h - num/den\| < 0.02 over the reals |
| `Aspect.DetermineStandardRatioMeaning` | handler_upload_video.go:202-226 | "16:9" iff within 0.02 of 16/9; "9:16" iff not that and within 0.02 of 9/16; "other" iff neither or height 0 |
| `Aspect.BandsDisjoint` | handler_upload_video.go:218-222 | no input lies in both tolerance bands |
| `Aspect.ScalingKeepsClass` | handler_upload_video.go:207 | the class depends only on the ratio: scaling w and h by the same non-zero factor keeps it |
| `Aspect.KnownRatios` | handler_upload_video.go:202-226 | 1920x1080 is "16:9", 1080x1920 is "9:16", 640x480 is "other", points on either side of the band edge, and any width over height 0 is "other" |
| `Probe.FfprobeArgs` | handler_upload_video.go:178 | six arguments, the file path last |
| `Probe.GetVideoAspectRatio` | handler_upload_video.go:168-200 | success iff ffprobe ran, its JSON decoded and it listed a stream; the value is one of the three classes; no streams is the "no streams" error |
| `Probe.LaterStreamsIgnored` | handler_upload_video.go:192-199 | the result is the class of the first stream, whatever streams follow it |
| `Probe.FullHdIsLandscape` | handler_upload_video.go:197 | a probe whose first stream is 1920x1080 reports "16:9" |
| `Probe.FastStartOutputExtendsInput` | handler_upload_video.go:156 | the output path is the input path plus the 11 characters ".processing", so it differs from the input |
| `Probe.FfmpegArgs` | handler_upload_video.go:158 | nine arguments, the input second and the output last |
| `Probe.ProcessVideoForFastStart` | handler_upload_video.go:155-166 | success iff ffmpeg succeeded, and then the value is the output path |
| `StorageKey.S3Prefix` | handler_upload_video.go:104-111 | "landscape/" iff "16:9", "portrait/" iff "9:16", "other/" for every other string |
| `StorageKey.FileS3KeyLayout` | handler_upload_video.go:117-120 | the key is the prefix, then 64 lower-case hex digits encoding the random bytes, then ".mp4" |
| `StorageKey.KeyRecoversRandom` | handler_upload_video.go:117-120 | the hex part of a key decodes back to the random bytes |
| `StorageKey.KeyInjective` | handler_upload_video.go:104-120 | equal keys come from the same prefix and the same random bytes |
| `StorageKey.VideoUrlLayout` | handler_upload_video.go:144 | the URL is "https://" + bucket + ".s3." + region + ".amazonaws.com/" followed by the key |
| `StorageKey.UrlDeterminesKey` | handler_upload_video.go:144 | for a fixed bucket and region, the URL determines the key |
| `Api.Unwind` | handler_upload_video.go:73-90 | deferred calls run in reverse order of deferral |
| `Api.UnwindMembers` | handler_upload_video.go:73-90 | unwinding runs exactly the deferred calls |
| `UploadVideo.CheckMimeTypeMp4` | handler_upload_video.go:229-241 | accepted iff the media type parsed and is exactly "video/mp4" |
| `UploadVideo.CheckUploadSize` | handler_upload_video.go:243-259 | accepted iff the declared length is at most 1 GiB and the form parses within the 1 GiB read limit; otherwise one 413 response, after the limit and parse effects only when the declared length passed |
| `UploadVideo.Authorize` | handler_upload_video.go:27-65 | returns the first failing check among size, ID, token, JWT, lookup and owner, with the effects its specification allows and one error response on failure |
| `UploadVideo.StageUpload` | handler_upload_video.go:67-102 | after authorization, returns the first failing check among form file, MIME type, temp file, copy and probe; its trace is its effect group and the error response; the deferred closes and removal are those its specification gives |
| `UploadVideo.Publish` | handler_upload_video.go:104-151 | once the probe succeeded and the form file was read, returns the first failing step among ffmpeg, open and update; it generates the key, remuxes, opens only after ffmpeg, uploads and writes the record only after the open, and defers the processed file's close and removal only after the open |
| `UploadVideo.TraceAfterAuthFailure` | handler_upload_video.go:27-65 | a failure before the form file leaves a trace of the authorization effects and the response, with nothing deferred |
| `UploadVideo.TraceAfterStageFailure` | handler_upload_video.go:67-102 | a staging failure leaves the earlier groups, the response and the staging cleanup |
| `UploadVideo.TraceAfterStaging` | handler_upload_video.go:104-153 | after staging, the probe succeeded and the form file was read, and the trace is the earlier groups, the publishing group, the response and both cleanup groups unwound |
| `UploadVideo.HandleUploadVideo` | handler_upload_video.go:26-153 | the status is that of the first failing check (200 when none fails), and the trace is `VideoTrace` |
| `UploadVideoProperties.IndexInjective` | handler_upload_video.go:27-151 | no two checks share a position in the check order |
| `UploadVideoProperties.FirstFailureIsEarliest` | handler_upload_video.go:27-151 | the reported check fails and every earlier one passes; no check is reported iff none fails |
| `UploadVideoProperties.EarliestFails` | handler_upload_video.go:27-151 | the reported check fails and all earlier checks pass |
| `UploadVideoProperties.NoneFails` | handler_upload_video.go:27-151 | when nothing is reported, every check passes |
| `UploadVideoProperties.DbErrorIsUnauthorized` | handler_upload_video.go:51-65 | a lookup error other than "no rows" ends in 401, because the owner comparison runs before the error check |
| `UploadVideoProperties.MissingVideoIsNotFound` | handler_upload_video.go:51-55 | a missing record is 404 once the earlier checks pass |
| `UploadVideoProperties.RequestChecks` | handler_upload_video.go:33-48 | after the size check, a missing video ID is 400, a missing token 401 and an invalid JWT 401, in that order |
| `UploadVideoProperties.FormChecks` | handler_upload_video.go:67-80 | after authorization, a missing form file is 400 and a media type other than "video/mp4" is 400 |
| `UploadVideoProperties.ServerErrorsAfterChecks` | handler_upload_video.go:83-151 | the response is 500 exactly when temp creation, copy, probe, remux, open or the record update failed |
| `UploadVideoProperties.RejectedSizeStopsHandler` | handler_upload_video.go:27-30 | a rejected size is 413 and nothing follows the response; an oversized declared length responds before any other effect |
| `UploadVideoProperties.AcceptedBodiesBounded` | handler_upload_video.go:243-258 | an accepted request has a body and a declared length of at most 1 GiB, even when the length is unknown (-1) |
| `UploadVideoProperties.PutObjectResultIgnored` | handler_upload_video.go:142 | the S3 outcome changes neither the status nor the trace |
| `UploadVideoProperties.SameOutcomesSameTrace` | handler_upload_video.go:137-147 | two outcome records that differ only in the S3 result, with the same first failing check, give the same trace |
| `UploadVideoProperties.PublishPassedFacts` | handler_upload_video.go:97-135 | passing the probe means it succeeded and the form file was read; passing the open means ffmpeg passed, which means the probe passed |
| `UploadVideoProperties.PublishGroupsMembers` | handler_upload_video.go:113-147 | the publishing stretch holds the rewind, the key and the ffmpeg run, the open only after ffmpeg, and the upload and record write only after the open |
| `UploadVideoProperties.PublishMembers` | handler_upload_video.go:97-147 | nothing is published unless the probe passed |
| `UploadVideoProperties.VideoTraceMembers` | handler_upload_video.go:26-153 | an effect is in the trace iff it is in one of the effect groups, the response or the deferred calls |
| `UploadVideoProperties.GroupKinds` | handler_upload_video.go:26-153 | which kinds of effect each group may hold |
| `UploadVideoProperties.BodyIsSilent` | handler_upload_video.go:26-151 | the effects before the response include no response |
| `UploadVideoProperties.DeferredAreCleanup` | handler_upload_video.go:73-135 | every deferred call is a close or a removal |
| `UploadVideoProperties.RespondsOnce` | handler_upload_video.go:26-153 | a failure writes exactly one response, with its status, followed only by cleanup; success writes no response, so the status is 200 |
| `UploadVideoProperties.LookupOnlyAfterJwt` | handler_upload_video.go:45-51 | the database is read iff the JWT validated, and for the requested ID |
| `UploadVideoProperties.TempFileCreatedWhenPassed` | handler_upload_video.go:83-87 | the temp file is created iff `os.CreateTemp` succeeds |
| `UploadVideoProperties.TempFileAlwaysRemoved` | handler_upload_video.go:83-90 | once created, the temp file is removed after its creation, and the removal precedes its close |
| `UploadVideoProperties.KeyOnlyAfterProbe` | handler_upload_video.go:97-120 | a key is generated iff probing succeeded, and it is the key built from the probed class and the random bytes |
| `UploadVideoProperties.ProcessedFileOpenedAfterRemux` | handler_upload_video.go:122-128 | the open of the processed file is attempted iff ffmpeg succeeded (the open may itself fail) |
| `UploadVideoProperties.ProcessedFileRemovedOnlyAfterOpen` | handler_upload_video.go:128-135 | the processed file is removed iff its open succeeded |
| `UploadVideoProperties.RecordUpdatedOnlyAfterChecks` | handler_upload_video.go:142-151 | the record is written only once every earlier step passed, and what is written is the fetched record with the new URL |
| `UploadVideoProperties.UpdateWithinPublish` | handler_upload_video.go:142-147 | a record write in the publishing group comes after the open, with the updated record |
| `UploadVideoProperties.UpdatedRecordChangesOnlyUrl` | handler_upload_video.go:144-146 | the written record differs from the fetched one only in its video URL, which is the object's public URL |
| `UploadVideoProperties.UploadAndUpdateAfterOpen` | handler_upload_video.go:128-147 | once the processed file is open, the object is uploaded under the key and the record is updated |
| `UploadThumbnail.ReceiveThumbnail` | handler_upload_thumbnail.go:21-54 | returns the first failing check among video ID, token, JWT, form and form file; the form parse happens only after the JWT; the part's close is deferred only once it is read |
| `UploadThumbnail.StoreThumbnail` | handler_upload_thumbnail.go:55-102 | after the form file, returns the first failing check among lookup, owner, create, copy and update; the trace is the lookup, the asset file's effects, the update only after the copy, and the response |
| `UploadThumbnail.TraceWhenReceiveFails` | handler_upload_thumbnail.go:21-52 | a failure before the form file leaves at most the form parse and the error response |
| `UploadThumbnail.TraceWhenReceived` | handler_upload_thumbnail.go:42-103 | once the form file is read, the trace is the form parse, the second stretch, and both deferred closes unwound |
| `UploadThumbnail.HandleUploadThumbnail` | handler_upload_thumbnail.go:20-103 | the status is that of the first failing check (200 when none fails), and the trace is `ThumbnailTrace` |
| `UploadThumbnailProperties.IndexInjective` | handler_upload_thumbnail.go:21-100 | no two checks share a position in the check order |
| `UploadThumbnailProperties.FirstFailureIsEarliest` | handler_upload_thumbnail.go:21-100 | the reported check fails and every earlier one passes; no check is reported iff none fails |
| `UploadThumbnailProperties.EarliestFails` | handler_upload_thumbnail.go:21-100 | the reported check fails and all earlier checks pass |
| `UploadThumbnailProperties.NoneFails` | handler_upload_thumbnail.go:21-100 | when nothing is reported, every check passes |
| `UploadThumbnailProperties.ReceiveChecks` | handler_upload_thumbnail.go:21-52 | video ID 400, then token 401, then JWT 401, then form 500, then form file 400; such a failure never reaches the database |
| `UploadThumbnailProperties.LookupOutcomes` | handler_upload_thumbnail.go:57-70 | a missing record is 404 and any other lookup error 500; the owner check fails iff the lookup succeeded with another owner, and that is 401 |
| `UploadThumbnailProperties.AssetOutcomes` | handler_upload_thumbnail.go:79-91 | after the owner check, a failed create and then a failed copy of the asset file are each 500 |
| `UploadThumbnailProperties.ExtensionFallback` | handler_upload_thumbnail.go:72-77 | the first registered extension when the lookup gives a non-empty list, ".bin" otherwise |
| `UploadThumbnailProperties.JoinPathLayout` | handler_upload_thumbnail.go:78 | joining keeps the root and the name, with exactly one separator between a non-empty root and the name |
| `UploadThumbnailProperties.SharedFileName` | handler_upload_thumbnail.go:78-93 | the asset path lies under the assets root and the URL under "http://localhost:<port>/assets/", and both end in the path value followed by the extension |
| `UploadThumbnailProperties.PathFileName` | handler_upload_thumbnail.go:78 | a joined path plus extension starts with the root and ends with the name and the extension |
| `UploadThumbnailProperties.UpdatedRecordChangesOnlyThumbnail` | handler_upload_thumbnail.go:93-96 | the written record differs from the fetched one only in its thumbnail URL, which is the asset URL |
| `UploadThumbnailProperties.TraceMembers` | handler_upload_thumbnail.go:20-103 | an effect is in the trace iff its group's check passed, or it is the response or a deferred close |
| `UploadThumbnailProperties.DatabaseUntouchedUntilForm` | handler_upload_thumbnail.go:21-57 | the database is read iff every check through the form file passed, and for the requested ID |
| `UploadThumbnailProperties.RecordUpdatedOnlyAfterCopy` | handler_upload_thumbnail.go:87-96 | the record is written only after the copy, and it is the fetched record with the new thumbnail URL; after a successful copy it is written |
| `UploadThumbnailProperties.UpdateInTrace` | handler_upload_thumbnail.go:87-96 | a record write is in the trace iff the copy succeeded and the record is the updated one |
| `UploadThumbnailProperties.UpdateOutcome` | handler_upload_thumbnail.go:96-102 | an update failure is 500; when nothing fails the response is 200 with the updated record |
| `UploadThumbnailProperties.NoFileRemoved` | handler_upload_thumbnail.go:79-85 | no file is ever removed |
| `UploadThumbnailProperties.BodyIsSilent` | handler_upload_thumbnail.go:21-101 | the effects before the response include no response |
| `UploadThumbnailProperties.RespondsOnce` | handler_upload_thumbnail.go:20-103 | every run writes exactly one response, with the status of the first failing check, followed only by deferred closes |
| `UploadThumbnailProperties.FilesClosed` | handler_upload_thumbnail.go:54-85 | the asset file is closed iff it was created, and the uploaded part iff it was read |
| `UploadThumbnailProperties.AssetClosedBeforePart` | handler_upload_thumbnail.go:79-85 | a created asset file is closed after its creation and before the uploaded part |

## Left out

- Float64 rounding in `determineStandardRatio` is not modelled: the model compares exact rationals, so a ratio within float error of a band edge may be classified differently from the program.
- Go's 64-bit `int` is not modelled: widths, heights and lengths are unbounded integers. The cross-multiplied products could overflow 64 bits where the float64 division cannot.
- ffprobe and ffmpeg are not run. Their execution, output capture and JSON decoding are one outcome: a failure to run, a decode failure, or a list of (width, height) streams. A missing JSON field decodes as 0.
- `mime.ParseMediaType` and `mime.ExtensionsByType` are inputs: a parsed media type or an error, and an extension list or an error.
- `crypto/rand` is an input: the 32 bytes. The error from `rand.Read`, which the source ignores, is not modelled, and neither is the in-place fill of the key buffer.
- The S3 client, the database, bearer-token parsing and JWT validation (`internal/auth`) are inputs.
- `http.MaxBytesReader` and `ParseMultipartForm` are one outcome: the form is well formed and, under a read limit, the body fits it. Spilling to disk above the memory limit is not modelled.
- `io.Copy`, `Seek`, file creation, opening, closing and removal are trace events, not real I/O. The ignored result of `Seek` (line 114) is not modelled.
- `JoinPath` does not model the lexical clean-up of `filepath.Join` (`.`, `..`, repeated separators). It puts one separator between a non-empty root and the name, reusing one that already ends the root.
- Go's `encoding/hex` error kinds are not modelled: `DecodeString` returns None for an odd length or a non-hex character.
- Log lines, the `fmt.Println` at line 40 of the thumbnail handler, and error message texts are not modelled.
- Concurrency between requests is not modelled: each request is independent.
- `UUID` values are opaque byte strings, and `uuid.Parse` is an input outcome.
- `StorageKey.FileS3Key`, `StorageKey.VideoUrl` and `Probe.FastStartOutputPath` carry no `ensures`. Their layout is stated by the lemmas `FileS3KeyLayout`, `VideoUrlLayout` and `FastStartOutputExtendsInput`.
- `UploadThumbnail.FileExtension` (thumbnail handler lines 74-77) carries no `ensures`; its fallback to ".bin" is stated by `UploadThumbnailProperties.ExtensionFallback`.
- `UploadThumbnail.JoinPath` and `UploadThumbnail.ThumbnailPath` (thumbnail handler line 78) carry no `ensures`; their layout is stated by `UploadThumbnailProperties.JoinPathLayout`, `UploadThumbnailProperties.SharedFileName` and `UploadThumbnailProperties.PathFileName`.
- `UploadThumbnail.ThumbnailUrl` (thumbnail handler line 93) carries no `ensures`; its layout is stated by `UploadThumbnailProperties.SharedFileName`.
- `UploadThumbnail.UpdatedRecord` (thumbnail handler line 95) carries no `ensures`; that it changes only the thumbnail URL is stated by `UploadThumbnailProperties.UpdatedRecordChangesOnlyThumbnail`, and the record written by `UploadThumbnailProperties.UpdateOutcome`.
- `UploadVideo.UpdatedRecord` (video handler line 146) carries no `ensures`; that it changes only the video URL is stated by `UploadVideoProperties.UpdatedRecordChangesOnlyUrl`.
- `UploadVideo.SizeAccepted` (video handler lines 244-256) carries no `ensures`; its meaning is stated by the method `UploadVideo.CheckUploadSize` and the lemmas `UploadVideoProperties.AcceptedBodiesBounded` and `UploadVideoProperties.RejectedSizeStopsHandler`.
- `UploadVideo.FirstFailure` and `UploadThumbnail.ThumbnailFailure` carry no `ensures`; that each returns the earliest failing step, and none only when no step fails, is stated by `FirstFailureIsEarliest`, `EarliestFails` and `NoneFails` in `UploadVideoProperties` and `UploadThumbnailProperties`.
- `UploadVideo.Step.Status` and `UploadThumbnail.Step.Status` carry no `ensures`; the status each failure answers with is stated, for every step, by `UploadVideoProperties.RejectedSizeStopsHandler`, `UploadVideoProperties.RequestChecks`, `UploadVideoProperties.MissingVideoIsNotFound`, `UploadVideoProperties.DbErrorIsUnauthorized`, `UploadVideoProperties.FormChecks` and `UploadVideoProperties.ServerErrorsAfterChecks`, and by `UploadThumbnailProperties.ReceiveChecks`, `UploadThumbnailProperties.LookupOutcomes`, `UploadThumbnailProperties.AssetOutcomes` and `UploadThumbnailProperties.UpdateOutcome`.
- A successful video upload writes no response body. net/http then sends 200, which `ResponseStatus` reports; the trace holds no response in that case.
- As the source is written, the ".processing" file is removed only after a successful `os.Open` of it (lines 128-135). It is left behind in two cases. The first is when `os.Open` fails (line 128). The second is when ffmpeg fails (line 123) after writing part of the output, since `processVideoForFastStart` removes nothing on error. The model keeps that behaviour (`ProcessedFileRemovedOnlyAfterOpen`).
