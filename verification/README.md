# Transcription workers: keys, status dispatch, wait loops and the webhook store

This Dafny project models the core of a set of demo workers that send an
uploaded audio or video file to an asynchronous transcription provider and
hand the result back to the browser. Four variants share that core:

- `r2/src/worker.ts` stores the upload in an object bucket under
  `<uuid>.<extension>`, points the provider at `/file/<key>`, and lets the
  browser poll `/transcript/<id>`, which answers with the text, the error,
  or the status plus a `Refresh: 3` header.
- `r2-webhook/src/worker.ts` stores the upload the same way, passes a
  `/webhook` URL to the provider, and redirects the browser straight to
  `/file/<id>.srt`; the webhook writes that key once the job completes.
- `simple/src/assemblyai.ts` is a provider client that checks every answer
  with `throwIfError`.
- `src/worker.ts` uploads to the provider directly and answers polls with the
  transcript as JSON, retrying on every status except `completed`.

Modules, one per concern:

- `Common` (common.dfy): bytes, `Option`/`Result`, the `Transcript` record, the
  status vocabulary (`ParseStatus`), HTTP responses, and `WaitOutcome`, the
  end of a wait loop.
- `Keys` (keys.dfy): `getExtension` with JavaScript's `lastIndexOf`, `>>> 0`
  (ToUint32) and `slice` written out. Also the source key
  `uuid + "." + getExtension(name)`, the artifact key `id + ".srt"` and the
  route paths.
- `Store` (store.dfy): the bucket as a class holding a `map` from key to
  bytes, with `Put` and `Get`, and the `/file/:key` handler.
- `Polling` (polling.dfy): `waitForTranscript` of the r2 and root workers.
  The two copies are the same code. It is modelled as a `while` loop over the
  finite sequence of answers that successive polls receive.
- `R2Worker`, `WebhookWorker`, `BasicWorker` (r2_worker.dfy,
  webhook_worker.dfy, basic_worker.dfy): the request handlers of the three
  workers.
- `SimpleClient` (simple_client.dfy): `throwIfError`, the three provider calls
  and the client's own wait loop.

Modelling choices:

- The provider is a parameter. Single calls are a function from request to
  answer. The wait loop gets a sequence of answers. The subtitle download is
  a function of `(id, format)`.
- For the upload handlers, the provider function also receives the bucket's
  contents at the moment the job is submitted. That is how the model states
  that the source file is stored before submission.
- The UUID is a parameter.
- Paths are modelled without the request's origin.

Behaviour of the code worth knowing:

- An upload whose name has no extension (`recording`) is stored under
  `<uuid>.`, with a trailing dot. See `Keys.SourceKeyTrailingDot` and
  `Keys.RecordingKey`.
- The wait loops are unbounded `while (true)` loops. In the model they stop
  only when the finite stream of answers runs out (`StillWaiting`).
- The root worker's poll handler treats `error` like a pending status: it
  answers with `Refresh: 3`. See
  `BasicWorker.ErrorRetriedUnlikeR2`.
- The webhook handler answers `ok` only for a status other than `completed`.
  On `completed` it writes the subtitles and returns no response of its own
  (`None` in the model).
- Subtitles are served from the same `/file/:key` route as uploads, under
  the key `<id>.srt`.

## Model

| member | source | states |
|---|---|---|
| `Common.ParseStatus` | r2/src/worker.ts:51-62 | every status string maps to one of `queued`/`processing`/`completed`/`error` or to `Other`, and `Other` holds exactly the unrecognised strings; printing the status gives the string back |
| `Common.ParseStatusText` | r2/src/worker.ts:51-62 | parsing the text of a well-formed status gives the same status |
| `Keys.ToUint32` | r2/src/worker.ts:134 | `>>> 0` maps into [0, 2^32): non-negative values below 2^32 are unchanged, and a value in [-2^32, 0) gains 2^32 |
| `Keys.LastIndexOf` | r2/src/worker.ts:134 | `lastIndexOf(".")` is -1 or an index holding `.`, and no `.` comes after it |
| `Keys.SliceFrom` | r2/src/worker.ts:134 | `slice(start)` is a suffix; a start at or past the end gives the empty string; a start inside the string gives the rest from there |
| `Keys.GetExtension` | r2/src/worker.ts:134 | the extension is always a suffix of the file name |
| `Keys.NoDotNoExtension` | r2/src/worker.ts:134 | a name with no `.` has the empty extension, because the slice starts at 2^32 |
| `Keys.LeadingDotNoExtension` | r2/src/worker.ts:134 | a name whose only `.` is at index 0 (`.env`) has the empty extension |
| `Keys.ExtensionAfterLastDot` | r2-webhook/src/worker.ts:69 | for `stem.ext` with a non-empty stem and a dot-free `ext`, the extension is exactly `ext` |
| `Keys.ExtensionSplitsName` | r2-webhook/src/worker.ts:69 | an extension never contains `.`; a non-empty extension follows a `.` that has a non-empty stem before it |
| `Keys.SourceKey` | r2/src/worker.ts:21 | the source key is the UUID, then a `.`, then the upload's extension, and is no longer than UUID, dot and file name together |
| `Keys.SourceKeyTrailingDot` | r2/src/worker.ts:21 | the source key ends in `.` exactly when the name has no extension; then it is `uuid + "."` |
| `Keys.SourceKeyKeepsExtension` | r2-webhook/src/worker.ts:22 | with a dot-free, non-empty UUID, the source key starts with the UUID and has the upload's extension |
| `Keys.ClipKey` | r2/src/worker.ts:21 | uploading `clip.mp3` stores it under `<uuid>.mp3` |
| `Keys.RecordingKey` | r2-webhook/src/worker.ts:22 | uploading `recording` stores it under `<uuid>.` |
| `Keys.ArtifactKey` | r2-webhook/src/worker.ts:59 | the subtitle key is the transcript id followed by exactly `.srt` |
| `Keys.ArtifactKeyInjective` | r2-webhook/src/worker.ts:59 | the subtitle key `<id>.srt` determines the transcript id |
| `Keys.ArtifactKeyExtension` | r2-webhook/src/worker.ts:59 | the extension of `<id>.srt` is `srt` for every non-empty id, even an id that contains dots |
| `Keys.FilePath` | r2/src/worker.ts:25 | the file URL's path is `/file/` followed by the key unchanged |
| `Keys.TranscriptPath` | r2/src/worker.ts:28 | the poll redirect's path is `/transcript/` followed by the id unchanged |
| `Keys.FilePathInjective` | r2/src/worker.ts:25 | different keys give different `/file/` paths |
| `Keys.TranscriptPathInjective` | src/worker.ts:23 | different ids give different `/transcript/` redirect paths |
| `Store.Bucket.constructor` | r2/src/worker.ts:7 | a new bucket is empty |
| `Store.Bucket.Put` | r2/src/worker.ts:22 | `put` overwrites exactly one key and leaves every other key unchanged |
| `Store.Bucket.Get` | r2/src/worker.ts:33 | `get` returns the stored bytes for a present key and nothing for an absent one |
| `Store.Lookup` | r2-webhook/src/worker.ts:35 | a lookup finds something exactly when the key is present, and it finds the stored bytes |
| `Store.FileResponse` | r2/src/worker.ts:35-45 | no object gives 404 `Object Not Found`; an object gives 200 with its bytes |
| `Store.HandleFileRequest` | r2-webhook/src/worker.ts:33-48 | `/file/:key` answers 404 `Object Not Found` exactly when the key is absent, and otherwise 200 with the stored bytes |
| `Polling.WaitFrom` | r2/src/worker.ts:105-122 | the reference outcome of the loop: a returned transcript is a polled answer with status `completed`; a throw happens at a polled `error` answer with `Transcription failed: ` + its error |
| `Polling.WaitFromOutcome` | src/worker.ts:89-99 | the loop stops at the first `completed` (returns it) or `error` (throws `Transcription failed: ` + error); `queued`, `processing` and unrecognised statuses poll again; it keeps waiting exactly when no answer is terminal |
| `Polling.WaitFromExtends` | src/worker.ts:82-99 | answers after a terminal one do not change the outcome; while still waiting, the loop carries on with the later answers |
| `Polling.WaitForTranscript` | r2/src/worker.ts:102-123 | the loop returns only a transcript whose status is `completed`, and every earlier answer was non-terminal; it throws `Transcription failed: ` + error at the first `error`; it matches the reference outcome `WaitFrom` |
| `R2Worker.PollResponse` | r2/src/worker.ts:47-63 | `completed` gives the text and `error` gives the error text, both with no `Refresh` header; every other status gives the status text with `Refresh: 3` |
| `R2Worker.PollRetriesWhileWaitContinues` | r2/src/worker.ts:51-61 | the poll handler asks the browser to retry exactly when the wait loop, shown the same answer, would poll again; where the loop stops, the handler shows the text it returns or the error it throws |
| `R2Worker.HandleUpload` | r2/src/worker.ts:18-30 | the file is stored under `SourceKey(uuid, name)` before submission; the provider gets its `/file/` URL; the browser is redirected to `/transcript/<id>` of the returned transcript |
| `R2Worker.SubmittedSourceIsServed` | r2/src/worker.ts:21-26 | after the upload, the submitted `/file/` URL serves the uploaded bytes |
| `BasicWorker.UploadResponse` | src/worker.ts:17-26 | the upload answers with a 303 whose only header is `Location: /transcript/<id>`, where `id` is the one `createTranscript` returned for the uploaded file's URL |
| `BasicWorker.PollResponse` | src/worker.ts:27-40 | the poll answers with the whole transcript; it adds `Refresh: 3` exactly when the status is not `completed` |
| `BasicWorker.ErrorRetriedUnlikeR2` | src/worker.ts:31-38 | an `error` transcript is retried here but terminal in the R2 worker; on every other status the two agree |
| `WebhookWorker.RedirectLocation` | r2-webhook/src/worker.ts:30 | the redirect `/file/${id}.srt`, built by hand, is the file path of the artifact key of the id |
| `WebhookWorker.RedirectNamesArtifact` | r2-webhook/src/worker.ts:30 | the redirect `/file/<id>.srt` is the file path of the key the webhook writes for that id, and different ids give different redirects |
| `WebhookWorker.WebhookEffect` | r2-webhook/src/worker.ts:54-60 | a non-`completed` webhook leaves the bucket unchanged; a `completed` one puts the fetched SRT subtitles at `<id>.srt`; every other key is unchanged |
| `WebhookWorker.HandleWebhook` | r2-webhook/src/worker.ts:49-61 | a non-`completed` webhook answers `ok` and changes nothing; a `completed` one writes `<id>.srt` only and returns no response |
| `WebhookWorker.WebhookReplayIdempotent` | r2-webhook/src/worker.ts:59-60 | replaying a webhook, while the subtitle fetch returns the same bytes, leaves the bucket as the first delivery did |
| `WebhookWorker.WebhooksCommute` | r2-webhook/src/worker.ts:57-60 | any two webhooks may be handled in either order: for different transcripts they write different keys, and two deliveries for one transcript write the same bytes |
| `WebhookWorker.RedirectServesSubtitles` | r2-webhook/src/worker.ts:30-60 | the file the upload redirects to serves the subtitles after the completed webhook; before that, if never written, it is a 404 |
| `WebhookWorker.HandleUpload` | r2-webhook/src/worker.ts:19-32 | the file is stored under `SourceKey(uuid, name)` before submission with its `/file/` URL and the `/webhook` URL; the browser is redirected to `/file/<id>.srt` |
| `SimpleClient.ThrowIfError` | simple/src/assemblyai.ts:120-122 | fails exactly when the body has a `status` field equal to `error`, with the body's `error` text verbatim; any other body, one without `status` included, passes through unchanged |
| `SimpleClient.ErrorBodyHasErrorStatus` | simple/src/assemblyai.ts:121 | an error body is exactly one whose status classifies as `error` |
| `SimpleClient.UploadFile` | simple/src/assemblyai.ts:38-49 | fails with the provider's message on an error body; otherwise returns the `upload_url` field, or nothing when the field is absent |
| `SimpleClient.CreateTranscript` | simple/src/assemblyai.ts:57-71 | returns the provider's answer exactly when it is not an error body, and otherwise fails with its message |
| `SimpleClient.GetTranscript` | simple/src/assemblyai.ts:78-87 | returns the provider's answer exactly when it is not an error body, and otherwise fails with its message |
| `SimpleClient.WaitFrom` | simple/src/assemblyai.ts:97-113 | the reference outcome of the loop: a returned body is a polled answer with status `completed`; a throw happens at a polled error body with its own message |
| `SimpleClient.WaitFromOutcome` | simple/src/assemblyai.ts:97-113 | an error body throws its own message before the status switch; the loop returns only a `completed` body; every other answer, including one without a status, polls again |
| `SimpleClient.WaitForTranscript` | simple/src/assemblyai.ts:94-114 | the loop throws the error message of the first error body verbatim, returns only the first `completed` body, and polls again otherwise; it matches the reference outcome `WaitFrom` |

## Left out

- HTTP calls to the provider are not modelled. The provider is a function
  parameter, or a sequence of poll answers for the wait loops. The poll
  endpoint built from the id is not modelled: the answer sequence is taken to
  be the answers for that id.
- `getSubtitles` lives in a module that is not part of this model. It is an
  uninterpreted `(id, format) -> bytes` parameter.
- The `createTranscript` of `r2-webhook/src/assemblyai` is not part of this
  model either. Its answer is a parameter.
- Routing, the HTML form, multipart decoding and `request.json()` are left
  out. So are the content types that `text`/`json`/`html` add. The outer
  `.then(json).catch(error)` wrapper is left out too, including what it makes
  of the webhook's missing response.
- R2 metadata and ETags are left out. So is streaming: bodies are whole byte
  sequences.
- `crypto.randomUUID()` is a parameter. URL origins (`new URL`, `createUrl`)
  are dropped; only paths are kept.
- The three-second `setTimeout` and `console.log` have no observable effect
  and are not modelled.
- Concurrency between webhook and poll requests is not modelled. Order
  independence is stated only for sequential deliveries
  (`WebhookWorker.WebhooksCommute`).
- The r2 and root workers define `uploadFile` (root: `src/worker.ts:45-55`).
  Those are plain provider calls with no checks, modelled as the
  `uploadFile` parameter of `BasicWorker.UploadResponse`.
- The `error` field is a string in the model. The provider may send a
  non-string value, or none. JavaScript would then print it through the
  template string (`undefined`), and the model does not capture that.
- Strings are sequences of characters, not UTF-16 code units. The
  `getExtension` lemmas assume names shorter than 2^32 characters.
  JavaScript engines cap string length well below that. Past that length,
  `>>> 0` would wrap and the three-case behaviour would no longer hold.
- R2Worker.SubmittedSourceIsServed: it assumes that the key comes back
  unchanged from the `/file/` URL that `new URL` builds
  (r2/src/worker.ts:25) and the router parses (r2/src/worker.ts:32). URL
  parsing is not modelled. In the code, an extension containing `?`, `#`,
  `\`, a space or a non-ASCII character changes on that trip. For example,
  `a.mp3#x` is stored under `<uuid>.mp3#x`, but the provider fetches
  `/file/<uuid>.mp3` and gets the 404. Whether the router decodes percent
  escapes depends on its version, which is not part of this model.
- WebhookWorker.RedirectServesSubtitles: the same assumption applies to the
  `/file/<id>.srt` redirect. It holds for provider ids made of URL-safe
  characters.
