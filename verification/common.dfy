/** Values shared by the workers: bytes, optional and fallible results,
    the transcript record the provider returns, its status vocabulary,
    and the HTTP responses the handlers build. */
module Common {

  newtype byte = x: int | 0 <= x < 256

  datatype Option<T> = None | Some(value: T)

  datatype Result<T, E> = Success(value: T) | Failure(error: E)

  /** A transcript as the workers read it from the provider's JSON. */
  datatype Transcript = Transcript(id: string, text: string, status: string, error: string)

  /** A file taken from the upload form. */
  datatype UploadedFile = UploadedFile(name: string, bytes: seq<byte>)

  /** The statuses the provider reports, plus whatever else it might send. */
  datatype Status = Queued | Processing | Completed | Error | Other(raw: string)

  const KnownStatuses: set<string> := {"queued", "processing", "completed", "error"}

  function StatusText(st: Status): string
  {
    match st
    case Queued => "queued"
    case Processing => "processing"
    case Completed => "completed"
    case Error => "error"
    case Other(raw) => raw
  }

  /** `Other` only ever holds a string that is not one of the four known ones. */
  predicate WellFormedStatus(st: Status)
  {
    st.Other? ==> st.raw !in KnownStatuses
  }

  /** Classify a status string; every string is classified and none is lost. */
  function ParseStatus(s: string): (st: Status)
    ensures WellFormedStatus(st)
    ensures StatusText(st) == s
    ensures st.Other? <==> s !in KnownStatuses
  {
    if s == "queued" then Queued
    else if s == "processing" then Processing
    else if s == "completed" then Completed
    else if s == "error" then Error
    else Other(s)
  }

  /** Parsing the text of a well-formed status gives that status back. */
  lemma ParseStatusText(st: Status)
    requires WellFormedStatus(st)
    ensures ParseStatus(StatusText(st)) == st
  {
  }

  /** What a request handler hands back: body payloads. */
  datatype Payload =
    | Empty
    | Text(text: string)
    | TranscriptJson(transcript: Transcript)
    | Bytes(bytes: seq<byte>)

  /** An HTTP response: status code, the headers the handler sets, and a body. */
  datatype Response = Response(status: nat, headers: map<string, string>, body: Payload)

  /** `text(s)`: a 200 response with a plain-text body and no extra header. */
  function TextResponse(s: string): Response
  {
    Response(200, map[], Text(s))
  }

  /** `Response.redirect(location, 303)`. */
  function Redirect(location: string): Response
  {
    Response(303, map["Location" := location], Empty)
  }

  /** How a wait loop over a finite stream of poll answers ends: it returns
      the answer at poll number `at`, throws at poll number `at`, or the
      stream runs out while the job is still pending. */
  datatype WaitOutcome<T> =
    | Returned(transcript: T, at: nat)
    | Thrown(message: string, at: nat)
    | StillWaiting
}
