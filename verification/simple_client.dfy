/** The standalone provider client: every response body goes through
    `throwIfError`, which turns a provider error body into an exception
    carrying the provider's message. Response bodies are JSON objects with
    string fields, seen as maps from field name to value. */
module SimpleClient {
  import opened Common

  type Body = map<string, string>

  /** The calls the client makes; the provider answers each with a body. */
  datatype Request =
    | UploadRequest(file: seq<byte>)
    | CreateRequest(audioUrl: string)
    | GetRequest(transcriptId: string)

  /** A body is an error body when it has a `status` field equal to `error`. */
  predicate IsErrorBody(body: Body)
  {
    "status" in body && body["status"] == "error"
  }

  /** `new Error(body.error).message`: the `error` field, or the empty
      message when the field is absent. */
  function ErrorMessage(body: Body): string
  {
    if "error" in body then body["error"] else ""
  }

  /** `throwIfError`: an error body becomes a failure carrying its message;
      any other body, one without a `status` field included, passes
      through unchanged. */
  function ThrowIfError(body: Body): (r: Result<Body, string>)
    ensures r.Failure? <==> ("status" in body && body["status"] == "error")
    ensures r.Success? ==> r.value == body
    ensures r.Failure? && "error" in body ==> r.error == body["error"]
  {
    if IsErrorBody(body) then Failure(ErrorMessage(body)) else Success(body)
  }

  /** An error body is exactly one whose status classifies as `Error`. */
  lemma ErrorBodyHasErrorStatus(body: Body)
    ensures IsErrorBody(body) <==> "status" in body && ParseStatus(body["status"]) == Error
  {
  }

  /** `uploadFile`: the `upload_url` of the provider's answer (absent when
      the answer has none), or the provider's error. */
  function UploadFile(provider: Request -> Body, file: seq<byte>): (r: Result<Option<string>, string>)
    ensures var answer := provider(UploadRequest(file));
            && (r.Failure? <==> IsErrorBody(answer))
            && (r.Failure? ==> r.error == ErrorMessage(answer))
            && (r.Success? ==> (r.value.Some? <==> "upload_url" in answer))
            && (r.Success? && r.value.Some? ==> r.value.value == answer["upload_url"])
  {
    match ThrowIfError(provider(UploadRequest(file)))
    case Failure(message) => Failure(message)
    case Success(answer) =>
      if "upload_url" in answer then Success(Some(answer["upload_url"])) else Success(None)
  }

  /** `createTranscript`: the provider's answer, unless it is an error body. */
  function CreateTranscript(provider: Request -> Body, fileUrl: string): (r: Result<Body, string>)
    ensures var answer := provider(CreateRequest(fileUrl));
            && (r.Success? <==> !IsErrorBody(answer))
            && (r.Success? ==> r.value == answer)
            && (r.Failure? ==> r.error == ErrorMessage(answer))
  {
    ThrowIfError(provider(CreateRequest(fileUrl)))
  }

  /** `getTranscript`: the provider's answer, unless it is an error body. */
  function GetTranscript(provider: Request -> Body, transcriptId: string): (r: Result<Body, string>)
    ensures var answer := provider(GetRequest(transcriptId));
            && (r.Success? <==> !IsErrorBody(answer))
            && (r.Success? ==> r.value == answer)
            && (r.Failure? ==> r.error == ErrorMessage(answer))
  {
    ThrowIfError(provider(GetRequest(transcriptId)))
  }

  /** A body at which the wait loop stops. */
  predicate IsTerminal(body: Body)
  {
    IsErrorBody(body) || ("status" in body && body["status"] == "completed")
  }

  /** What the wait loop does with the answers from poll number `i` on:
      `throwIfError` runs first, then the switch on `status`. */
  function WaitFrom(polls: seq<Body>, i: nat): (r: WaitOutcome<Body>)
    requires i <= |polls|
    ensures r.Returned? ==>
              && i <= r.at < |polls| && r.transcript == polls[r.at]
              && "status" in r.transcript && r.transcript["status"] == "completed"
    ensures r.Thrown? ==> i <= r.at < |polls| && IsErrorBody(polls[r.at]) && r.message == ErrorMessage(polls[r.at])
    decreases |polls| - i
  {
    if i == |polls| then StillWaiting
    else
      match ThrowIfError(polls[i])
      case Failure(message) => Thrown(message, i)
      case Success(body) =>
        if "status" in body && body["status"] == "completed" then Returned(body, i)
        // `queued`, `processing`, any other status and no status at all
        // poll again
        else WaitFrom(polls, i + 1)
  }

  /** The loop stops at the first terminal answer: it returns a completed
      body, or throws the error body's own message verbatim; it keeps
      waiting exactly when no answer is terminal. */
  lemma {:induction false} WaitFromOutcome(polls: seq<Body>, i: nat)
    requires i <= |polls|
    ensures var r := WaitFrom(polls, i);
            && (r.Returned? ==>
                  && i <= r.at < |polls| && r.transcript == polls[r.at]
                  && "status" in r.transcript && r.transcript["status"] == "completed"
                  && forall j :: i <= j < r.at ==> !IsTerminal(polls[j]))
            && (r.Thrown? ==>
                  && i <= r.at < |polls| && IsErrorBody(polls[r.at])
                  && r.message == ErrorMessage(polls[r.at])
                  && forall j :: i <= j < r.at ==> !IsTerminal(polls[j]))
            && (r.StillWaiting? <==> forall j :: i <= j < |polls| ==> !IsTerminal(polls[j]))
    decreases |polls| - i
  {
    if i < |polls| {
      WaitFromOutcome(polls, i + 1);
    }
  }

  /** `waitForTranscript`: poll, throw on an error body, return on
      `completed`, otherwise poll again until the answers run out. */
  method WaitForTranscript(polls: seq<Body>) returns (r: WaitOutcome<Body>)
    ensures r.Returned? ==>
              && r.at < |polls| && r.transcript == polls[r.at]
              && "status" in r.transcript && r.transcript["status"] == "completed"
              && forall j :: 0 <= j < r.at ==> !IsTerminal(polls[j])
    ensures r.Thrown? ==>
              && r.at < |polls| && IsErrorBody(polls[r.at])
              && r.message == ErrorMessage(polls[r.at])
              && forall j :: 0 <= j < r.at ==> !IsTerminal(polls[j])
    ensures r.StillWaiting? ==> forall j :: 0 <= j < |polls| ==> !IsTerminal(polls[j])
    ensures r == WaitFrom(polls, 0)
  {
    var i := 0;
    while i < |polls|
      invariant i <= |polls|
      invariant forall j :: 0 <= j < i ==> !IsTerminal(polls[j])
      invariant WaitFrom(polls, i) == WaitFrom(polls, 0)
    {
      var checked := ThrowIfError(polls[i]);
      if checked.Failure? {
        return Thrown(checked.error, i);
      }
      var transcript := checked.value;
      if "status" in transcript && transcript["status"] == "completed" {
        return Returned(transcript, i);
      }
      // `queued` and `processing` sleep three seconds; other statuses
      // match no case; either way the loop polls again
      i := i + 1;
    }
    return StillWaiting;
  }
}
