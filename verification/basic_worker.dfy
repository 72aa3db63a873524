/** The worker at the repository root: it uploads the file to the provider
    itself, redirects to `/transcript/:id`, and answers polls with the
    transcript as JSON. */
module BasicWorker {
  import opened Common
  import opened Keys
  import R2Worker

  /** The `/upload-file` handler: upload the bytes, create a transcript for
      the returned upload URL, and redirect to the poll path of the id that
      `createTranscript` returned. */
  function UploadResponse(file: UploadedFile, uploadFile: seq<byte> -> string,
                          createTranscript: string -> Transcript): (r: Response)
    ensures r.status == 303 && r.body == Empty
    ensures r.headers.Keys == {"Location"}
    ensures |r.headers["Location"]| >= 12 && r.headers["Location"][..12] == "/transcript/"
    ensures r.headers["Location"][12..] == createTranscript(uploadFile(file.bytes)).id
  {
    Redirect(TranscriptPath(createTranscript(uploadFile(file.bytes)).id))
  }

  /** The `/transcript/:id` handler: always the whole transcript as JSON;
      every status except `completed`, `error` included, adds `Refresh: 3`. */
  function PollResponse(t: Transcript): (r: Response)
    ensures r.status == 200 && r.body == TranscriptJson(t)
    ensures "Refresh" in r.headers <==> t.status != "completed"
    ensures r.headers == map[] || r.headers == map["Refresh" := "3"]
  {
    if ParseStatus(t.status) == Completed then Response(200, map[], TranscriptJson(t))
    else Response(200, map["Refresh" := "3"], TranscriptJson(t))
  }

  /** Here a failed transcript is not terminal for the browser, unlike in
      the R2 worker; on every other status the two agree on retrying. */
  lemma ErrorRetriedUnlikeR2(t: Transcript)
    ensures t.status == "error" ==>
              "Refresh" in PollResponse(t).headers && "Refresh" !in R2Worker.PollResponse(t).headers
    ensures t.status != "error" ==>
              ("Refresh" in PollResponse(t).headers <==> "Refresh" in R2Worker.PollResponse(t).headers)
  {
  }
}
