/** The R2-backed worker (poll-only): uploads are stored in the bucket under
    a fresh source key, the provider is pointed at the `/file/:key` URL, and
    the browser polls `/transcript/:id`. */
module R2Worker {
  import opened Common
  import opened Keys
  import opened Store
  import opened Polling

  /** The body this worker posts to create a transcript: only `audio_url`. */
  datatype CreateRequest = CreateRequest(audioUrl: string)

  /** The `/transcript/:id` handler for the transcript the provider returned:
      the text once completed, the error once failed, and otherwise the
      status with a `Refresh: 3` header that makes the browser poll again. */
  function PollResponse(t: Transcript): (r: Response)
    ensures r.status == 200
    ensures t.status == "completed" ==> r.body == Text(t.text)
    ensures t.status == "error" ==> r.body == Text(t.error)
    ensures !IsTerminal(t) ==> r.body == Text(t.status)
    ensures "Refresh" in r.headers <==> !IsTerminal(t)
    ensures r.headers == map[] || r.headers == map["Refresh" := "3"]
  {
    match ParseStatus(t.status)
    case Completed => TextResponse(t.text)
    case Error => TextResponse(t.error)
    case _ => Response(200, map["Refresh" := "3"], Text(t.status))
  }

  /** The browser is told to retry exactly when the wait loop, shown the
      same answer, would poll again; and the answer it stops at carries
      the text or the error it would have returned or thrown. */
  lemma PollRetriesWhileWaitContinues(t: Transcript)
    ensures "Refresh" in PollResponse(t).headers <==> WaitFrom([t], 0).StillWaiting?
    ensures WaitFrom([t], 0).Returned? ==> PollResponse(t).body == Text(WaitFrom([t], 0).transcript.text)
    ensures WaitFrom([t], 0).Thrown? ==>
              WaitFrom([t], 0).message == "Transcription failed: " + PollResponse(t).body.text
  {
    WaitFromOutcome([t], 0);
  }

  /** The `/upload-file` handler: store the file under
      `SourceKey(uuid, name)`, then submit the `/file/` URL of that key to
      the provider and redirect to `/transcript/<id>`. The provider sees
      the bucket as it is when the job is submitted, so the source file is
      already there. */
  method HandleUpload(bucket: Bucket, uuid: string, file: UploadedFile,
                      provider: (CreateRequest, map<string, seq<byte>>) -> Transcript)
    returns (r: Response)
    modifies bucket
    ensures bucket.objects == old(bucket.objects)[SourceKey(uuid, file.name) := file.bytes]
    ensures var submitted := CreateRequest(FilePath(SourceKey(uuid, file.name)));
            r == Redirect(TranscriptPath(provider(submitted, bucket.objects).id))
  {
    var objectKey := SourceKey(uuid, file.name);
    bucket.Put(objectKey, file.bytes);
    var fileUrl := FilePath(objectKey);
    var transcript := provider(CreateRequest(fileUrl), bucket.objects);
    r := Redirect(TranscriptPath(transcript.id));
  }

  /** What the provider fetches from the submitted URL right after an
      upload is the uploaded file. */
  lemma SubmittedSourceIsServed(objects: map<string, seq<byte>>, uuid: string, file: UploadedFile, key: string)
    requires FilePath(key) == FilePath(SourceKey(uuid, file.name))
    ensures FileResponse(Lookup(objects[SourceKey(uuid, file.name) := file.bytes], key))
            == Response(200, map[], Bytes(file.bytes))
  {
    FilePathInjective(key, SourceKey(uuid, file.name));
  }
}
