/** The R2-backed worker with webhook delivery: the upload redirects
    straight to the subtitle file `/file/<id>.srt`, and the provider's
    webhook call writes that file once the transcript is completed. */
module WebhookWorker {
  import opened Common
  import opened Keys
  import opened Store

  /** The body posted to create a transcript: `audio_url` and `webhook_url`. */
  datatype CreateRequest = CreateRequest(audioUrl: string, webhookUrl: string)

  /** The JSON the provider posts to `/webhook`. */
  datatype WebhookBody = WebhookBody(transcriptId: string, status: string)

  /** The redirect target after an upload, built from the id as
      `/file/${id}.srt`. */
  function RedirectLocation(transcriptId: string): (location: string)
    ensures location == FilePath(ArtifactKey(transcriptId))
  {
    "/file/" + transcriptId + ".srt"
  }

  /** The redirect names the file of the key the webhook writes for the
      same id, and depends on nothing but the id. */
  lemma RedirectNamesArtifact(a: string, b: string)
    ensures RedirectLocation(a) == FilePath(ArtifactKey(a))
    ensures RedirectLocation(a) == RedirectLocation(b) <==> a == b
  {
    assert RedirectLocation(a) == FilePath(ArtifactKey(a));
    assert RedirectLocation(b) == FilePath(ArtifactKey(b));
    if RedirectLocation(a) == RedirectLocation(b) {
      FilePathInjective(ArtifactKey(a), ArtifactKey(b));
      ArtifactKeyInjective(a, b);
    }
  }

  /** The bucket after the webhook: unchanged unless the status is
      `completed`, in which case `<id>.srt` holds the fetched subtitles. */
  function WebhookEffect(objects: map<string, seq<byte>>, body: WebhookBody,
                         subtitles: (string, string) -> seq<byte>): (after: map<string, seq<byte>>)
    ensures body.status != "completed" ==> after == objects
    ensures body.status == "completed" ==>
              && ArtifactKey(body.transcriptId) in after
              && after[ArtifactKey(body.transcriptId)] == subtitles(body.transcriptId, "srt")
    ensures forall k :: k != ArtifactKey(body.transcriptId) ==>
              (k in after <==> k in objects) && (k in objects ==> after[k] == objects[k])
  {
    if body.status != "completed" then objects
    else objects[ArtifactKey(body.transcriptId) := subtitles(body.transcriptId, "srt")]
  }

  /** The `/webhook` handler. A status other than `completed` is answered
      `ok` and changes nothing; a completed one fetches the SRT subtitles
      and puts them at `<id>.srt`, and the handler then returns no response
      of its own. */
  method HandleWebhook(bucket: Bucket, body: WebhookBody, subtitles: (string, string) -> seq<byte>)
    returns (r: Option<Response>)
    modifies bucket
    ensures body.status != "completed" ==> r == Some(TextResponse("ok"))
    ensures body.status == "completed" ==> r == None
    ensures bucket.objects == WebhookEffect(old(bucket.objects), body, subtitles)
  {
    if body.status != "completed" {
      return Some(TextResponse("ok"));
    }
    var fetched := subtitles(body.transcriptId, "srt");
    var objectKey := ArtifactKey(body.transcriptId);
    bucket.Put(objectKey, fetched);
    r := None;
  }

  /** Delivering the same webhook again, with the subtitle fetch answering
      the same bytes, leaves the bucket as the first delivery left it. */
  lemma WebhookReplayIdempotent(objects: map<string, seq<byte>>, body: WebhookBody,
                                first: (string, string) -> seq<byte>,
                                again: (string, string) -> seq<byte>)
    requires first(body.transcriptId, "srt") == again(body.transcriptId, "srt")
    ensures WebhookEffect(WebhookEffect(objects, body, first), body, again)
            == WebhookEffect(objects, body, first)
  {
  }

  /** Two webhooks give the same bucket in either order: for different
      transcripts they touch different keys, and two deliveries for the
      same transcript write the same fetched bytes to the same key. */
  lemma WebhooksCommute(objects: map<string, seq<byte>>, a: WebhookBody, b: WebhookBody,
                        subtitles: (string, string) -> seq<byte>)
    ensures WebhookEffect(WebhookEffect(objects, a, subtitles), b, subtitles)
            == WebhookEffect(WebhookEffect(objects, b, subtitles), a, subtitles)
  {
    if ArtifactKey(a.transcriptId) == ArtifactKey(b.transcriptId) {
      ArtifactKeyInjective(a.transcriptId, b.transcriptId);
    }
  }

  /** The file the upload redirects to is served with the subtitles once the
      completed webhook for that id has been handled; before that, if it was
      never written, it is a 404. */
  lemma RedirectServesSubtitles(objects: map<string, seq<byte>>, body: WebhookBody,
                                subtitles: (string, string) -> seq<byte>, key: string)
    requires FilePath(key) == RedirectLocation(body.transcriptId)
    ensures body.status == "completed" ==>
              FileResponse(Lookup(WebhookEffect(objects, body, subtitles), key))
              == Response(200, map[], Bytes(subtitles(body.transcriptId, "srt")))
    ensures body.status != "completed" && key !in objects ==>
              FileResponse(Lookup(WebhookEffect(objects, body, subtitles), key)).status == 404
  {
    RedirectNamesArtifact(body.transcriptId, body.transcriptId);
    FilePathInjective(key, ArtifactKey(body.transcriptId));
  }

  /** The `/upload-file` handler: store the file under
      `SourceKey(uuid, name)` before submitting the job with its `/file/`
      URL and the `/webhook` URL, then redirect to the subtitle file of the
      returned id. */
  method HandleUpload(bucket: Bucket, uuid: string, file: UploadedFile,
                      provider: (CreateRequest, map<string, seq<byte>>) -> Transcript)
    returns (r: Response)
    modifies bucket
    ensures bucket.objects == old(bucket.objects)[SourceKey(uuid, file.name) := file.bytes]
    ensures var submitted := CreateRequest(FilePath(SourceKey(uuid, file.name)), "/webhook");
            r == Redirect(RedirectLocation(provider(submitted, bucket.objects).id))
  {
    var objectKey := SourceKey(uuid, file.name);
    bucket.Put(objectKey, file.bytes);
    var fileUrl := FilePath(objectKey);
    var webhookUrl := "/webhook";
    var transcript := provider(CreateRequest(fileUrl, webhookUrl), bucket.objects);
    r := Redirect("/file/" + transcript.id + ".srt");
  }
}
