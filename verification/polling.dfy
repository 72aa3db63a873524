/** `AssemblyAiClient.waitForTranscript` as the r2 and root workers write it
    (the two copies are the same code): poll the transcript, wait on
    `queued`/`processing`, return on `completed`, throw on `error`. The
    provider is the finite sequence of answers successive polls receive;
    the three-second sleep between polls has no observable effect. */
module Polling {
  import opened Common

  /** A status at which the loop stops polling. */
  predicate IsTerminal(t: Transcript)
  {
    t.status == "completed" || t.status == "error"
  }

  /** The message of the error thrown for a failed transcript. */
  function FailureMessage(t: Transcript): string
  {
    "Transcription failed: " + t.error
  }

  /** What the loop does with the answers from poll number `i` on. */
  function WaitFrom(polls: seq<Transcript>, i: nat): (r: WaitOutcome<Transcript>)
    requires i <= |polls|
    ensures r.Returned? ==> i <= r.at < |polls| && r.transcript == polls[r.at] && r.transcript.status == "completed"
    ensures r.Thrown? ==> i <= r.at < |polls| && polls[r.at].status == "error" && r.message == FailureMessage(polls[r.at])
    decreases |polls| - i
  {
    if i == |polls| then StillWaiting
    else if polls[i].status == "completed" then Returned(polls[i], i)
    else if polls[i].status == "error" then Thrown(FailureMessage(polls[i]), i)
    // `queued` and `processing` sleep and poll again; any other status
    // matches no case and polls again too
    else WaitFrom(polls, i + 1)
  }

  /** The loop stops at the first terminal answer: it returns a completed
      transcript or throws the failure of an errored one; it keeps waiting
      exactly when no answer is terminal. */
  lemma {:induction false} WaitFromOutcome(polls: seq<Transcript>, i: nat)
    requires i <= |polls|
    ensures var r := WaitFrom(polls, i);
            && (r.Returned? ==>
                  && i <= r.at < |polls| && r.transcript == polls[r.at]
                  && r.transcript.status == "completed"
                  && forall j :: i <= j < r.at ==> !IsTerminal(polls[j]))
            && (r.Thrown? ==>
                  && i <= r.at < |polls| && polls[r.at].status == "error"
                  && r.message == FailureMessage(polls[r.at])
                  && forall j :: i <= j < r.at ==> !IsTerminal(polls[j]))
            && (r.StillWaiting? <==> forall j :: i <= j < |polls| ==> !IsTerminal(polls[j]))
    decreases |polls| - i
  {
    if i < |polls| {
      WaitFromOutcome(polls, i + 1);
    }
  }

  /** Terminal answers are absorbing: answers that arrive after the loop
      has stopped do not change its outcome, and while it is still waiting
      it simply carries on with the later answers. */
  lemma {:induction false} WaitFromExtends(polls: seq<Transcript>, more: seq<Transcript>, i: nat)
    requires i <= |polls|
    ensures WaitFrom(polls, i) != StillWaiting ==> WaitFrom(polls + more, i) == WaitFrom(polls, i)
    ensures WaitFrom(polls, i) == StillWaiting ==> WaitFrom(polls + more, i) == WaitFrom(polls + more, |polls|)
    decreases |polls| - i
  {
    if i < |polls| {
      assert (polls + more)[i] == polls[i];
      WaitFromExtends(polls, more, i + 1);
    }
  }

  /** The polling loop. It returns only a transcript whose status is
      `completed`, throws at the first `error`, and otherwise polls until
      the answers run out. */
  method WaitForTranscript(polls: seq<Transcript>) returns (r: WaitOutcome<Transcript>)
    ensures r.Returned? ==>
              && r.at < |polls| && r.transcript == polls[r.at]
              && r.transcript.status == "completed"
              && forall j :: 0 <= j < r.at ==> !IsTerminal(polls[j])
    ensures r.Thrown? ==>
              && r.at < |polls| && polls[r.at].status == "error"
              && r.message == FailureMessage(polls[r.at])
              && forall j :: 0 <= j < r.at ==> !IsTerminal(polls[j])
    ensures r.StillWaiting? ==> forall j :: 0 <= j < |polls| ==> !IsTerminal(polls[j])
    ensures r == WaitFrom(polls, 0)
  {
    var i := 0;
    while i < |polls|
      invariant i <= |polls|
      invariant forall j :: 0 <= j < i ==> !IsTerminal(polls[j])
      invariant WaitFrom(polls, i) == WaitFrom(polls, 0)
    {
      var transcript := polls[i];
      if transcript.status == "queued" || transcript.status == "processing" {
        // sleep three seconds, then poll again
      } else if transcript.status == "completed" {
        return Returned(transcript, i);
      } else if transcript.status == "error" {
        return Thrown(FailureMessage(transcript), i);
      }
      i := i + 1;
    }
    return StillWaiting;
  }
}
