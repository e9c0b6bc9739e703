/** The gating chain of the `process-video` handler (server.js:58-140): which
    external calls are made, given the answers of the external services.
    The services are oracles: their answers are the fields of `Responses`. */
module Pipeline {
  import opened Chunks

  datatype Option<T> = None | Some(value: T)

  /** Whisper's file-size restriction: transcription needs size < 25000000. */
  const WhisperLimit: nat := 25000000

  /** The upload's fixed content type. */
  const UploadContentType: string := "video/webm"

  /** The answers the external services give during one run. */
  datatype Responses = Responses(
    processingStatus: int,  // `processing.data.status` of POST recording/<userId>/processing
    plan: string,           // `processing.data.plan`
    uploadStatus: int,      // `$metadata.httpStatusCode` of the S3 PutObject
    transcription: string,  // the Whisper transcript, plain text
    completion: string,     // `choices[0].message.content` of the title/summary completion
    completeStatus: int)    // `stopProcessing.data.status` of POST recording/<userId>/complete

  /** One call into a service or the staging store. */
  datatype Call =
    | MarkProcessing(userId: string)                     // POST recording/<userId>/processing
    | Upload(key: string, contentType: string, body: Option<seq<Byte>>)
                                                         // S3 PutObject; None: `file` was undefined
    | Transcribe(audio: seq<Byte>)                       // Whisper on a read stream of the staged file
    | Summarize(transcript: string)                      // chat completion for a title and summary
    | PostTranscript(userId: string, filename: string, content: string, transcript: string)
                                                         // POST recording/<userId>/transcribe
    | Complete(userId: string, filename: string)         // POST recording/<userId>/complete
    | Delete(path: string)                               // fs.unlink of the staged file

  /** How the handler's callback ends. */
  datatype End =
    | UploadAborted  // the else branch: "upload failed, Process aborted"
    | ScopeError     // `titleAndSummeryGenerated` is not in scope: ReferenceError
    | Finished       // ran to its end

  /** `chain`: the calls awaited one after another in the readFile callback.
      `detached`: the calls made inside the fs.stat callback, which runs on
      its own and is never awaited. `staging`: the staging store afterwards. */
  datatype Outcome = Outcome(chain: seq<Call>, detached: seq<Call>, staging: Store, end: End)

  /** What reading `path` yields: its contents, or nothing when it is absent. */
  function Read(staging: Store, path: string): (r: Option<seq<Byte>>)
    ensures r.Some? <==> path in staging
    ensures r.Some? ==> r.value == staging[path]
  {
    if path in staging then Some(staging[path]) else None
  }

  predicate HasUpload(calls: seq<Call>)
  {
    exists c :: c in calls && c.Upload?
  }

  predicate HasTranscribe(calls: seq<Call>)
  {
    exists c :: c in calls && c.Transcribe?
  }

  predicate HasSummarize(calls: seq<Call>)
  {
    exists c :: c in calls && c.Summarize?
  }

  predicate HasPostTranscript(calls: seq<Call>)
  {
    exists c :: c in calls && c.PostTranscript?
  }

  predicate HasDelete(calls: seq<Call>)
  {
    exists c :: c in calls && c.Delete?
  }

  /** The fs.stat callback (server.js:81-120), entered once the upload
      returned 200 and the plan is "PRO". fs.stat succeeds when the staged
      file exists; its size is the file's length. */
  function StatBranch(filename: string, userId: string, r: Responses, staging: Store): (calls: seq<Call>)
    ensures HasTranscribe(calls) <==>
              StagingPath(filename) in staging && |staging[StagingPath(filename)]| < WhisperLimit
    ensures forall c :: c in calls && c.Transcribe? ==> c.audio == staging[StagingPath(filename)]
    ensures HasSummarize(calls) <==> HasTranscribe(calls) && |r.transcription| > 0
    ensures HasPostTranscript(calls) <==> HasSummarize(calls)
    ensures forall c :: c in calls && c.Summarize? ==> c.transcript == r.transcription
    ensures forall c :: c in calls && c.PostTranscript? ==>
              c == PostTranscript(userId, filename, r.completion, r.transcription)
    ensures forall c :: c in calls ==> c.Transcribe? || c.Summarize? || c.PostTranscript?
  {
    var path := StagingPath(filename);
    match Read(staging, path)
    case None => []  // fs.stat failed
    case Some(file) =>
      if |file| < WhisperLimit then
        if |r.transcription| > 0 then
          var calls := [Transcribe(file), Summarize(r.transcription),
                        PostTranscript(userId, filename, r.completion, r.transcription)];
          assert calls[0] in calls && calls[1] in calls && calls[2] in calls;
          calls
        else
          var calls := [Transcribe(file)];
          assert calls[0] in calls;
          calls
      else
        []
  }

  /** The `process-video` pipeline as server.js:58-140 has it.
      The upload branch runs only when the processing status is NOT 200;
      the file it uploads is read from "temp_upload" + filename (no '/'),
      a read whose error is ignored; and the status check at line 130 names
      `titleAndSummeryGenerated`, which is bound only inside the fs.stat
      callback, so the callback throws there, after the /complete post and
      before the delete at line 133. */
  function AsWritten(filename: string, userId: string, r: Responses, staging: Store): (o: Outcome)
    ensures |o.chain| > 0 && o.chain[0] == MarkProcessing(userId)
    ensures HasUpload(o.chain) <==> r.processingStatus != 200
    ensures forall c :: c in o.chain && c.Upload? ==>
              c == Upload(filename, UploadContentType, Read(staging, ReadPathAsWritten(filename)))
    ensures r.processingStatus == 200 ==>
              o.chain == [MarkProcessing(userId)] && o.detached == [] && o.end == UploadAborted
    ensures Complete(userId, filename) in o.chain <==> r.processingStatus != 200
    ensures HasTranscribe(o.detached) <==>
              r.processingStatus != 200 && r.uploadStatus == 200 && r.plan == "PRO" &&
              StagingPath(filename) in staging && |staging[StagingPath(filename)]| < WhisperLimit
    ensures HasSummarize(o.detached) <==> HasTranscribe(o.detached) && |r.transcription| > 0
    ensures r.processingStatus != 200 ==>
              |o.chain| == 3 &&
              o.chain[1] == Upload(filename, UploadContentType, Read(staging, ReadPathAsWritten(filename))) &&
              o.chain[2] == Complete(userId, filename)
    ensures o.detached == if r.processingStatus != 200 && r.uploadStatus == 200 && r.plan == "PRO"
                          then StatBranch(filename, userId, r, staging) else []
    ensures r.processingStatus != 200 ==> o.end == ScopeError
    ensures !HasDelete(o.chain) && !HasDelete(o.detached) && o.staging == staging
  {
    var mark := MarkProcessing(userId);
    if r.processingStatus != 200 then
      var upload := Upload(filename, UploadContentType, Read(staging, ReadPathAsWritten(filename)));
      var detached := if r.uploadStatus == 200 && r.plan == "PRO"
                      then StatBranch(filename, userId, r, staging) else [];
      var chain := [mark, upload, Complete(userId, filename)];
      assert chain[1] in chain;
      Outcome(chain, detached, staging, ScopeError)
    else
      Outcome([mark], [], staging, UploadAborted)
  }

  /** At the Whisper limit the comparison is strict: a staged file of exactly
      25000000 bytes is not transcribed, one byte fewer is. */
  lemma WhisperBoundary(filename: string, userId: string, r: Responses, staging: Store)
    requires r.processingStatus != 200 && r.uploadStatus == 200 && r.plan == "PRO"
    requires StagingPath(filename) in staging
    ensures |staging[StagingPath(filename)]| == WhisperLimit ==>
              !HasTranscribe(AsWritten(filename, userId, r, staging).detached)
    ensures |staging[StagingPath(filename)]| == WhisperLimit - 1 ==>
              HasTranscribe(AsWritten(filename, userId, r, staging).detached)
  {
  }

  /** A plan other than "PRO" never reaches transcription, whatever the size. */
  lemma FreePlanNeverTranscribes(filename: string, userId: string, r: Responses, staging: Store)
    requires r.plan != "PRO"
    ensures !HasTranscribe(AsWritten(filename, userId, r, staging).detached)
    ensures !HasSummarize(AsWritten(filename, userId, r, staging).detached)
  {
  }
}
