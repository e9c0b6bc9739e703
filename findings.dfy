/** Two defects of the `process-video` pipeline as written, each shown on an
    input, and the pipeline as evidently intended with its properties proved.
    The as-written side is `Pipeline.AsWritten`; the intended one is `Intended`. */
module Findings {
  import opened Chunks
  import opened Pipeline

  /** The pipeline with the two defects repaired: the upload reads the staged
      file "temp_upload/" + filename, and the status check after the /complete
      post no longer names a variable out of scope, so the staged file is
      deleted exactly when /complete answers 200. The gate on the processing
      status and the transcription branch are kept as written. */
  function Intended(filename: string, userId: string, r: Responses, staging: Store): (o: Outcome)
    ensures r.processingStatus != 200 ==>
              o.chain == [MarkProcessing(userId),
                          Upload(filename, UploadContentType, Read(staging, StagingPath(filename))),
                          Complete(userId, filename)] +
                         (if r.completeStatus == 200 then [Delete(StagingPath(filename))] else [])
    ensures r.processingStatus == 200 ==> o.chain == [MarkProcessing(userId)]
    ensures HasUpload(o.chain) <==> r.processingStatus != 200
    ensures forall c :: c in o.chain && c.Upload? ==> c.body == Read(staging, StagingPath(filename))
    ensures Complete(userId, filename) in o.chain <==> r.processingStatus != 200
    ensures HasDelete(o.chain) <==> r.processingStatus != 200 && r.completeStatus == 200
    ensures forall c :: c in o.chain && c.Delete? ==> c.path == StagingPath(filename)
    ensures !HasDelete(o.detached)
    ensures o.staging == if r.processingStatus != 200 && r.completeStatus == 200
                         then staging - {StagingPath(filename)} else staging
    ensures o.detached == AsWritten(filename, userId, r, staging).detached
    ensures o.end == if r.processingStatus != 200 then Finished else UploadAborted
  {
    var path := StagingPath(filename);
    var mark := MarkProcessing(userId);
    if r.processingStatus != 200 then
      var upload := Upload(filename, UploadContentType, Read(staging, path));
      var detached := if r.uploadStatus == 200 && r.plan == "PRO"
                      then StatBranch(filename, userId, r, staging) else [];
      var complete := [mark, upload, Complete(userId, filename)];
      assert complete[1] in complete;
      if r.completeStatus == 200 then
        var chain := complete + [Delete(path)];
        assert chain[1] in chain && chain[3] in chain;
        Outcome(chain, detached, staging - {path}, Finished)
      else
        Outcome(complete, detached, staging, Finished)
    else
      Outcome([mark], [], staging, UploadAborted)
  }

  /** server.js:130, as written: a run whose /complete call answers 200 still
      keeps the staged file, because the callback throws before line 133;
      the intended pipeline removes it. */
  lemma CompleteOkStillKeepsFile(filename: string, userId: string, r: Responses, staging: Store)
    requires r.processingStatus != 200 && r.completeStatus == 200
    requires StagingPath(filename) in staging
    ensures StagingPath(filename) in AsWritten(filename, userId, r, staging).staging
    ensures AsWritten(filename, userId, r, staging).end == ScopeError
    ensures StagingPath(filename) !in Intended(filename, userId, r, staging).staging
  {
  }

  /** server.js:58, as written: with the recording staged only where the chunk
      handler puts it, the upload body is `undefined`; the intended pipeline
      uploads the staged bytes. */
  lemma UploadMissesStagedFile(filename: string, userId: string, r: Responses, bytes: seq<Byte>)
    requires r.processingStatus != 200
    ensures var staging := map[StagingPath(filename) := bytes];
            AsWritten(filename, userId, r, staging).chain[1] == Upload(filename, UploadContentType, None) &&
            Intended(filename, userId, r, staging).chain[1] == Upload(filename, UploadContentType, Some(bytes))
  {
  }

  /** The intended pipeline deletes the staged file at most once and only after
      /complete: the delete is the last call and /complete is just before it. */
  lemma DeleteFollowsComplete(filename: string, userId: string, r: Responses, staging: Store)
    requires r.processingStatus != 200 && r.completeStatus == 200
    ensures var chain := Intended(filename, userId, r, staging).chain;
            |chain| == 4 && chain[2] == Complete(userId, filename) &&
            chain[3] == Delete(StagingPath(filename)) &&
            forall i :: 0 <= i < 3 ==> !chain[i].Delete?
  {
  }

  /** The scenario "a.webm": fragments b1, b2, b3 staged, plan FREE, upload and
      /complete both answer 200. The intended pipeline uploads b1+b2+b3, makes
      no transcription call and deletes the staged file; as written, the
      upload body is whatever "temp_uploada.webm" holds and the file stays. */
  lemma FreePlanScenario(userId: string, b1: seq<Byte>, b2: seq<Byte>, b3: seq<Byte>, r: Responses)
    requires r.processingStatus != 200 && r.plan == "FREE"
    requires r.uploadStatus == 200 && r.completeStatus == 200
    ensures var staging := map[StagingPath("a.webm") := Concat([b1, b2, b3])];
            var o := Intended("a.webm", userId, r, staging);
            o.chain[1] == Upload("a.webm", UploadContentType, Some(b1 + b2 + b3)) &&
            !HasTranscribe(o.detached) &&
            StagingPath("a.webm") !in o.staging &&
            AsWritten("a.webm", userId, r, staging).chain[1].body == None &&
            StagingPath("a.webm") in AsWritten("a.webm", userId, r, staging).staging
  {
    assert Concat([b1, b2, b3]) == b1 + b2 + b3 by {
      assert [b3][1..] == [];
      assert Concat([b3]) == b3;
      assert [b2, b3][1..] == [b3];
      assert Concat([b2, b3]) == b2 + b3;
      assert [b1, b2, b3][1..] == [b2, b3];
    }
    assert ReadPathAsWritten("a.webm") != StagingPath("a.webm");
  }
}
