/** The socket handlers of server.js over their shared, mutable state: the
    module-level `recordedChunks` list and the `temp_upload` staging store. */
module Server {
  import opened Chunks
  import opened Pipeline
  import opened Ingest

  class ChunkServer {
    /** Every fragment buffered since start-up or the last `process-video`,
        for all connections and filenames together. */
    var recordedChunks: seq<seq<Byte>>
    /** The staging store: path -> file contents. */
    var staging: Store

    function Snapshot(): ServerState
      reads this
    {
      ServerState(recordedChunks, staging)
    }

    /** A server that has just started: empty buffer, whatever files are on disk. */
    constructor (disk: Store)
      ensures recordedChunks == [] && staging == disk
    {
      recordedChunks := [];
      staging := disk;
    }

    /** `socket.on("video-chunks")`: the write stream truncates the staged file,
        the fragment is pushed, and the file is rewritten with the Blob of the
        whole buffer. */
    method OnVideoChunks(filename: string, chunks: seq<Byte>)
      modifies this
      ensures recordedChunks == old(recordedChunks) + [chunks]
      ensures staging == old(staging)[StagingPath(filename) := Concat(recordedChunks)]
      ensures staging[StagingPath(filename)] == Concat(old(recordedChunks)) + chunks
      ensures Snapshot() == Step(old(Snapshot()), VideoChunks(filename, chunks))
    {
      var path := StagingPath(filename);
      staging := staging[path := []];
      recordedChunks := recordedChunks + [chunks];
      var blob := Concat(recordedChunks);
      staging := staging[path := blob];
      ConcatAppend(old(recordedChunks), chunks);
    }

    /** `socket.on("process-video")`: the buffer is reset before anything
        else, then the pipeline runs; `run` reports the calls it makes. */
    method OnProcessVideo(filename: string, userId: string, r: Responses) returns (run: Outcome)
      modifies this
      ensures recordedChunks == []
      ensures run == AsWritten(filename, userId, r, old(staging))
      ensures staging == run.staging == old(staging)
      ensures Snapshot() == Step(old(Snapshot()), ProcessVideo(filename, userId, r))
    {
      recordedChunks := [];
      run := AsWritten(filename, userId, r, staging);
      staging := run.staging;
    }
  }

  /** A client of the class: two recordings streamed to one server without a
      `process-video` in between end up mixed in the second one's staged file
      (the same holds when both carry the same filename). */
  method TwoRecordingsShareTheBuffer(disk: Store, a: string, ca: seq<Byte>, b: string, cb: seq<Byte>)
    returns (stagedForB: seq<Byte>)
    ensures stagedForB == ca + cb
  {
    var s := new ChunkServer(disk);
    s.OnVideoChunks(a, ca);
    s.OnVideoChunks(b, cb);
    stagedForB := s.staging[StagingPath(b)];
    assert Concat([ca]) == ca by {
      assert [ca][1..] == [];
    }
  }
}
