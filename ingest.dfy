/** The state the socket handlers of server.js share, as a value, and what
    each event does to it. There is ONE buffer, `recordedChunks`, for every
    connection and every filename (server.js:35). */
module Ingest {
  import opened Chunks
  import opened Pipeline

  datatype ServerState = ServerState(recordedChunks: seq<seq<Byte>>, staging: Store)

  /** A socket event as the handlers receive it. A `ProcessVideo` event carries
      the answers the external services give to the run it starts. */
  datatype Event =
    | VideoChunks(filename: string, chunks: seq<Byte>)
    | ProcessVideo(filename: string, userId: string, responses: Responses)

  /** The `video-chunks` handler (server.js:40-53): the fragment goes at the end
      of the shared buffer and the staged file of THIS event's filename is
      rewritten with every buffered fragment, whichever filename they came with.
      Every other staged file is left alone. */
  function AfterChunk(st: ServerState, filename: string, chunks: seq<Byte>): (r: ServerState)
    ensures r.recordedChunks == st.recordedChunks + [chunks]
    ensures StagingPath(filename) in r.staging
    ensures r.staging[StagingPath(filename)] == Concat(st.recordedChunks) + chunks
    ensures r.staging.Keys == st.staging.Keys + {StagingPath(filename)}
    ensures forall p :: p in st.staging && p != StagingPath(filename) ==> r.staging[p] == st.staging[p]
  {
    var buffer := st.recordedChunks + [chunks];
    ConcatAppend(st.recordedChunks, chunks);
    ServerState(buffer, st.staging[StagingPath(filename) := Concat(buffer)])
  }

  /** The `process-video` handler (server.js:54-141): the buffer is emptied
      first, then the pipeline runs on the staging store as it stands. */
  function AfterProcess(st: ServerState, filename: string, userId: string, r: Responses): (o: (ServerState, Outcome))
    ensures o.0.recordedChunks == []
    ensures o.0.staging == o.1.staging == st.staging
  {
    var run := AsWritten(filename, userId, r, st.staging);
    (ServerState([], run.staging), run)
  }

  function Step(st: ServerState, e: Event): ServerState
  {
    match e
    case VideoChunks(f, c) => AfterChunk(st, f, c)
    case ProcessVideo(f, u, r) => AfterProcess(st, f, u, r).0
  }

  /** The state after the events `evs`, handled one at a time in order. */
  function Run(st: ServerState, evs: seq<Event>): ServerState
  {
    if evs == [] then st else Step(Run(st, evs[..|evs| - 1]), evs[|evs| - 1])
  }

  predicate HasProcess(evs: seq<Event>)
  {
    exists i :: 0 <= i < |evs| && evs[i].ProcessVideo?
  }

  /** The fragments of the chunk events after the last `process-video` event
      (all of them when there is none), in receipt order. */
  function SinceLastProcess(evs: seq<Event>): seq<seq<Byte>>
  {
    if evs == [] then []
    else match evs[|evs| - 1]
      case ProcessVideo(_, _, _) => []
      case VideoChunks(_, c) => SinceLastProcess(evs[..|evs| - 1]) + [c]
  }

  /** The buffer holds, in receipt order, every fragment received since the
      last `process-video` event, on top of what it held before when there
      was none; filenames play no part. */
  lemma {:induction false} RunBuffer(st: ServerState, evs: seq<Event>)
    ensures Run(st, evs).recordedChunks ==
              (if HasProcess(evs) then [] else st.recordedChunks) + SinceLastProcess(evs)
  {
    if evs != [] {
      var init := evs[..|evs| - 1];
      RunBuffer(st, init);
      assert HasProcess(evs) <==> HasProcess(init) || evs[|evs| - 1].ProcessVideo? by {
        if HasProcess(evs) && !evs[|evs| - 1].ProcessVideo? {
          var i :| 0 <= i < |evs| && evs[i].ProcessVideo?;
          assert init[i] == evs[i];
        }
        if HasProcess(init) {
          var i :| 0 <= i < |init| && init[i].ProcessVideo?;
          assert evs[i] == init[i];
        }
      }
    }
  }

  /** After a chunk event for `filename`, that filename's staged file holds
      every fragment received since the last `process-video` event (on top of
      the initial buffer when there was none), whichever filename each came with. */
  lemma StagedAfterChunk(st: ServerState, evs: seq<Event>, filename: string, chunks: seq<Byte>)
    ensures StagingPath(filename) in Run(st, evs + [VideoChunks(filename, chunks)]).staging
    ensures Run(st, evs + [VideoChunks(filename, chunks)]).staging[StagingPath(filename)] ==
              Concat(if HasProcess(evs) then [] else st.recordedChunks) + Concat(SinceLastProcess(evs)) + chunks
  {
    var all := evs + [VideoChunks(filename, chunks)];
    assert all[..|all| - 1] == evs;
    RunBuffer(st, evs);
    ConcatSplit(if HasProcess(evs) then [] else st.recordedChunks, SinceLastProcess(evs));
  }

  /** The size `fs.stat` reports for a staged file, which the Whisper limit is
      compared with, is the total size of every fragment in the buffer at the
      time it was written. */
  lemma StagedSizeIsBufferSize(st: ServerState, filename: string, chunks: seq<Byte>)
    ensures var r := AfterChunk(st, filename, chunks);
            |r.staging[StagingPath(filename)]| == TotalLength(r.recordedChunks)
  {
    ConcatLength(st.recordedChunks + [chunks]);
  }

  /** Cross-session mixing: starting from an empty buffer, a fragment for
      filename `a` followed by one for a different filename `b` leaves `a`'s
      fragment staged for `a` and BOTH fragments, `a`'s first, staged for `b`. */
  lemma CrossSessionMixing(staging: Store, a: string, ca: seq<Byte>, b: string, cb: seq<Byte>)
    requires a != b
    ensures var st := Run(ServerState([], staging), [VideoChunks(a, ca), VideoChunks(b, cb)]);
            st.recordedChunks == [ca, cb] &&
            StagingPath(a) in st.staging && StagingPath(b) in st.staging &&
            st.staging[StagingPath(a)] == ca &&
            st.staging[StagingPath(b)] == ca + cb
  {
    var s0 := ServerState([], staging);
    var evs := [VideoChunks(a, ca), VideoChunks(b, cb)];
    assert evs[..1] == [VideoChunks(a, ca)];
    assert [VideoChunks(a, ca)][..0] == [];
    var s1 := AfterChunk(s0, a, ca);
    assert Run(s0, evs[..1]) == s1;
    assert Concat(s0.recordedChunks) == [];
    assert Run(s0, evs) == AfterChunk(s1, b, cb);
    assert Concat(s1.recordedChunks) == ca by {
      assert s1.recordedChunks[1..] == [];
    }
    assert StagingPath(a) != StagingPath(b) by {
      assert StagingPath(a)[|StagingDir| + 1..] == a;
    }
  }

  /** A `process-video` event empties the buffer, so the next fragment, for any
      filename, is staged on its own: a fresh concatenation. */
  lemma ResetStartsFresh(st: ServerState, filename: string, userId: string, r: Responses,
                         next: string, chunks: seq<Byte>)
    ensures Run(st, [ProcessVideo(filename, userId, r), VideoChunks(next, chunks)])
              .staging[StagingPath(next)] == chunks
  {
  }

  /** Nothing the as-written handlers do removes a staged file: over any
      sequence of events the set of staged paths only grows. */
  lemma {:induction false} StagingNeverShrinks(st: ServerState, evs: seq<Event>)
    ensures st.staging.Keys <= Run(st, evs).staging.Keys
  {
    if evs != [] {
      StagingNeverShrinks(st, evs[..|evs| - 1]);
    }
  }
}
