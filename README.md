# golap-server: chunk buffer and processing pipeline

A Dafny model of the socket server in `server.js`, which receives a screen
recording as a stream of binary fragments, stages it in `temp_upload/`, and
on a `process-video` event drives the post-processing calls: mark the
recording as processing, upload it to S3, transcribe and summarise it for
"PRO" accounts, notify completion, and attempt to delete the staged file
(never reached as written; see Findings).

The model has two parts.

- **The chunk buffer and the staging store.** One module-level list,
  `recordedChunks`, is shared by every connection and every filename.
  Each `video-chunks` event pushes its fragment onto that list. It then
  rewrites `temp_upload/<filename>` with the concatenation of everything
  buffered so far. `process-video` empties the list. The class
  `Server.ChunkServer` holds this state. The pure functions in `Ingest`
  describe the same steps on values, and the lemmas about buffer order,
  staged contents, cross-filename mixing and reset are proved there.
- **The pipeline gating.** `Pipeline.AsWritten` is a pure function. It
  takes the answers of the external services (`Responses`) and the
  staging store, and returns the calls made, in order, and the staging
  store afterwards. The services are oracles: their answers are inputs.
  The `fs.stat` result is read from the staging store. It succeeds when
  the staged file exists, and its size is the file's length.

Files: `chunks.dfy` (bytes, concatenation, staging paths), `pipeline.dfy`
(the gating chain as written), `ingest.dfy` (server state as a value and
event replay), `server.dfy` (the mutable server), `findings.dfy` (the
pipeline with two defects repaired).

The model follows the code as written:

- There is one global buffer for every connection and filename. Fragments
  for different filenames mix (`Ingest.CrossSessionMixing`).
- Upload is attempted only when the processing status is *not* 200. A
  status of 200 aborts the run. The model keeps this condition as written
  and does not call it a defect, because the meaning of the status field
  of that endpoint is not visible in this repository.
- `/complete` is posted whatever the upload status and the plan.
- The staged file is never deleted. The line-130 check throws first
  (see Findings).
- The transcription branch runs inside the `fs.stat` callback, which
  nobody awaits. Its calls are kept in a separate `detached` list.

## Model

| member | source | states |
|---|---|---|
| `Chunks.StagingPath` | server.js:42 | the chunk handler's path is "temp_upload", a '/', then the filename, recoverable from the path |
| `Chunks.ReadPathAsWritten` | server.js:58 | the process handler's read path is "temp_upload" followed directly by the filename, with no separator |
| `Chunks.ReadPathHitsStaging` | server.js:58 | as strings, the read path of `f` equals the staged path of `g` iff `f` is `"/" + g`, and never equals `f`'s own staged path |
| `Chunks.ConcatAppend` | server.js:43-48 | pushing a fragment appends exactly its bytes at the end of the Blob of the buffer |
| `Chunks.ConcatLength` | server.js:44-48 | the Blob's size is the sum of the fragments' sizes |
| `Pipeline.Read` | server.js:58 | the read yields the file's contents when it exists and nothing (`file` undefined) otherwise, with the error ignored |
| `Pipeline.StatBranch` | server.js:81-120 | transcription of the staged bytes happens iff `fs.stat` succeeds and size < 25000000; summary and the /transcribe post happen iff, in addition, the transcript is non-empty; the post carries filename, completion content and transcript |
| `Pipeline.AsWritten` | server.js:58-140 | the processing call always comes first; upload and /complete happen iff the processing status is not 200, and then the awaited calls are exactly mark, upload, /complete in that order; a status of 200 makes no other call and aborts; the upload body is the read of "temp_upload"+filename; the detached calls are those of `Pipeline.StatBranch` when the status is not 200, the upload returned 200 and the plan is "PRO", and none otherwise; transcription happens iff status is not 200, upload returned 200, plan is "PRO", the staged file exists and is under 25000000 bytes; summary iff also the transcript is non-empty; no delete ever, and the run ends in the line-130 error |
| `Pipeline.WhisperBoundary` | server.js:84 | a staged file of exactly 25000000 bytes is not transcribed; one of 24999999 bytes is |
| `Pipeline.FreePlanNeverTranscribes` | server.js:80 | a plan other than "PRO" never reaches transcription or summary |
| `Ingest.AfterChunk` | server.js:40-53 | a chunk event appends the fragment to the buffer; the event's staged file then holds the old buffer's bytes followed by the fragment; no other staged file changes |
| `Ingest.AfterProcess` | server.js:54-58 | a process event empties the buffer, and the staging store is unchanged by the as-written pipeline |
| `Ingest.RunBuffer` | server.js:35-56 | over any sequence of events the buffer holds, in receipt order, every fragment since the last process event, whatever its filename |
| `Ingest.StagedAfterChunk` | server.js:40-56 | after a chunk event, its filename's staged file holds the bytes of every fragment since the last process event, in order, followed by its own |
| `Ingest.StagedSizeIsBufferSize` | server.js:44-48 | the size of the file a chunk event writes, which `fs.stat` reports to the Whisper gate at server.js:84, is the total size of every fragment in the buffer |
| `Ingest.CrossSessionMixing` | server.js:35-50 | a fragment for `a`, then one for a different `b`: `a`'s file holds `a`'s bytes and `b`'s file holds `a`'s bytes followed by `b`'s |
| `Ingest.ResetStartsFresh` | server.js:56 | after a process event, the next chunk event's staged file holds exactly that fragment |
| `Ingest.StagingNeverShrinks` | server.js:40-140 | no sequence of events removes a staged file |
| `Server.ChunkServer.constructor` | server.js:35 | the server starts with an empty buffer over the existing disk contents |
| `Server.ChunkServer.OnVideoChunks` | server.js:40-53 | the fragment is appended to the buffer; the event's staged file is rewritten with the whole buffer's bytes; nothing else changes |
| `Server.ChunkServer.OnProcessVideo` | server.js:54-141 | the buffer is emptied; the calls made are those of the as-written pipeline on the staging store; the staging store is unchanged |
| `Server.TwoRecordingsShareTheBuffer` | server.js:35-50 | through the class alone, the second of two recordings streamed to one server is staged with the first one's bytes in front |
| `Findings.Intended` | server.js:58-137 | repaired pipeline: when the processing status is not 200 the awaited calls are exactly mark, upload of the staged file, /complete, then a delete of the staged file only when /complete answers 200; a status of 200 makes only the mark call; delete happens iff the processing status is not 200 and /complete answers 200, and removes exactly the staged file; the transcription branch is unchanged |
| `Findings.CompleteOkStillKeepsFile` | server.js:123-136 | as written, a /complete answer of 200 still leaves the staged file in place, while the repaired pipeline removes it |
| `Findings.UploadMissesStagedFile` | server.js:58-75 | as written, with the recording staged at its own path, the upload body is undefined; the repaired pipeline uploads the staged bytes |
| `Findings.DeleteFollowsComplete` | server.js:123-136 | in the repaired pipeline the delete is the single last call, right after /complete |
| `Findings.FreePlanScenario` | server.js:58-137 | "a.webm" with fragments b1, b2, b3 staged, plan FREE, upload and /complete 200: repaired, it uploads b1+b2+b3, does not transcribe and deletes the file; as written, it uploads nothing and keeps the file |

## Left out

- Express, socket.io, CORS, dotenv and `server.listen` (server.js:1-33, 148-149) are transport and configuration. They are not modelled.
- The S3 bucket name and the API host come from the environment and are not modelled.
- The contents of the title and summary prompt (server.js:99) and the model names are not modelled. The completion content is an opaque string.
- Failures of the external calls are not modelled. Each gateway answer is a plain value. A rejected promise (axios on a non-2xx HTTP status, an S3 SDK error, an empty `choices` list) would end its callback at that point.
- The status of the /transcribe post (server.js:113) is only logged. It changes nothing and is not an input.
- The `disconnect` handler (server.js:143-145) only logs.
- All `console.log` output is left out.
- Asynchronous interleaving is not modelled. Write streams from rapid chunk events are assumed to finish in event order. The detached `fs.stat` branch is assumed to see the staging store as it was when `process-video` began.
- The process-wide effect of the unhandled rejection thrown at server.js:130 is not modelled. The model assumes the server process survives it. Under the defaults of Node 15 and later, the process exits when /complete answers. The Whisper call is usually still pending then, so the `Summarize` and `PostTranscript` calls in `detached` would not happen, and later events in `Ingest.Run` would never be handled.
- Failed writes to the staging file are not modelled. The write stream opened at server.js:42 has no error listener, so a failed open (missing directory, missing subdirectory in the filename, no permission) is an uncaught exception. `Ingest.AfterChunk` and `Server.ChunkServer.OnVideoChunks` assume every write succeeds.
- Chunks.ReadPathHitsStaging: paths are compared as strings, with no normalisation of "//", "./", ".." or case. On a real filesystem, the filename "/rec.webm" is written to "temp_upload//rec.webm", and line 58 reads "temp_upload/rec.webm", which is the same file. The model treats them as two entries. The same holds for `Ingest.AfterChunk`, `Ingest.CrossSessionMixing` and the line-58 finding, which are exact only for filenames whose paths need no normalisation.
- Blob, Buffer and Readable conversions are not modelled. A fragment is a sequence of bytes, and a Blob of fragments is their concatenation.
- `Pipeline.StatBranch`: the transcription result is an input, not a function of the audio bytes.

## Findings

| source | as written | input that shows it | evidently intended | confidence | as-written member | corrected member |
|---|---|---|---|---|---|---|
| server.js:130 | `titleAndSummeryGenerated` is declared only inside the `fs.stat` callback (line 104). Reading it at line 130 throws a ReferenceError, so the delete at line 133 is never reached. | processing status 201, /complete status 200, staged file present | delete the staged file when /complete answers 200 | high, not executed | `Findings.CompleteOkStillKeepsFile` | `Findings.Intended` |
| server.js:58 | the file to upload is read from `"temp_upload" + filename`, with no '/'. The read error is ignored, so `Body` is undefined. | filename "a.webm" staged only at "temp_upload/a.webm", processing status 201 | read "temp_upload/" + filename, as lines 42, 81, 87 and 134 do | high, not executed | `Findings.UploadMissesStagedFile` | `Findings.Intended` |

`Server.ChunkServer.OnProcessVideo` runs the pipeline as written, because
it models what the server does. `Findings.Intended` keeps the
processing-status gate and the transcription branch exactly as
`Pipeline.AsWritten` has them.
