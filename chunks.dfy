/** Recording fragments, their concatenation, and the paths of the local
    staging store (the `temp_upload` directory of server.js). */
module Chunks {

  type Byte = bv8

  /** The local staging store: path -> file contents. */
  type Store = map<string, seq<Byte>>

  /** The directory every staged recording lives in, without its separator. */
  const StagingDir: string := "temp_upload"

  /** Where the `video-chunks` handler writes, and where `fs.stat`, the
      transcription read stream and `fs.unlink` look: "temp_upload/" + filename. */
  function StagingPath(filename: string): (p: string)
    ensures |p| == |StagingDir| + 1 + |filename|
    ensures p[..|StagingDir|] == StagingDir && p[|StagingDir|] == '/'
    ensures p[|StagingDir| + 1..] == filename
  {
    StagingDir + "/" + filename
  }

  /** Where the `process-video` handler reads the file it uploads:
      "temp_upload" + filename, with no separator. */
  function ReadPathAsWritten(filename: string): (p: string)
    ensures |p| == |StagingDir| + |filename|
    ensures p[..|StagingDir|] == StagingDir && p[|StagingDir|..] == filename
  {
    StagingDir + filename
  }

  /** The bytes of a Blob built from `parts`: every part, in order. */
  function Concat(parts: seq<seq<Byte>>): seq<Byte>
  {
    if parts == [] then [] else parts[0] + Concat(parts[1..])
  }

  /** Total number of bytes held by `parts`. */
  function TotalLength(parts: seq<seq<Byte>>): nat
  {
    if parts == [] then 0 else |parts[0]| + TotalLength(parts[1..])
  }

  /** Appending one part at the end appends its bytes at the end. */
  lemma {:induction false} ConcatAppend(parts: seq<seq<Byte>>, last: seq<Byte>)
    ensures Concat(parts + [last]) == Concat(parts) + last
  {
    if parts == [] {
      assert parts + [last] == [last];
    } else {
      assert (parts + [last])[1..] == parts[1..] + [last];
      ConcatAppend(parts[1..], last);
    }
  }

  /** Concatenation distributes over sequence concatenation of the parts. */
  lemma {:induction false} ConcatSplit(a: seq<seq<Byte>>, b: seq<seq<Byte>>)
    ensures Concat(a + b) == Concat(a) + Concat(b)
  {
    if a == [] {
      assert a + b == b;
    } else {
      assert (a + b)[1..] == a[1..] + b;
      ConcatSplit(a[1..], b);
    }
  }

  /** A Blob's size is the sum of its parts' sizes: no byte is lost or added. */
  lemma {:induction false} ConcatLength(parts: seq<seq<Byte>>)
    ensures |Concat(parts)| == TotalLength(parts)
  {
    if parts != [] {
      ConcatLength(parts[1..]);
    }
  }

  /** The read path of one filename names the staging entry of another
      exactly when the first is the second with a leading '/'. In particular
      it never names the filename's own staging entry. */
  lemma ReadPathHitsStaging(f: string, g: string)
    ensures ReadPathAsWritten(f) == StagingPath(g) <==> f == "/" + g
    ensures ReadPathAsWritten(f) != StagingPath(f)
  {
  }
}
