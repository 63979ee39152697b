/** copyChunks of the function-runtime-oci start command: the image tarball is
    decompressed into the cache by repeated `io.CopyN(dst, src, chunkSize)`
    calls, summing the bytes copied, until one returns an error; an error
    that `errors.Is` io.EOF ends the copy successfully. */
module CopyChunks {
  import opened Base
  import opened Errors
  import opened Stdio

  /** A writer that accepts `capacity` bytes in all (any number when None)
      and fails with `failure` on the write that would exceed it. */
  datatype Sink = Sink(capacity: Option<nat>, failure: Error)

  /** Whether the sink can hold `n` bytes in all. */
  predicate Holds(dst: Sink, n: nat) {
    dst.capacity.None? || n <= dst.capacity.value
  }

  /** io.CopyN(dst, src, n) when `pos` bytes of src have been consumed and
      written to dst already. It copies n bytes and returns nil; or stops
      early, returning what it copied with the write error (the sink is
      full) or, when the source runs out first, the source's terminating
      error (io.EOF itself for a clean end). */
  function CopyN(src: Stream, pos: nat, dst: Sink, n: int): (r: (nat, Option<Error>))
    requires pos <= |src.data|
    requires Holds(dst, pos)
    requires n > 0
    ensures pos + r.0 <= |src.data| && r.0 <= n
    ensures Holds(dst, pos + r.0)
    ensures r.1.None? <==> r.0 == n
    ensures r.1.Some? && Holds(dst, pos + Min(n, |src.data| - pos)) ==> r.1.value == src.end
    ensures r.1.Some? && !Holds(dst, pos + Min(n, |src.data| - pos)) ==> r.1.value == dst.failure
  {
    var k := Min(n, |src.data| - pos);
    if dst.capacity.Some? && dst.capacity.value - pos < k then
      (dst.capacity.value - pos, Some(dst.failure))
    else if k == n then
      (n, None)
    else
      (k, Some(src.end))
  }

  function Sum(s: seq<nat>): nat {
    if |s| == 0 then 0 else Sum(s[..|s| - 1]) + s[|s| - 1]
  }

  /** copyChunks(dst, src, chunkSize). A chunk size of zero or less would
      make every CopyN return (0, nil) and the loop never end, so the
      source's only caller passes a positive one (1 MiB).

      `written` is the sum of the per-call counts in `chunks`, each at most
      chunkSize; `delivered` is what dst received, the source's bytes in
      order. The result is that of copying until the first error: all of
      src when the sink holds it, ending with src's terminating error, or
      else exactly as many bytes as the sink holds, ending with the write
      error; either error is reported as success when it `errors.Is` io.EOF. */
  method CopyChunks(dst: Sink, src: Stream, chunkSize: Int64)
    returns (written: nat, err: Option<Error>, delivered: Bytes, ghost chunks: seq<nat>)
    requires chunkSize > 0
    ensures written <= |src.data|
    ensures written == |delivered| && delivered == src.data[..written]
    ensures Sum(chunks) == written
    ensures forall i :: 0 <= i < |chunks| ==> chunks[i] <= chunkSize
    ensures Holds(dst, |src.data|) ==>
      written == |src.data| && (err.None? <==> Is(src.end, Eof)) && (err.Some? ==> err == Some(src.end))
    ensures !Holds(dst, |src.data|) ==>
      Some(written) == dst.capacity && (err.None? <==> Is(dst.failure, Eof)) && (err.Some? ==> err == Some(dst.failure))
    ensures src.end == Eof && dst.capacity.None? ==> err.None? && delivered == src.data
  {
    written, delivered, chunks := 0, [], [];
    while true
      invariant written <= |src.data| && Holds(dst, written)
      invariant delivered == src.data[..written]
      invariant Sum(chunks) == written
      invariant forall i :: 0 <= i < |chunks| ==> chunks[i] <= chunkSize
      decreases |src.data| - written
    {
      var step := CopyN(src, written, dst, chunkSize);
      var w, e := step.0, step.1;
      delivered := delivered + src.data[written..written + w];
      assert (chunks + [w])[..|chunks|] == chunks;
      chunks := chunks + [w];
      written := written + w;
      if e.Some? && Is(e.value, Eof) {
        err := None;
        return;
      }
      if e.Some? {
        err := e;
        return;
      }
    }
  }
}
