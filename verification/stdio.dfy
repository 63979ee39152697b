/** Reading the OCI runtime's standard output and standard error: `io.ReadAll`
    over `limitReaderIfNonZero(pipe, MaxStdioBytes)`. */
module Stdio {
  import opened Base
  import opened Errors

  /** What a reader yields: its bytes, then, on a later Read, the error that
      ends it (Eof for a clean end of stream). */
  datatype Stream = Stream(data: Bytes, end: Error)

  /** io.ReadAll: reads until the first error; the io.EOF sentinel itself
      (compared by identity, not through wrapping) counts as success. */
  function ReadAll(s: Stream): (r: Result<Bytes>)
    ensures r.Success? <==> s.end == Eof
    ensures r.Success? ==> r.value == s.data
  {
    if s.end == Eof then Success(s.data) else Failure(s.end)
  }

  /** io.LimitReader(r, n): at most n bytes of r, then EOF; a limit of zero
      or less gives EOF at once. */
  function LimitReader(s: Stream, n: int): (r: Stream)
    ensures |r.data| <= |s.data| && r.data == s.data[..|r.data|]
    ensures n > 0 ==> |r.data| == Min(n, |s.data|)
    ensures n <= 0 ==> r.data == []
    ensures 0 < n <= |s.data| || n <= 0 ==> r.end == Eof
    ensures |s.data| < n ==> r.end == s.end
  {
    if n <= 0 then Stream([], Eof)
    else if n <= |s.data| then Stream(s.data[..n], Eof)
    else s
  }

  /** limitReaderIfNonZero: a limit of 0 means "unbounded". */
  function LimitReaderIfNonZero(s: Stream, limit: Int64): (r: Stream)
    ensures limit == 0 ==> r == s
    ensures |r.data| <= |s.data| && r.data == s.data[..|r.data|]
    ensures limit > 0 ==> |r.data| == Min(limit, |s.data|)
    ensures limit < 0 ==> r.data == []
  {
    if limit == 0 then s else LimitReader(s, limit)
  }

  /** How many bytes a read bounded by `limit` keeps of an n-byte stream. */
  function Kept(limit: Int64, n: nat): nat {
    if limit == 0 then n else if limit < 0 then 0 else Min(limit, n)
  }

  /** io.ReadAll(limitReaderIfNonZero(pipe, limit)) as both spark commands do
      it. It fails only when the stream's own error is reached, and a
      positive limit that stops reading first hides that error; otherwise it
      delivers the first Kept(limit, |data|) bytes, silently truncated. */
  function ReadStdio(s: Stream, limit: Int64): (r: Result<Bytes>)
    ensures r.Success? <==> (s.end == Eof || limit < 0 || 0 < limit <= |s.data|)
    ensures r.Failure? ==> r.error == s.end
    ensures r.Success? ==> r.value == s.data[..Kept(limit, |s.data|)]
  {
    ReadAll(LimitReaderIfNonZero(s, limit))
  }

  /** A zero limit changes nothing: the read is a plain io.ReadAll. */
  lemma {:induction false} ZeroLimitIsUnbounded(s: Stream)
    ensures ReadStdio(s, 0) == ReadAll(s)
  {
  }

  /** A positive limit bounds what is read, and raising the limit only
      extends what is delivered: a smaller limit yields a prefix. */
  lemma {:induction false} LimitIsMonotone(s: Stream, a: Int64, b: Int64)
    requires 0 < a <= b
    requires ReadStdio(s, a).Success? && ReadStdio(s, b).Success?
    ensures |ReadStdio(s, a).value| <= a
    ensures ReadStdio(s, a).value <= ReadStdio(s, b).value
  {
  }
}
