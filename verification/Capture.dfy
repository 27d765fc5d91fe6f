/** Capturing a subprocess's output under a cap: the writer behind `Run` and the read loop of
    `RunCapped`. The output arrives in chunks that the operating system chooses. */
module Capture {
  import opened Common

  function Concat(chunks: seq<seq<Byte>>): seq<Byte> {
    if |chunks| == 0 then [] else Concat(chunks[..|chunks| - 1]) + chunks[|chunks| - 1]
  }

  /** What may be kept of a stream: at most its first `cap` bytes. */
  function Kept(stream: seq<Byte>, cap: int): seq<Byte> {
    if cap <= 0 then [] else if |stream| <= cap then stream else stream[..cap]
  }

  /** Whether something had to be dropped. */
  predicate Overflows(stream: seq<Byte>, cap: int) {
    |stream| > 0 && |stream| > cap
  }

  lemma KeptAppend(a: seq<Byte>, b: seq<Byte>, cap: int)
    ensures Kept(a + b, cap) == Kept(Kept(a, cap) + b, cap)
    ensures Overflows(a, cap) ==> Kept(a + b, cap) == Kept(a, cap) && Overflows(a + b, cap)
    ensures !Overflows(a, cap) ==> Kept(a, cap) == a
  {
  }

  // ---------------------------------------------------------------- the writer

  datatype Writer = Writer(buf: seq<Byte>, truncated: bool)

  /** One write: what the writer holds afterwards, and whether it accepted the chunk. */
  function Write(w: Writer, max: nat, p: seq<Byte>): (Writer, bool)
    requires |w.buf| <= max
  {
    if |w.buf| + |p| > max then
      var room := max - |w.buf|;
      (Writer(if room > 0 then w.buf + p[..room] else w.buf, true), false)
    else (w.(buf := w.buf + p), true)
  }

  /** `cappedWriter`. */
  class CappedWriter {
    const max: nat
    var buf: seq<Byte>
    var truncated: bool

    ghost predicate Valid()
      reads this
    {
      |buf| <= max
    }

    function View(): Writer
      reads this
    {
      Writer(buf, truncated)
    }

    constructor (max: nat)
      ensures Valid() && this.max == max && View() == Writer([], false)
    {
      this.max := max;
      buf, truncated := [], false;
    }

    method WriteChunk(p: seq<Byte>) returns (ok: bool)
      requires Valid()
      modifies this
      ensures Valid() && (View(), ok) == Write(old(View()), max, p)
    {
      if |buf| + |p| > max {
        var room := max - |buf|;
        if room > 0 {
          buf := buf + p[..room];
        }
        truncated := true;
        return false;
      }
      buf := buf + p;
      return true;
    }

    /** The copier of os/exec: chunk after chunk until one is refused. */
    method CopyFrom(chunks: seq<seq<Byte>>)
      requires Valid() && View() == Writer([], false)
      modifies this
      ensures Valid() && buf == Kept(Concat(chunks), max) && truncated == Overflows(Concat(chunks), max)
    {
      for i := 0 to |chunks|
        invariant Valid() && !truncated && buf == Concat(chunks[..i])
      {
        assert chunks[..i + 1][..i] == chunks[..i];
        var ok := WriteChunk(chunks[i]);
        if !ok {
          assert buf == Kept(Concat(chunks[..i + 1]), max);
          OverflowIsFinal(chunks, i + 1, max);
          return;
        }
      }
      assert chunks[..|chunks|] == chunks;
    }
  }

  /** What the writer holds after all chunks, had the copier gone on after a refusal. */
  function WriteAll(chunks: seq<seq<Byte>>, max: nat): (w: Writer)
    ensures |w.buf| <= max
  {
    if |chunks| == 0 then Writer([], false)
    else Write(WriteAll(chunks[..|chunks| - 1], max), max, chunks[|chunks| - 1]).0
  }

  /** Whoever drives the writer, and however the stream is cut, it holds the first bytes of the
      stream up to the cap, and its sticky flag says whether there were more. */
  lemma {:induction false} WriterIsExact(chunks: seq<seq<Byte>>, max: nat)
    ensures WriteAll(chunks, max) == Writer(Kept(Concat(chunks), max), Overflows(Concat(chunks), max))
    decreases |chunks|
  {
    if |chunks| > 0 {
      var front, last := chunks[..|chunks| - 1], chunks[|chunks| - 1];
      WriterIsExact(front, max);
      KeptAppend(Concat(front), last, max);
    }
  }

  /** Once the first n chunks overflow, no later chunk changes what is kept. */
  lemma {:induction false} OverflowIsFinal(chunks: seq<seq<Byte>>, n: nat, cap: int)
    requires n <= |chunks| && Overflows(Concat(chunks[..n]), cap)
    ensures Overflows(Concat(chunks), cap) && Kept(Concat(chunks), cap) == Kept(Concat(chunks[..n]), cap)
    decreases |chunks|
  {
    if n == |chunks| {
      assert chunks[..n] == chunks;
    } else {
      var front, last := chunks[..|chunks| - 1], chunks[|chunks| - 1];
      assert front[..n] == chunks[..n];
      OverflowIsFinal(front, n, cap);
      KeptAppend(Concat(front), last, cap);
    }
  }

  // ---------------------------------------------------------------- the read loop

  /** One read of the pipe: the bytes it gave, and whether it also reported the end. */
  datatype Chunk = Chunk(data: seq<Byte>, ended: bool)

  /** The output: everything up to the read that reported the end, or to the last one. */
  function Stream(pieces: seq<Chunk>): seq<Byte>
    decreases |pieces|
  {
    if |pieces| == 0 then []
    else if pieces[0].ended then pieces[0].data
    else pieces[0].data + Stream(pieces[1..])
  }

  /** One turn of the loop: what is kept of a chunk, and whether it overflowed. */
  method TakeChunk(buf: seq<Byte>, chunk: seq<Byte>, maxBytes: int) returns (buf': seq<Byte>, truncated: bool)
    requires !Overflows(buf, maxBytes)
    ensures buf' == Kept(buf + chunk, maxBytes) && truncated == Overflows(buf + chunk, maxBytes)
  {
    buf', truncated := buf, false;
    var n := |chunk|;
    if n > 0 {
      var room := maxBytes - |buf|;
      if room <= 0 {
        truncated := true;
      } else if n > room {
        buf' := buf + chunk[..room];
        truncated := true;
      } else {
        buf' := buf + chunk;
      }
    }
  }

  /** The stream from the i-th piece on starts with that piece. */
  lemma StreamStep(pieces: seq<Chunk>, i: nat)
    requires i < |pieces|
    ensures Stream(pieces[i..]) == pieces[i].data + if pieces[i].ended then [] else Stream(pieces[i + 1..])
  {
    assert pieces[i..][1..] == pieces[i + 1..];
  }

  /** What one more piece makes of what has been read. */
  lemma NextPiece(pieces: seq<Chunk>, i: nat, buf: seq<Byte>, cap: int)
    requires i < |pieces| && Stream(pieces) == buf + Stream(pieces[i..])
    ensures var seen := buf + pieces[i].data;
            && (pieces[i].ended ==> Stream(pieces) == seen)
            && (!pieces[i].ended ==> Stream(pieces) == seen + Stream(pieces[i + 1..]))
            && (Overflows(seen, cap) ==> Overflows(Stream(pieces), cap) && Kept(Stream(pieces), cap) == Kept(seen, cap))
            && (!Overflows(seen, cap) ==> Kept(seen, cap) == seen)
  {
    var seen, later := buf + pieces[i].data, if pieces[i].ended then [] else Stream(pieces[i + 1..]);
    StreamStep(pieces, i);
    assert Stream(pieces) == seen + later;
    KeptAppend(seen, later, cap);
  }

  /** The loop of `RunCapped`; a cap that is not positive keeps nothing. */
  method ReadCapped(pieces: seq<Chunk>, maxBytes: int) returns (buf: seq<Byte>, truncated: bool)
    ensures buf == Kept(Stream(pieces), maxBytes)
    ensures truncated == Overflows(Stream(pieces), maxBytes)
  {
    buf, truncated := [], false;
    assert pieces[0..] == pieces;
    for i := 0 to |pieces|
      invariant Stream(pieces) == buf + Stream(pieces[i..])
      invariant !truncated && !Overflows(buf, maxBytes)
    {
      NextPiece(pieces, i, buf, maxBytes);
      buf, truncated := TakeChunk(buf, pieces[i].data, maxBytes);
      if pieces[i].ended {
        return;
      }
      if truncated {
        return;
      }
    }
    AllRead(pieces, buf, maxBytes);
  }

  lemma AllRead(pieces: seq<Chunk>, buf: seq<Byte>, cap: int)
    requires Stream(pieces) == buf + Stream(pieces[|pieces|..]) && !Overflows(buf, cap)
    ensures Stream(pieces) == buf == Kept(buf, cap)
  {
    assert pieces[|pieces|..] == [];
    KeptAppend(buf, [], cap);
  }

  /** Chunking does not matter: outputs that read the same are captured the same, by either way
      of capturing. */
  lemma ChunkingIsInvisible(a: seq<seq<Byte>>, b: seq<seq<Byte>>, pieces: seq<Chunk>, max: nat)
    requires Concat(a) == Concat(b) == Stream(pieces)
    ensures WriteAll(a, max) == WriteAll(b, max)
    ensures WriteAll(a, max) == Writer(Kept(Stream(pieces), max), Overflows(Stream(pieces), max))
  {
    WriterIsExact(a, max);
    WriterIsExact(b, max);
  }
}
