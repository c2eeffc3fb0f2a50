/** Writing a frame to the transport in chunks. */
module Transmit {
  import opened Clock
  import opened Wire

  type WireFrame = f: Frame | |f.data| <= 256 witness Frame(0, [])

  const CHUNK_SIZE: nat := 64

  function Flatten(chunks: seq<seq<byte>>): seq<byte> {
    if chunks == [] then [] else Flatten(chunks[..|chunks| - 1]) + chunks[|chunks| - 1]
  }

  lemma {:induction false} FlattenAppend(chunks: seq<seq<byte>>, c: seq<byte>)
    ensures Flatten(chunks + [c]) == Flatten(chunks) + c
  {
    assert (chunks + [c])[..|chunks|] == chunks;
  }

  /** Assembles bytes into chunks of at most 64 and hands full chunks to the transport, whose
      answers to successive writes are `accepts`; further writes succeed. */
  class ChunkWriter {
    const accepts: seq<bool>
    const chunk: array<byte>
    var fill: nat
    var sent: seq<seq<byte>>

    ghost predicate Valid()
      reads this
    {
      && chunk.Length == CHUNK_SIZE && fill <= CHUNK_SIZE
      && (forall i :: 0 <= i < |sent| ==> 0 < |sent[i]| <= CHUNK_SIZE)
      && (forall i :: 0 <= i < |sent| && i < |accepts| ==> accepts[i])
    }

    /** The transport refuses the next chunk. */
    ghost predicate Refused()
      reads this
    {
      |sent| < |accepts| && !accepts[|sent|]
    }

    /** Every chunk handed over so far was full. */
    ghost predicate Full()
      reads this
    {
      forall i :: 0 <= i < |sent| ==> |sent[i]| == CHUNK_SIZE
    }

    /** Every byte emitted so far. */
    ghost function Emitted(): seq<byte>
      requires Valid()
      reads this, chunk
    {
      Flatten(sent) + chunk[..fill]
    }

    constructor (answers: seq<bool>)
      ensures Valid() && fresh(chunk) && Emitted() == [] && sent == [] && accepts == answers && fill == 0
    {
      accepts := answers;
      chunk := new byte[CHUNK_SIZE](_ => 0);
      fill, sent := 0, [];
    }

    /** Hand the current chunk to the transport. */
    method Flush() returns (ok: bool)
      requires Valid()
      modifies this
      ensures Valid() && fill == 0
      ensures ok ==> Emitted() == old(Emitted()) && Flatten(sent) == old(Emitted())
      ensures !ok ==> sent == old(sent) && Refused() && |Flatten(sent)| < |old(Emitted())|
      ensures old(Full()) && old(fill) == CHUNK_SIZE ==> Full()
    {
      if fill == 0 {
        return true;
      }
      ok := |sent| >= |accepts| || accepts[|sent|];
      if ok {
        FlattenAppend(sent, chunk[..fill]);
        sent := sent + [chunk[..fill]];
      }
      fill := 0;
    }

    /** Add one byte, flushing first when the chunk is full. */
    method Emit(b: byte) returns (ok: bool)
      requires Valid()
      modifies this, chunk
      ensures Valid()
      ensures ok ==> Emitted() == old(Emitted()) + [b]
      ensures Flatten(sent) <= old(Emitted()) && (!ok ==> Refused() && |Flatten(sent)| < |old(Emitted())|)
      ensures old(Full()) ==> Full()
    {
      ok := true;
      if fill + 1 > CHUNK_SIZE {
        ok := Flush();
        if !ok {
          return;
        }
      }
      chunk[fill] := b;
      fill := fill + 1;
      assert chunk[..fill] == chunk[..fill - 1] + [b];
    }

    /** Add the bytes of `bs` in order. */
    method EmitAll(bs: seq<byte>) returns (ok: bool)
      requires Valid()
      modifies this, chunk
      ensures Valid()
      ensures ok ==> Emitted() == old(Emitted()) + bs
      ensures Flatten(sent) <= old(Emitted()) + bs && (!ok ==> Refused() && |Flatten(sent)| < |old(Emitted()) + bs|)
      ensures old(Full()) ==> Full()
    {
      ok := true;
      for i := 0 to |bs|
        invariant Valid() && Emitted() == old(Emitted()) + bs[..i] && (old(Full()) ==> Full())
      {
        ok := Emit(bs[i]);
        if !ok {
          return;
        }
        assert bs[..i + 1] == bs[..i] + [bs[i]];
      }
      assert bs[..|bs|] == bs;
    }
  }

  /** Checksum over header and data. */
  method ComputeChecksum(header: seq<byte>, data: seq<byte>) returns (sum: byte)
    ensures sum == Xor(header + data)
  {
    sum := 0;
    var all := header + data;
    for i := 0 to |all|
      invariant sum == Xor(all[..i])
    {
      assert all[..i + 1][..i] == all[..i];
      sum := sum ^ all[i];
    }
    assert all[..|all|] == all;
  }

  /** Write a frame: it succeeds unless the transport refuses a chunk; on success the chunks
      handed over concatenate to exactly its encoding, on failure they are full and a proper
      prefix of it. */
  method WriteFrameWire(f: WireFrame, accepts: seq<bool>) returns (ok: bool, chunks: seq<seq<byte>>)
    ensures ok ==> Flatten(chunks) == Encode(f)
    ensures Flatten(chunks) <= Encode(f)
    ensures forall i :: 0 <= i < |chunks| ==> 0 < |chunks[i]| <= CHUNK_SIZE && (i < |accepts| ==> accepts[i])
    ensures !ok ==> |chunks| < |accepts| && !accepts[|chunks|] && |Flatten(chunks)| < |Encode(f)|
    ensures !ok ==> forall i :: 0 <= i < |chunks| ==> |chunks[i]| == CHUNK_SIZE
  {
    hide Flatten, Header, Xor;
    var header := Header(f);
    var w := new ChunkWriter(accepts);
    ghost var all := Encode(f);
    ok := w.Emit(SYNC);
    chunks := w.sent;
    if !ok {
      return;
    }
    assert w.Emitted() == [SYNC];
    ok := w.EmitAll(header);
    chunks := w.sent;
    if !ok {
      assert [SYNC] + header <= all;
      return;
    }
    ok := w.EmitAll(f.data);
    chunks := w.sent;
    if !ok {
      assert [SYNC] + header + f.data <= all;
      return;
    }
    var sum := ComputeChecksum(header, f.data);
    ok := w.Emit(sum);
    chunks := w.sent;
    if !ok {
      assert [SYNC] + header + f.data <= all;
      return;
    }
    ok := w.Flush();
    chunks := w.sent;
  }
}
