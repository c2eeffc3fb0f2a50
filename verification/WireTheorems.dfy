/** Encoder and parser undo each other, and damage never gets through. */
module WireTheorems {
  import opened Clock
  import opened Wire

  // ----- One frame ----------------------------------------------------------------------------

  lemma {:induction false} ReadHeader(head: seq<byte>, rest: seq<byte>)
    requires |head| + |rest| == HEADER_SIZE && |rest| > 0
    ensures NextAll(InHeader(head), rest) == AfterHeader(head + rest) && Frames(InHeader(head), rest) == []
    decreases |rest|
  {
    if |rest| == 1 {
      One(InHeader(head), rest[0]);
      assert rest == [rest[0]];
    } else {
      ReadHeader(head + [rest[0]], rest[1..]);
      assert head + [rest[0]] + rest[1..] == head + rest;
    }
  }

  lemma {:induction false} ReadData(head: seq<byte>, data: seq<byte>, rest: seq<byte>)
    requires |head| == HEADER_SIZE && |data| + |rest| == LengthOf(head) <= MAX_DATA && |rest| > 0
    ensures NextAll(InData(head, data), rest) == InChecksum(head, data + rest) && Frames(InData(head, data), rest) == []
    decreases |rest|
  {
    if |rest| == 1 {
      One(InData(head, data), rest[0]);
      assert rest == [rest[0]];
    } else {
      ReadData(head, data + [rest[0]], rest[1..]);
      assert data + [rest[0]] + rest[1..] == data + rest;
    }
  }

  /** The parser's verdict on any frame-shaped run of bytes. */
  lemma {:induction false} Verdict(head: seq<byte>, data: seq<byte>, checksum: byte)
    requires |head| == HEADER_SIZE && LengthOf(head) == |data| <= MAX_DATA
    ensures var bs := [SYNC] + head + data + [checksum];
      && NextAll(Waiting, bs) == Waiting
      && Frames(Waiting, bs) == if checksum == Xor(head + data) then [Frame(TagOf(head), data)] else []
  {
    var tail := data + [checksum];
    var bs := [SYNC] + head + data + [checksum];
    assert bs == [SYNC] + (head + tail);
    One(Waiting, SYNC);
    Concatenate(Waiting, [SYNC], head + tail);
    ReadHeader([], head);
    assert [] + head == head;
    Concatenate(InHeader([]), head, tail);
    Concatenate(AfterHeader(head), data, [checksum]);
    if data != [] {
      ReadData(head, [], data);
      assert [] + data == data;
    }
    One(InChecksum(head, data), checksum);
  }

  /** Parsing an encoded frame yields exactly that frame and waits for the next one. */
  lemma {:induction false} RoundTrip(f: Frame)
    requires |f.data| <= MAX_DATA
    ensures NextAll(Waiting, Encode(f)) == Waiting && Frames(Waiting, Encode(f)) == [f]
  {
    JoinSplits(f.tag);
    JoinSplits(|f.data|);
    Verdict(Header(f), f.data, Xor(Header(f) + f.data));
  }

  // ----- Streams of frames with noise between them ---------------------------------------------

  predicate Noise(bs: seq<byte>) {
    forall i :: 0 <= i < |bs| ==> bs[i] != SYNC
  }

  lemma {:induction false} NoiseIsSkipped(bs: seq<byte>)
    requires Noise(bs)
    ensures NextAll(Waiting, bs) == Waiting && Frames(Waiting, bs) == []
    decreases |bs|
  {
    if bs != [] { NoiseIsSkipped(bs[1..]); }
  }

  /** A frame preceded by noise. */
  datatype Item = Item(noise: seq<byte>, frame: Frame)

  predicate Sendable(items: seq<Item>) {
    forall i :: 0 <= i < |items| ==> Noise(items[i].noise) && |items[i].frame.data| <= MAX_DATA
  }

  function Stream(items: seq<Item>): seq<byte>
    requires Sendable(items)
  {
    if items == [] then [] else items[0].noise + Encode(items[0].frame) + Stream(items[1..])
  }

  function Payload(items: seq<Item>): seq<Frame> {
    if items == [] then [] else [items[0].frame] + Payload(items[1..])
  }

  /** Whatever frames are written, with any non-sync bytes around them, exactly those frames
      are read, in order, and the parser ends waiting for sync. */
  lemma {:induction false} StreamRoundTrip(items: seq<Item>, tail: seq<byte>)
    requires Sendable(items) && Noise(tail)
    ensures NextAll(Waiting, Stream(items) + tail) == Waiting
    ensures Frames(Waiting, Stream(items) + tail) == Payload(items)
    decreases |items|
  {
    if items == [] {
      NoiseIsSkipped(tail);
      assert Stream(items) + tail == tail;
    } else {
      var x, rest := items[0], Stream(items[1..]) + tail;
      assert Stream(items) + tail == x.noise + (Encode(x.frame) + rest);
      NoiseIsSkipped(x.noise);
      RoundTrip(x.frame);
      StreamRoundTrip(items[1..], tail);
      Concatenate(Waiting, Encode(x.frame), rest);
      Concatenate(Waiting, x.noise, Encode(x.frame) + rest);
    }
  }

  // ----- Damage ----------------------------------------------------------------------------------

  lemma {:induction false} XorDistinct(a: byte, b: byte, c: byte)
    requires a != b
    ensures a ^ c != b ^ c && c ^ a != c ^ b
  {
  }

  /** Changing one byte changes the checksum. */
  lemma {:induction false} XorDetects(bs: seq<byte>, i: nat, b: byte)
    requires i < |bs| && b != bs[i]
    ensures Xor(bs[i := b]) != Xor(bs)
  {
    var n := |bs| - 1;
    if i == n {
      assert bs[i := b][..n] == bs[..n];
      XorDistinct(b, bs[n], Xor(bs[..n]));
    } else {
      assert bs[i := b][..n] == bs[..n][i := b];
      XorDetects(bs[..n], i, b);
      XorDistinct(Xor(bs[..n][i := b]), Xor(bs[..n]), bs[n]);
    }
  }

  /** Position of a byte of the tag, the data or the checksum in an encoded frame. */
  predicate Covered(f: Frame, i: nat)
    requires |f.data| <= MAX_DATA
  {
    i == 1 || i == 2 || 5 <= i < |Encode(f)|
  }

  lemma {:induction false} DamagedTag(f: Frame, i: nat, b: byte)
    requires |f.data| <= MAX_DATA && i < 2 && b != Header(f)[i]
    ensures var bs := [SYNC] + Header(f)[i := b] + f.data + [Xor(Header(f) + f.data)];
      NextAll(Waiting, bs) == Waiting && Frames(Waiting, bs) == []
  {
    hide Xor, NextAll, Frames, Join, Low, High;
    JoinSplits(|f.data|);
    var head := Header(f);
    assert head[i := b] + f.data == (head + f.data)[i := b];
    XorDetects(head + f.data, i, b);
    Verdict(head[i := b], f.data, Xor(head + f.data));
  }

  lemma {:induction false} DamagedData(f: Frame, i: nat, b: byte)
    requires |f.data| <= MAX_DATA && i < |f.data| && b != f.data[i]
    ensures var bs := [SYNC] + Header(f) + f.data[i := b] + [Xor(Header(f) + f.data)];
      NextAll(Waiting, bs) == Waiting && Frames(Waiting, bs) == []
  {
    hide Xor, NextAll, Frames;
    JoinSplits(|f.data|);
    var head := Header(f);
    assert head + f.data[i := b] == (head + f.data)[4 + i := b];
    XorDetects(head + f.data, 4 + i, b);
    Verdict(head, f.data[i := b], Xor(head + f.data));
  }

  lemma {:induction false} DamagedChecksum(f: Frame, b: byte)
    requires |f.data| <= MAX_DATA && b != Xor(Header(f) + f.data)
    ensures var bs := [SYNC] + Header(f) + f.data + [b];
      NextAll(Waiting, bs) == Waiting && Frames(Waiting, bs) == []
  {
    hide Xor, NextAll, Frames;
    JoinSplits(|f.data|);
    Verdict(Header(f), f.data, b);
  }

  /** One altered byte of tag, data or checksum: nothing is dispatched and the parser is back
      in sync search at the end of the frame. */
  lemma {:induction false} DamageIsDropped(f: Frame, i: nat, b: byte)
    requires |f.data| <= MAX_DATA && Covered(f, i) && b != Encode(f)[i]
    ensures NextAll(Waiting, Encode(f)[i := b]) == Waiting && Frames(Waiting, Encode(f)[i := b]) == []
  {
    hide Xor, NextAll, Frames, Header;
    var head, sum := Header(f), Xor(Header(f) + f.data);
    if i == |Encode(f)| - 1 {
      assert Encode(f)[i := b] == [SYNC] + head + f.data + [b];
      DamagedChecksum(f, b);
    } else if i < 5 {
      assert Encode(f)[i := b] == [SYNC] + head[i - 1 := b] + f.data + [sum];
      DamagedTag(f, i - 1, b);
    } else {
      assert Encode(f)[i := b] == [SYNC] + head + f.data[i - 5 := b] + [sum];
      DamagedData(f, i - 5, b);
    }
  }

  // ----- Nothing is invented -------------------------------------------------------------------------

  /** Bytes of the frame being read. */
  function Held(st: Rx): seq<byte> {
    match st
    case Waiting => []
    case InHeader(head) => [SYNC] + head
    case InData(head, data) => [SYNC] + head + data
    case InChecksum(head, data) => [SYNC] + head + data
  }

  predicate Suffix(a: seq<byte>, b: seq<byte>) {
    |a| <= |b| && b[|b| - |a|..] == a
  }

  lemma {:induction false} HeldStep(st: Rx, b: byte)
    requires Proper(st)
    ensures Suffix(Held(Next(st, b)), Held(st) + [b])
  {
    match st
    case Waiting =>
    case InHeader(head) =>
      assert [SYNC] + head + [b] == [SYNC] + (head + [b]);
      assert [SYNC] + (head + [b]) + [] == [SYNC] + (head + [b]);
    case InData(head, data) =>
      assert [SYNC] + head + data + [b] == [SYNC] + head + (data + [b]);
    case InChecksum(_, _) =>
  }

  lemma {:induction false} SplitsJoin(low: byte, high: byte)
    ensures Low(Join(low, high)) == low && High(Join(low, high)) == high
  {
  }

  /** A completed frame is exactly what was held plus the last byte, so the parser only ever
      dispatches a frame whose full encoding it has just read. */
  lemma {:induction false} CompletedIsEncoded(st: Rx, b: byte)
    requires Proper(st) && Completed(st, b) != []
    ensures var f := Completed(st, b)[0]; |f.data| <= MAX_DATA && Held(st) + [b] == Encode(f)
  {
    var head := st.head;
    SplitsJoin(head[0], head[1]);
    SplitsJoin(head[2], head[3]);
    assert head == [head[0], head[1], head[2], head[3]];
  }

  lemma {:induction false} SuffixGrows(a: seq<byte>, b: seq<byte>, c: seq<byte>, x: byte)
    requires Suffix(a, b + [x]) && Suffix(b, c)
    ensures Suffix(a, c + [x])
  {
  }

  lemma {:induction false} HeldIsSuffix(bs: seq<byte>)
    ensures Suffix(Held(NextAll(Waiting, bs)), bs)
    decreases |bs|
  {
    hide Next, Completed, Frames;
    if bs != [] {
      var n := |bs| - 1;
      HeldIsSuffix(bs[..n]);
      assert bs == bs[..n] + [bs[n]];
      Concatenate(Waiting, bs[..n], [bs[n]]);
      One(NextAll(Waiting, bs[..n]), bs[n]);
      HeldStep(NextAll(Waiting, bs[..n]), bs[n]);
      SuffixGrows(Held(NextAll(Waiting, bs)), Held(NextAll(Waiting, bs[..n])), bs[..n], bs[n]);
    }
  }

  /** For every byte stream: a frame dispatched on the last byte occurs as its own encoding at
      the end of the stream. */
  lemma {:induction false} OnlyEncodedFrames(bs: seq<byte>, b: byte)
    requires Completed(NextAll(Waiting, bs), b) != []
    ensures var f := Completed(NextAll(Waiting, bs), b)[0]; |f.data| <= MAX_DATA && Suffix(Encode(f), bs + [b])
  {
    HeldIsSuffix(bs);
    CompletedIsEncoded(NextAll(Waiting, bs), b);
  }
}
