/** Whole runs of the protocol engine's transmit slot: what is offered, received and written. */
module Transcript {
  import opened Clock
  import opened Wire
  import opened WireTheorems
  import opened Transmit
  import opened ProtocolEngine

  /** The ways the transmit slot is touched: `Send`, the dispatch of a received frame, and an
      attempt to write. */
  datatype Action =
    | Submit(frame: WireFrame)
    | Deliver(frame: WireFrame)
    | Write(accepts: seq<bool>, done: bool, chunks: seq<seq<byte>>)

  function After(tags: seq<uint16>, reply: Reply, p: Port, a: Action): Port {
    match a
    case Submit(f) => p.(pending := Offer(p.pending, f))
    case Deliver(f) => Handle(tags, reply, p, f)
    case Write(_, done, _) => Attempt(p, done)
  }

  function AfterAll(tags: seq<uint16>, reply: Reply, p: Port, acts: seq<Action>): Port
    decreases |acts|
  {
    if acts == [] then p else AfterAll(tags, reply, After(tags, reply, p, acts[0]), acts[1..])
  }

  ghost predicate Lawful(p: Port, a: Action) {
    a.Write? ==> Wrote(p.pending, a.accepts, a.done, a.chunks)
  }

  ghost predicate LawfulAll(tags: seq<uint16>, reply: Reply, p: Port, acts: seq<Action>)
    decreases |acts|
  {
    acts == [] || (Lawful(p, acts[0]) && LawfulAll(tags, reply, After(tags, reply, p, acts[0]), acts[1..]))
  }

  /** A queued frame stays in the slot, unchanged, until an attempt writes exactly its encoding. */
  lemma {:induction false} KeptUntilWritten(tags: seq<uint16>, reply: Reply, p: Port, acts: seq<Action>)
    requires p.pending.Some? && LawfulAll(tags, reply, p, acts)
    ensures
      || (AfterAll(tags, reply, p, acts).pending == p.pending && forall i :: 0 <= i < |acts| && acts[i].Write? ==> !acts[i].done)
      || exists k :: 0 <= k < |acts| && acts[k].Write? && acts[k].done
                     && Flatten(acts[k].chunks) == Encode(p.pending.value)
                     && AfterAll(tags, reply, p, acts[..k]).pending == p.pending
    decreases |acts|
  {
    if acts != [] {
      var a, q := acts[0], After(tags, reply, p, acts[0]);
      if a.Write? && a.done {
        assert acts[..0] == [];
      } else {
        KeptUntilWritten(tags, reply, q, acts[1..]);
        if k :| 0 <= k < |acts[1..]| && acts[1..][k].Write? && acts[1..][k].done
                && Flatten(acts[1..][k].chunks) == Encode(p.pending.value)
                && AfterAll(tags, reply, q, acts[1..][..k]).pending == p.pending {
          assert acts[..k + 1][0] == a && acts[..k + 1][1..] == acts[1..][..k];
          assert acts[k + 1] == acts[1..][k];
        } else {
          assert forall i :: 1 <= i < |acts| ==> acts[i] == acts[1..][i - 1];
        }
      }
    }
  }

  // ----- Conservation of frames ------------------------------------------------------------

  /** The slot's content as a list. */
  function InSlot(p: Port): seq<WireFrame> {
    if p.pending.Some? then [p.pending.value] else []
  }

  /** Frames that an action puts into the slot. */
  function Queued(tags: seq<uint16>, reply: Reply, p: Port, a: Action): seq<WireFrame> {
    if p.pending.None? then InSlot(After(tags, reply, p, a)) else []
  }

  /** A free slot takes a submitted frame, or the answer to a received one. */
  lemma {:induction false} QueuedIs(tags: seq<uint16>, reply: Reply, p: Port, a: Action)
    requires p.pending.None?
    ensures Queued(tags, reply, p, a) ==
      match a
      case Submit(f) => [f]
      case Deliver(f) => Answers(tags, reply, [f])
      case Write(_, _, _) => []
  {
    if a.Deliver? {
      assert [a.frame][1..] == [];
      assert Answers(tags, reply, []) == [];
    }
  }

  function QueuedAll(tags: seq<uint16>, reply: Reply, p: Port, acts: seq<Action>): seq<WireFrame>
    decreases |acts|
  {
    if acts == [] then []
    else Queued(tags, reply, p, acts[0]) + QueuedAll(tags, reply, After(tags, reply, p, acts[0]), acts[1..])
  }

  /** Bytes of the completed writes. */
  function Output(acts: seq<Action>): seq<byte> {
    if acts == [] then []
    else (if acts[0].Write? && acts[0].done then Flatten(acts[0].chunks) else []) + Output(acts[1..])
  }

  /** The completed writes carry exactly the queued frames, in order, except the one still in
      the slot. */
  lemma {:induction false} CompletedWritesCarry(tags: seq<uint16>, reply: Reply, p: Port, acts: seq<Action>)
    requires LawfulAll(tags, reply, p, acts)
    ensures NextAll(Waiting, Output(acts)) == Waiting
    ensures Frames(Waiting, Output(acts)) + InSlot(AfterAll(tags, reply, p, acts))
            == InSlot(p) + QueuedAll(tags, reply, p, acts)
    decreases |acts|
  {
    hide Next, Completed, Flatten, Encode, Handle, Frames, NextAll;
    Nothing();
    if acts != [] {
      var a, q, rest := acts[0], After(tags, reply, p, acts[0]), acts[1..];
      var queued := QueuedAll(tags, reply, q, rest);
      CompletedWritesCarry(tags, reply, q, rest);
      if a.Write? && a.done {
        RoundTrip(p.pending.value);
        Concatenate(Waiting, Flatten(a.chunks), Output(rest));
        Regroup([p.pending.value], Frames(Waiting, Output(rest)), InSlot(AfterAll(tags, reply, q, rest)));
        assert [] + queued == queued;
      } else {
        assert Output(acts) == Output(rest);
        SlotChange(tags, reply, p, a);
        Regroup(InSlot(p), Queued(tags, reply, p, a), queued);
      }
    }
  }

  lemma {:induction false} Nothing()
    ensures NextAll(Waiting, []) == Waiting && Frames(Waiting, []) == []
  {
  }

  lemma {:induction false} Regroup(a: seq<Frame>, b: seq<Frame>, c: seq<Frame>)
    ensures a + b + c == a + (b + c)
  {
  }

  lemma {:induction false} SlotChange(tags: seq<uint16>, reply: Reply, p: Port, a: Action)
    requires !(a.Write? && a.done)
    ensures InSlot(p) + Queued(tags, reply, p, a) == InSlot(After(tags, reply, p, a))
  {
  }

  // ----- What reaches the peer -------------------------------------------------------------

  /** Everything handed to the transport, refused attempts included. */
  function OnWire(acts: seq<Action>): seq<byte> {
    if acts == [] then []
    else (if acts[0].Write? then Flatten(acts[0].chunks) else []) + OnWire(acts[1..])
  }

  /** A refused attempt was refused at its first chunk. */
  predicate Atomic(acts: seq<Action>) {
    forall i :: 0 <= i < |acts| && acts[i].Write? && !acts[i].done ==> acts[i].chunks == []
  }

  lemma {:induction false} AtomicWire(acts: seq<Action>)
    requires Atomic(acts)
    ensures OnWire(acts) == Output(acts)
  {
    if acts != [] {
      assert forall i :: 0 <= i < |acts[1..]| ==> acts[1..][i] == acts[i + 1];
      AtomicWire(acts[1..]);
    }
  }

  /** While every refusal comes at a first chunk, the peer receives exactly the frames that
      were queued, in order, except the one still in the slot: none lost, duplicated or
      altered. */
  lemma {:induction false} PeerReceivesQueued(tags: seq<uint16>, reply: Reply, p: Port, acts: seq<Action>)
    requires LawfulAll(tags, reply, p, acts) && Atomic(acts)
    ensures NextAll(Waiting, OnWire(acts)) == Waiting
    ensures Frames(Waiting, OnWire(acts)) + InSlot(AfterAll(tags, reply, p, acts))
            == InSlot(p) + QueuedAll(tags, reply, p, acts)
  {
    AtomicWire(acts);
    CompletedWritesCarry(tags, reply, p, acts);
  }

  /** A frame whose encoding fits one chunk. */
  predicate Short(f: Frame) {
    |f.data| <= 58
  }

  predicate AllShort(fs: seq<Frame>) {
    forall i :: 0 <= i < |fs| ==> Short(fs[i])
  }

  lemma {:induction false} FlattenSize(chunks: seq<seq<byte>>)
    requires chunks != [] && forall i :: 0 <= i < |chunks| ==> |chunks[i]| == CHUNK_SIZE
    ensures |Flatten(chunks)| >= CHUNK_SIZE
  {
  }

  lemma {:induction false} ShortAttempt(p: Port, a: Action)
    requires Lawful(p, a) && AllShort(InSlot(p))
    ensures a.Write? && !a.done ==> a.chunks == []
  {
    hide Encode, Flatten;
    if p.pending.Some? && a.Write? && !a.done {
      assert Short(InSlot(p)[0]);
      EncodeSize(p.pending.value);
      if a.chunks != [] { FlattenSize(a.chunks); }
    }
  }

  /** Short frames are written in one piece or not at all. */
  lemma {:induction false} ShortIsAtomic(tags: seq<uint16>, reply: Reply, p: Port, acts: seq<Action>)
    requires LawfulAll(tags, reply, p, acts) && AllShort(InSlot(p)) && AllShort(QueuedAll(tags, reply, p, acts))
    ensures Atomic(acts)
    decreases |acts|
  {
    hide Handle, Encode, Flatten;
    if acts != [] {
      var a, q, rest := acts[0], After(tags, reply, p, acts[0]), acts[1..];
      SplitShort(Queued(tags, reply, p, a), QueuedAll(tags, reply, q, rest));
      SlotStaysShort(tags, reply, p, a);
      ShortIsAtomic(tags, reply, q, rest);
      ShortAttempt(p, a);
      assert forall i :: 1 <= i < |acts| ==> acts[i] == rest[i - 1];
    }
  }

  lemma {:induction false} EncodeSize(f: WireFrame)
    ensures |Encode(f)| == |f.data| + 6
  {
  }

  lemma {:induction false} SplitShort(a: seq<Frame>, b: seq<Frame>)
    requires AllShort(a + b)
    ensures AllShort(a) && AllShort(b)
  {
    forall i | 0 <= i < |a| ensures Short(a[i]) { assert Short((a + b)[i]); }
    forall i | 0 <= i < |b| ensures Short(b[i]) { assert Short((a + b)[|a| + i]); }
  }

  lemma {:induction false} SlotStaysShort(tags: seq<uint16>, reply: Reply, p: Port, a: Action)
    requires AllShort(InSlot(p)) && AllShort(Queued(tags, reply, p, a))
    ensures AllShort(InSlot(After(tags, reply, p, a)))
  {
  }

  /** When every queued frame has at most 58 bytes of data, whatever the transport refuses, the
      peer receives exactly the queued frames. */
  lemma {:induction false} ShortFramesArrive(tags: seq<uint16>, reply: Reply, p: Port, acts: seq<Action>)
    requires LawfulAll(tags, reply, p, acts) && AllShort(InSlot(p)) && AllShort(QueuedAll(tags, reply, p, acts))
    ensures NextAll(Waiting, OnWire(acts)) == Waiting
    ensures Frames(Waiting, OnWire(acts)) + InSlot(AfterAll(tags, reply, p, acts))
            == InSlot(p) + QueuedAll(tags, reply, p, acts)
  {
    ShortIsAtomic(tags, reply, p, acts);
    PeerReceivesQueued(tags, reply, p, acts);
  }

  // ----- Retries of longer frames ----------------------------------------------------------

  function Zeros(n: nat): (r: seq<byte>)
    ensures |r| == n && forall i :: 0 <= i < n ==> r[i] == 0
  {
    seq(n, _ => 0)
  }

  lemma {:induction false} XorZeros(head: seq<byte>, n: nat)
    ensures Xor(head + Zeros(n)) == Xor(head)
  {
    var all := head + Zeros(n);
    if n == 0 {
      assert all == head;
    } else {
      assert all[..|all| - 1] == head + Zeros(n - 1);
      XorZeros(head, n - 1);
    }
  }

  lemma {:induction false} XorOne(bs: seq<byte>, b: byte)
    ensures Xor(bs + [b]) == Xor(bs) ^ b
  {
    assert (bs + [b])[..|bs|] == bs;
  }

  lemma {:induction false} XorHeader(a: byte, b: byte, c: byte, d: byte)
    ensures Xor([a, b, c, d]) == a ^ b ^ c ^ d
  {
    XorOne([a, b, c], d);
    XorOne([a, b], c);
    XorOne([a], b);
    assert [a][..0] == [];
    assert [a, b, c, d] == [a, b, c] + [d] && [a, b, c] == [a, b] + [c] && [a, b] == [a] + [b];
  }

  /** A first attempt that is refused at its second chunk, and a complete retry. */
  function Retry(f: WireFrame): seq<Action>
    requires |Encode(f)| > CHUNK_SIZE
  {
    [Write([true, false], false, [Encode(f)[..CHUNK_SIZE]]),
     Write([], true, [Encode(f)[..CHUNK_SIZE], Encode(f)[CHUNK_SIZE..]])]
  }

  lemma {:induction false} RetryIsLawful(tags: seq<uint16>, reply: Reply, f: WireFrame)
    requires |Encode(f)| > CHUNK_SIZE
    ensures var p := Port(Some(f), []);
      LawfulAll(tags, reply, p, Retry(f)) && AfterAll(tags, reply, p, Retry(f)).pending == None
    ensures OnWire(Retry(f)) == Encode(f)[..CHUNK_SIZE] + Encode(f)
  {
    hide Encode;
    var p, acts, e := Port(Some(f), []), Retry(f), Encode(f);
    assert Flatten([e[..CHUNK_SIZE]]) == e[..CHUNK_SIZE] by { FlattenAppend([], e[..CHUNK_SIZE]); assert [] + [e[..CHUNK_SIZE]] == [e[..CHUNK_SIZE]]; }
    assert Flatten([e[..CHUNK_SIZE], e[CHUNK_SIZE..]]) == e by {
      FlattenAppend([e[..CHUNK_SIZE]], e[CHUNK_SIZE..]);
      assert [e[..CHUNK_SIZE]] + [e[CHUNK_SIZE..]] == [e[..CHUNK_SIZE], e[CHUNK_SIZE..]];
    }
    hide Flatten;
    assert acts[1..] == [acts[1]] && acts[1..][1..] == [];
    OneAction(tags, reply, p, acts[1]);
    assert OnWire(acts[1..]) == e;
  }

  const LOST: WireFrame := Frame(1, Zeros(60))

  lemma {:induction false} HeaderBytes(tag: byte, size: byte, f: WireFrame)
    requires f.tag == tag as nat && |f.data| == size as nat
    ensures Header(f) == [tag, 0, size, 0]
  {
  }

  /** The retry can lose its frame: the slot is freed as if it had been sent, and the peer
      receives nothing. */
  lemma {:induction false} RetryLosesFrame(tags: seq<uint16>, reply: Reply)
    ensures |Encode(LOST)| > CHUNK_SIZE
    ensures var p := Port(Some(LOST), []);
      LawfulAll(tags, reply, p, Retry(LOST)) && AfterAll(tags, reply, p, Retry(LOST)).pending == None
    ensures NextAll(Waiting, OnWire(Retry(LOST))) == Waiting && Frames(Waiting, OnWire(Retry(LOST))) == []
  {
    hide Next, NextAll, Frames, Completed, OnWire, LawfulAll, AfterAll, Header, Join;
    var head: seq<byte> := [1, 0, 60, 0];
    HeaderBytes(1, 60, LOST);
    RetryIsLawful(tags, reply, LOST);
    var sum := Xor(head + Zeros(60));
    XorZeros(head, 60);
    XorHeader(1, 0, 60, 0);
    var data := Zeros(59) + [SYNC];
    XorZeros(head, 59);
    XorOne(head + Zeros(59), SYNC);
    assert head + data == head + Zeros(59) + [SYNC];
    var tail: seq<byte> := [0, 60, 0] + Zeros(60) + [sum];
    var front: seq<byte> := [SYNC] + head + data + [1];
    assert Encode(LOST)[..CHUNK_SIZE] == [SYNC] + head + Zeros(59);
    assert Encode(LOST) == [SYNC] + [1] + tail;
    assert OnWire(Retry(LOST)) == front + tail;
    LengthBytes(60);
    Verdict(head, data, 1);
    NoiseIsSkipped(tail);
    Concatenate(Waiting, front, tail);
  }

  lemma {:induction false} LengthBytes(size: byte)
    ensures LengthOf([1, 0, size, 0]) == size as nat && LengthOf([0x91, 0, size, 0]) == size as nat
  {
  }

  const LUCKY: WireFrame := Frame(0x91, Zeros(59))

  /** Refusals at a first chunk are not necessary: this retry still delivers its frame, though
      it leaves the peer inside a frame. */
  lemma {:induction false} RetryCanSurvive(tags: seq<uint16>, reply: Reply)
    ensures |Encode(LUCKY)| > CHUNK_SIZE && !Atomic(Retry(LUCKY))
    ensures LawfulAll(tags, reply, Port(Some(LUCKY), []), Retry(LUCKY))
    ensures Frames(Waiting, OnWire(Retry(LUCKY))) == [LUCKY] && NextAll(Waiting, OnWire(Retry(LUCKY))) == InHeader([])
  {
    hide Next, NextAll, Frames, Completed, OnWire, LawfulAll, AfterAll, Header;
    var head: seq<byte> := [0x91, 0, 59, 0];
    HeaderBytes(0x91, 59, LUCKY);
    RetryIsLawful(tags, reply, LUCKY);
    assert !Atomic(Retry(LUCKY)) by { assert Retry(LUCKY)[0].chunks != []; }
    XorZeros(head, 59);
    XorHeader(0x91, 0, 59, 0);
    assert Xor(head + Zeros(59)) == SYNC;
    var noise := head + Zeros(59);
    assert Encode(LUCKY) == [SYNC] + noise + [SYNC];
    assert Encode(LUCKY)[..CHUNK_SIZE] == [SYNC] + noise;
    assert OnWire(Retry(LUCKY)) == Encode(LUCKY) + (noise + [SYNC]);
    RoundTrip(LUCKY);
    NoiseIsSkipped(noise);
    One(Waiting, SYNC);
    SyncBegins();
    Concatenate(Waiting, noise, [SYNC]);
    Concatenate(Waiting, Encode(LUCKY), noise + [SYNC]);
  }

  lemma {:induction false} SyncBegins()
    ensures Next(Waiting, SYNC) == InHeader([]) && Completed(Waiting, SYNC) == []
  {
  }

  const SHORTEST: WireFrame := Frame(1, Zeros(59))

  /** The shortest frames that do not fit one chunk can be lost already. */
  lemma {:induction false} ShortestLoss(tags: seq<uint16>, reply: Reply)
    ensures |Encode(SHORTEST)| > CHUNK_SIZE
    ensures LawfulAll(tags, reply, Port(Some(SHORTEST), []), Retry(SHORTEST))
    ensures AfterAll(tags, reply, Port(Some(SHORTEST), []), Retry(SHORTEST)).pending == None
    ensures Frames(Waiting, OnWire(Retry(SHORTEST))) == []
  {
    hide Next, NextAll, Frames, Completed, OnWire, LawfulAll, AfterAll, Header, Join;
    var head: seq<byte> := [1, 0, 59, 0];
    HeaderBytes(1, 59, SHORTEST);
    RetryIsLawful(tags, reply, SHORTEST);
    XorZeros(head, 59);
    XorHeader(1, 0, 59, 0);
    var tail := head + Zeros(59) + [Xor(head + Zeros(59))];
    var front: seq<byte> := [SYNC] + head + Zeros(59) + [SYNC];
    assert Encode(SHORTEST) == [SYNC] + tail;
    assert Encode(SHORTEST)[..CHUNK_SIZE] == [SYNC] + head + Zeros(59);
    assert OnWire(Retry(SHORTEST)) == front + tail;
    LengthBytes(59);
    Verdict(head, Zeros(59), SYNC);
    NoiseIsSkipped(tail);
    Concatenate(Waiting, front, tail);
  }

  predicate AllUpTo(fs: seq<Frame>, n: nat) {
    forall i :: 0 <= i < |fs| ==> |fs[i].data| <= n
  }

  /** The peer has received what was queued and is ready for the next frame. */
  ghost predicate Arrived(tags: seq<uint16>, reply: Reply, p: Port, acts: seq<Action>) {
    && NextAll(Waiting, OnWire(acts)) == Waiting
    && Frames(Waiting, OnWire(acts)) + InSlot(AfterAll(tags, reply, p, acts)) == InSlot(p) + QueuedAll(tags, reply, p, acts)
  }

  /** Frames of up to `n` bytes always arrive, whatever the transport refuses. */
  ghost predicate AlwaysArrive(n: nat) {
    forall tags: seq<uint16>, reply: Reply, p: Port, acts: seq<Action> ::
      LawfulAll(tags, reply, p, acts) && AllUpTo(InSlot(p), n) && AllUpTo(QueuedAll(tags, reply, p, acts), n) ==>
        Arrived(tags, reply, p, acts)
  }

  lemma {:induction false} RetryQueuesNothing(tags: seq<uint16>, reply: Reply, f: WireFrame)
    requires |Encode(f)| > CHUNK_SIZE
    ensures QueuedAll(tags, reply, Port(Some(f), []), Retry(f)) == []
  {
    hide Encode;
    var acts, p := Retry(f), Port(Some(f), []);
    assert acts[1..] == [acts[1]] && acts[1..][1..] == [];
    assert QueuedAll(tags, reply, p, acts[1..]) == [];
  }

  /** Exactly the frames of at most 58 bytes of data are safe from a transport that refuses. */
  lemma {:induction false} SizeLimitIff(n: nat)
    ensures AlwaysArrive(n) <==> n <= 58
  {
    hide NextAll, Frames, OnWire, LawfulAll, AfterAll, QueuedAll;
    if n <= 58 {
      forall tags: seq<uint16>, reply: Reply, p: Port, acts: seq<Action> |
        LawfulAll(tags, reply, p, acts) && AllUpTo(InSlot(p), n) && AllUpTo(QueuedAll(tags, reply, p, acts), n)
        ensures Arrived(tags, reply, p, acts)
      {
        ShortFramesArrive(tags, reply, p, acts);
      }
    } else {
      var tags: seq<uint16>, reply: Reply, p := [], _ => None, Port(Some(SHORTEST), []);
      ShortestLoss(tags, reply);
      RetryQueuesNothing(tags, reply, SHORTEST);
      assert !Arrived(tags, reply, p, Retry(SHORTEST));
    }
  }

  // ----- Calls of Run ----------------------------------------------------------------------

  function Deliveries(fs: seq<WireFrame>): seq<Action> {
    if fs == [] then [] else [Deliver(fs[0])] + Deliveries(fs[1..])
  }

  lemma {:induction false} AfterJoin(tags: seq<uint16>, reply: Reply, p: Port, a: seq<Action>, b: seq<Action>)
    ensures AfterAll(tags, reply, p, a + b) == AfterAll(tags, reply, AfterAll(tags, reply, p, a), b)
    ensures LawfulAll(tags, reply, p, a + b) <==>
            LawfulAll(tags, reply, p, a) && LawfulAll(tags, reply, AfterAll(tags, reply, p, a), b)
    decreases |a|
  {
    if a == [] {
      assert a + b == b;
    } else {
      assert (a + b)[1..] == a[1..] + b;
      AfterJoin(tags, reply, After(tags, reply, p, a[0]), a[1..], b);
    }
  }

  lemma {:induction false} DeliveriesHandle(tags: seq<uint16>, reply: Reply, p: Port, fs: seq<WireFrame>)
    ensures AfterAll(tags, reply, p, Deliveries(fs)) == HandleAll(tags, reply, p, fs)
    ensures LawfulAll(tags, reply, p, Deliveries(fs))
    decreases |fs|
  {
    if fs != [] {
      assert Deliveries(fs)[1..] == Deliveries(fs[1..]);
      DeliveriesHandle(tags, reply, Handle(tags, reply, p, fs[0]), fs[1..]);
    }
  }

  /** What `Protocol.Run` promises is one such transcript: an attempt, the received frames, and
      another attempt. So the theorems above cover every run of the engine. */
  lemma {:induction false} RunIsTranscript(tags: seq<uint16>, reply: Reply, p: Port, fs: seq<WireFrame>, first: Action, last: Action)
    requires first.Write? && last.Write?
    requires Wrote(p.pending, first.accepts, first.done, first.chunks)
    requires Wrote(HandleAll(tags, reply, Attempt(p, first.done), fs).pending, last.accepts, last.done, last.chunks)
    ensures
      var acts := [first] + Deliveries(fs) + [last];
      && LawfulAll(tags, reply, p, acts)
      && AfterAll(tags, reply, p, acts) == Attempt(HandleAll(tags, reply, Attempt(p, first.done), fs), last.done)
  {
    hide Wrote, Handle;
    var handled := HandleAll(tags, reply, Attempt(p, first.done), fs);
    DeliveriesHandle(tags, reply, Attempt(p, first.done), fs);
    OneAction(tags, reply, p, first);
    OneAction(tags, reply, handled, last);
    AfterJoin(tags, reply, p, [first], Deliveries(fs));
    AfterJoin(tags, reply, p, [first] + Deliveries(fs), [last]);
  }

  lemma {:induction false} OneAction(tags: seq<uint16>, reply: Reply, p: Port, a: Action)
    ensures AfterAll(tags, reply, p, [a]) == After(tags, reply, p, a)
    ensures LawfulAll(tags, reply, p, [a]) <==> Lawful(p, a)
  {
    assert [a][1..] == [];
  }

  /** Parser state after successive calls that read the given pieces. */
  function StateOver(st: Rx, pieces: seq<seq<byte>>): (r: Rx)
    requires Proper(st)
    ensures Proper(r)
    decreases |pieces|
  {
    if pieces == [] then st else StateOver(NextAll(st, pieces[0]), pieces[1..])
  }

  function FramesOver(st: Rx, pieces: seq<seq<byte>>): seq<Frame>
    requires Proper(st)
    decreases |pieces|
  {
    if pieces == [] then [] else Frames(st, pieces[0]) + FramesOver(NextAll(st, pieces[0]), pieces[1..])
  }

  lemma {:induction false} FlattenFirst(pieces: seq<seq<byte>>)
    requires pieces != []
    ensures Flatten(pieces) == pieces[0] + Flatten(pieces[1..])
  {
    var n := |pieces| - 1;
    if n > 0 {
      FlattenFirst(pieces[..n]);
      assert pieces[..n][1..] == pieces[1..][..n - 1];
    } else {
      assert pieces[..n] == [] && pieces[1..] == [];
    }
  }

  lemma {:induction false} CutsDoNotMatter(st: Rx, pieces: seq<seq<byte>>)
    requires Proper(st)
    ensures StateOver(st, pieces) == NextAll(st, Flatten(pieces))
    ensures FramesOver(st, pieces) == Frames(st, Flatten(pieces))
    decreases |pieces|
  {
    hide Next, Completed;
    if pieces != [] {
      FlattenFirst(pieces);
      CutsDoNotMatter(NextAll(st, pieces[0]), pieces[1..]);
      Concatenate(st, pieces[0], Flatten(pieces[1..]));
    }
  }

  /** Frames sent with noise between them arrive exactly, in order, however the stream is cut
      into calls. */
  lemma {:induction false} RoundTripOverCalls(items: seq<Item>, tail: seq<byte>, pieces: seq<seq<byte>>)
    requires Sendable(items) && Noise(tail) && Flatten(pieces) == Stream(items) + tail
    ensures StateOver(Waiting, pieces) == Waiting && FramesOver(Waiting, pieces) == Payload(items)
  {
    CutsDoNotMatter(Waiting, pieces);
    StreamRoundTrip(items, tail);
  }
}
