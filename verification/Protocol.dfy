/** The protocol engine: parser, handler table and one-frame transmit slot. */
module ProtocolEngine {
  import opened Clock
  import opened Wire
  import opened WireTheorems
  import opened Transmit

  const MAX_HANDLERS: nat := 15
  const READ_AHEAD: nat := 16
  const LOOPBACK: uint16 := 0

  /** The frame a user handler tries to send when it receives a frame. */
  type Reply = WireFrame -> Option<WireFrame>

  // ----- The engine as a value ---------------------------------------------------------------

  /** Transmit slot and the handler calls made so far. */
  datatype Port = Port(pending: Option<WireFrame>, calls: seq<WireFrame>)

  /** A frame is only queued when the slot is free. */
  function Offer(pending: Option<WireFrame>, f: WireFrame): Option<WireFrame> {
    if pending.Some? then pending else Some(f)
  }

  /** Dispatch of a received frame; without a handler it is dropped. */
  function Handle(tags: seq<uint16>, reply: Reply, p: Port, f: WireFrame): Port {
    if f.tag !in tags then p
    else
      var calls := p.calls + [f];
      if f.tag == LOOPBACK then Port(Offer(p.pending, f), calls)
      else if reply(f).Some? then Port(Offer(p.pending, reply(f).value), calls)
      else Port(p.pending, calls)
  }

  function HandleAll(tags: seq<uint16>, reply: Reply, p: Port, fs: seq<WireFrame>): Port
    decreases |fs|
  {
    if fs == [] then p else HandleAll(tags, reply, Handle(tags, reply, p, fs[0]), fs[1..])
  }

  lemma {:induction false} HandleOne(tags: seq<uint16>, reply: Reply, p: Port, f: WireFrame)
    ensures HandleAll(tags, reply, p, [f]) == Handle(tags, reply, p, f)
    ensures HandleAll(tags, reply, p, []) == p
  {
    assert [f][1..] == [];
  }

  /** A pending frame is neither changed nor replaced by anything received. */
  lemma {:induction false} PendingIsKept(tags: seq<uint16>, reply: Reply, p: Port, fs: seq<WireFrame>)
    requires p.pending.Some?
    ensures HandleAll(tags, reply, p, fs).pending == p.pending
    decreases |fs|
  {
    if fs != [] { PendingIsKept(tags, reply, Handle(tags, reply, p, fs[0]), fs[1..]); }
  }

  /** What the received frames are answered with: a copy for each loopback frame, and the
      handler's reply for every other registered one. */
  function Answers(tags: seq<uint16>, reply: Reply, fs: seq<WireFrame>): seq<WireFrame> {
    if fs == [] then []
    else
      var f, rest := fs[0], Answers(tags, reply, fs[1..]);
      if f.tag !in tags then rest
      else if f.tag == LOOPBACK then [f] + rest
      else if reply(f).Some? then [reply(f).value] + rest
      else rest
  }

  /** The slot holds what it held, or else the first answer. */
  lemma {:induction false} FirstAnswerIsQueued(tags: seq<uint16>, reply: Reply, p: Port, fs: seq<WireFrame>)
    ensures var answers := Answers(tags, reply, fs);
      HandleAll(tags, reply, p, fs).pending ==
      if p.pending.Some? then p.pending else if answers == [] then None else Some(answers[0])
    decreases |fs|
  {
    if fs != [] {
      FirstAnswerIsQueued(tags, reply, Handle(tags, reply, p, fs[0]), fs[1..]);
    }
  }

  /** Handlers see exactly the received frames with a registered tag, in order. */
  function Registered(tags: seq<uint16>, fs: seq<WireFrame>): seq<WireFrame> {
    if fs == [] then []
    else (if fs[0].tag in tags then [fs[0]] else []) + Registered(tags, fs[1..])
  }

  lemma {:induction false} CallsAreRegistered(tags: seq<uint16>, reply: Reply, p: Port, fs: seq<WireFrame>)
    ensures HandleAll(tags, reply, p, fs).calls == p.calls + Registered(tags, fs)
    decreases |fs|
  {
    if fs != [] {
      CallsAreRegistered(tags, reply, Handle(tags, reply, p, fs[0]), fs[1..]);
    }
  }

  lemma {:induction false} CompletedFits(st: Rx, bs: seq<byte>)
    requires Proper(st)
    ensures forall i :: 0 <= i < |Frames(st, bs)| ==> |Frames(st, bs)[i].data| <= MAX_DATA
    decreases |bs|
  {
    if bs != [] { CompletedFits(Next(st, bs[0]), bs[1..]); }
  }

  /** The frames read from `bs`, as frames that fit the buffers. */
  function Received(st: Rx, bs: seq<byte>): (r: seq<WireFrame>)
    requires Proper(st)
    ensures r == Frames(st, bs)
  {
    CompletedFits(st, bs);
    Frames(st, bs)
  }

  function CompletedBy(st: Rx, b: byte): (r: seq<WireFrame>)
    requires Proper(st)
    ensures r == Completed(st, b)
  {
    Completed(st, b)
  }

  /** One more byte: parser state and handler calls extend what was read before. */
  lemma {:induction false} ReceiveOne(tags: seq<uint16>, reply: Reply, p: Port, st: Rx, seen: seq<byte>, b: byte)
    requires Proper(st)
    ensures
      var now := NextAll(st, seen);
      && NextAll(st, seen + [b]) == Next(now, b)
      && HandleAll(tags, reply, p, Received(st, seen + [b]))
         == HandleAll(tags, reply, HandleAll(tags, reply, p, Received(st, seen)), CompletedBy(now, b))
  {
    var now := NextAll(st, seen);
    Concatenate(st, seen, [b]);
    One(now, b);
    HandleJoin(tags, reply, p, Received(st, seen), CompletedBy(now, b));
  }

  ghost function TakeOne(seen: seq<byte>, b: byte, left: seq<byte>): (r: seq<byte>)
    requires left != [] && left[0] == b
    ensures r == seen + [b] && r + left[1..] == seen + left
  {
    seen + [b]
  }

  lemma {:induction false} ReceiveNone(tags: seq<uint16>, reply: Reply, p: Port, st: Rx)
    requires Proper(st)
    ensures NextAll(st, []) == st && HandleAll(tags, reply, p, Received(st, [])) == p
  {
  }

  /** What one call of the transport's read function delivers. */
  type Delivery = bs: seq<byte> | |bs| <= 16

  /** Bytes obtained by reading until a read returns nothing. */
  function Available(inputs: seq<Delivery>): seq<byte> {
    if inputs == [] || inputs[0] == [] then [] else inputs[0] + Available(inputs[1..])
  }

  lemma {:induction false} HandleJoin(tags: seq<uint16>, reply: Reply, p: Port, fs: seq<WireFrame>, gs: seq<WireFrame>)
    ensures HandleAll(tags, reply, p, fs + gs) == HandleAll(tags, reply, HandleAll(tags, reply, p, fs), gs)
    decreases |fs|
  {
    if fs == [] {
      assert fs + gs == gs;
    } else {
      assert (fs + gs)[1..] == fs[1..] + gs;
      HandleJoin(tags, reply, Handle(tags, reply, p, fs[0]), fs[1..], gs);
    }
  }

  // ----- The engine as an object -----------------------------------------------------------------

  /** A transmission attempt frees the slot when it wrote everything. */
  function Attempt(p: Port, done: bool): Port {
    if done then p.(pending := None) else p
  }

  /** What one attempt may hand to the transport: nothing from an empty slot, all of the
      encoding on success, and otherwise the full chunks before the first refused one. */
  ghost predicate Wrote(pending: Option<WireFrame>, accepts: seq<bool>, done: bool, chunks: seq<seq<byte>>) {
    && (pending.None? ==> !done && chunks == [])
    && (pending.Some? && done ==> Flatten(chunks) == Encode(pending.value))
    && (pending.Some? && !done ==>
          && Flatten(chunks) <= Encode(pending.value) && |Flatten(chunks)| < |Encode(pending.value)|
          && |chunks| < |accepts| && !accepts[|chunks|]
          && forall i :: 0 <= i < |chunks| ==> |chunks[i]| == CHUNK_SIZE)
  }

  datatype State = WaitingForSync | ReadingHeader | ReadingData | ReadingChecksum

  class Protocol {
    const reply: Reply
    var tags: seq<uint16>
    var state: State
    const buffer: array<byte>
    var index: nat
    var length: nat
    var tag: uint16
    const cache: array<byte>
    var next: nat
    var count: nat
    var pending: bool
    var txTag: uint16
    var txData: seq<byte>
    var calls: seq<WireFrame>

    /** Loopback is always the first handler and tags are distinct. */
    ghost predicate Valid()
      reads this, buffer
    {
      && buffer.Length == HEADER_SIZE + MAX_DATA
      && cache.Length == READ_AHEAD && next <= count <= READ_AHEAD && cache != buffer
      && 0 < |tags| <= MAX_HANDLERS && tags[0] == LOOPBACK
      && (forall i, j :: 0 <= i < j < |tags| ==> tags[i] != tags[j])
      && |txData| <= MAX_DATA
      && (state == ReadingHeader ==> index < HEADER_SIZE)
      && (state == ReadingData || state == ReadingChecksum ==>
            length == LengthOf(buffer[..HEADER_SIZE]) <= MAX_DATA && tag == TagOf(buffer[..HEADER_SIZE]))
      && (state == ReadingData ==> index < length)
    }

    ghost function Parser(): (st: Rx)
      requires Valid()
      reads this, buffer
      ensures Proper(st)
    {
      match state
      case WaitingForSync => Waiting
      case ReadingHeader => InHeader(buffer[..index])
      case ReadingData => InData(buffer[..HEADER_SIZE], buffer[HEADER_SIZE..HEADER_SIZE + index])
      case ReadingChecksum => InChecksum(buffer[..HEADER_SIZE], buffer[HEADER_SIZE..HEADER_SIZE + length])
    }

    /** Bytes fetched but not parsed yet. */
    ghost function Ahead(): seq<byte>
      requires Valid()
      reads this, buffer, cache
    {
      cache[next..count]
    }

    ghost function Slot(): Option<WireFrame>
      requires Valid()
      reads this, buffer
    {
      if pending then Some(Frame(txTag, txData)) else None
    }

    ghost function View(): Port
      requires Valid()
      reads this, buffer
    {
      Port(Slot(), calls)
    }

    constructor (respond: Reply)
      ensures Valid() && fresh(buffer) && fresh(cache) && reply == respond && tags == [LOOPBACK]
      ensures Parser() == Waiting && View() == Port(None, []) && Ahead() == []
    {
      reply, tags, state := respond, [LOOPBACK], WaitingForSync;
      buffer := new byte[HEADER_SIZE + MAX_DATA](_ => 0);
      cache := new byte[READ_AHEAD](_ => 0);
      index, length, tag, next, count := 0, 0, 0, 0, 0;
      pending, txTag, txData, calls := false, 0, [], [];
    }

    /** Register a tag that has no handler yet, while the table has room. */
    method AddHandler(t: uint16) returns (ok: bool)
      requires Valid()
      modifies `tags
      ensures Valid()
      ensures ok <==> |old(tags)| < MAX_HANDLERS && t !in old(tags)
      ensures tags == if ok then old(tags) + [t] else old(tags)
    {
      if |tags| >= MAX_HANDLERS {
        return false;
      }
      for i := 0 to |tags|
        invariant t !in tags[..i]
      {
        if tags[i] == t {
          return false;
        }
      }
      tags := tags + [t];
      return true;
    }

    /** Queue a frame unless one is pending. */
    method Send(f: WireFrame) returns (ok: bool)
      requires Valid()
      modifies `pending, `txTag, `txData
      ensures Valid() && ok == old(Slot()).None?
      ensures Slot() == Offer(old(Slot()), f)
    {
      if pending {
        return false;
      }
      txTag, txData, pending := f.tag, f.data, true;
      return true;
    }

    /** Try to transmit the pending frame. It leaves the slot only when all of its encoding was
        written, and is retried unchanged otherwise. */
    method TxPhase(accepts: seq<bool>) returns (done: bool, chunks: seq<seq<byte>>)
      requires Valid()
      modifies `pending
      ensures Valid() && View() == Attempt(old(View()), done)
      ensures Wrote(old(Slot()), accepts, done, chunks)
    {
      done, chunks := false, [];
      if pending {
        done, chunks := WriteFrameWire(Frame(txTag, txData), accepts);
        if done {
          pending := false;
        }
      }
    }

    method ResetParser()
      modifies `state, `index, `length, `tag
      ensures state == WaitingForSync && index == 0 && length == 0 && tag == 0
    {
      state, index, length, tag := WaitingForSync, 0, 0, 0;
    }

    /** Give a received frame to its handler. */
    method DispatchFrame(f: WireFrame)
      requires Valid()
      modifies `pending, `txTag, `txData, `calls
      ensures Valid() && View() == Handle(tags, reply, old(View()), f)
      ensures old(Slot()).None? && f.tag == LOOPBACK ==> Slot() == Some(f)
      ensures old(Slot()).None? && f.tag != LOOPBACK ==> Slot() == if f.tag in tags then reply(f) else None
    {
      for i := 0 to |tags|
        invariant f.tag !in tags[..i] && View() == old(View())
      {
        if tags[i] == f.tag {
          calls := calls + [f];
          if f.tag == LOOPBACK {
            var ok := Send(f);
          } else if reply(f).Some? {
            var ok := Send(reply(f).value);
          }
          return;
        }
      }
    }

    method FeedHeader(b: byte)
      requires Valid() && state == ReadingHeader
      modifies `state, `index, `length, `tag, buffer
      ensures Valid() && Parser() == Next(old(Parser()), b) && View() == old(View())
    {
      hide Join;
      ghost var seen := buffer[..index];
      assert Next(Parser(), b) == if index + 1 < HEADER_SIZE then InHeader(seen + [b]) else AfterHeader(seen + [b]);
      buffer[index] := b;
      index := index + 1;
      assert buffer[..index] == seen + [b];
      if index >= HEADER_SIZE {
        var head := buffer[..HEADER_SIZE];
        if LengthOf(head) > MAX_DATA {
          ResetParser();
          return;
        }
        tag, length, index := TagOf(head), LengthOf(head), 0;
        state := if length == 0 then ReadingChecksum else ReadingData;
      }
    }

    method FeedData(b: byte)
      requires Valid() && state == ReadingData
      modifies `state, `index, buffer
      ensures Valid() && Parser() == Next(old(Parser()), b) && View() == old(View())
    {
      ghost var head, seen := buffer[..HEADER_SIZE], buffer[HEADER_SIZE..HEADER_SIZE + index];
      buffer[HEADER_SIZE + index] := b;
      index := index + 1;
      assert buffer[..HEADER_SIZE] == head;
      assert buffer[HEADER_SIZE..HEADER_SIZE + index] == seen + [b];
      if index >= length {
        state := ReadingChecksum;
      }
    }

    /** Compare the checksum; only a frame that passes is dispatched. */
    method FeedChecksum(b: byte)
      requires Valid() && state == ReadingChecksum
      modifies `state, `index, `length, `tag, `pending, `txTag, `txData, `calls
      ensures Valid() && Parser() == Next(old(Parser()), b)
      ensures View() == HandleAll(tags, reply, old(View()), CompletedBy(old(Parser()), b))
    {
      hide Handle, Xor, Join;
      HandleOne(tags, reply, View(), Frame(tag, buffer[HEADER_SIZE..HEADER_SIZE + length]));
      var expected := ComputeChecksum(buffer[..HEADER_SIZE], buffer[HEADER_SIZE..HEADER_SIZE + length]);
      if b == expected {
        DispatchFrame(Frame(tag, buffer[HEADER_SIZE..HEADER_SIZE + length]));
      }
      ResetParser();
    }

    /** One byte through the state machine. */
    method FeedByte(b: byte)
      requires Valid()
      modifies `state, `index, `length, `tag, `pending, `txTag, `txData, `calls, buffer
      ensures Valid() && Parser() == Next(old(Parser()), b)
      ensures View() == HandleAll(tags, reply, old(View()), CompletedBy(old(Parser()), b))
    {
      match state
      case WaitingForSync =>
        if b == SYNC {
          ResetParser();
          state := ReadingHeader;
        }
      case ReadingHeader => FeedHeader(b);
      case ReadingData => FeedData(b);
      case ReadingChecksum => FeedChecksum(b);
    }

    /** Take a byte from the cache, refilling it with one read when it is used up. Nothing is
        lost or reordered by reading ahead. */
    method ReadRawByte(inputs: seq<Delivery>) returns (ok: bool, b: byte, rest: seq<Delivery>)
      requires Valid()
      modifies `next, `count, cache
      ensures Valid() && Parser() == old(Parser()) && View() == old(View())
      ensures ok ==> old(Ahead()) + Available(inputs) == [b] + (Ahead() + Available(rest))
      ensures !ok ==> old(Ahead()) == [] && Available(inputs) == [] && Ahead() == []
    {
      hide Proper, Join, LengthOf, TagOf;
      ok, b, rest := true, 0, inputs;
      if next < count {
        b := TakeCached();
        return;
      }
      if inputs == [] {
        Refill([]);
        return false, 0, [];
      }
      Refill(inputs[0]);
      rest := inputs[1..];
      ok := count > 0;
      if ok {
        b := TakeCached();
      }
    }

    method TakeCached() returns (b: byte)
      requires Valid() && next < count
      modifies `next
      ensures Valid() && Parser() == old(Parser()) && View() == old(View()) && old(Ahead()) == [b] + Ahead()
    {
      b := cache[next];
      next := next + 1;
    }

    /** Replace a used-up cache by one delivery. */
    method Refill(got: Delivery)
      requires Valid() && next == count
      modifies `next, `count, cache
      ensures Valid() && Parser() == old(Parser()) && View() == old(View()) && Ahead() == got && next == 0
    {
      hide Proper, Join, LengthOf, TagOf;
      Store(got);
      next, count := 0, |got|;
    }

    /** Overwrite the front of the cache. */
    method Store(got: Delivery)
      requires cache.Length == READ_AHEAD
      modifies cache
      ensures cache[..|got|] == got
    {
      for i := 0 to |got|
        invariant cache[..i] == got[..i]
      {
        cache[i] := got[i];
        assert cache[..i + 1] == got[..i] + [got[i]] == got[..i + 1];
      }
      assert got[..|got|] == got;
    }

    /** Parse bytes until a read returns nothing. */
    method Receive(inputs: seq<Delivery>)
      requires Valid()
      modifies `state, `index, `length, `tag, `pending, `txTag, `txData, `calls, `next, `count, buffer, cache
      ensures Valid() && Ahead() == []
      ensures Parser() == NextAll(old(Parser()), old(Ahead()) + Available(inputs))
      ensures View() == HandleAll(tags, reply, old(View()), Received(old(Parser()), old(Ahead()) + Available(inputs)))
    {
      hide Next, NextAll, Frames, Completed, Available, Handle, HandleAll, Received, Proper;
      ghost var st, port := Parser(), View();
      ghost var seen: seq<byte>, left := [], Ahead() + Available(inputs);
      ghost var all := left;
      ReceiveNone(tags, reply, port, st);
      var ok, b, rest := ReadRawByte(inputs);
      while ok
        invariant Valid()
        invariant all == seen + left && (if ok then left == [b] + (Ahead() + Available(rest)) else left == [] && Ahead() == [])
        invariant Parser() == NextAll(st, seen)
        invariant View() == HandleAll(tags, reply, port, Received(st, seen))
        decreases ok, |left|
      {
        ReceiveOne(tags, reply, port, st, seen, b);
        FeedByte(b);
        seen, left := TakeOne(seen, b, left), Ahead() + Available(rest);
        ok, b, rest := ReadRawByte(rest);
      }
      assert seen == all;
    }

    /** One call: retry the pending frame, parse what has arrived, transmit what a handler
        queued. The pending frame is only ever replaced after it was written in full. */
    method Run(inputs: seq<Delivery>, accepts1: seq<bool>, accepts2: seq<bool>)
      returns (done1: bool, chunks1: seq<seq<byte>>, done2: bool, chunks2: seq<seq<byte>>)
      requires Valid()
      modifies `state, `index, `length, `tag, `pending, `txTag, `txData, `calls, `next, `count, buffer, cache
      ensures Valid() && Ahead() == []
      ensures Parser() == NextAll(old(Parser()), old(Ahead()) + Available(inputs))
      ensures
        var retried := Attempt(old(View()), done1);
        var handled := HandleAll(tags, reply, retried, Received(old(Parser()), old(Ahead()) + Available(inputs)));
        && Wrote(old(View()).pending, accepts1, done1, chunks1)
        && Wrote(handled.pending, accepts2, done2, chunks2)
        && View() == Attempt(handled, done2)
    {
      hide NextAll, Frames, Available, HandleAll, Received, Wrote, Proper, Join, LengthOf, TagOf;
      done1, chunks1 := TxPhase(accepts1);
      Receive(inputs);
      done2, chunks2 := TxPhase(accepts2);
    }
  }

  /** Loopback end to end: an engine with a free slot that receives exactly the encoding of a
      loopback frame, in any pieces, on a transport that accepts, writes exactly that encoding
      and is free again. */
  method Echo(engine: Protocol, f: WireFrame, inputs: seq<Delivery>, accepts: seq<bool>) returns (chunks: seq<seq<byte>>)
    requires engine.Valid() && engine.Parser() == Waiting && engine.Ahead() == [] && engine.Slot() == None
    requires f.tag == LOOPBACK && Available(inputs) == Encode(f) && forall i :: 0 <= i < |accepts| ==> accepts[i]
    modifies engine, engine.buffer, engine.cache
    ensures engine.Valid() && engine.Parser() == Waiting && engine.Slot() == None
    ensures Flatten(chunks) == Encode(f) && engine.calls == old(engine.calls) + [f]
  {
    hide Encode, NextAll, Frames, Available, HandleAll, Answers, Flatten;
    ghost var port := engine.View();
    var done1, chunks1, done2, chunks2 := engine.Run(inputs, accepts, accepts);
    assert [] + Encode(f) == Encode(f);
    RoundTrip(f);
    FirstAnswerIsQueued(engine.tags, engine.reply, port, [f]);
    EchoAnswer(engine.tags, engine.reply, f);
    CallsAreRegistered(engine.tags, engine.reply, port, [f]);
    chunks := chunks2;
  }

  lemma {:induction false} EchoAnswer(tags: seq<uint16>, reply: Reply, f: WireFrame)
    requires f.tag == LOOPBACK && |tags| > 0 && tags[0] == LOOPBACK
    ensures Answers(tags, reply, [f]) == [f] && Registered(tags, [f]) == [f]
  {
    assert tags[0] in tags;
    assert [f][1..] == [];
    assert Answers(tags, reply, []) == [] && Registered(tags, []) == [];
  }
}
