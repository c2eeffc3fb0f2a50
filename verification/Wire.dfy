/** The wire format of the TLV protocol and its byte-at-a-time parser, as functions. */
module Wire {
  import opened Clock

  type byte = bv8

  const SYNC: byte := 0xAA
  const HEADER_SIZE: nat := 4
  const MAX_DATA: nat := 256

  datatype Option<+T> = None | Some(value: T)

  datatype Frame = Frame(tag: uint16, data: seq<byte>)

  // ----- Encoding --------------------------------------------------------------------------

  function Low(x: uint16): byte {
    (x % 0x100) as byte
  }

  function High(x: uint16): byte {
    (x / 0x100) as byte
  }

  /** Little-endian decode. */
  function Join(low: byte, high: byte): uint16 {
    low as nat + 0x100 * (high as nat)
  }

  lemma {:induction false} ByteSuccessor(b: byte)
    requires b != 0xFF
    ensures (b + 1) as nat == b as nat + 1
  {
  }

  lemma {:induction false} ByteFor(x: nat) returns (b: byte)
    requires x < 0x100
    ensures b as nat == x
  {
    b := 0;
    if x > 0 {
      b := ByteFor(x - 1);
      ByteSuccessor(b);
      b := b + 1;
    }
  }

  lemma {:induction false} ByteRoundTrip(x: nat)
    requires x < 0x100
    ensures (x as byte) as nat == x
  {
    var b := ByteFor(x);
    assert (b as nat) as byte == b;
  }

  lemma {:induction false} JoinSplits(x: uint16)
    ensures Join(Low(x), High(x)) == x
  {
    ByteRoundTrip(x % 0x100);
    ByteRoundTrip(x / 0x100);
  }

  function Header(f: Frame): (r: seq<byte>)
    requires |f.data| <= MAX_DATA
    ensures |r| == HEADER_SIZE
  {
    [Low(f.tag), High(f.tag), Low(|f.data|), High(|f.data|)]
  }

  /** XOR of all bytes. */
  function Xor(bs: seq<byte>): byte {
    if bs == [] then 0 else Xor(bs[..|bs| - 1]) ^ bs[|bs| - 1]
  }

  /** Sync, tag, length, data, checksum. */
  function Encode(f: Frame): seq<byte>
    requires |f.data| <= MAX_DATA
  {
    [SYNC] + Header(f) + f.data + [Xor(Header(f) + f.data)]
  }

  // ----- Parsing ---------------------------------------------------------------------------

  /** What the parser has seen of the current frame. */
  datatype Rx =
    | Waiting
    | InHeader(head: seq<byte>)
    | InData(head: seq<byte>, data: seq<byte>)
    | InChecksum(head: seq<byte>, data: seq<byte>)

  function TagOf(head: seq<byte>): uint16
    requires |head| == HEADER_SIZE
  {
    Join(head[0], head[1])
  }

  function LengthOf(head: seq<byte>): uint16
    requires |head| == HEADER_SIZE
  {
    Join(head[2], head[3])
  }

  /** The parser only holds partial frames of a permitted length. */
  predicate Proper(st: Rx) {
    match st
    case Waiting => true
    case InHeader(head) => |head| < HEADER_SIZE
    case InData(head, data) => |head| == HEADER_SIZE && |data| < LengthOf(head) <= MAX_DATA
    case InChecksum(head, data) => |head| == HEADER_SIZE && |data| == LengthOf(head) <= MAX_DATA
  }

  function AfterHeader(head: seq<byte>): (st: Rx)
    requires |head| == HEADER_SIZE
    ensures Proper(st)
  {
    if LengthOf(head) > MAX_DATA then Waiting
    else if LengthOf(head) == 0 then InChecksum(head, [])
    else InData(head, [])
  }

  /** State after byte `b`. */
  function Next(st: Rx, b: byte): (r: Rx)
    requires Proper(st)
    ensures Proper(r)
  {
    match st
    case Waiting => if b == SYNC then InHeader([]) else Waiting
    case InHeader(head) => if |head| + 1 < HEADER_SIZE then InHeader(head + [b]) else AfterHeader(head + [b])
    case InData(head, data) =>
      if |data| + 1 >= LengthOf(head) then InChecksum(head, data + [b]) else InData(head, data + [b])
    case InChecksum(_, _) => Waiting
  }

  /** Frame completed by byte `b`, if any. */
  function Completed(st: Rx, b: byte): (r: seq<Frame>)
    requires Proper(st)
    ensures |r| <= 1
  {
    if st.InChecksum? && b == Xor(st.head + st.data) then [Frame(TagOf(st.head), st.data)] else []
  }

  function NextAll(st: Rx, bs: seq<byte>): (r: Rx)
    requires Proper(st)
    ensures Proper(r)
    decreases |bs|
  {
    if bs == [] then st else NextAll(Next(st, bs[0]), bs[1..])
  }

  /** Frames completed while reading `bs`, in order. */
  function Frames(st: Rx, bs: seq<byte>): seq<Frame>
    requires Proper(st)
    decreases |bs|
  {
    if bs == [] then [] else Completed(st, bs[0]) + Frames(Next(st, bs[0]), bs[1..])
  }

  /** Parsing does not depend on how the stream is cut. */
  lemma {:induction false} Concatenate(st: Rx, a: seq<byte>, b: seq<byte>)
    requires Proper(st)
    ensures NextAll(st, a + b) == NextAll(NextAll(st, a), b)
    ensures Frames(st, a + b) == Frames(st, a) + Frames(NextAll(st, a), b)
    decreases |a|
  {
    hide Next, Completed;
    if a == [] {
      assert a + b == b;
    } else {
      assert (a + b)[1..] == a[1..] + b;
      Concatenate(Next(st, a[0]), a[1..], b);
    }
  }

  lemma {:induction false} One(st: Rx, b: byte)
    requires Proper(st)
    ensures NextAll(st, [b]) == Next(st, b) && Frames(st, [b]) == Completed(st, b)
  {
    assert [b][1..] == [];
  }
}
