/** The bytes of a channel: 16-byte big-endian block headers, bodies, and the tail
    (src/transfer.cpp:51-55, 131-136 and 360-384). */
module Wire {
  import opened Basics
  import opened TransferModel
  import TI = TransferInvariant

  /** htonl followed by a store. */
  function BE32(x: nat): (r: seq<Byte>)
    requires x < TWO32
    ensures |r| == 4
  {
    [x / 0x100_0000, x / 0x1_0000 % 256, x / 256 % 256, x % 256]
  }

  /** A load followed by ntohl. */
  function FromBE32(s: seq<Byte>): (x: nat)
    requires |s| == 4
    ensures x < TWO32
  {
    var a: nat, b: nat, c: nat, d: nat := s[0], s[1], s[2], s[3];
    a * 0x100_0000 + b * 0x1_0000 + c * 256 + d
  }

  lemma BE32RoundTrip(x: nat)
    requires x < TWO32
    ensures FromBE32(BE32(x)) == x
  {
    var a, b, c := x / 256, x / 0x1_0000, x / 0x100_0000;
    assert x == a * 256 + x % 256;
    assert b == a / 256 && a == b * 256 + a % 256;
    assert c == b / 256 && b == c * 256 + b % 256;
  }

  /** The offset goes out as two halves; n_file and the size are 32-bit. */
  function HeaderBytes(off: nat, size: nat, file: nat): (r: seq<Byte>)
    requires off < TWO64 && size < TWO32 && file < TWO32
    ensures |r| == 16
  {
    BE32(off / TWO32) + BE32(off % TWO32) + BE32(size) + BE32(file)
  }

  const TAIL_OFFSET: nat := 0xFFFF_FFFF_FFFF_FFFF
  const TAIL_FILE: nat := 0xFFFF_FFFF

  function TailBytes(): (r: seq<Byte>)
    ensures |r| == 16
  {
    BE32(0xFFFF_FFFF) + BE32(0xFFFF_FFFF) + BE32(0) + BE32(TAIL_FILE)
  }

  /** What the receiver reads out of 16 header bytes: offset, block size and n_file. */
  function DecodeHeader(h: seq<Byte>): (r: Block)
    requires |h| == 16
    ensures r.size < TWO32 && r.file < TWO32 && r.off < TWO64
  {
    Block(FromBE32(h[12..16]), FromBE32(h[0..4]) * TWO32 + FromBE32(h[4..8]), FromBE32(h[8..12]))
  }

  /** Splitting and joining the 64-bit offset loses nothing; a data header, whose size is
      positive, is never taken for the tail. */
  lemma HeaderRoundTrip(b: Block)
    requires b.off < TWO64 && b.size < TWO32 && b.file < TWO32
    ensures DecodeHeader(HeaderBytes(b.off, b.size, b.file)) == b
  {
    var h := HeaderBytes(b.off, b.size, b.file);
    assert h[0..4] == BE32(b.off / TWO32);
    assert h[4..8] == BE32(b.off % TWO32);
    assert h[8..12] == BE32(b.size);
    assert h[12..16] == BE32(b.file);
    BE32RoundTrip(b.off / TWO32);
    BE32RoundTrip(b.off % TWO32);
    BE32RoundTrip(b.size);
    BE32RoundTrip(b.file);
  }

  lemma TailDecodes()
    ensures DecodeHeader(TailBytes()) == Block(TAIL_FILE, TAIL_OFFSET, 0)
  {
    var h := TailBytes();
    assert h == HeaderBytes(TAIL_OFFSET, 0, TAIL_FILE);
    HeaderRoundTrip(Block(TAIL_FILE, TAIL_OFFSET, 0));
  }

  /** The number that bytes stand for, the most significant first. */
  function BigEndian(s: seq<Byte>): nat
    decreases |s|
  {
    if s == [] then 0 else BigEndian(s[..|s| - 1]) * 256 + s[|s| - 1]
  }

  lemma OneMore(front: seq<Byte>, b: Byte)
    ensures BigEndian(front + [b]) == BigEndian(front) * 256 + b
  {
    assert (front + [b])[..|front|] == front;
  }

  lemma FourMore(front: seq<Byte>, s: seq<Byte>)
    requires |s| == 4
    ensures BigEndian(front + s) == BigEndian(front) * TWO32 + FromBE32(s)
  {
    OneMore(front, s[0]);
    OneMore(front + [s[0]], s[1]);
    OneMore(front + [s[0]] + [s[1]], s[2]);
    OneMore(front + [s[0]] + [s[1]] + [s[2]], s[3]);
    assert front + [s[0]] + [s[1]] + [s[2]] + [s[3]] == front + s;
  }

  /** Where the fields are: the offset in bytes 0 to 7, the size in 8 to 11, the file number in
      12 to 15, all of them big-endian. */
  lemma HeaderLayout(off: nat, size: nat, file: nat)
    requires off < TWO64 && size < TWO32 && file < TWO32
    ensures var h := HeaderBytes(off, size, file);
            BigEndian(h[..8]) == off && BigEndian(h[8..12]) == size && BigEndian(h[12..]) == file
  {
    var h := HeaderBytes(off, size, file);
    assert h[..8] == [] + BE32(off / TWO32) + BE32(off % TWO32);
    assert h[8..12] == [] + BE32(size) && h[12..] == [] + BE32(file);
    FourMore([], BE32(off / TWO32));
    FourMore([] + BE32(off / TWO32), BE32(off % TWO32));
    FourMore([], BE32(size));
    FourMore([], BE32(file));
    BE32RoundTrip(off / TWO32);
    BE32RoundTrip(off % TWO32);
    BE32RoundTrip(size);
    BE32RoundTrip(file);
  }

  lemma TailLayout()
    ensures TailBytes() == [255, 255, 255, 255, 255, 255, 255, 255, 0, 0, 0, 0, 255, 255, 255, 255]
  { }

  // ----- tokens and bytes -----

  predicate Encodable(b: Block) { b.off < TWO64 && 0 < b.size < TWO32 && b.file < TWO32 }

  predicate TokenOk(t: Token) { t.Head? ==> Encodable(t.b) }

  function TokenBytes(t: Token): seq<Byte>
    requires TokenOk(t)
  {
    match t
    case Head(b) => HeaderBytes(b.off, b.size, b.file)
    case Data(v) => [v]
    case Tail => TailBytes()
  }

  function Encode(tokens: seq<Token>): seq<Byte>
    requires forall i :: 0 <= i < |tokens| ==> TokenOk(tokens[i])
  {
    if tokens == [] then [] else TokenBytes(tokens[0]) + Encode(tokens[1..])
  }

  lemma {:induction false} EncodeConcat(a: seq<Token>, b: seq<Token>)
    requires forall i :: 0 <= i < |a| ==> TokenOk(a[i])
    requires forall i :: 0 <= i < |b| ==> TokenOk(b[i])
    ensures Encode(a + b) == Encode(a) + Encode(b)
  {
    if a == [] {
      assert a + b == b;
    } else {
      assert (a + b)[0] == a[0] && (a + b)[1..] == a[1..] + b;
      EncodeConcat(a[1..], b);
    }
  }

  /** The bytes of a block in its file. */
  function BodyBytes(cfg: Config, b: Block): (r: seq<Byte>)
    ensures |r| == b.size
  {
    seq<Byte>(b.size, i requires 0 <= i < b.size => cfg.ByteAt(b.file, b.off + i))
  }

  lemma BodyIsSlice(cfg: Config, b: Block)
    requires b.file < |cfg.files| && b.off + b.size <= |cfg.files[b.file]|
    ensures BodyBytes(cfg, b) == cfg.files[b.file][b.off..b.off + b.size]
  {
    var slice := cfg.files[b.file][b.off..b.off + b.size];
    forall i | 0 <= i < b.size ensures BodyBytes(cfg, b)[i] == slice[i] { }
  }

  lemma {:induction false} EncodeData(tokens: seq<Token>, bytes: seq<Byte>)
    requires |tokens| == |bytes| && forall i :: 0 <= i < |tokens| ==> tokens[i] == Data(bytes[i])
    ensures Encode(tokens) == bytes
  {
    if tokens != [] {
      EncodeData(tokens[1..], bytes[1..]);
      assert bytes == [bytes[0]] + bytes[1..];
    }
  }

  function FrameBytes(cfg: Config, b: Block): seq<Byte>
    requires Encodable(b)
  {
    HeaderBytes(b.off, b.size, b.file) + BodyBytes(cfg, b)
  }

  /** Header and body tokens of a block are what `send_file` puts on the socket for it. */
  lemma EncodeFrame(cfg: Config, b: Block)
    requires Encodable(b)
    ensures Encode([Head(b)] + Body(cfg, b)) == FrameBytes(cfg, b)
  {
    EncodeData(Body(cfg, b), BodyBytes(cfg, b));
    assert ([Head(b)] + Body(cfg, b))[1..] == Body(cfg, b);
  }

  function StreamBytes(cfg: Config, blocks: seq<Block>): seq<Byte>
    requires forall i :: 0 <= i < |blocks| ==> Encodable(blocks[i])
  {
    if blocks == [] then TailBytes() else FrameBytes(cfg, blocks[0]) + StreamBytes(cfg, blocks[1..])
  }

  /** The token stream of the transfer model, tail included, is this byte stream. */
  lemma {:induction false} EncodeStream(cfg: Config, blocks: seq<Block>)
    requires forall i :: 0 <= i < |blocks| ==> Encodable(blocks[i])
    ensures forall i :: 0 <= i < |TI.Tokens(cfg, blocks)| ==> TokenOk(TI.Tokens(cfg, blocks)[i])
    ensures Encode(TI.Tokens(cfg, blocks) + [Tail]) == StreamBytes(cfg, blocks)
  {
    if blocks == [] {
      assert TI.Tokens(cfg, blocks) + [Tail] == [Tail];
      assert Encode([Tail]) == TailBytes() + [];
    } else {
      var first := [Head(blocks[0])] + Body(cfg, blocks[0]);
      var rest := TI.Tokens(cfg, blocks[1..]);
      EncodeStream(cfg, blocks[1..]);
      EncodeFrame(cfg, blocks[0]);
      assert TI.Tokens(cfg, blocks) + [Tail] == first + (rest + [Tail]);
      EncodeConcat(first, rest + [Tail]);
    }
  }

  // ----- parsing a stream -----

  /** A block as received: where it goes and what it holds. */
  datatype Frame = Frame(b: Block, body: seq<Byte>)

  datatype Parsed = Incomplete | BadTail | Complete(frames: seq<Frame>, rest: seq<Byte>)

  /** The receive loop on a byte stream: headers with bodies until a header of size 0, which
      must be the tail. */
  function Parse(bytes: seq<Byte>): Parsed
    decreases |bytes|
  {
    if |bytes| < 16 then Incomplete
    else
      var b := DecodeHeader(bytes[..16]);
      if b.size == 0 then
        if b.off == TAIL_OFFSET && b.file == TAIL_FILE then Complete([], bytes[16..]) else BadTail
      else if |bytes| < 16 + b.size then Incomplete
      else
        match Parse(bytes[16 + b.size..])
        case Complete(frames, rest) => Complete([Frame(b, bytes[16..16 + b.size])] + frames, rest)
        case other => other
  }

  function FramesOf(cfg: Config, blocks: seq<Block>): seq<Frame> {
    seq(|blocks|, i requires 0 <= i < |blocks| => Frame(blocks[i], BodyBytes(cfg, blocks[i])))
  }

  /** Parsing the bytes of any list of claimed blocks followed by the tail returns exactly
      that list and stops right behind the tail, whatever follows it. */
  lemma {:induction false} ParseStream(cfg: Config, blocks: seq<Block>, rest: seq<Byte>)
    requires forall i :: 0 <= i < |blocks| ==> Encodable(blocks[i])
    ensures Parse(StreamBytes(cfg, blocks) + rest) == Complete(FramesOf(cfg, blocks), rest)
  {
    var bytes := StreamBytes(cfg, blocks) + rest;
    if blocks == [] {
      TailDecodes();
      assert bytes[..16] == TailBytes() && bytes[16..] == rest;
    } else {
      var b := blocks[0];
      var tail := StreamBytes(cfg, blocks[1..]) + rest;
      HeaderRoundTrip(b);
      assert bytes == HeaderBytes(b.off, b.size, b.file) + BodyBytes(cfg, b) + tail;
      assert bytes[..16] == HeaderBytes(b.off, b.size, b.file);
      assert bytes[16..16 + b.size] == BodyBytes(cfg, b);
      assert bytes[16 + b.size..] == tail;
      ParseStream(cfg, blocks[1..], rest);
      assert FramesOf(cfg, blocks) == [Frame(b, BodyBytes(cfg, b))] + FramesOf(cfg, blocks[1..]);
    }
  }
}
