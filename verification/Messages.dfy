/** Typed, length-prefixed messages (src/message.h:55-196). The payload serializer is a
    parameter; all that is asked of it is that reading inverts writing. */
module Messages {
  import opened Basics
  import opened TransferInfo
  import Wire
  import S = SourceChannel
  import D = DestinationChannel

  datatype SockAddr =
    | IPv4(port: nat, addr: nat)
    | IPv6(port: nat, flowInfo: nat, addr6: seq<Byte>, scopeId: nat)

  /** The serialized fields of user_name_t. */
  datatype UserName = UserName(userName: string, domainUserName: string, userSid: string)

  datatype Message =
    | ServerInformation(channels: seq<(SockAddr, nat)>)
    | ClientTransferRequest(
        fromServerToClient: bool, serverPath: string, blockSize: nat, recursive: nat,
        user: UserName, info: Option<TransferInfo>)
    | ServerTransferResponse(errorCode: int, errorMessage: string, response: Option<TransferInfo>)
    | TransferDestinationFinished(errorCode: int, errorMessage: string)

  function TypeOf(m: Message): nat {
    match m
    case ServerInformation(_) => 0
    case ClientTransferRequest(_, _, _, _, _, _) => 1
    case ServerTransferResponse(_, _, _) => 2
    case TransferDestinationFinished(_, _) => 3
  }

  const INT32_MAX: nat := 0x7fff_ffff

  /** `read` is told which type of message to read. */
  datatype Serializer = Serializer(write: Message -> seq<Byte>, read: (nat, seq<Byte>) -> Option<Message>)

  ghost predicate Inverts(z: Serializer) {
    forall m {:trigger z.write(m)} :: z.read(TypeOf(m), z.write(m)) == Some(m)
  }

  predicate Sendable(z: Serializer, m: Message) { |z.write(m)| <= INT32_MAX }

  function Frame(z: Serializer, m: Message): seq<Byte>
    requires Sendable(z, m)
  {
    Wire.BE32(TypeOf(m)) + Wire.BE32(|z.write(m)|) + z.write(m)
  }

  function Frames(z: Serializer, ms: seq<Message>): seq<Byte>
    requires forall i :: 0 <= i < |ms| ==> Sendable(z, ms[i])
  {
    if ms == [] then [] else Frame(z, ms[0]) + Frames(z, ms[1..])
  }

  /** A frame: four bytes for the type, four for the length, both big-endian, and the message. */
  lemma FrameLayout(z: Serializer, m: Message)
    requires Sendable(z, m)
    ensures var f := Frame(z, m);
            && |f| == 8 + |z.write(m)| && f[8..] == z.write(m) && Wire.BigEndian(f[4..8]) == |z.write(m)|
            && Wire.BigEndian(f[..4])
               == if m.ServerInformation? then 0 else if m.ClientTransferRequest? then 1
                  else if m.ServerTransferResponse? then 2 else 3
  {
    var f := Frame(z, m);
    assert f[..4] == [] + Wire.BE32(TypeOf(m)) && f[4..8] == [] + Wire.BE32(|z.write(m)|);
    Wire.FourMore([], Wire.BE32(TypeOf(m)));
    Wire.FourMore([], Wire.BE32(|z.write(m)|));
    Wire.BE32RoundTrip(TypeOf(m));
    Wire.BE32RoundTrip(|z.write(m)|);
  }

  datatype Outcome = Received(m: Message) | WrongType | Truncated | Undecodable | Disconnected

  /** A receive of a message of the expected type from bytes that have all arrived: what it
      makes of them, and how many it consumes. */
  function Receive(z: Serializer, expected: nat, bytes: seq<Byte>): (r: (Outcome, nat))
    ensures r.1 <= |bytes|
  {
    if |bytes| < 8 then (Truncated, |bytes|)
    else
      var size := Wire.FromBE32(bytes[4..8]);
      if Wire.FromBE32(bytes[..4]) != expected then (WrongType, 8)
      else if |bytes| < 8 + size then (Truncated, |bytes|)
      else
        match z.read(expected, bytes[8..8 + size])
        case None => (Undecodable, 8 + size)
        case Some(m) => (Received(m), 8 + size)
  }

  /** A list of receives; they stop at the first that fails. */
  function ReceiveAll(z: Serializer, expected: seq<nat>, bytes: seq<Byte>): (seq<Message>, seq<Byte>)
    decreases |expected|
  {
    if expected == [] then ([], bytes)
    else
      match Receive(z, expected[0], bytes)
      case (Received(m), n) =>
        var (ms, rest) := ReceiveAll(z, expected[1..], bytes[n..]);
        ([m] + ms, rest)
      case (_, n) => ([], bytes[n..])
  }

  lemma HeaderParts(z: Serializer, m: Message, rest: seq<Byte>)
    requires Sendable(z, m)
    ensures var bytes := Frame(z, m) + rest;
            && |bytes| >= 8 + |z.write(m)|
            && Wire.FromBE32(bytes[..4]) == TypeOf(m) && Wire.FromBE32(bytes[4..8]) == |z.write(m)|
            && bytes[8..8 + |z.write(m)|] == z.write(m) && bytes[8 + |z.write(m)|..] == rest
  {
    var bytes := Frame(z, m) + rest;
    assert bytes[..4] == Wire.BE32(TypeOf(m));
    assert bytes[4..8] == Wire.BE32(|z.write(m)|);
    Wire.BE32RoundTrip(TypeOf(m));
    Wire.BE32RoundTrip(|z.write(m)|);
  }

  /** A framed message is received by a receive of its type, which consumes exactly its frame;
      a receive of any other type consumes the eight header bytes and fails. */
  lemma ReceiveFrame(z: Serializer, m: Message, expected: nat, rest: seq<Byte>)
    requires Inverts(z) && Sendable(z, m)
    ensures Receive(z, expected, Frame(z, m) + rest)
            == if expected == TypeOf(m) then (Received(m), |Frame(z, m)|) else (WrongType, 8)
  {
    HeaderParts(z, m, rest);
    assert z.read(TypeOf(m), z.write(m)) == Some(m);
  }

  function Types(ms: seq<Message>): (r: seq<nat>)
    ensures |r| == |ms|
  {
    seq(|ms|, i requires 0 <= i < |ms| => TypeOf(ms[i]))
  }

  lemma FirstFrame(z: Serializer, ms: seq<Message>, rest: seq<Byte>)
    requires ms != [] && forall i :: 0 <= i < |ms| ==> Sendable(z, ms[i])
    ensures Frames(z, ms) + rest == Frame(z, ms[0]) + (Frames(z, ms[1..]) + rest)
  { }

  lemma ReceiveFirst(z: Serializer, m: Message, expected: seq<nat>, tail: seq<Byte>)
    requires Inverts(z) && Sendable(z, m) && expected != [] && expected[0] == TypeOf(m)
    ensures var (ms, rest) := ReceiveAll(z, expected[1..], tail);
            ReceiveAll(z, expected, Frame(z, m) + tail) == ([m] + ms, rest)
  {
    ReceiveFrame(z, m, expected[0], tail);
    assert (Frame(z, m) + tail)[|Frame(z, m)|..] == tail;
  }

  /** Any list of messages comes back from receives of their types, and what follows them on
      the socket is left there. */
  lemma {:induction false} MessagesRoundTrip(z: Serializer, ms: seq<Message>, rest: seq<Byte>)
    requires Inverts(z) && forall i :: 0 <= i < |ms| ==> Sendable(z, ms[i])
    ensures ReceiveAll(z, Types(ms), Frames(z, ms) + rest) == (ms, rest)
    decreases |ms|
  {
    if ms == [] {
      assert Frames(z, ms) + rest == rest && Types(ms) == [];
    } else {
      FirstFrame(z, ms, rest);
      ReceiveFirst(z, ms[0], Types(ms), Frames(z, ms[1..]) + rest);
      assert Types(ms)[1..] == Types(ms[1..]);
      MessagesRoundTrip(z, ms[1..], rest);
      assert [ms[0]] + ms[1..] == ms;
    }
  }

  /** A receive of the wrong type anywhere stops the list there. */
  lemma {:induction false} WrongTypeStops(z: Serializer, before: seq<Message>, m: Message, more: seq<nat>, rest: seq<Byte>)
    requires Inverts(z) && Sendable(z, m) && forall i :: 0 <= i < |before| ==> Sendable(z, before[i])
    requires more != [] && more[0] != TypeOf(m)
    ensures ReceiveAll(z, Types(before) + more, Frames(z, before) + (Frame(z, m) + rest)).0 == before
    decreases |before|
  {
    if before == [] {
      assert Frames(z, before) + (Frame(z, m) + rest) == Frame(z, m) + rest;
      assert Types(before) + more == more;
      ReceiveFrame(z, m, more[0], rest);
    } else {
      FirstFrame(z, before, Frame(z, m) + rest);
      ReceiveFirst(z, before[0], Types(before) + more, Frames(z, before[1..]) + (Frame(z, m) + rest));
      assert (Types(before) + more)[1..] == Types(before[1..]) + more;
      WrongTypeStops(z, before[1..], m, more, rest);
    }
  }

  /** A message over 2 GiB is not sent at all; a failing socket may have sent any prefix. */
  method MessageSend(z: Serializer, sock: S.Socket, m: Message) returns (ok: bool)
    modifies sock
    ensures (ok <==> |z.write(m)| <= 0x7fff_ffff && !sock.broken) && (old(sock.broken) ==> sock.broken)
    ensures ok ==> Sendable(z, m) && sock.sent == old(sock.sent) + Frame(z, m)
    ensures !Sendable(z, m) ==> !ok && sock.sent == old(sock.sent) && sock.broken == old(sock.broken)
    ensures !ok && Sendable(z, m) ==> old(sock.sent) <= sock.sent <= old(sock.sent) + Frame(z, m)
  {
    var binary := z.write(m);
    if |binary| > INT32_MAX {
      return false;
    }
    var buffer := new Byte[8];
    S.Store32(buffer, 0, TypeOf(m));
    S.Store32(buffer, 4, |binary|);
    assert buffer[..] + binary == Frame(z, m);
    ok := sock.Send(buffer[..] + binary);
  }

  /** Unless the connection fails, what the bytes on the socket say, and exactly those bytes
      are consumed. An undecodable payload ends the process. */
  method MessageRecv(z: Serializer, sock: D.Socket, expected: nat) returns (r: Outcome)
    modifies sock
    ensures r != Truncated && (r == Disconnected <==> sock.broken) && (old(sock.broken) ==> sock.broken)
    ensures r != Disconnected ==>
              && r == Receive(z, expected, old(sock.incoming)).0
              && sock.incoming == old(sock.incoming)[Receive(z, expected, old(sock.incoming)).1..]
    ensures Receive(z, expected, old(sock.incoming)).0 == Truncated ==> r == Disconnected
  {
    ghost var bytes := sock.incoming;
    var ok, buffer := sock.Recv(8);
    if !ok {
      return Disconnected;
    }
    assert buffer[..4] == bytes[..4] && buffer[4..8] == bytes[4..8];
    var kind := Wire.FromBE32(buffer[..4]);
    var size := Wire.FromBE32(buffer[4..8]);
    if kind != expected {
      return WrongType;
    }
    ghost var mid := sock.incoming;
    assert mid == bytes[8..];
    var binary;
    ok, binary := sock.Recv(size);
    if !ok {
      return Disconnected;
    }
    assert binary == mid[..size] == bytes[8..8 + size];
    assert sock.incoming == mid[size..] == bytes[8 + size..];
    match z.read(expected, binary) {
      case None => return Undecodable;
      case Some(m) => return Received(m);
    }
  }
}
