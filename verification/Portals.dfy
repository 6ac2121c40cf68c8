/** The two portal threads from the server information on (src/server.cpp:109-279,
    src/client.cpp:313-501, src/transfer.cpp:8-26 and 331-350), error branches included: what
    they receive, send, wait for and open, and in which order. Module Handshake interleaves the
    same steps with the channel threads. */
module Portals {
  import opened Basics
  import opened TransferInfo
  import opened Messages
  import C = ChannelCount
  import D = DestinationChannel
  import G = GateGuard
  import S = SourceChannel
  import V = Verdict

  /** transfer_error carries EINVAL, ENOSYS or an errno, never 0. */
  type ErrorCode = c: int | c != 0 witness 22

  /** What comes of building the transfer object for a request, or of initialising it. */
  datatype Built = Refused(code: ErrorCode, message: string) | Ready(info: Option<TransferInfo>)

  const FINISHED: Message := TransferDestinationFinished(0, "")

  // ----- what a portal thread does, in order -----

  /** `Passed` is a wait that returned, `Opened` a signal given. */
  datatype Act = Sent(m: Message) | Heard(m: Message) | Passed(gate: G.GateGuard) | Opened(gate: G.GateGuard)

  class Journal {
    ghost var acts: seq<Act>

    constructor ()
      ensures acts == []
    {
      acts := [];
    }
  }

  method Say(z: Serializer, output: S.Socket, m: Message, j: Journal) returns (ok: bool)
    modifies output, j
    ensures (ok <==> Sendable(z, m) && !output.broken) && (old(output.broken) ==> output.broken)
    ensures ok ==> Sendable(z, m) && output.sent == old(output.sent) + Frame(z, m)
    ensures Since(old(j.acts), if ok then [Sent(m)] else [], j.acts)
  {
    ok := MessageSend(z, output, m);
    if ok { j.acts := j.acts + [Sent(m)]; }
  }

  method Hear(z: Serializer, input: D.Socket, expected: nat, j: Journal) returns (r: Outcome)
    modifies input, j
    ensures (r == Disconnected <==> input.broken) && (old(input.broken) ==> input.broken)
    ensures r != Disconnected ==>
              && r == Receive(z, expected, old(input.incoming)).0
              && input.incoming == old(input.incoming)[Receive(z, expected, old(input.incoming)).1..]
    ensures Since(old(j.acts), if r.Received? then [Heard(r.m)] else [], j.acts)
  {
    r := MessageRecv(z, input, expected);
    if r.Received? { j.acts := j.acts + [Heard(r.m)]; }
  }

  /** Only the calls of other threads can make this return. */
  method Pass(awaited: G.Awaited, j: Journal)
    requires awaited.Valid() && awaited.WillOpen()
    modifies awaited`toCome, awaited.gate`currSignalCount, awaited.gate.event, j
    ensures awaited.Valid() && awaited.gate.event.isSet
    ensures Since(old(j.acts), [Passed(awaited.gate)], j.acts)
  {
    ghost var made := awaited.Wait();
    j.acts := j.acts + [Passed(awaited.gate)];
  }

  method Open(gate: G.GateGuard, j: Journal)
    requires gate.Valid() && gate.IsInitialized()
    modifies gate`currSignalCount, gate.event, j
    ensures (gate.currSignalCount, gate.event.isSet)
            == old(G.AfterCall(G.Gate.CallSignal, gate.atLeastSignal, gate.currSignalCount, gate.event.isSet))
    ensures Since(old(j.acts), [Opened(gate)], j.acts)
  {
    gate.Signal();
    j.acts := j.acts + [Opened(gate)];
  }

  predicate Since(before: seq<Act>, did: seq<Act>, after: seq<Act>) { after == before + did }

  lemma Then(before: seq<Act>, did: seq<Act>, mid: seq<Act>, more: seq<Act>, after: seq<Act>)
    requires Since(before, did, mid) && Since(mid, more, after)
    ensures Since(before, did + more, after)
  { }

  // ----- the bytes of it -----

  predicate AllSendable(z: Serializer, ms: seq<Message>) { forall i :: 0 <= i < |ms| ==> Sendable(z, ms[i]) }

  /** Exactly these messages went out. */
  predicate Said(z: Serializer, ms: seq<Message>, before: seq<Byte>, after: seq<Byte>) {
    AllSendable(z, ms) && after == before + Frames(z, ms)
  }

  lemma {:induction false} FramesAppend(z: Serializer, ms: seq<Message>, m: Message)
    requires Sendable(z, m) && AllSendable(z, ms)
    ensures Frames(z, ms + [m]) == Frames(z, ms) + Frame(z, m)
    decreases |ms|
  {
    if ms != [] {
      assert (ms + [m])[1..] == ms[1..] + [m];
      FramesAppend(z, ms[1..], m);
    }
  }

  lemma SaidMore(z: Serializer, ms: seq<Message>, m: Message, before: seq<Byte>, mid: seq<Byte>, after: seq<Byte>)
    requires Said(z, ms, before, mid) && Sendable(z, m) && after == mid + Frame(z, m)
    ensures Said(z, ms + [m], before, after)
  {
    FramesAppend(z, ms, m);
  }

  // ----- invoke_portal -----

  /** transfer_destination::invoke_portal: all channels first, then the message. */
  method DestinationInvokePortal(z: Serializer, output: S.Socket, finished: G.Awaited, j: Journal) returns (ok: bool)
    requires finished.Valid() && finished.WillOpen()
    modifies output, finished`toCome, finished.gate`currSignalCount, finished.gate.event, j
    ensures finished.Valid() && finished.gate.event.isSet
    ensures (ok <==> Sendable(z, FINISHED) && !output.broken) && (old(output.broken) ==> output.broken)
    ensures ok ==> Sendable(z, FINISHED) && output.sent == old(output.sent) + Frame(z, FINISHED)
    ensures Since(old(j.acts), [Passed(finished.gate)] + if ok then [Sent(FINISHED)] else [], j.acts)
  {
    Pass(finished, j);
    ok := Say(z, output, FINISHED, j);
  }

  /** transfer_source::invoke_portal: true exactly for a finished message with error code 0, and
      so for the one a destination sends. */
  method SourceInvokePortal(z: Serializer, input: D.Socket, j: Journal) returns (ok: bool, ghost outcome: Outcome)
    modifies input, j
    ensures ok <==> exists text :: outcome == Received(TransferDestinationFinished(0, text))
    ensures (outcome == Disconnected <==> input.broken) && (old(input.broken) ==> input.broken)
    ensures outcome != Disconnected ==> outcome == Receive(z, 3, old(input.incoming)).0
    ensures Inverts(z) && Sendable(z, FINISHED) && Frame(z, FINISHED) <= old(input.incoming) && !input.broken ==> ok
    ensures Since(old(j.acts), if outcome.Received? then [Heard(outcome.m)] else [], j.acts)
  {
    ghost var bytes := input.incoming;
    if Inverts(z) && Sendable(z, FINISHED) && Frame(z, FINISHED) <= bytes {
      FinishArrives(z, bytes);
    }
    var r := Hear(z, input, 3, j);
    ok := r.Received? && r.m.TransferDestinationFinished? && r.m.errorCode == 0;
    outcome := r;
    assert ok ==> r == Received(TransferDestinationFinished(0, r.m.errorMessage));
  }

  lemma FinishArrives(z: Serializer, bytes: seq<Byte>)
    requires Inverts(z) && Sendable(z, FINISHED) && Frame(z, FINISHED) <= bytes
    ensures Receive(z, 3, bytes).0 == Received(TransferDestinationFinished(0, ""))
  {
    var rest := bytes[|Frame(z, FINISHED)|..];
    assert bytes == Frame(z, FINISHED) + rest;
    ReceiveFrame(z, FINISHED, 3, rest);
  }

  /** A finished message with error code 0. */
  ghost predicate Finish(outcome: Outcome) { exists text :: outcome == Received(TransferDestinationFinished(0, text)) }

  /** What a destination puts on the socket when its invoke_portal returns true, whatever was
      sent before and comes after, makes the source's return true. */
  lemma FinishCrosses(z: Serializer, before: seq<Byte>, after: seq<Byte>, rest: seq<Byte>)
    requires Inverts(z) && Sendable(z, FINISHED) && after == before + Frame(z, FINISHED)
    ensures Finish(Receive(z, 3, after[|before|..] + rest).0)
  {
    FinishArrives(z, after[|before|..] + rest);
  }

  /** What the call of invoke_portal did when it returned true. */
  predicate TransferActs(acts: seq<Act>, asDestination: bool, gate: G.GateGuard) {
    if asDestination then acts == [Passed(gate), Sent(FINISHED)]
    else |acts| == 1 && acts[0].Heard? && acts[0].m.TransferDestinationFinished? && acts[0].m.errorCode == 0
  }

  /** Only a destination still has something to say. */
  function LastWords(asDestination: bool): seq<Message> { if asDestination then [FINISHED] else [] }

  /** The virtual call of invoke_portal, by which everything `said` so far went out. */
  method InvokePortal(z: Serializer, input: D.Socket, output: S.Socket, asDestination: bool, finished: G.Awaited, j: Journal,
                      ghost said: seq<Message>, ghost before: seq<Byte>)
    returns (success: bool, ghost did: seq<Act>)
    requires finished.Valid() && finished.WillOpen() && Said(z, said, before, output.sent)
    modifies input, output, finished`toCome, finished.gate`currSignalCount, finished.gate.event, j
    ensures !asDestination ==> output.sent == old(output.sent) && output.broken == old(output.broken)
    ensures asDestination ==> input.incoming == old(input.incoming) && input.broken == old(input.broken)
    ensures (old(input.broken) ==> input.broken) && (old(output.broken) ==> output.broken)
    ensures success <==> if asDestination then Sendable(z, FINISHED) && !output.broken
                         else !input.broken && Finish(Receive(z, 3, old(input.incoming)).0)
    ensures success ==> Said(z, said + LastWords(asDestination), before, output.sent)
    ensures Since(old(j.acts), did, j.acts) && (success ==> TransferActs(did, asDestination, finished.gate))
  {
    if asDestination {
      ghost var mid := output.sent;
      success := DestinationInvokePortal(z, output, finished, j);
      did := [Passed(finished.gate)] + if success then [Sent(FINISHED)] else [];
      if success { SaidMore(z, said, FINISHED, before, mid, output.sent); }
    } else {
      ghost var outcome;
      success, outcome := SourceInvokePortal(z, input, j);
      did := if outcome.Received? then [Heard(outcome.m)] else [];
      assert said + LastWords(false) == said;
    }
  }

  // ----- the server -----

  /** How far a portal thread got: it gave up, it answered with an error, or it opened the
      gate of its channels and ran the transfer. */
  datatype Reached = GaveUp | Answered | Ran(success: bool)

  predicate Requests(outcome: Outcome) { outcome.Received? && outcome.m.ClientTransferRequest? }

  /** The server up to its response: its information out, a request in, the transfer built
      and, unless that failed, every channel connected. A refusal is answered with its error,
      anything else with code 0 and what was built; on a connection that holds the answer
      fails only for want of a request or for a message over 2 GiB. */
  method Answer(z: Serializer, input: D.Socket, output: S.Socket, info: Message, construct: Message -> Built,
                connected: G.Awaited, j: Journal)
    returns (answered: bool, request: Message, ghost response: Message)
    requires connected.Valid() && connected.WillOpen() && info.ServerInformation?
    modifies input, output, connected`toCome, connected.gate`currSignalCount, connected.gate.event, j
    ensures connected.Valid() && (old(input.broken) ==> input.broken) && (old(output.broken) ==> output.broken)
    ensures answered <==> !input.broken && !output.broken && Sendable(z, info)
                          && Requests(Receive(z, 1, old(input.incoming)).0) && Sendable(z, response)
    ensures request.ClientTransferRequest? ==>
              && Receive(z, 1, old(input.incoming)).0 == Received(request)
              && input.incoming == old(input.incoming)[Receive(z, 1, old(input.incoming)).1..]
              && match construct(request)
                 case Refused(code, text) => response == ServerTransferResponse(code, text, None) && response.errorCode != 0
                 case Ready(built) => response == ServerTransferResponse(0, "", built)
    ensures answered ==>
              && request.ClientTransferRequest?
              && Said(z, [info, response], old(output.sent), output.sent)
              && Since(old(j.acts), if construct(request).Ready?
                                    then [Sent(info), Heard(request), Passed(connected.gate), Sent(response)]
                                    else [Sent(info), Heard(request), Sent(response)], j.acts)
  {
    request, response := info, info;
    ghost var before, was := output.sent, j.acts;
    answered := Say(z, output, info, j);
    if !answered { return; }
    SaidMore(z, [], info, before, before, output.sent);
    ghost var mid, first := output.sent, j.acts;
    var r := Hear(z, input, 1, j);
    if !r.Received? || !r.m.ClientTransferRequest? { return false, request, response; }
    request := r.m;
    Then(was, [Sent(info)], first, [Heard(request)], j.acts);
    ghost var second := j.acts;
    var built := construct(request);
    var reply := ServerTransferResponse(0, "", None);
    match built {
      case Refused(code, text) => reply := reply.(errorCode := code, errorMessage := text);
      case Ready(info) => reply := reply.(response := info);
    }
    response := reply;
    if reply.errorCode == 0 {
      Pass(connected, j);
    }
    ghost var waited := if built.Ready? then [Passed(connected.gate)] else [];
    Then(was, [Sent(info)] + [Heard(request)], second, waited, j.acts);
    ghost var third := j.acts;
    answered := Say(z, output, reply, j);
    if answered {
      Then(was, [Sent(info)] + [Heard(request)] + waited, third, [Sent(reply)], j.acts);
      assert [Sent(info)] + [Heard(request)] + waited + [Sent(reply)]
          == if built.Ready? then [Sent(info), Heard(request), Passed(connected.gate), Sent(reply)]
             else [Sent(info), Heard(request), Sent(reply)];
      SaidMore(z, [] + [info], reply, before, mid, output.sent);
      assert [] + [info] + [reply] == [info, reply];
    }
  }

  /** The server's portal thread. What it did when it ran the transfer, step by step: it opens
      the gate of its channel threads only after a response without error, and that only after
      every channel has connected; as a destination it says it finished only after every channel
      has. How far it gets is determined by the request, by what is built for it, and by the
      connection. */
  method ServerPortal(z: Serializer, input: D.Socket, output: S.Socket, info: Message, construct: Message -> Built,
                      connected: G.Awaited, ready: G.GateGuard, finished: G.Awaited, j: Journal)
    returns (reached: Reached, request: Message, ghost response: Message, ghost did: seq<Act>)
    requires connected.Valid() && connected.WillOpen() && finished.Valid() && finished.WillOpen()
    requires ready.Valid() && ready.IsInitialized() && connected != finished && info.ServerInformation?
    requires ready != connected.gate && ready != finished.gate && connected.gate != finished.gate
    requires ready.event != connected.gate.event && ready.event != finished.gate.event
    requires connected.gate.event != finished.gate.event
    modifies input, output, j, connected`toCome, connected.gate`currSignalCount, connected.gate.event
    modifies ready`currSignalCount, ready.event, finished`toCome, finished.gate`currSignalCount, finished.gate.event
    ensures (ready.currSignalCount, ready.event.isSet)
            == if reached.Ran?
               then old(G.AfterCall(G.Gate.CallSignal, ready.atLeastSignal, ready.currSignalCount, ready.event.isSet))
               else old((ready.currSignalCount, ready.event.isSet))
    ensures request.ClientTransferRequest? ==>
              && Receive(z, 1, old(input.incoming)).0 == Received(request)
              && match construct(request)
                 case Refused(code, text) => response == ServerTransferResponse(code, text, None) && response.errorCode != 0
                 case Ready(built) => response == ServerTransferResponse(0, "", built)
    ensures !input.broken && !output.broken && Sendable(z, info) ==>
              (reached != GaveUp <==> Requests(Receive(z, 1, old(input.incoming)).0) && Sendable(z, response))
    ensures reached != GaveUp ==>
              && request.ClientTransferRequest? && (reached.Ran? <==> construct(request).Ready?)
              && Since(old(j.acts),
                       if reached.Ran?
                       then [Sent(info), Heard(request), Passed(connected.gate), Sent(response), Opened(ready)] + did
                       else [Sent(info), Heard(request), Sent(response)], j.acts)
    ensures reached.Ran? ==>
              (reached.success <==>
                if request.fromServerToClient
                then !input.broken && Finish(Receive(z, 3, old(input.incoming)[Receive(z, 1, old(input.incoming)).1..]).0)
                else !output.broken && Sendable(z, FINISHED))
    ensures reached == Ran(true) ==>
              && TransferActs(did, !request.fromServerToClient, finished.gate)
              && Said(z, ServerSays(info, response, request.fromServerToClient), old(output.sent), output.sent)
    ensures reached == Answered ==> Said(z, [info, response], old(output.sent), output.sent)
  {
    ghost var before, was := output.sent, j.acts;
    var answered;
    did := [];
    answered, request, response := Answer(z, input, output, info, construct, connected, j);
    if !answered { return GaveUp, request, response, did; }
    if construct(request).Refused? { return Answered, request, response, did; }
    ghost var first, answer := j.acts, [Sent(info), Heard(request), Passed(connected.gate), Sent(response)];
    Open(ready, j);
    Then(was, answer, first, [Opened(ready)], j.acts);
    ghost var second := j.acts;
    var success;
    success, did := InvokePortal(z, input, output, !request.fromServerToClient, finished, j, [info, response], before);
    Then(was, answer + [Opened(ready)], second, did, j.acts);
    assert answer + [Opened(ready)] == [Sent(info), Heard(request), Passed(connected.gate), Sent(response), Opened(ready)];
    return Ran(success), request, response, did;
  }

  // ----- the client -----

  /** What the client has heard makes it go on: the information, and a response without error,
      for which, as a destination, it could make its files. */
  predicate Accepts(heard: seq<Message>, fromServerToClient: bool, init: Message -> Built) {
    && |heard| == 2 && heard[0].ServerInformation? && heard[1].ServerTransferResponse?
    && heard[1].errorCode == 0 && (fromServerToClient ==> init(heard[1]).Ready?)
  }

  lemma TwoReceives(z: Serializer, bytes: seq<Byte>)
    ensures var (first, n) := Receive(z, 0, bytes);
            var (second, m) := Receive(z, 2, bytes[n..]);
            var (heard, rest) := ReceiveAll(z, [0, 2], bytes);
            if !first.Received? then heard == []
            else if !second.Received? then heard == [first.m]
            else heard == [first.m, second.m] && rest == bytes[n..][m..]
  {
    var (first, n) := Receive(z, 0, bytes);
    assert [0, 2][1..] == [2] && [2][1..] == [];
    assert ReceiveAll(z, [2], bytes[n..]).0 == if Receive(z, 2, bytes[n..]).0.Received?
                                              then [Receive(z, 2, bytes[n..]).0.m] + [] else [];
  }

  /** The client up to the response: the server's channels in and all of them created, the
      request out, a response without error in, a destination initialised. On a connection that
      holds it is accepted exactly when the two messages it hears say so. */
  method Introduce(z: Serializer, input: D.Socket, output: S.Socket, request: Message, init: Message -> Built, j: Journal)
    returns (accepted: bool, created: nat, ghost info: Message, ghost response: Message)
    requires request.ClientTransferRequest?
    modifies input, output, j
    ensures (old(input.broken) ==> input.broken) && (old(output.broken) ==> output.broken)
    ensures accepted <==> !input.broken && !output.broken && Sendable(z, request)
                          && Accepts(ReceiveAll(z, [0, 2], old(input.incoming)).0, request.fromServerToClient, init)
    ensures accepted ==>
              && Said(z, [request], old(output.sent), output.sent)
              && ReceiveAll(z, [0, 2], old(input.incoming)) == ([info, response], input.incoming)
              && created == Sum(C.CountsOf(info.channels))
              && Since(old(j.acts), [Heard(info), Sent(request), Heard(response)], j.acts)
  {
    created, info, response := 0, request, request;
    ghost var before, was := output.sent, j.acts;
    TwoReceives(z, input.incoming);
    var r := Hear(z, input, 0, j);
    if !r.Received? || !r.m.ServerInformation? { return false, created, info, response; }
    info := r.m;
    var total;
    total, created := C.CreateChannels(C.CountsOf(r.m.channels));
    ghost var first := j.acts;
    accepted := Say(z, output, request, j);
    if !accepted { return; }
    Then(was, [Heard(info)], first, [Sent(request)], j.acts);
    SaidMore(z, [], request, before, before, output.sent);
    assert [] + [request] == [request];
    ghost var second := j.acts;
    r := Hear(z, input, 2, j);
    accepted := r.Received? && r.m.ServerTransferResponse? && r.m.errorCode == 0
                && (request.fromServerToClient ==> init(r.m).Ready?);
    if accepted {
      response := r.m;
      Then(was, [Heard(info)] + [Sent(request)], second, [Heard(response)], j.acts);
      assert [Heard(info)] + [Sent(request)] + [Heard(response)] == [Heard(info), Sent(request), Heard(response)];
    }
  }

  /** The client's portal thread. It opens the gate of its channels exactly when it was accepted,
      and the status afterwards is what invoke_portal and the failures of channels make of it. */
  method ClientPortal(z: Serializer, input: D.Socket, output: S.Socket, request: Message, init: Message -> Built,
                      ready: G.GateGuard, finished: G.Awaited, result: V.PortalResult, j: Journal)
    returns (reached: Reached, created: nat, ghost info: Message, ghost response: Message, ghost did: seq<Act>)
    requires request.ClientTransferRequest?
    requires ready.Valid() && ready.IsInitialized() && finished.Valid() && finished.WillOpen()
    requires ready != finished.gate && ready.event != finished.gate.event
    requires result.Valid() && !result.portalOk
    modifies input, output, result, j
    modifies ready`currSignalCount, ready.event, finished`toCome, finished.gate`currSignalCount, finished.gate.event
    ensures (ready.currSignalCount, ready.event.isSet)
            == if reached.Ran?
               then old(G.AfterCall(G.Gate.CallSignal, ready.atLeastSignal, ready.currSignalCount, ready.event.isSet))
               else old((ready.currSignalCount, ready.event.isSet))
    ensures var heard := ReceiveAll(z, [0, 2], old(input.incoming)).0;
            && (reached.Ran? ==> Accepts(heard, request.fromServerToClient, init) && Sendable(z, request))
            && (!input.broken && !output.broken && Sendable(z, request) ==>
                  (reached.Ran? <==> Accepts(heard, request.fromServerToClient, init)))
    ensures reached.Ran? ==>
              && ReceiveAll(z, [0, 2], old(input.incoming)).0 == [info, response]
              && created == Sum(C.CountsOf(info.channels))
              && Since(old(j.acts), [Heard(info), Sent(request), Heard(response), Opened(ready)] + did, j.acts)
    ensures reached.Ran? ==>
              (reached.success <==>
                if request.fromServerToClient then !output.broken && Sendable(z, FINISHED)
                else !input.broken && Finish(Receive(z, 3, ReceiveAll(z, [0, 2], old(input.incoming)).1).0))
    ensures reached == Ran(true) ==>
              && TransferActs(did, request.fromServerToClient, finished.gate)
              && Said(z, ClientSays(request), old(output.sent), output.sent)
    ensures reached != Answered && result.Valid() && result.failed == (old(result.failed) || reached == Ran(false))
    ensures result.portalOk <==> reached == Ran(true)
  {
    ghost var before, was := output.sent, j.acts;
    var accepted;
    did := [];
    accepted, created, info, response := Introduce(z, input, output, request, init, j);
    if !accepted { return GaveUp, created, info, response, did; }
    ghost var first, intro := j.acts, [Heard(info), Sent(request), Heard(response)];
    Open(ready, j);
    Then(was, intro, first, [Opened(ready)], j.acts);
    ghost var second := j.acts;
    var success;
    success, did := InvokePortal(z, input, output, request.fromServerToClient, finished, j, [request], before);
    Then(was, intro + [Opened(ready)], second, did, j.acts);
    assert intro + [Opened(ready)] == [Heard(info), Sent(request), Heard(response), Opened(ready)];
    result.PortalReturned(success);
    return Ran(success), created, info, response, did;
  }

  // ----- both -----

  /** Everything the server says in a session that ends well. */
  function ServerSays(info: Message, response: Message, fromServerToClient: bool): seq<Message> {
    [info, response] + LastWords(!fromServerToClient)
  }

  /** The types the client's receives ask for, in order. */
  function ClientHears(fromServerToClient: bool): seq<nat> { [0, 2] + if fromServerToClient then [] else [3] }

  function ClientSays(request: Message): seq<Message>
    requires request.ClientTransferRequest?
  {
    [request] + LastWords(request.fromServerToClient)
  }

  function ServerHears(fromServerToClient: bool): seq<nat> { [1] + if fromServerToClient then [3] else [] }

  lemma Understood(z: Serializer, ms: seq<Message>, types: seq<nat>, rest: seq<Byte>)
    requires Inverts(z) && AllSendable(z, ms) && types == Types(ms)
    ensures ReceiveAll(z, types, Frames(z, ms) + rest) == (ms, rest)
  {
    MessagesRoundTrip(z, ms, rest);
  }

  /** What one portal says in a session that ends well is what the other one's receives ask for,
      in this order, in both directions and for either side as the source. */
  lemma PortalsUnderstand(z: Serializer, info: Message, response: Message, request: Message, rest: seq<Byte>)
    requires Inverts(z) && info.ServerInformation? && response.ServerTransferResponse? && request.ClientTransferRequest?
    requires Sendable(z, info) && Sendable(z, response) && Sendable(z, request) && Sendable(z, FINISHED)
    ensures var ms := ServerSays(info, response, request.fromServerToClient);
            && AllSendable(z, ms)
            && ReceiveAll(z, ClientHears(request.fromServerToClient), Frames(z, ms) + rest) == (ms, rest)
    ensures var ms := ClientSays(request);
            && AllSendable(z, ms)
            && ReceiveAll(z, ServerHears(request.fromServerToClient), Frames(z, ms) + rest) == (ms, rest)
  {
    var toClient, toServer := ServerSays(info, response, request.fromServerToClient), ClientSays(request);
    Understood(z, toClient, ClientHears(request.fromServerToClient), rest);
    Understood(z, toServer, ServerHears(request.fromServerToClient), rest);
  }

  /** Both portals together: a client that hears a server's answer goes on if and only if the
      server built the transfer, and then holds exactly what was built; of a refusal it hears the
      error. As a destination it also has to make its own files. */
  lemma AcceptedIffBuilt(z: Serializer, info: Message, built: Built, response: Message, fromServerToClient: bool,
                         init: Message -> Built, rest: seq<Byte>)
    requires Inverts(z) && info.ServerInformation? && AllSendable(z, [info, response])
    requires match built
             case Refused(code, text) => response == ServerTransferResponse(code, text, None)
             case Ready(made) => response == ServerTransferResponse(0, "", made)
    ensures var heard := ReceiveAll(z, [0, 2], Frames(z, [info, response]) + rest).0;
            && |heard| == 2 && heard[0] == info && heard[1].ServerTransferResponse?
            && (Accepts(heard, fromServerToClient, init)
                <==> built.Ready? && (fromServerToClient ==> init(heard[1]).Ready?))
            && (built.Ready? ==> heard[1].response == built.info)
            && (built.Refused? ==> heard[1].errorCode == built.code != 0 && heard[1].errorMessage == built.message)
  {
    assert Types([info, response]) == [0, 2];
    Understood(z, [info, response], [0, 2], rest);
  }
}
