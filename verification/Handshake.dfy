/** Bringing up a transfer: a client portal with its channels against a server portal with
    its channels (src/client.cpp:36-116 and 269-504, src/server.cpp:40-310 and 653-807),
    synchronised by messages and gates, without failures. The transfer itself is seen only
    through a View; module Session plugs in the real one. */
module Handshake {
  import opened Basics

  /** `total` is the server's channel count, used for its gates; `advertised` is what
      message_server_information adds up to (ChannelCount says when they agree). `toServer`
      tells which side is the source. */
  datatype HConfig = HConfig(total: nat, advertised: nat, toServer: bool)
  {
    predicate Valid() { total > 0 && advertised == total }
  }

  datatype Msg = Greeting | Versions | Version | ServerInfo(channels: nat) | Request | Response | FinishedMsg

  /** Client portal, after its socket is connected and the first packet sent. */
  datatype ClientPortal =
    | CRecvVersion | CRecvInfo | CCreate(k: nat) | CSendRequest | CRecvResponse | CInit | CSignal | CInvoke | CDone

  function CRank(p: ClientPortal): nat {
    match p
    case CRecvVersion => 0 case CRecvInfo => 1 case CCreate(_) => 2 case CSendRequest => 3
    case CRecvResponse => 4 case CInit => 5 case CSignal => 6 case CInvoke => 7 case CDone => 8
  }

  datatype ServerPortal =
    | SAccept | SRegister | SRecvVersions | SSendVersion | SSendInfo | SRecvRequest | SBuild
    | SWaitChannels | SRespond | SSignal | SInvoke | SDone

  function SRank(p: ServerPortal): nat {
    match p
    case SAccept => 0 case SRegister => 1 case SRecvVersions => 2 case SSendVersion => 3 case SSendInfo => 4
    case SRecvRequest => 5 case SBuild => 6 case SWaitChannels => 7 case SRespond => 8 case SSignal => 9
    case SInvoke => 10 case SDone => 11
  }

  datatype ClientChannel = NotStarted | Connecting | WaitClientPortal | ClientInTransfer | ClientReturned

  function CCRank(p: ClientChannel): nat {
    match p
    case NotStarted => 0 case Connecting => 1 case WaitClientPortal => 2 case ClientInTransfer => 3 case ClientReturned => 4
  }

  datatype ServerChannel =
    | NotAccepted | RecvIdentity | LookupIdentity | AddThread | SignalConnected | WaitServerPortal
    | ServerInTransfer | ServerReturned

  function SCRank(p: ServerChannel): nat {
    match p
    case NotAccepted => 0 case RecvIdentity => 1 case LookupIdentity => 2 case AddThread => 3
    case SignalConnected => 4 case WaitServerPortal => 5 case ServerInTransfer => 6 case ServerReturned => 7
  }

  datatype TransferObject = Absent | Built | Initialised

  datatype Status = TransferUnknown | TransferFailed | TransferSucceeded

  /** `broken` records a failed lookup or assert: unknown identity, no transfer object, an
      unexpected message. */
  datatype HState = HState(
    cp: ClientPortal, sp: ServerPortal, c2s: seq<Msg>, s2c: seq<Msg>,
    cc: seq<ClientChannel>, sc: seq<ServerChannel>,
    registered: bool, threads: nat, connected: nat, serverReady: bool, clientReady: bool,
    clientTransfer: TransferObject, serverTransfer: TransferObject,
    status: Status, broken: bool)

  /** What the handshake sees of the transfer: which channel ends are done, and whether the
      destination's gate was passed. */
  datatype View = View(srcDone: seq<bool>, dstDone: seq<bool>, finished: bool)

  function HInit(cfg: HConfig): HState {
    HState(CRecvVersion, SAccept, [Greeting, Versions], [],
           seq(cfg.total, _ => NotStarted), seq(cfg.total, _ => NotAccepted),
           false, 0, 0, false, false,
           if cfg.toServer then Initialised else Built, Absent,
           TransferUnknown, false)
  }

  datatype HLabel =
    | CStep
    | SStep
    | CCStep(i: nat)
    | SCStep(i: nat)

  function ClientDone(cfg: HConfig, v: View, i: nat): bool {
    if cfg.toServer then i < |v.srcDone| && v.srcDone[i] else i < |v.dstDone| && v.dstDone[i]
  }

  function ServerDone(cfg: HConfig, v: View, i: nat): bool {
    if cfg.toServer then i < |v.dstDone| && v.dstDone[i] else i < |v.srcDone| && v.srcDone[i]
  }

  predicate HEnabled(cfg: HConfig, h: HState, v: View, l: HLabel) {
    && !h.broken
    && match l
       case CStep =>
         (match h.cp
          case CRecvVersion => h.s2c != []
          case CRecvInfo => h.s2c != []
          case CRecvResponse => h.s2c != []
          case CInvoke => if cfg.toServer then h.s2c != [] else v.finished
          case CDone => false
          case _ => true)
       case SStep =>
         (match h.sp
          case SAccept => h.c2s != []
          case SRecvVersions => h.c2s != []
          case SRecvRequest => h.c2s != []
          case SWaitChannels => h.connected >= cfg.total
          case SInvoke => if cfg.toServer then v.finished else h.c2s != []
          case SDone => false
          case _ => true)
       case CCStep(i) =>
         i < |h.cc| && i < |h.sc| &&
         (match h.cc[i]
          case NotStarted => false
          case Connecting => true
          case WaitClientPortal => h.clientReady
          case ClientInTransfer => ClientDone(cfg, v, i)
          case ClientReturned => false)
       case SCStep(i) =>
         i < |h.sc| &&
         (match h.sc[i]
          case NotAccepted => false
          case WaitServerPortal => h.serverReady
          case ServerInTransfer => ServerDone(cfg, v, i)
          case ServerReturned => false
          case _ => true)
  }

  function Break(h: HState): HState { h.(broken := true) }

  /** Is a portal about to receive a message? */
  predicate ClientReads(cfg: HConfig, h: HState) {
    h.cp == CRecvVersion || h.cp == CRecvInfo || h.cp == CRecvResponse || (h.cp == CInvoke && cfg.toServer)
  }

  predicate ServerReads(cfg: HConfig, h: HState) {
    h.sp == SAccept || h.sp == SRecvVersions || h.sp == SRecvRequest || (h.sp == SInvoke && !cfg.toServer)
  }

  /** The client portal's next step. */
  function ClientStep(cfg: HConfig, h: HState): HState
    requires ClientReads(cfg, h) ==> h.s2c != []
  {
    match h.cp
    case CRecvVersion =>
      if h.s2c[0] != Version then Break(h) else h.(cp := CRecvInfo, s2c := h.s2c[1..])
    case CRecvInfo =>
      if !h.s2c[0].ServerInfo? then Break(h) else h.(cp := CCreate(0), s2c := h.s2c[1..])
    case CCreate(k) =>
      if k < cfg.advertised then
        if k < |h.cc| then h.(cp := CCreate(k + 1), cc := h.cc[k := Connecting]) else Break(h)
      else h.(cp := CSendRequest)
    case CSendRequest => h.(cp := CRecvResponse, c2s := h.c2s + [Request])
    case CRecvResponse =>
      if h.s2c[0] != Response then Break(h) else h.(cp := CInit, s2c := h.s2c[1..])
    case CInit => h.(cp := CSignal, clientTransfer := if cfg.toServer then h.clientTransfer else Initialised)
    case CSignal => h.(cp := CInvoke, clientReady := true)
    case CInvoke =>
      if h.clientTransfer == Absent then Break(h)
      else if cfg.toServer then
        if h.s2c[0] != FinishedMsg then Break(h)
        else h.(cp := CDone, s2c := h.s2c[1..], status := Verdict(h.status))
      else h.(cp := CDone, c2s := h.c2s + [FinishedMsg], status := Verdict(h.status))
    case CDone => h
  }

  /** The compare-exchange after invoke_portal returned true. */
  function Verdict(status: Status): Status {
    if status == TransferUnknown then TransferSucceeded else status
  }

  function ServerStep(cfg: HConfig, h: HState): HState
    requires ServerReads(cfg, h) ==> h.c2s != []
  {
    match h.sp
    case SAccept => if h.c2s[0] != Greeting then Break(h) else h.(sp := SRegister, c2s := h.c2s[1..])
    case SRegister => h.(sp := SRecvVersions, registered := true)
    case SRecvVersions => if h.c2s[0] != Versions then Break(h) else h.(sp := SSendVersion, c2s := h.c2s[1..])
    case SSendVersion => h.(sp := SSendInfo, s2c := h.s2c + [Version])
    case SSendInfo => h.(sp := SRecvRequest, s2c := h.s2c + [ServerInfo(cfg.advertised)])
    case SRecvRequest => if h.c2s[0] != Request then Break(h) else h.(sp := SBuild, c2s := h.c2s[1..])
    case SBuild => h.(sp := SWaitChannels, serverTransfer := Initialised)
    case SWaitChannels => h.(sp := SRespond)
    case SRespond => h.(sp := SSignal, s2c := h.s2c + [Response])
    case SSignal => h.(sp := SInvoke, serverReady := true)
    case SInvoke =>
      if h.serverTransfer == Absent then Break(h)
      else if cfg.toServer then h.(sp := SDone, s2c := h.s2c + [FinishedMsg])
      else if h.c2s[0] != FinishedMsg then Break(h) else h.(sp := SDone, c2s := h.c2s[1..])
    case SDone => h
  }

  function ClientChannelStep(h: HState, i: nat): HState
    requires i < |h.cc| && i < |h.sc|
  {
    match h.cc[i]
    case Connecting => h.(cc := h.cc[i := WaitClientPortal], sc := h.sc[i := RecvIdentity])
    case WaitClientPortal =>
      if h.clientTransfer == Absent then Break(h) else h.(cc := h.cc[i := ClientInTransfer])
    case ClientInTransfer => h.(cc := h.cc[i := ClientReturned])
    case _ => h
  }

  function ServerChannelStep(h: HState, i: nat): HState
    requires i < |h.sc|
  {
    match h.sc[i]
    case RecvIdentity => h.(sc := h.sc[i := LookupIdentity])
    case LookupIdentity => if !h.registered then Break(h) else h.(sc := h.sc[i := AddThread])
    case AddThread => h.(sc := h.sc[i := SignalConnected], threads := h.threads + 1)
    case SignalConnected => h.(sc := h.sc[i := WaitServerPortal], connected := h.connected + 1)
    case WaitServerPortal =>
      if h.serverTransfer == Absent then Break(h) else h.(sc := h.sc[i := ServerInTransfer])
    case ServerInTransfer => h.(sc := h.sc[i := ServerReturned])
    case _ => h
  }

  function HApply(cfg: HConfig, h: HState, v: View, l: HLabel): HState
    requires HEnabled(cfg, h, v, l)
  {
    match l
    case CStep => ClientStep(cfg, h)
    case SStep => ServerStep(cfg, h)
    case CCStep(i) => ClientChannelStep(h, i)
    case SCStep(i) => ServerChannelStep(h, i)
  }

  // ----- the invariant -----

  function When(b: bool, m: Msg): seq<Msg> { if b then [m] else [] }

  /** What is on the wire follows from how far the two portals are. */
  function OnC2S(cfg: HConfig, h: HState): seq<Msg> {
    When(SRank(h.sp) <= 0, Greeting) + When(SRank(h.sp) <= 2, Versions)
    + When(CRank(h.cp) >= 4 && SRank(h.sp) <= 5, Request)
    + When(!cfg.toServer && h.cp == CDone && SRank(h.sp) <= 10, FinishedMsg)
  }

  function OnS2C(cfg: HConfig, h: HState): seq<Msg> {
    When(SRank(h.sp) >= 4 && CRank(h.cp) <= 0, Version)
    + When(SRank(h.sp) >= 5 && CRank(h.cp) <= 1, ServerInfo(cfg.advertised))
    + When(SRank(h.sp) >= 9 && CRank(h.cp) <= 4, Response)
    + When(cfg.toServer && h.sp == SDone && CRank(h.cp) <= 7, FinishedMsg)
  }

  predicate RanksInv(cfg: HConfig, h: HState) {
    && (CRank(h.cp) >= 1 ==> SRank(h.sp) >= 4)
    && (CRank(h.cp) >= 2 ==> SRank(h.sp) >= 5)
    && (CRank(h.cp) >= 5 ==> SRank(h.sp) >= 9)
    && (SRank(h.sp) >= 6 ==> CRank(h.cp) >= 4)
    && (cfg.toServer && h.cp == CDone ==> h.sp == SDone)
    && (!cfg.toServer && h.sp == SDone ==> h.cp == CDone)
    && (h.cp.CCreate? ==> h.cp.k <= cfg.advertised)
    && (h.registered <==> SRank(h.sp) >= 2)
    && (h.serverReady <==> SRank(h.sp) >= 10)
    && (h.clientReady <==> CRank(h.cp) >= 7)
    && h.serverTransfer == (if SRank(h.sp) >= 7 then Initialised else Absent)
    && h.clientTransfer == (if cfg.toServer || CRank(h.cp) >= 6 then Initialised else Built)
    && h.status == (if h.cp == CDone then TransferSucceeded else TransferUnknown)
  }

  predicate WiresInv(cfg: HConfig, h: HState) {
    h.c2s == OnC2S(cfg, h) && h.s2c == OnS2C(cfg, h)
  }

  predicate PortalInv(cfg: HConfig, h: HState) { RanksInv(cfg, h) && WiresInv(cfg, h) }

  function ThreadFlags(h: HState): seq<nat> {
    seq(|h.sc|, i requires 0 <= i < |h.sc| => if SCRank(h.sc[i]) >= 4 then 1 else 0)
  }

  function ConnectedFlags(h: HState): seq<nat> {
    seq(|h.sc|, i requires 0 <= i < |h.sc| => if SCRank(h.sc[i]) >= 5 then 1 else 0)
  }

  /** Was client channel i created? */
  predicate Created(cfg: HConfig, h: HState, i: nat) {
    CRank(h.cp) >= 3 || (h.cp.CCreate? && i < h.cp.k)
  }

  predicate ChannelOk(cfg: HConfig, h: HState, i: nat)
    requires i < |h.cc| && i < |h.sc|
  {
    && (h.cc[i] != NotStarted <==> Created(cfg, h, i))
    && (h.sc[i] != NotAccepted <==> CCRank(h.cc[i]) >= 2)
    && (CCRank(h.cc[i]) >= 3 ==> h.clientReady)
    && (SCRank(h.sc[i]) >= 6 ==> h.serverReady)
  }

  ghost predicate ChannelsInv(cfg: HConfig, h: HState) {
    && |h.cc| == |h.sc| == cfg.total
    && (forall i :: 0 <= i < cfg.total ==> ChannelOk(cfg, h, i))
    && h.threads == Sum(ThreadFlags(h))
    && h.connected == Sum(ConnectedFlags(h))
    && (SRank(h.sp) >= 8 ==> h.connected >= cfg.total)
  }

  ghost predicate HInv(cfg: HConfig, h: HState) {
    cfg.Valid() && !h.broken && PortalInv(cfg, h) && ChannelsInv(cfg, h)
  }

  lemma HInitInv(cfg: HConfig)
    requires cfg.Valid()
    ensures HInv(cfg, HInit(cfg))
  {
    var h := HInit(cfg);
    SumConstant(ThreadFlags(h), 0);
    SumConstant(ConnectedFlags(h), 0);
    assert h.c2s == OnC2S(cfg, h);
  }

  /** Channels do not notice portal steps that keep the two gates and create nothing. */
  lemma FrameChannels(cfg: HConfig, h: HState, h': HState)
    requires ChannelsInv(cfg, h)
    requires h'.cc == h.cc && h'.sc == h.sc && h'.threads == h.threads && h'.connected == h.connected
    requires h.clientReady ==> h'.clientReady
    requires h.serverReady ==> h'.serverReady
    requires forall i: nat :: i < cfg.total ==> (Created(cfg, h', i) <==> Created(cfg, h, i))
    requires SRank(h'.sp) >= 8 ==> h.connected >= cfg.total
    ensures ChannelsInv(cfg, h')
  {
    assert ThreadFlags(h') == ThreadFlags(h) && ConnectedFlags(h') == ConnectedFlags(h);
    forall i | 0 <= i < cfg.total ensures ChannelOk(cfg, h', i) {
      assert ChannelOk(cfg, h, i);
    }
  }

  /** What a client portal step leaves alone. */
  predicate ClientFrame(cfg: HConfig, h: HState, h': HState) {
    && !h'.broken && h'.sp == h.sp
    && h'.sc == h.sc && h'.threads == h.threads && h'.connected == h.connected
    && ((h.cp.CCreate? && h.cp.k < cfg.total) || h'.cc == h.cc)
  }

  /** The next message is the one the portal waits for. */
  lemma ClientRanks(cfg: HConfig, h: HState, v: View)
    requires cfg.Valid() && !h.broken && PortalInv(cfg, h) && |h.cc| == cfg.total
    requires HEnabled(cfg, h, v, CStep) && (v.finished ==> SRank(h.sp) >= 10)
    ensures RanksInv(cfg, ClientStep(cfg, h)) && ClientFrame(cfg, h, ClientStep(cfg, h))
  { }

  lemma ClientWires(cfg: HConfig, h: HState)
    requires RanksInv(cfg, h) && WiresInv(cfg, h) && (ClientReads(cfg, h) ==> h.s2c != [])
    requires h.cp != CDone && !ClientStep(cfg, h).broken
    ensures WiresInv(cfg, ClientStep(cfg, h))
  {
    match h.cp
    case CRecvVersion => case CRecvInfo => case CCreate(_) => case CSendRequest =>
    case CRecvResponse => case CInit => case CSignal => case CInvoke =>
  }

  lemma ClientPortalStep(cfg: HConfig, h: HState, v: View)
    requires cfg.Valid() && !h.broken && PortalInv(cfg, h) && |h.cc| == cfg.total
    requires HEnabled(cfg, h, v, CStep) && (v.finished ==> SRank(h.sp) >= 10)
    ensures PortalInv(cfg, ClientStep(cfg, h)) && ClientFrame(cfg, h, ClientStep(cfg, h))
  {
    ClientRanks(cfg, h, v);
    ClientWires(cfg, h);
  }

  /** What a server portal step leaves alone. */
  predicate ServerFrame(h: HState, h': HState) {
    && !h'.broken && h'.cp == h.cp
    && h'.cc == h.cc && h'.sc == h.sc && h'.threads == h.threads && h'.connected == h.connected
  }

  /** The next message is the one the portal waits for. */
  lemma ServerRanks(cfg: HConfig, h: HState, v: View)
    requires cfg.Valid() && !h.broken && PortalInv(cfg, h)
    requires HEnabled(cfg, h, v, SStep) && (v.finished ==> CRank(h.cp) >= 7)
    ensures RanksInv(cfg, ServerStep(cfg, h)) && ServerFrame(h, ServerStep(cfg, h))
  { }

  lemma ServerReceivesWires(cfg: HConfig, h: HState)
    requires RanksInv(cfg, h) && WiresInv(cfg, h) && ServerReads(cfg, h) && h.c2s != []
    requires !ServerStep(cfg, h).broken
    ensures WiresInv(cfg, ServerStep(cfg, h))
  {
    var h' := ServerStep(cfg, h);
    assert h'.c2s == OnC2S(cfg, h') && h'.s2c == OnS2C(cfg, h');
  }

  lemma ServerActsWires(cfg: HConfig, h: HState)
    requires RanksInv(cfg, h) && WiresInv(cfg, h) && !ServerReads(cfg, h)
    requires h.sp != SDone && !ServerStep(cfg, h).broken
    ensures WiresInv(cfg, ServerStep(cfg, h))
  {
    var h' := ServerStep(cfg, h);
    assert h'.c2s == OnC2S(cfg, h') && h'.s2c == OnS2C(cfg, h');
  }

  lemma ServerPortalStep(cfg: HConfig, h: HState, v: View)
    requires cfg.Valid() && !h.broken && PortalInv(cfg, h)
    requires HEnabled(cfg, h, v, SStep) && (v.finished ==> CRank(h.cp) >= 7)
    ensures PortalInv(cfg, ServerStep(cfg, h)) && ServerFrame(h, ServerStep(cfg, h))
  {
    ServerRanks(cfg, h, v);
    if ServerReads(cfg, h) { ServerReceivesWires(cfg, h); } else { ServerActsWires(cfg, h); }
  }

  lemma ClientCreates(cfg: HConfig, h: HState)
    requires ChannelsInv(cfg, h) && h.cp.CCreate? && h.cp.k < cfg.advertised == cfg.total
    ensures ChannelsInv(cfg, ClientStep(cfg, h))
  {
    var h' := ClientStep(cfg, h);
    assert ThreadFlags(h') == ThreadFlags(h) && ConnectedFlags(h') == ConnectedFlags(h);
    forall i | 0 <= i < cfg.total ensures ChannelOk(cfg, h', i) {
      assert ChannelOk(cfg, h, i);
    }
  }

  lemma FlagsUpdate(h: HState, h': HState, i: nat)
    requires i < |h.sc| == |h'.sc| && h'.sc == h.sc[i := h'.sc[i]]
    ensures Sum(ThreadFlags(h')) == Sum(ThreadFlags(h)) - ThreadFlags(h)[i] + ThreadFlags(h')[i]
    ensures Sum(ConnectedFlags(h')) == Sum(ConnectedFlags(h)) - ConnectedFlags(h)[i] + ConnectedFlags(h')[i]
  {
    SumUpdate(ThreadFlags(h), i, ThreadFlags(h')[i]);
    SumUpdate(ConnectedFlags(h), i, ConnectedFlags(h')[i]);
    assert ThreadFlags(h') == ThreadFlags(h)[i := ThreadFlags(h')[i]];
    assert ConnectedFlags(h') == ConnectedFlags(h)[i := ConnectedFlags(h')[i]];
  }

  lemma FramePortals(cfg: HConfig, h: HState, h': HState)
    requires PortalInv(cfg, h)
    requires h' == h.(cc := h'.cc, sc := h'.sc, threads := h'.threads, connected := h'.connected)
    ensures PortalInv(cfg, h')
  {
    assert OnC2S(cfg, h') == OnC2S(cfg, h) && OnS2C(cfg, h') == OnS2C(cfg, h);
  }

  /** An accepted channel finds its identity registered, and by the time a gate lets it pass
      the transfer object is there. */
  lemma ChannelFacts(cfg: HConfig, h: HState, i: nat)
    requires HInv(cfg, h) && i < cfg.total
    ensures h.clientTransfer != Absent
    ensures h.sc[i] != NotAccepted ==> h.registered
    ensures h.serverReady ==> h.serverTransfer != Absent
  {
    assert ChannelOk(cfg, h, i);
  }

  lemma ClientChannels(cfg: HConfig, h: HState, v: View, i: nat)
    requires ChannelsInv(cfg, h) && HEnabled(cfg, h, v, CCStep(i)) && h.clientTransfer != Absent
    ensures ChannelsInv(cfg, ClientChannelStep(h, i)) && !ClientChannelStep(h, i).broken
  {
    var h' := ClientChannelStep(h, i);
    assert ChannelOk(cfg, h, i);
    FlagsUpdate(h, h', i);
    forall j | 0 <= j < cfg.total ensures ChannelOk(cfg, h', j) {
      assert ChannelOk(cfg, h, j);
    }
  }

  /** One server channel thread went one phase further. */
  predicate ServerThreadMoved(h: HState, h': HState, i: nat) {
    && h' == h.(sc := h'.sc, threads := h'.threads, connected := h'.connected)
    && i < |h.sc| == |h'.sc| && h'.sc == h.sc[i := h'.sc[i]] && SCRank(h'.sc[i]) == SCRank(h.sc[i]) + 1
    && h'.threads == h.threads + (if h.sc[i] == AddThread then 1 else 0)
    && h'.connected == h.connected + (if h.sc[i] == SignalConnected then 1 else 0)
  }

  lemma ServerChannelAdvances(h: HState, i: nat)
    requires i < |h.sc| && h.sc[i] != NotAccepted && h.sc[i] != ServerReturned
    requires h.sc[i] == LookupIdentity ==> h.registered
    requires h.sc[i] == WaitServerPortal ==> h.serverTransfer != Absent
    ensures ServerThreadMoved(h, ServerChannelStep(h, i), i)
  { }

  lemma ServerChannels(cfg: HConfig, h: HState, h': HState, i: nat)
    requires ChannelsInv(cfg, h) && ServerThreadMoved(h, h', i)
    requires h.sc[i] != NotAccepted && (h.sc[i] == WaitServerPortal ==> h.serverReady)
    ensures ChannelsInv(cfg, h')
  {
    FlagsUpdate(h, h', i);
    forall j | 0 <= j < cfg.total ensures ChannelOk(cfg, h', j) {
      assert ChannelOk(cfg, h, j);
    }
  }

  lemma ChannelStepInv(cfg: HConfig, h: HState, v: View, l: HLabel)
    requires HInv(cfg, h) && HEnabled(cfg, h, v, l) && (l.CCStep? || l.SCStep?)
    ensures HInv(cfg, HApply(cfg, h, v, l))
  {
    ChannelFacts(cfg, h, l.i);
    if l.CCStep? {
      ClientChannels(cfg, h, v, l.i);
    } else {
      ServerChannelAdvances(h, l.i);
      ServerChannels(cfg, h, HApply(cfg, h, v, l), l.i);
    }
    FramePortals(cfg, h, HApply(cfg, h, v, l));
  }

  /** The gate of the destination can only have been passed by a portal that is running the
      transfer, and then the other side's portal is past its own wait. */
  predicate ViewOk(cfg: HConfig, h: HState, v: View) {
    v.finished ==> CRank(h.cp) >= 7 && SRank(h.sp) >= 10
  }

  lemma HStepInv(cfg: HConfig, h: HState, v: View, l: HLabel)
    requires HInv(cfg, h) && HEnabled(cfg, h, v, l) && ViewOk(cfg, h, v)
    ensures HInv(cfg, HApply(cfg, h, v, l))
  {
    match l
    case CStep =>
      ClientPortalStep(cfg, h, v);
      if h.cp.CCreate? && h.cp.k < cfg.total {
        ClientCreates(cfg, h);
      } else {
        FrameChannels(cfg, h, ClientStep(cfg, h));
      }
    case SStep =>
      ServerPortalStep(cfg, h, v);
      FrameChannels(cfg, h, ServerStep(cfg, h));
    case CCStep(_) => ChannelStepInv(cfg, h, v, l);
    case SCStep(_) => ChannelStepInv(cfg, h, v, l);
  }

  // ----- causality -----

  /** Once either transfer function may be entered, all N channels are registered with the
      client instance and have signalled, and both transfer objects are built and initialised. */
  lemma ReadyMeansRegistered(cfg: HConfig, h: HState)
    requires HInv(cfg, h) && (h.serverReady || h.clientReady)
    ensures h.registered && h.threads == h.connected == cfg.total
    ensures h.serverTransfer == Initialised
    ensures h.clientReady ==> h.clientTransfer == Initialised
  {
    SumFlags(ConnectedFlags(h));
    forall i | 0 <= i < cfg.total ensures ThreadFlags(h)[i] == 1 {
      assert ConnectedFlags(h)[i] == 1;
    }
    SumConstant(ThreadFlags(h), 1);
  }

  // ----- progress -----

  function CPWork(cfg: HConfig, p: ClientPortal): nat {
    (8 - CRank(p)) + (if CRank(p) < 2 then cfg.advertised
                      else if p.CCreate? && p.k <= cfg.advertised then cfg.advertised - p.k else 0)
  }

  function ChannelWorks(h: HState): seq<nat> {
    seq(|h.cc|, i requires 0 <= i < |h.cc| =>
      (4 - CCRank(h.cc[i])) * 8 + if i < |h.sc| then 7 - SCRank(h.sc[i]) else 0)
  }

  function HWork(cfg: HConfig, h: HState): nat {
    CPWork(cfg, h.cp) * 9 + (11 - SRank(h.sp)) + Sum(ChannelWorks(h))
  }

  lemma ChannelWorkUpdate(h: HState, h': HState, i: nat)
    requires i < |h.cc| == |h'.cc| == |h.sc| == |h'.sc|
    requires h'.cc == h.cc[i := h'.cc[i]] && h'.sc == h.sc[i := h'.sc[i]]
    ensures Sum(ChannelWorks(h')) == Sum(ChannelWorks(h)) - ChannelWorks(h)[i] + ChannelWorks(h')[i]
  {
    SumUpdate(ChannelWorks(h), i, ChannelWorks(h')[i]);
    assert ChannelWorks(h') == ChannelWorks(h)[i := ChannelWorks(h')[i]];
  }

  lemma CreateWork(cfg: HConfig, h: HState)
    requires |h.cc| == |h.sc| == cfg.advertised
    requires h.cp.CCreate? && h.cp.k < cfg.advertised && h.cc[h.cp.k] == NotStarted
    ensures HWork(cfg, ClientStep(cfg, h)) < HWork(cfg, h)
  {
    ChannelWorkUpdate(h, ClientStep(cfg, h), h.cp.k);
  }

  lemma SameChannels(cfg: HConfig, h: HState, h': HState)
    requires h'.cc == h.cc && h'.sc == h.sc
    requires CPWork(cfg, h'.cp) * 9 + (11 - SRank(h'.sp)) < CPWork(cfg, h.cp) * 9 + (11 - SRank(h.sp))
    ensures HWork(cfg, h') < HWork(cfg, h)
  {
    assert ChannelWorks(h') == ChannelWorks(h);
  }

  lemma ClientAdvances(cfg: HConfig, h: HState)
    requires ClientReads(cfg, h) ==> h.s2c != []
    requires !ClientStep(cfg, h).broken
    requires h.cp.CCreate? ==> h.cp.k >= cfg.advertised
    requires h.cp != CDone
    ensures CPWork(cfg, ClientStep(cfg, h).cp) < CPWork(cfg, h.cp)
    ensures CRank(ClientStep(cfg, h).cp) == CRank(h.cp) + 1
  {
    var p := ClientStep(cfg, h).cp;
    match h.cp
    case CRecvVersion => assert p == CRecvInfo;
    case CRecvInfo => assert p == CCreate(0);
    case CCreate(_) => assert p == CSendRequest;
    case CSendRequest => assert p == CRecvResponse;
    case CRecvResponse => assert p == CInit;
    case CInit => assert p == CSignal;
    case CSignal => assert p == CInvoke;
    case CInvoke => assert p == CDone;
  }

  lemma ClientKeeps(cfg: HConfig, h: HState)
    requires ClientReads(cfg, h) ==> h.s2c != []
    requires h.cp.CCreate? ==> h.cp.k >= cfg.advertised
    ensures var h' := ClientStep(cfg, h); h'.sp == h.sp && h'.cc == h.cc && h'.sc == h.sc
  {
    match h.cp
    case CRecvVersion => case CRecvInfo => case CCreate(_) => case CSendRequest =>
    case CRecvResponse => case CInit => case CSignal => case CInvoke => case CDone =>
  }

  lemma ServerAdvances(cfg: HConfig, h: HState)
    requires h.sp != SDone && (ServerReads(cfg, h) ==> h.c2s != [])
    requires !ServerStep(cfg, h).broken
    ensures var h' := ServerStep(cfg, h);
            SRank(h'.sp) == SRank(h.sp) + 1 && h'.cp == h.cp && h'.cc == h.cc && h'.sc == h.sc
  {
    var p := ServerStep(cfg, h).sp;
    match h.sp
    case SAccept => assert p == SRegister;
    case SRegister => assert p == SRecvVersions;
    case SRecvVersions => assert p == SSendVersion;
    case SSendVersion => assert p == SSendInfo;
    case SSendInfo => assert p == SRecvRequest;
    case SRecvRequest => assert p == SBuild;
    case SBuild => assert p == SWaitChannels;
    case SWaitChannels => assert p == SRespond;
    case SRespond => assert p == SSignal;
    case SSignal => assert p == SInvoke;
    case SInvoke => assert p == SDone;
  }

  lemma ClientChannelWork(cfg: HConfig, h: HState, v: View, i: nat)
    requires HEnabled(cfg, h, v, CCStep(i)) && !ClientChannelStep(h, i).broken
    requires |h.cc| == |h.sc| && (h.cc[i] == Connecting ==> h.sc[i] == NotAccepted)
    ensures HWork(cfg, ClientChannelStep(h, i)) < HWork(cfg, h)
  {
    ChannelWorkUpdate(h, ClientChannelStep(h, i), i);
  }

  lemma ServerChannelWork(cfg: HConfig, h: HState, h': HState, i: nat)
    requires |h.sc| == |h.cc| && ServerThreadMoved(h, h', i)
    ensures HWork(cfg, h') < HWork(cfg, h)
  {
    ChannelWorkUpdate(h, h', i);
  }

  /** Every step brings the handshake closer to its end. */
  lemma HStepWork(cfg: HConfig, h: HState, v: View, l: HLabel)
    requires HInv(cfg, h) && HEnabled(cfg, h, v, l) && !HApply(cfg, h, v, l).broken
    ensures HWork(cfg, HApply(cfg, h, v, l)) < HWork(cfg, h)
  {
    match l
    case CStep =>
      if h.cp.CCreate? && h.cp.k < cfg.advertised {
        assert ChannelOk(cfg, h, h.cp.k);
        CreateWork(cfg, h);
      } else {
        ClientAdvances(cfg, h);
        ClientKeeps(cfg, h);
        SameChannels(cfg, h, ClientStep(cfg, h));
      }
    case SStep =>
      ServerAdvances(cfg, h);
      SameChannels(cfg, h, ServerStep(cfg, h));
    case CCStep(i) =>
      assert ChannelOk(cfg, h, i);
      ClientChannelWork(cfg, h, v, i);
    case SCStep(i) =>
      ServerChannelAdvances(h, i);
      ServerChannelWork(cfg, h, ServerChannelStep(h, i), i);
  }

  /** Both portals run the transfer (or are through), and so does every channel thread. */
  ghost predicate AllInTransfer(h: HState) {
    && CRank(h.cp) >= 7 && SRank(h.sp) >= 10
    && (forall i :: 0 <= i < |h.cc| ==> CCRank(h.cc[i]) >= 3)
    && (forall i :: 0 <= i < |h.sc| ==> SCRank(h.sc[i]) >= 6)
  }

  /** Some channel can make a step on its own. */
  lemma ChannelCanStep(cfg: HConfig, h: HState, v: View, i: nat) returns (l: HLabel)
    requires HInv(cfg, h) && i < cfg.total
    requires h.cc[i] == Connecting || 1 <= SCRank(h.sc[i]) <= 4
             || (h.cc[i] == WaitClientPortal && h.clientReady)
             || (h.sc[i] == WaitServerPortal && h.serverReady)
    ensures HEnabled(cfg, h, v, l)
  {
    l := if h.cc[i] == Connecting || (h.cc[i] == WaitClientPortal && h.clientReady) then CCStep(i) else SCStep(i);
  }

  /** With all channels created and none able to step, every one has signalled. */
  lemma AllConnected(cfg: HConfig, h: HState)
    requires HInv(cfg, h) && CRank(h.cp) >= 3
    requires forall i :: 0 <= i < cfg.total ==> h.cc[i] != Connecting && !(1 <= SCRank(h.sc[i]) <= 4)
    ensures h.connected == cfg.total
  {
    forall i | 0 <= i < cfg.total ensures ConnectedFlags(h)[i] == 1 {
      assert ChannelOk(cfg, h, i);
    }
    SumConstant(ConnectedFlags(h), 1);
  }

  lemma PortalCanStep(cfg: HConfig, h: HState, v: View) returns (l: HLabel)
    requires HInv(cfg, h) && !(CRank(h.cp) >= 7 && SRank(h.sp) >= 10)
    requires h.sp == SWaitChannels ==> h.connected >= cfg.total
    ensures HEnabled(cfg, h, v, l)
  {
    if h.sp == SInvoke || h.sp == SDone || (h.sp == SRecvRequest && CRank(h.cp) < 4) {
      l := CStep;
    } else {
      l := SStep;
    }
  }

  /** The handshake cannot get stuck before every thread on both sides runs the transfer. */
  lemma HNotStuck(cfg: HConfig, h: HState, v: View) returns (l: HLabel)
    requires HInv(cfg, h) && !AllInTransfer(h)
    ensures HEnabled(cfg, h, v, l)
  {
    if i :| 0 <= i < cfg.total && (h.cc[i] == Connecting || 1 <= SCRank(h.sc[i]) <= 4
                                   || (h.cc[i] == WaitClientPortal && h.clientReady)
                                   || (h.sc[i] == WaitServerPortal && h.serverReady)) {
      l := ChannelCanStep(cfg, h, v, i);
    } else if CRank(h.cp) >= 7 && SRank(h.sp) >= 10 {
      forall i | 0 <= i < cfg.total ensures CCRank(h.cc[i]) >= 3 && SCRank(h.sc[i]) >= 6 {
        assert ChannelOk(cfg, h, i);
      }
      assert false;
    } else {
      if h.sp == SWaitChannels {
        AllConnected(cfg, h);
      }
      l := PortalCanStep(cfg, h, v);
    }
  }
}
