/** How many channels a session has: the totals of `xcpd_program_options::post_process`
    (src/program_options.cpp:360-440), the list in message_server_information
    (src/server.cpp:109-139), what the client makes of it (src/client.cpp:325-374), and the
    block size of `xcp_program_options::post_process` (src/program_options.cpp:310-332) on its
    way into a transfer (src/transfer.cpp:277-282). */
module ChannelCount {
  import opened Basics
  import opened Endpoints
  import Handshake
  import Tuner

  const SERVER_PORTAL_HOST := "*"
  const SERVER_PORTAL_PORT: nat := 62581
  const SERVER_CHANNEL_REPEATS: nat := 12

  /** `size_t` repeats, which parse and the asserts keep positive. */
  predicate RepeatsOk(ep: Endpoint) { ep.repeats.Some? ==> 0 < ep.repeats.value < TWO64 }

  function OrElse(o: Option<nat>, default: nat): nat { if o.Some? then o.value else default }

  /** A channel endpoint after the loop. */
  function ChannelReady(ep: Endpoint): Endpoint {
    ep.(port := Some(OrElse(ep.port, 0)), repeats := Some(OrElse(ep.repeats, 1)))
  }

  function ChannelsReady(eps: seq<Endpoint>): (r: seq<Endpoint>)
    ensures |r| == |eps|
  {
    seq(|eps|, i requires 0 <= i < |eps| => ChannelReady(eps[i]))
  }

  /** The portal endpoint before it is resolved. */
  function PortalNamed(portal: Option<Endpoint>): Endpoint {
    var ep := match portal case None => Endpoint(SERVER_PORTAL_HOST, None, None) case Some(p) => p;
    ep.(port := Some(OrElse(ep.port, SERVER_PORTAL_PORT)))
  }

  /** The portal doubles as channel, 12 times by default, when no channels are configured. */
  function PortalReady(portal: Option<Endpoint>, channels: seq<Endpoint>): Endpoint {
    var ep := PortalNamed(portal);
    if channels == [] then ep.(repeats := Some(OrElse(ep.repeats, SERVER_CHANNEL_REPEATS))) else ep
  }

  function Repeats(eps: seq<Endpoint>): seq<nat> {
    seq(|eps|, i requires 0 <= i < |eps| => OrElse(eps[i].repeats, 0))
  }

  /** The first `i` channels are prepared, the others are as configured. */
  predicate Partly(before: seq<Endpoint>, now: seq<Endpoint>, i: nat) {
    && i <= |now| == |before|
    && (forall k :: 0 <= k < i ==> now[k] == ChannelReady(before[k]))
    && (forall k :: i <= k < |before| ==> now[k] == before[k])
  }

  /** Every channel resolves under its port, with its repeats, or the defaults. */
  predicate AllResolve(resolves: Endpoint -> bool, eps: seq<Endpoint>, n: nat) {
    n <= |eps| && forall k :: 0 <= k < n ==>
      resolves(Endpoint(eps[k].host, if eps[k].port.Some? then eps[k].port else Some(0),
                        if eps[k].repeats.Some? then eps[k].repeats else Some(1)))
  }

  lemma AllReady(before: seq<Endpoint>, now: seq<Endpoint>)
    requires Partly(before, now, |now|)
    ensures now == ChannelsReady(before) && now[..|now|] == now
  { }

  // ----- defaults, told from the outside -----

  /** A value that was configured survives; a missing one is the default. */
  predicate Kept<T(==)>(was: Option<T>, now: Option<T>, default: Option<T>) { now == if was.Some? then was else default }

  /** A portal after post-processing; a portal that was not configured has no port or repeats. */
  predicate PortalKept(was: Option<Endpoint>, now: Endpoint, alone: bool) {
    var repeats := if was.Some? then was.value.repeats else None;
    && now.host == (if was.Some? then was.value.host else "*")
    && Kept(if was.Some? then was.value.port else None, now.port, Some(62581))
    && Kept(repeats, now.repeats, if alone then Some(12) else None)
  }

  predicate ChannelKept(was: Endpoint, now: Endpoint) {
    now.host == was.host && Kept(was.port, now.port, Some(0)) && Kept(was.repeats, now.repeats, Some(1))
  }

  predicate ChannelsKept(was: seq<Endpoint>, now: seq<Endpoint>) {
    |now| == |was| && forall i :: 0 <= i < |was| ==> ChannelKept(was[i], now[i])
  }

  lemma DefaultsFilled(portal: Option<Endpoint>, channels: seq<Endpoint>)
    ensures PortalKept(portal, PortalReady(portal, channels), channels == [])
    ensures PortalKept(portal, PortalNamed(portal), false)
    ensures ChannelsKept(channels, ChannelsReady(channels))
  { }

  /** There is one way to fill in the defaults. */
  lemma DefaultsUnique(portal: Option<Endpoint>, a: Endpoint, b: Endpoint, alone: bool)
    requires PortalKept(portal, a, alone) && PortalKept(portal, b, alone)
    ensures a == b
  { }

  lemma OneName(portal: Option<Endpoint>, resolves: Endpoint -> bool)
    ensures (exists named :: PortalKept(portal, named, false) && resolves(named)) <==> resolves(PortalNamed(portal))
  {
    DefaultsFilled(portal, []);
    forall named | PortalKept(portal, named, false) ensures named == PortalNamed(portal) {
      DefaultsUnique(portal, named, PortalNamed(portal), false);
    }
  }

  class XcpdProgramOptions {
    var argPortal: Option<Endpoint>
    var argChannels: seq<Endpoint>
    var totalChannelRepeatsCount: nat

    constructor (portal: Option<Endpoint>, channels: seq<Endpoint>)
      ensures argPortal == portal && argChannels == channels && totalChannelRepeatsCount == 0
    {
      argPortal, argChannels, totalChannelRepeatsCount := portal, channels, 0;
    }

    /** `resolves` stands for name resolution, of the portal before it is given repeats. What was
        configured survives and a default is filled in exactly where a value was missing. The
        total counts the portal only when there are no channels, in wrapping 64-bit arithmetic. */
    method PostProcess(resolves: Endpoint -> bool) returns (ok: bool)
      requires argPortal.Some? ==> RepeatsOk(argPortal.value)
      requires forall i :: 0 <= i < |argChannels| ==> RepeatsOk(argChannels[i])
      modifies this
      ensures ok <==> (exists named :: PortalKept(old(argPortal), named, false) && resolves(named))
                      && AllResolve(resolves, old(argChannels), |old(argChannels)|)
      ensures ok ==> argPortal.Some? && PortalKept(old(argPortal), argPortal.value, old(argChannels) == [])
      ensures ok ==> ChannelsKept(old(argChannels), argChannels)
      ensures ok && old(argChannels) == [] ==>
                totalChannelRepeatsCount
                == if old(argPortal).Some? && old(argPortal).value.repeats.Some?
                   then old(argPortal).value.repeats.value else 12
      ensures ok ==> argPortal == Some(PortalReady(old(argPortal), old(argChannels)))
      ensures ok ==> argChannels == ChannelsReady(old(argChannels))
      ensures ok ==> totalChannelRepeatsCount
                     == U64(Sum(Repeats(argChannels)) + if argChannels == [] then argPortal.value.repeats.value else 0)
    {
      DefaultsFilled(argPortal, argChannels);
      OneName(argPortal, resolves);
      ok := PreparePortal(resolves);
      if !ok {
        return;
      }
      ghost var before := argChannels;
      ghost var start := if before == [] then argPortal.value.repeats.value else 0;
      var i := 0;
      while i < |argChannels|
        invariant 0 <= i <= |argChannels| && Partly(before, argChannels, i) && AllResolve(resolves, before, i)
        invariant argPortal == Some(PortalReady(old(argPortal), before))
        invariant TotalIs(totalChannelRepeatsCount, argChannels, i, start)
      {
        ghost var now, total := argChannels, totalChannelRepeatsCount;
        ok := PrepareChannel(i, resolves);
        if !ok {
          return;
        }
        TotalStep(now, argChannels, i, start, total, totalChannelRepeatsCount);
        i := i + 1;
      }
      AllReady(before, argChannels);
      return true;
    }

    method PreparePortal(resolves: Endpoint -> bool) returns (ok: bool)
      requires argPortal.Some? ==> RepeatsOk(argPortal.value)
      modifies this`argPortal, this`totalChannelRepeatsCount
      ensures ok <==> resolves(PortalNamed(old(argPortal)))
      ensures ok ==> argPortal == Some(PortalReady(old(argPortal), argChannels))
      ensures ok ==> totalChannelRepeatsCount == if argChannels == [] then argPortal.value.repeats.value else 0
    {
      if argPortal == None {
        argPortal := Some(Endpoint(SERVER_PORTAL_HOST, None, None));
      }
      if argPortal.value.port == None {
        argPortal := Some(argPortal.value.(port := Some(SERVER_PORTAL_PORT)));
      }
      if !resolves(argPortal.value) {
        return false;
      }
      totalChannelRepeatsCount := 0;
      if argChannels == [] {
        if argPortal.value.repeats == None {
          argPortal := Some(argPortal.value.(repeats := Some(SERVER_CHANNEL_REPEATS)));
        }
        totalChannelRepeatsCount := U64(totalChannelRepeatsCount + argPortal.value.repeats.value);
      }
      return true;
    }

    /** The body of the loop over the channels. */
    method PrepareChannel(i: nat, resolves: Endpoint -> bool) returns (ok: bool)
      requires i < |argChannels| && RepeatsOk(argChannels[i])
      modifies this`argChannels, this`totalChannelRepeatsCount
      ensures argChannels == old(argChannels)[i := ChannelReady(old(argChannels)[i])]
      ensures ok <==> resolves(argChannels[i])
      ensures ok ==> totalChannelRepeatsCount == U64(old(totalChannelRepeatsCount) + argChannels[i].repeats.value)
    {
      var ep := argChannels[i];
      if ep.port == None {
        ep := ep.(port := Some(0));
      }
      if ep.repeats == None {
        ep := ep.(repeats := Some(1));
      }
      argChannels := argChannels[i := ep];
      if !resolves(ep) {
        return false;
      }
      totalChannelRepeatsCount := U64(totalChannelRepeatsCount + ep.repeats.value);
      return true;
    }
  }

  predicate TotalIs(total: nat, eps: seq<Endpoint>, i: nat, start: nat) {
    i <= |eps| && total == U64(Sum(Repeats(eps[..i])) + start)
  }

  lemma TotalStep(now: seq<Endpoint>, next: seq<Endpoint>, i: nat, start: nat, total: nat, total': nat)
    requires i < |now| == |next| && next == now[i := next[i]] && next[i].repeats.Some?
    requires TotalIs(total, now, i, start) && total' == U64(total + next[i].repeats.value)
    ensures TotalIs(total', next, i + 1, start)
  {
    assert next[..i + 1] == now[..i] + [next[i]];
    RepeatsAppend(now[..i], next[i]);
  }

  lemma RepeatsAppend(eps: seq<Endpoint>, ep: Endpoint)
    ensures Sum(Repeats(eps + [ep])) == Sum(Repeats(eps)) + OrElse(ep.repeats, 0)
  {
    assert Repeats(eps + [ep]) == Repeats(eps) + [OrElse(ep.repeats, 0)];
    SumAppend(Repeats(eps), OrElse(ep.repeats, 0));
  }

  /** The repeats in the list sent to the client: the portal's when it has any, then the
      channels'. */
  function Advertised(portal: Endpoint, channels: seq<Endpoint>): seq<nat> {
    (if portal.repeats.Some? then [portal.repeats.value] else []) + Repeats(channels)
  }

  /** Endpoints with the addresses they are bound to, as they are listed. */
  function Listed<A>(bound: seq<(A, Endpoint)>): (r: seq<(A, nat)>)
    ensures |r| == |bound|
  {
    seq(|bound|, i requires 0 <= i < |bound| => (bound[i].0, OrElse(bound[i].1.repeats, 0)))
  }

  function EndpointsOf<A>(bound: seq<(A, Endpoint)>): (r: seq<Endpoint>)
    ensures |r| == |bound|
  {
    seq(|bound|, i requires 0 <= i < |bound| => bound[i].1)
  }

  /** The repeats of a list. */
  function CountsOf<A>(list: seq<(A, nat)>): (r: seq<nat>)
    ensures |r| == |list|
  {
    seq(|list|, i requires 0 <= i < |list| => list[i].1)
  }

  lemma CountsListed<A>(bound: seq<(A, Endpoint)>)
    ensures CountsOf(Listed(bound)) == Repeats(EndpointsOf(bound))
  { }

  lemma ListedFirst<A>(portal: (A, Endpoint), channels: seq<(A, Endpoint)>)
    ensures Listed([portal] + channels) == [(portal.0, OrElse(portal.1.repeats, 0))] + Listed(channels)
  { }

  lemma CountsFirst<A>(first: (A, nat), list: seq<(A, nat)>)
    ensures CountsOf([first] + list) == [first.1] + CountsOf(list)
  { }

  lemma ListedWhole<A>(portal: (A, Endpoint), channels: seq<(A, Endpoint)>)
    ensures var all := if portal.1.repeats.Some? then [portal] + channels else channels;
            && Listed(all) == (if portal.1.repeats.Some? then [(portal.0, portal.1.repeats.value)] else [])
                              + Listed(channels)
            && CountsOf(Listed(all)) == Advertised(portal.1, EndpointsOf(channels))
  {
    CountsListed(channels);
    if portal.1.repeats.Some? {
      ListedFirst(portal, channels);
      CountsFirst((portal.0, portal.1.repeats.value), Listed(channels));
    } else {
      assert [] + Listed(channels) == Listed(channels);
    }
  }

  lemma ListedNext<A>(bound: seq<(A, Endpoint)>, i: nat)
    requires i < |bound|
    ensures Listed(bound[..i + 1]) == Listed(bound[..i]) + [(bound[i].0, OrElse(bound[i].1.repeats, 0))]
  { }

  /** The list in message_server_information: bound addresses with their repeats. */
  method ServerInformation<A>(portal: (A, Endpoint), channels: seq<(A, Endpoint)>) returns (serverChannels: seq<(A, nat)>)
    requires RepeatsOk(portal.1) && (portal.1.repeats == None ==> channels != [])
    requires forall i :: 0 <= i < |channels| ==> channels[i].1.repeats.Some? && RepeatsOk(channels[i].1)
    ensures serverChannels == Listed(if portal.1.repeats.Some? then [portal] + channels else channels)
    ensures CountsOf(serverChannels) == Advertised(portal.1, EndpointsOf(channels))
    ensures serverChannels != [] && forall i :: 0 <= i < |serverChannels| ==> serverChannels[i].1 > 0
  {
    serverChannels := [];
    if portal.1.repeats.Some? {
      serverChannels := serverChannels + [(portal.0, portal.1.repeats.value)];
    }
    ghost var first := serverChannels;
    var i := 0;
    while i < |channels|
      invariant 0 <= i <= |channels| && serverChannels == first + Listed(channels[..i])
    {
      ListedNext(channels, i);
      serverChannels := serverChannels + [(channels[i].0, channels[i].1.repeats.value)];
      i := i + 1;
    }
    assert channels[..i] == channels;
    ListedWhole(portal, channels);
  }

  /** The client's loops: `created` counts the channels, `total` is its size_t counter. */
  method CreateChannels(serverChannels: seq<nat>) returns (total: nat, created: nat)
    ensures created == Sum(serverChannels) && total == U64(created)
  {
    total, created := 0, 0;
    var n := 0;
    while n < |serverChannels|
      invariant 0 <= n <= |serverChannels|
      invariant created == Sum(serverChannels[..n]) && total == U64(created)
    {
      var repeats := serverChannels[n];
      total := U64(total + repeats);
      ghost var before := created;
      var i := 0;
      while i < repeats
        invariant 0 <= i <= repeats && created == before + i
      {
        created := created + 1;
        i := i + 1;
      }
      SumAppend(serverChannels[..n], repeats);
      assert serverChannels[..n + 1] == serverChannels[..n] + [repeats];
      n := n + 1;
    }
    assert serverChannels[..n] == serverChannels;
  }

  lemma {:induction false} SumConcat(a: seq<nat>, b: seq<nat>)
    ensures Sum(a + b) == Sum(a) + Sum(b)
  {
    if a == [] {
      assert a + b == b;
    } else {
      assert (a + b)[1..] == a[1..] + b;
      SumConcat(a[1..], b);
    }
  }

  /** The total both gates of the server wait for. */
  function ServerTotal(portal: Option<Endpoint>, channels: seq<Endpoint>): nat {
    Sum(Repeats(ChannelsReady(channels)))
    + if channels == [] then OrElse(PortalReady(portal, channels).repeats, 0) else 0
  }

  /** What the configured endpoints make the client connect. */
  function ClientTotal(portal: Option<Endpoint>, channels: seq<Endpoint>): nat {
    Sum(Advertised(PortalReady(portal, channels), ChannelsReady(channels)))
  }

  /** Without channels both totals are the portal's repeats as configured, or 12; with channels the
      server's is the sum of theirs, each as configured, or 1. */
  lemma TotalsConfigured(portal: Option<Endpoint>, channels: seq<Endpoint>)
    ensures channels == [] ==>
              ServerTotal(portal, channels) == ClientTotal(portal, channels)
              == if portal.Some? && portal.value.repeats.Some? then portal.value.repeats.value else 12
    ensures ServerTotal(portal, channels) == (if channels == [] then ServerTotal(portal, []) else 0)
              + Sum(seq(|channels|, i requires 0 <= i < |channels| =>
                          if channels[i].repeats.Some? then channels[i].repeats.value else 1))
  {
    var p := PortalReady(portal, channels);
    assert Repeats(ChannelsReady(channels))
        == seq(|channels|, i requires 0 <= i < |channels| =>
                 if channels[i].repeats.Some? then channels[i].repeats.value else 1);
    if channels == [] {
      assert p.repeats.Some? && Advertised(p, []) == [p.repeats.value];
      assert Sum([p.repeats.value]) == p.repeats.value;
    }
  }

  /** `xcpd -p *:62581@4` has four channels, and xcpd without arguments twelve. */
  lemma PortalOnly()
    ensures ServerTotal(Some(Endpoint("*", Some(62581), Some(4))), []) == 4
    ensures ClientTotal(Some(Endpoint("*", Some(62581), Some(4))), []) == 4
    ensures ServerTotal(None, []) == 12 && ClientTotal(None, []) == 12
    ensures PortalReady(None, []) == Endpoint("*", Some(62581), Some(12))
  {
    TotalsConfigured(Some(Endpoint("*", Some(62581), Some(4))), []);
    TotalsConfigured(None, []);
  }

  /** Server and client agree on the number of channels, and on the wrapped counters, exactly
      unless channels are configured and the portal carries repeats too. */
  lemma CountsAgree(portal: Option<Endpoint>, channels: seq<Endpoint>)
    requires portal.Some? ==> RepeatsOk(portal.value)
    ensures ServerTotal(portal, channels) == ClientTotal(portal, channels)
            <==> channels == [] || portal == None || portal.value.repeats == None
    ensures U64(ServerTotal(portal, channels)) == U64(ClientTotal(portal, channels))
            <==> channels == [] || portal == None || portal.value.repeats == None
  {
    var p := PortalReady(portal, channels);
    SumConcat(if p.repeats.Some? then [p.repeats.value] else [], Repeats(ChannelsReady(channels)));
    if p.repeats.Some? {
      assert Sum([p.repeats.value]) == p.repeats.value;
      if channels != [] { WrapDiffers(ServerTotal(portal, channels), p.repeats.value); }
    }
  }

  lemma WrapDiffers(a: nat, r: nat)
    requires 0 < r < TWO64
    ensures U64(a + r) != U64(a)
  { }

  /** So the handshake's assumption on its two counts is the same condition. */
  lemma HandshakeConfigured(portal: Option<Endpoint>, channels: seq<Endpoint>, toServer: bool)
    requires portal.Some? ==> RepeatsOk(portal.value)
    requires forall i :: 0 <= i < |channels| ==> RepeatsOk(channels[i])
    ensures Handshake.HConfig(ServerTotal(portal, channels), ClientTotal(portal, channels), toServer).Valid()
            <==> channels == [] || portal == None || portal.value.repeats == None
  {
    CountsAgree(portal, channels);
    if channels != [] {
      SumMember(Repeats(ChannelsReady(channels)), 0);
    }
  }

  /** One configured channel and a portal written with repeats: three channels connect, the
      gates wait for one. */
  lemma CountsDiffer()
    ensures ServerTotal(Some(Endpoint("*", None, Some(2))), [Endpoint("*", None, None)]) == 1
    ensures ClientTotal(Some(Endpoint("*", None, Some(2))), [Endpoint("*", None, None)]) == 3
  {
    var channels := [Endpoint("*", None, None)];
    assert Repeats(ChannelsReady(channels)) == [1];
    assert Advertised(PortalReady(Some(Endpoint("*", None, Some(2))), channels), ChannelsReady(channels)) == [2, 1];
    assert Sum([2, 1]) == 2 + Sum([1]);
  }

  // ----- the block size -----

  class XcpProgramOptions {
    var argTransferBlockSize: Option<nat>

    constructor (size: Option<nat>)
      ensures argTransferBlockSize == size
    {
      argTransferBlockSize := size;
    }

    /** A missing size means automatic tuning, written 0; a size over 1 GiB is cut. */
    method ClampBlockSize()
      modifies this
      ensures argTransferBlockSize
              == Some(match old(argTransferBlockSize)
                      case None => 0
                      case Some(v) => if v <= 1073741824 then v else 1073741824)
    {
      if argTransferBlockSize.Some? {
        if argTransferBlockSize.value > Tuner.MAX_BLOCK {
          argTransferBlockSize := Some(Tuner.MAX_BLOCK);
        }
      } else {
        argTransferBlockSize := Some(0);
      }
    }
  }

  /** The constructor of transfer_source: first block size, and whether it is fixed. */
  method InitialBlock(transferBlockSize: nat) returns (firstBlock: nat, fixedSize: bool)
    requires transferBlockSize <= Tuner.MAX_BLOCK
    ensures 0 < firstBlock <= Tuner.MAX_BLOCK
    ensures fixedSize <==> transferBlockSize != 0
    ensures firstBlock == if fixedSize then transferBlockSize else 1048576
  {
    fixedSize := transferBlockSize != 0;
    firstBlock := if transferBlockSize != 0 then U32(transferBlockSize) else Tuner.INIT_BLOCK;
  }
}
