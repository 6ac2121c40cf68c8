/** The server's map of clients and the two kinds of accepted sockets that use it
    (src/server.cpp:366-378 and 743-807): a portal socket registers a new client under its
    identity, a channel socket looks its identity up and adds its thread to that client. */
module ServerClients {
  import opened Basics
  import opened ChannelThreads

  /** The 16 bytes a client chose. */
  type Identity = seq<Byte>

  ghost predicate Apart(c: ClientInstance, d: ClientInstance)
    reads c, d
  {
    c != d && c.rundown != d.rundown && forall t :: t in c.channelThreads ==> t !in d.channelThreads
  }

  class ServerPortalState {
    var clients: map<Identity, ClientInstance>
    var disposeRequired: bool

    /** Clients are valid, and share neither their rundown locks nor their thread handles. */
    ghost predicate Valid()
      reads *
    {
      && (forall id :: id in clients ==> clients[id].Valid())
      && (forall id, other :: id in clients && other in clients && id != other ==> Apart(clients[id], clients[other]))
    }

    constructor ()
      ensures Valid() && clients == map[] && !disposeRequired
    {
      clients, disposeRequired := map[], false;
    }

    /** A portal socket. When the server is going down the client is abandoned. An identity that
        is taken keeps its first client; the second runs without being found by its channels. */
    method AcceptPortal(identity: Identity) returns (client: ClientInstance?)
      requires Valid()
      modifies this`clients
      ensures Valid() && disposeRequired == old(disposeRequired)
      ensures client == null <==> disposeRequired
      ensures client == null ==> clients == old(clients)
      ensures client != null ==>
                && fresh(client) && client.channelThreads == []
                && clients == if identity in old(clients) then old(clients) else old(clients)[identity := client]
    {
      if disposeRequired {
        return null;
      }
      var c := new ClientInstance();
      if identity !in clients {
        clients := clients[identity := c];
      }
      client := c;
    }

    /** A channel socket. Its thread joins the client of its identity and no other; an unknown
        identity, or a client being torn down, detaches it. */
    method AcceptChannel(identity: Identity, thr: Thread) returns (added: bool)
      requires Valid() && thr.joinable
      requires forall id :: id in clients ==> thr !in clients[id].channelThreads
      modifies clients.Values, (set c | c in clients.Values :: c.rundown), thr
      ensures Valid() && clients == old(clients)
      ensures added ==> identity in clients && !old(clients[identity].rundown.requiredRundown)
      ensures !added ==> identity !in clients || clients[identity].rundown.requiredRundown
      ensures forall id :: id in clients ==> (thr in clients[id].channelThreads <==> added && id == identity)
      ensures forall id :: id in clients && id != identity ==>
                clients[id].channelThreads == old(clients[id].channelThreads)
      ensures identity in clients ==> old(clients[identity].channelThreads) <= clients[identity].channelThreads
      ensures thr.joinable <==> added
      ensures thr.joins == old(thr.joins) && thr.detaches == old(thr.detaches) + if added then 0 else 1
    {
      if identity !in clients {
        thr.Detach();
        return false;
      }
      added := clients[identity].Accept(thr);
    }

    /** A client that finished removes itself, unless the server is going down: its teardown
        takes care of all clients. */
    method RemoveClient(identity: Identity)
      requires Valid()
      modifies this`clients
      ensures Valid() && clients == if disposeRequired then old(clients) else old(clients) - {identity}
    {
      if !disposeRequired {
        clients := clients - {identity};
      }
    }
  }
}
