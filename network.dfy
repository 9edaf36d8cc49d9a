/** The overlay network: the local peer id and the set of member
    connections, where a connection becomes a member only once its greeting
    is admitted. StarNetwork is the same class built with a star topology. */
module Networks {
  import opened Wire
  import opened Events
  import opened Connections
  import opened PeerEvents
  import opened Handshake

  const SelfConnectionMessage: string := "Cannot connect to yourself!"

  /** A connection's listeners after `_parseConnection` installed its three. */
  function WithNetworkListeners(h: map<string, seq<Listener>>): (r: map<string, seq<Listener>>)
    ensures Listeners(r, "open") == Listeners(h, "open") + [SendGreetingOnOpen]
    ensures Listeners(r, "close") == Listeners(h, "close") + [ForgetOnClose]
    ensures Listeners(r, "recievednetworkdata") == Listeners(h, "recievednetworkdata") + [HandleNetworkData]
    ensures forall e :: e !in {"open", "close", "recievednetworkdata"} ==> Listeners(r, e) == Listeners(h, e)
  {
    Register(Register(Register(h, "open", SendGreetingOnOpen), "close", ForgetOnClose),
             "recievednetworkdata", HandleNetworkData)
  }

  class Network {
    /** Default for Network, Star(server) for StarNetwork; never changes. */
    const topology: Topology
    var peerId: Option<string>
    var connections: set<Connection>
    const hub: EventHub<PeerEventArg>
    /** The greeting each connection that joined sent when it joined. */
    ghost var admittedBy: map<Connection, Greeting>

    /** Only a connection whose greeting this network's check admits is a
        member. */
    ghost predicate Valid()
      reads this
    {
      forall m :: m in connections ==> m in admittedBy && Admit(topology, admittedBy[m]).accept
    }

    /** `new Network(peerId)`. */
    constructor (peerId: Option<string>)
      ensures Valid()
      ensures topology == Default && NetworkType(topology) == "default"
      ensures this.peerId == peerId && connections == {}
      ensures fresh(hub) && hub.handlers == map[] && hub.trace == []
    {
      topology := Default;
      this.peerId := peerId;
      connections := {};
      admittedBy := map[];
      hub := new EventHub<PeerEventArg>();
    }

    /** `new StarNetwork(server, peerId)`. */
    constructor StarNetwork(server: Value, peerId: Option<string>)
      ensures Valid()
      ensures topology == Star(server) && NetworkType(topology) == "star"
      ensures this.peerId == peerId && connections == {}
      ensures fresh(hub) && hub.handlers == map[] && hub.trace == []
    {
      topology := Star(server);
      this.peerId := peerId;
      connections := {};
      admittedBy := map[];
      hub := new EventHub<PeerEventArg>();
    }

    /** The peer server assigned `id`: it becomes the peer id and `open(id)`
        fires. */
    method OnPeerOpen(id: string)
      requires Valid()
      modifies this, hub
      ensures Valid()
      ensures peerId == Some(id)
      ensures connections == old(connections) && admittedBy == old(admittedBy)
      ensures hub.handlers == old(hub.handlers)
      ensures hub.trace == old(hub.trace) + Dispatch(hub.handlers, "open", [PeerId(id)])
    {
      peerId := Some(id);
      hub.FireEvent("open", [PeerId(id)]);
    }

    /** The peer server handed over an inbound channel: it is wrapped and
        parsed, and is not a member yet. */
    method OnPeerConnection() returns (c: Connection)
      ensures fresh(c) && fresh(c.hub) && c !in connections
      ensures c.View() == Initial().(events := HubState(WithNetworkListeners(map[]), []))
    {
      c := new Connection();
      ParseConnection(c);
    }

    /** Lost the peer server: `disconnected` fires, members stay. */
    method OnPeerDisconnected()
      modifies hub
      ensures hub.handlers == old(hub.handlers)
      ensures hub.trace == old(hub.trace) + Dispatch(hub.handlers, "disconnected", [])
    {
      hub.FireEvent("disconnected", []);
    }

    /** `connect(id)`: refuses the own id; otherwise opens, wraps and parses a
        new connection, which is not a member yet. */
    method Connect(id: string) returns (r: Result<Connection>)
      ensures r.Err? <==> peerId == Some(id)
      ensures r.Err? ==> r.message == SelfConnectionMessage
      ensures r.Ok? ==> fresh(r.value) && fresh(r.value.hub) && r.value !in connections
      ensures r.Ok? ==> r.value.View() == Initial().(events := HubState(WithNetworkListeners(map[]), []))
    {
      if peerId == Some(id) {
        return Err(SelfConnectionMessage);
      }
      var c := new Connection();
      ParseConnection(c);
      return Ok(c);
    }

    /** `_parseConnection(c)`: installs the open, close and network-data
        listeners; membership does not change. */
    method ParseConnection(c: Connection)
      modifies c.hub
      ensures c.hub.handlers == WithNetworkListeners(old(c.hub.handlers))
      ensures c.hub.trace == old(c.hub.trace)
    {
      c.hub.AddEventListener("open", SendGreetingOnOpen);
      c.hub.AddEventListener("close", ForgetOnClose);
      c.hub.AddEventListener("recievednetworkdata", HandleNetworkData);
    }

    /** The listener installed for `open`: greets the peer. */
    method OnConnectionOpen(c: Connection)
      modifies c
      ensures c.networkOutbox == old(c.networkOutbox) + [PeerGreeting(GreetingOf(topology))]
      ensures c.vars == old(c.vars) && c.outbox == old(c.outbox) && c.closed == old(c.closed)
    {
      SendGreeting(c);
    }

    /** `_sendGreeting(c)`: exactly one greeting on the network channel. */
    method SendGreeting(c: Connection)
      modifies c
      ensures c.networkOutbox == old(c.networkOutbox) + [PeerGreeting(GreetingOf(topology))]
      ensures c.vars == old(c.vars) && c.outbox == old(c.outbox) && c.closed == old(c.closed)
    {
      match topology
      case Default =>
        c.SendNetwork(PeerGreeting(Greeting(Str("default"), Undefined)));
      case Star(server) =>
        c.SendNetwork(PeerGreeting(Greeting(Str("star"), server)));
    }

    /** The listener installed for `close`: the connection leaves the member
        set; closing a non-member changes nothing. */
    method OnConnectionClose(c: Connection)
      requires Valid()
      modifies this
      ensures Valid()
      ensures connections == old(connections) - {c} && admittedBy == old(admittedBy)
      ensures peerId == old(peerId)
    {
      connections := connections - {c};
    }

    /** `_checkGreeting(g, c)`, with the star override when the topology is
        a star. */
    method CheckGreeting(g: Greeting, c: Connection) returns (ok: bool)
      modifies c
      ensures ok == Admit(topology, g).accept
      ensures c.networkOutbox ==
              old(c.networkOutbox) + if Admit(topology, g).sendsCollisionError then [CollisionError] else []
      ensures c.vars == old(c.vars) && c.outbox == old(c.outbox) && c.closed == old(c.closed)
    {
      if g.networkType != Str(NetworkType(topology)) {
        return false;
      }
      if topology.Star? && Truthy(g.server) && Truthy(topology.server) {
        c.SendNetwork(ErrorEnvelope(Str(CollisionMessage)));
        return false;
      }
      return true;
    }

    /** `_onGreeting(g, c)`: an admitted connection joins the members and
        `connection` fires; a refused one is closed and stays out. */
    method OnGreeting(g: Greeting, c: Connection)
      requires Valid()
      modifies this, hub, c
      ensures Valid()
      ensures peerId == old(peerId) && hub.handlers == old(hub.handlers)
      ensures Admit(topology, g).accept ==>
                && connections == old(connections) + {c}
                && c in admittedBy && admittedBy[c] == g
                && hub.trace == old(hub.trace) + Dispatch(hub.handlers, "connection", [Member(c)])
                && c.closed == old(c.closed)
      ensures !Admit(topology, g).accept ==>
                && connections == old(connections) && admittedBy == old(admittedBy)
                && hub.trace == old(hub.trace)
                && c.closed
      ensures c.networkOutbox ==
              old(c.networkOutbox) + if Admit(topology, g).sendsCollisionError then [CollisionError] else []
      ensures c.vars == old(c.vars) && c.outbox == old(c.outbox)
    {
      var ok := CheckGreeting(g, c);
      if ok {
        connections := connections + {c};
        admittedBy := admittedBy[c := g];
        hub.FireEvent("connection", [Member(c)]);
      } else {
        c.Close();
      }
    }

    /** The listener installed for `recievednetworkdata`: a greeting runs the
        handshake; an error envelope or anything else is only logged. */
    method OnNetworkData(data: Envelope, c: Connection)
      requires Valid()
      modifies this, hub, c
      ensures Valid()
      ensures peerId == old(peerId) && hub.handlers == old(hub.handlers)
      ensures data.PeerGreeting? && Admit(topology, data.greeting).accept ==>
                && connections == old(connections) + {c}
                && hub.trace == old(hub.trace) + Dispatch(hub.handlers, "connection", [Member(c)])
      ensures !(data.PeerGreeting? && Admit(topology, data.greeting).accept) ==>
                connections == old(connections) && hub.trace == old(hub.trace)
      ensures data.PeerGreeting? && !Admit(topology, data.greeting).accept ==> c.closed
      ensures data.PeerGreeting? && Admit(topology, data.greeting).accept ==> c.closed == old(c.closed)
      ensures data.PeerGreeting? ==>
                c.networkOutbox == old(c.networkOutbox)
                                   + if Admit(topology, data.greeting).sendsCollisionError then [CollisionError] else []
      ensures !data.PeerGreeting? ==> c.closed == old(c.closed) && c.networkOutbox == old(c.networkOutbox)
      ensures c.vars == old(c.vars) && c.outbox == old(c.outbox)
    {
      match data
      case PeerGreeting(g) =>
        OnGreeting(g, c);
      case ErrorEnvelope(_) =>
      case _ =>
    }
  }
}
