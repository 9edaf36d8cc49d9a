/** The older membership manager: no handshake. Every connection is listed
    as soon as it is parsed, announced when it opens, and filtered out of the
    list when it closes. */
module ConnectionManagers {
  import opened Wire
  import opened Events
  import opened Connections
  import opened PeerEvents

  /** `s.filter(con => con != x)`: every occurrence of `x` removed. */
  function Without<T(==)>(s: seq<T>, x: T): (r: seq<T>)
    ensures x !in r
    ensures forall y :: y in r ==> y in s
    ensures forall y :: y in s && y != x ==> y in r
    ensures |r| <= |s|
  {
    if s == [] then []
    else (if s[0] == x then [] else [s[0]]) + Without(s[1..], x)
  }

  /** The filter keeps the relative order: filtering a concatenation is the
      concatenation of the filtered parts. */
  lemma {:induction false} WithoutConcat<T>(a: seq<T>, b: seq<T>, x: T)
    ensures Without(a + b, x) == Without(a, x) + Without(b, x)
  {
    if a != [] {
      assert (a + b)[1..] == a[1..] + b;
      WithoutConcat(a[1..], b, x);
    } else {
      assert a + b == b;
    }
  }

  /** Removing a connection that is not listed changes nothing. */
  lemma {:induction false} WithoutAbsent<T>(s: seq<T>, x: T)
    requires x !in s
    ensures Without(s, x) == s
  {
    if s != [] {
      WithoutAbsent(s[1..], x);
    }
  }

  /** Closing twice is the same as closing once. */
  lemma WithoutIdempotent<T>(s: seq<T>, x: T)
    ensures Without(Without(s, x), x) == Without(s, x)
  {
    WithoutAbsent(Without(s, x), x);
  }

  /** Every occurrence of `x` goes; every other connection keeps its
      number of occurrences. */
  lemma {:induction false} WithoutCounts<T>(s: seq<T>, x: T)
    ensures multiset(Without(s, x)) == multiset(s)[x := 0]
  {
    if s != [] {
      WithoutCounts(s[1..], x);
      assert s == [s[0]] + s[1..];
    }
  }

  /** A manager's listeners on a connection after `_parseConnection`. */
  function WithManagerListeners(h: map<string, seq<Listener>>): (r: map<string, seq<Listener>>)
    ensures Listeners(r, "open") == Listeners(h, "open") + [AnnounceOnOpen]
    ensures Listeners(r, "close") == Listeners(h, "close") + [FilterOnClose]
    ensures forall e :: e !in {"open", "close"} ==> Listeners(r, e) == Listeners(h, e)
  {
    Register(Register(h, "open", AnnounceOnOpen), "close", FilterOnClose)
  }

  class ConnectionManager {
    var peerId: Option<string>
    var connections: seq<Connection>
    const hub: EventHub<PeerEventArg>

    /** `new ConnectionManager(peerId)`. */
    constructor (peerId: Option<string>)
      ensures this.peerId == peerId && connections == []
      ensures fresh(hub) && hub.handlers == map[] && hub.trace == []
    {
      this.peerId := peerId;
      connections := [];
      hub := new EventHub<PeerEventArg>();
    }

    /** The peer server assigned `id`: it becomes the peer id and `open(id)`
        fires. */
    method OnPeerOpen(id: string)
      modifies this, hub
      ensures peerId == Some(id) && connections == old(connections)
      ensures hub.handlers == old(hub.handlers)
      ensures hub.trace == old(hub.trace) + Dispatch(hub.handlers, "open", [PeerId(id)])
    {
      peerId := Some(id);
      hub.FireEvent("open", [PeerId(id)]);
    }

    /** An inbound channel: wrapped, parsed and listed at once. */
    method OnPeerConnection() returns (c: Connection)
      modifies this
      ensures fresh(c) && fresh(c.hub)
      ensures connections == old(connections) + [c] && peerId == old(peerId)
      ensures c.View() == Initial().(events := HubState(WithManagerListeners(map[]), []))
    {
      c := new Connection();
      ParseConnection(c);
    }

    /** Lost the peer server: `disconnected` fires. */
    method OnPeerDisconnected()
      modifies hub
      ensures hub.handlers == old(hub.handlers)
      ensures hub.trace == old(hub.trace) + Dispatch(hub.handlers, "disconnected", [])
    {
      hub.FireEvent("disconnected", []);
    }

    /** `connect(id)`: no self check; the new connection is returned already
        listed, before it opens. */
    method Connect(id: string) returns (c: Connection)
      modifies this
      ensures fresh(c) && fresh(c.hub)
      ensures connections == old(connections) + [c] && peerId == old(peerId)
      ensures c.View() == Initial().(events := HubState(WithManagerListeners(map[]), []))
    {
      c := new Connection();
      ParseConnection(c);
    }

    /** `_parseConnection(c)`: lists `c`, then installs the open and close
        listeners. */
    method ParseConnection(c: Connection)
      modifies this, c.hub
      ensures connections == old(connections) + [c] && peerId == old(peerId)
      ensures c.hub.handlers == WithManagerListeners(old(c.hub.handlers))
      ensures c.hub.trace == old(c.hub.trace)
    {
      connections := connections + [c];
      c.hub.AddEventListener("open", AnnounceOnOpen);
      c.hub.AddEventListener("close", FilterOnClose);
    }

    /** The listener installed for `open`: `connection(c)` fires, with no
        handshake. */
    method OnConnectionOpen(c: Connection)
      modifies hub
      ensures hub.handlers == old(hub.handlers)
      ensures hub.trace == old(hub.trace) + Dispatch(hub.handlers, "connection", [Member(c)])
    {
      hub.FireEvent("connection", [Member(c)]);
    }

    /** The listener installed for `close`: the list is filtered. */
    method OnConnectionClose(c: Connection)
      modifies this
      ensures connections == Without(old(connections), c) && peerId == old(peerId)
    {
      connections := Without(connections, c);
    }
  }
}
