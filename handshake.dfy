/** The greeting handshake. A network's topology decides the greeting it
    sends and the greetings it admits: the default network checks only the
    network type, a star network adds a `server` flag and refuses a link
    between two servers. */
module Handshake {
  import opened Wire

  /** `Default` is Network; `Star(server)` is StarNetwork built with
      `server`, which may be any value (`new StarNetwork()` leaves it
      undefined) and is only ever tested for truthiness. */
  datatype Topology = Default | Star(server: Value)

  /** The `networkType` field of a network with this topology: the two
      classes have two different types. */
  function NetworkType(t: Topology): (r: string)
    ensures r == "default" <==> t.Default?
    ensures r == "star" <==> t.Star?
  {
    match t
    case Default => "default"
    case Star(_) => "star"
  }

  /** The greeting `_sendGreeting` sends; the default one has no `server`. */
  function GreetingOf(t: Topology): (g: Greeting)
    ensures g.networkType == Str(NetworkType(t))
    ensures t.Star? ==> g.server == t.server
    ensures t.Default? ==> g.server == Undefined
  {
    match t
    case Default => Greeting(Str("default"), Undefined)
    case Star(server) => Greeting(Str("star"), server)
  }

  const CollisionMessage: string := "Two servers cannot connect to eachother!"

  /** The envelope a star server sends to a server that greets it. */
  const CollisionError: Envelope := ErrorEnvelope(Str(CollisionMessage))

  /** Network's `_checkGreeting`: the greeting names this network type, so
      a network passes the base check on its own greeting and on no greeting
      of the other class. */
  predicate BaseCheck(t: Topology, g: Greeting)
    ensures BaseCheck(t, g) <==> g.networkType == GreetingOf(t).networkType
    ensures BaseCheck(t, g) ==> g.networkType in {Str("default"), Str("star")}
  {
    g.networkType == Str(NetworkType(t))
  }

  /** The outcome of checking a greeting: whether it is admitted, and whether
      the collision error is sent back first. */
  datatype Decision = Decision(accept: bool, sendsCollisionError: bool)

  /** `_checkGreeting` of the network with topology `t`. The star override
      runs the base check first and stops there when it fails; then it
      refuses a server greeting a server. */
  function Admit(t: Topology, g: Greeting): (d: Decision)
    ensures d.accept ==> BaseCheck(t, g)
    ensures t.Default? ==> d == Decision(BaseCheck(t, g), false)
    ensures t.Star? ==> (d.accept <==> BaseCheck(t, g) && !(Truthy(t.server) && Truthy(g.server)))
    ensures d.sendsCollisionError <==> BaseCheck(t, g) && t.Star? && Truthy(t.server) && Truthy(g.server)
    ensures !(d.accept && d.sendsCollisionError)
  {
    if !BaseCheck(t, g) then Decision(false, false)
    else match t
      case Default => Decision(true, false)
      case Star(server) =>
        if Truthy(g.server) && Truthy(server) then Decision(false, true) else Decision(true, false)
  }

  /** The default network admits a greeting exactly when the greeting names
      its network type, and never answers with an error. */
  lemma DefaultAdmitsIffSameType(g: Greeting)
    ensures Admit(Default, g).accept <==> g.networkType == Str("default")
    ensures !Admit(Default, g).sendsCollisionError
  {
  }

  /** Whatever its role, a node admits the greeting of a node of its own
      topology unless both are star servers. */
  lemma SameTopologyAdmits(local: Topology, remote: Topology)
    requires NetworkType(local) == NetworkType(remote)
    ensures Admit(local, GreetingOf(remote)).accept <==>
            !(local.Star? && remote.Star? && Truthy(local.server) && Truthy(remote.server))
  {
  }

  /** A default network and a star network never admit each other. */
  lemma MixedTopologiesReject(server: Value)
    ensures Admit(Default, GreetingOf(Star(server))) == Decision(false, false)
    ensures Admit(Star(server), GreetingOf(Default)) == Decision(false, false)
  {
  }

  /** For two star nodes, A admits B's greeting exactly when B admits A's. */
  lemma StarAdmissionSymmetric(a: Value, b: Value)
    ensures Admit(Star(a), GreetingOf(Star(b))).accept == Admit(Star(b), GreetingOf(Star(a))).accept
  {
  }

  /** Two servers refuse each other, and each sends the collision error. */
  lemma TwoServersCollide(a: Value, b: Value)
    requires Truthy(a) && Truthy(b)
    ensures Admit(Star(a), GreetingOf(Star(b))) == Decision(false, true)
    ensures Admit(Star(b), GreetingOf(Star(a))) == Decision(false, true)
  {
  }
}
