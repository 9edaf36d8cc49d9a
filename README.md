# peerjs-network overlay core, modelled in Dafny

This project models the protocol core of a small overlay network built on
point-to-point data channels:

- **Connection** wraps one data channel. It keeps a shared-variable map that
  `var(name, value)` reads and writes, de-duplicating writes of the stored
  value. It wraps application data in `data` envelopes and dispatches
  received envelopes into `varupdate`, `data` and `unknowndata` events.
- **Network** holds the local peer id and the set of member connections. It
  greets every connection when it opens and admits it only when its
  greeting passes `_checkGreeting`; otherwise it closes it. It removes
  connections on close and refuses to connect to itself.
- **StarNetwork** is a Network whose greeting carries a `server` flag and
  whose check also refuses a link between two servers, after sending them an
  `error` envelope.
- **ConnectionManager** is the older manager without a handshake. It lists a
  connection as soon as it is parsed, announces it on open and filters it out
  on close.
- The **event hub** (`addEventListener` / `_fireEvent`), written out in three
  classes, is modelled once.

Every handler runs to completion, so each is one atomic method. Inputs from
the transport (peer open/connection/disconnected, channel
open/close/error/data, a network envelope received) are methods the
environment calls. What a component sends is appended to an outbox sequence.
Every listener invocation is appended to a trace, so "fires `e(args)`" means
each listener registered for `e` is invoked once, in registration order.

Files and modules:

- `wire.dfy` (`Wire`): JavaScript values, greetings, envelopes.
- `events.dfy` (`Events`): the hub. Its pure specification is `Register` and
  `Dispatch`. The class `EventHub` implements it; `FireEvent` is the loop.
- `connection.dfy` (`Connections`): `Write` and `Receive` specify `var` and
  `_onData` on a value `ConnView`. The class `Connection` is proved against
  them. Lemmas cover de-duplication and replication between two peers.
- `handshake.dfy` (`Handshake`): the greeting strategy. It is
  `Topology = Default | Star(server)`, with one admission function `Admit`
  for both classes.
- `peer_events.dfy` (`PeerEvents`): `PeerEventArg`, the argument of the
  events Network and ConnectionManager fire.
- `network.dfy` (`Networks`): the class `Network`. Its anonymous
  constructor builds a Network; its `StarNetwork` constructor builds a
  StarNetwork.
- `connection_manager.dfy` (`ConnectionManagers`): the class
  `ConnectionManager` and the order-preserving filter `Without`.

Modelling decisions:

- JavaScript values are the datatype `Value`. Objects are an identity
  `Ref(id)`, so `===` is datatype equality. Two freshly built arrays, such as
  the size pair the page writes, are distinct refs, so de-duplication never
  fires for them.
- `sendNetwork`, `close` and the `recievednetworkdata` event are used by
  Network but not defined in `js/Connection.js`. They are modelled as
  `Connection.SendNetwork`, which appends to a second outbox;
  `Connection.Close`, which sets a closed flag; and the input
  `Network.OnNetworkData`.
- The closures that `_parseConnection` installs are `Listener` values.
  Their bodies are the `OnConnectionOpen`, `OnConnectionClose` and
  `OnNetworkData` methods of the two managers.
- `networkType` is derived from the constant topology, since nothing
  reassigns it after construction.
- A peer id is `Option<string>`, where `None` is undefined. `connect` takes a
  string, so its loose `==` is exactly string equality.

Behaviour of the code worth knowing:

- `_onData` tests `var` and `data` independently (`if … ; if … else …`), so
  a received `var` envelope also fires `unknowndata`.
- `var` de-duplicates with `===`, which is identity for objects, not value
  equality.
- `server` is any JavaScript value and is only ever tested for truthiness;
  `new StarNetwork()` greets with `server: undefined`.

## Model

| member | source | states |
|---|---|---|
| Events.Register | js/Connection.js:61-67 | after `addEventListener(e, cb)` the listeners of `e` are the old ones followed by `cb` (duplicates allowed); every other event keeps its list |
| Events.Calls | js/Connection.js:80-81 | the loop invokes each listener exactly once, in list order, with the event and arguments |
| Events.Dispatch | js/Connection.js:75-82 | firing an event with no list invokes nothing; otherwise one invocation per registered listener, in registration order, each with the event's arguments |
| Events.DispatchedEvent | js/Connection.js:75-82 | every invocation a firing produces is for that event, carries its arguments and goes to a registered listener |
| Events.RegisterThenDispatch | js/Connection.js:61-82 | registering `cb` for `e` makes every later firing of `e` invoke `cb` once more, after the earlier listeners, and leaves the firing of every other event unchanged |
| Events.DuplicatesRunOncePerRegistration | js/Connection.js:61-82 | a callback registered n times for an event is invoked exactly n times when that event fires |
| Events.EventHub.constructor | js/Connection.js:16 | a new hub has no listeners and an empty trace |
| Events.EventHub.AddEventListener | js/Connection.js:61-67 | the handler map becomes `Register` of the old one; nothing is invoked (the same hub serves js/Network.js:85-91 and js/ConnectionManager.js:55-61) |
| Events.EventHub.FireEvent | js/Connection.js:75-82 | the trace grows by exactly `Dispatch` of the event; the listeners do not change (also js/Network.js:99-106, js/ConnectionManager.js:69-76) |
| Connections.Write | js/Connection.js:33-52 | `var` returns what is stored under `name` afterwards, and returns `value` whenever one is given; a read or a write of the `===`-equal value changes nothing; a real write adds exactly one var envelope and one varupdate firing with local origin; other names keep their values |
| Connections.Receive | js/Connection.js:102-118 | a var envelope overwrites the variable without de-duplication and fires varupdate with remote origin, then unknowndata; a data envelope fires only data; anything else fires only unknowndata; nothing is sent |
| Connections.ReadIsPure | js/Connection.js:35-39 | reading returns the stored value, or undefined for an unset name, and changes no variable, outbox or trace |
| Connections.WriteTwiceSendsOnce | js/Connection.js:38-51 | two identical writes in a row emit at most one var envelope, exactly one when the value was new; the second write is a no-op returning the value |
| Connections.WriteThenRead | js/Connection.js:38-51 | a read after a write returns the written value |
| Connections.DataEventOnlyFromDataEnvelope | js/Connection.js:109-116 | among the invocations a received payload causes, `data` ones only come from data envelopes, and `unknowndata` ones only from other payloads, carrying that exact payload |
| Connections.WriteAll | js/Connection.js:43-48 | a connection's outbox only grows while its application writes variables |
| Connections.ReceiveAllApplies | js/Connection.js:104-108 | receiving a sequence of envelopes changes the variables exactly as replaying its var envelopes in order |
| Connections.WritesReplay | js/Connection.js:41-48 | replaying the var envelopes a connection sent over the variables it started with rebuilds the variables it ends with |
| Connections.Replication | js/Connection.js:104-108 | a peer whose variables agreed with the writer's, and which receives everything the writer sent in order, ends with the writer's variables |
| Connections.Connection.constructor | js/Connection.js:3-26 | a new connection has no variables, empty outboxes, is not closed and has a fresh empty hub |
| Connections.Connection.OnOpen | js/Connection.js:18 | the channel's open fires `open` and changes nothing else |
| Connections.Connection.OnClose | js/Connection.js:19 | the channel's close fires `close` and changes nothing else |
| Connections.Connection.OnError | js/Connection.js:21-25 | the channel's error fires `error(err)` and changes nothing else |
| Connections.Connection.Var | js/Connection.js:33-52 | the new state and the returned value are exactly those `Write` gives for the old state |
| Connections.Connection.Send | js/Connection.js:88-95 | exactly one data envelope wrapping the payload is appended; variables are untouched |
| Connections.Connection.OnData | js/Connection.js:102-118 | the new state is exactly `Receive` of the old state and the payload |
| Connections.Connection.SendNetwork | js/Network.js:157-160 | the envelope is appended to the network outbox; nothing else changes |
| Connections.Connection.Close | js/Network.js:179 | the connection is marked closed; variables and outboxes do not change |
| Wire.Truthy | js/StarNetwork.js:52 | the falsy values are exactly undefined, null, false, 0 and the empty string; every object is truthy |
| Connections.Lookup | js/Connection.js:35-39 | `_vars[name]` is undefined for a name never set, and any defined result is the value stored under that name |
| Handshake.NetworkType | js/StarNetwork.js:20 | a StarNetwork's type is `"star"` and a Network's is `"default"` (js/Network.js:23), and the two never coincide |
| Handshake.BaseCheck | js/Network.js:190-198 | the base check passes iff the greeting's `networkType` is this network's own, so it only ever passes `"default"` or `"star"` |
| Handshake.GreetingOf | js/StarNetwork.js:30-37 | a greeting names the network type (also js/Network.js:155-161); a star node's carries `server: this.server` as given; the default greeting has no `server` field (undefined) |
| Handshake.Admit | js/StarNetwork.js:47-63 | the star check admits only what the base check admits; it admits iff the network type matches and not both sides are servers; it sends the collision error iff the base check passed and both are servers; never both admits and sends |
| Handshake.DefaultAdmitsIffSameType | js/Network.js:190-198 | the default check admits a greeting iff its `networkType` is `"default"`, and sends nothing |
| Handshake.SameTopologyAdmits | js/StarNetwork.js:49-62 | two nodes of the same network type admit each other's greetings unless both are star servers |
| Handshake.MixedTopologiesReject | js/Network.js:192-196 | a default node and a star node refuse each other's greetings without an error envelope |
| Handshake.StarAdmissionSymmetric | js/StarNetwork.js:52 | for two star nodes, A admits B's greeting iff B admits A's |
| Handshake.TwoServersCollide | js/StarNetwork.js:52-60 | two nodes with truthy `server` refuse each other and each sends the collision error |
| Networks.WithNetworkListeners | js/Network.js:131-148 | `_parseConnection` adds exactly one listener to each of `open`, `close` and `recievednetworkdata`, after the existing ones, and no other |
| Networks.Network.constructor | js/Network.js:9-42 | a new Network has type `"default"`, the given peer id, no members and an empty hub |
| Networks.Network.StarNetwork | js/StarNetwork.js:11-22 | a new StarNetwork has type `"star"`, `server` equal to the argument (any value), no members and an empty hub |
| Networks.Network.OnPeerOpen | js/Network.js:51-55 | the peer id becomes the assigned id, `open(id)` fires, members do not change |
| Networks.Network.OnPeerConnection | js/Network.js:62-66 | an inbound channel becomes a new connection with the three network listeners installed; it is not a member |
| Networks.Network.OnPeerDisconnected | js/Network.js:72-75 | `disconnected` fires; members do not change |
| Networks.Network.Connect | js/Network.js:115-124 | connecting to the own id fails with "Cannot connect to yourself!" and creates nothing; otherwise a new parsed connection is returned and is not a member |
| Networks.Network.ParseConnection | js/Network.js:131-148 | the connection's listeners become `WithNetworkListeners` of the old ones; membership and traces do not change |
| Networks.Network.OnConnectionOpen | js/Network.js:133-137 | opening a connection sends exactly one greeting on its network channel |
| Networks.Network.SendGreeting | js/Network.js:155-161 | exactly one `peerGreeting` with this network's type (and, for a star, its server flag) is sent on the network channel |
| Networks.Network.OnConnectionClose | js/Network.js:139-142 | the connection leaves the member set; closing a non-member changes nothing, so closing is idempotent |
| Networks.Network.CheckGreeting | js/StarNetwork.js:47-63 | returns `Admit(...).accept` for this topology; sends the collision error exactly when `Admit` says so, and nothing else |
| Networks.Network.OnGreeting | js/Network.js:170-181 | an admitted connection joins the members, its greeting is recorded, and `connection(c)` fires once per listener; a refused one is closed, no member is added and nothing fires; every member's recorded greeting is one `Admit` accepts (`Valid`) |
| Networks.Network.OnNetworkData | js/Network.js:206-219 | a greeting runs `_onGreeting`: an admitted one adds the member and leaves the connection open, a refused one closes it, and the collision error is sent exactly when `Admit` says so; an error or unknown envelope changes nothing |
| ConnectionManagers.Without | js/ConnectionManager.js:107 | the filter removes the connection entirely and keeps every other listed connection |
| ConnectionManagers.WithoutConcat | js/ConnectionManager.js:107 | filtering keeps relative order: filtering a concatenation concatenates the filtered parts |
| ConnectionManagers.WithoutAbsent | js/ConnectionManager.js:107 | filtering out an unlisted connection changes nothing |
| ConnectionManagers.WithoutIdempotent | js/ConnectionManager.js:105-108 | handling the same close twice is the same as once |
| ConnectionManagers.WithoutCounts | js/ConnectionManager.js:107 | every occurrence of the closed connection goes; every other connection keeps its number of occurrences |
| ConnectionManagers.WithManagerListeners | js/ConnectionManager.js:97-109 | `_parseConnection` adds exactly one `open` and one `close` listener, after the existing ones, and no other |
| ConnectionManagers.ConnectionManager.constructor | js/ConnectionManager.js:9-45 | a new manager has the given peer id, an empty list and an empty hub |
| ConnectionManagers.ConnectionManager.OnPeerOpen | js/ConnectionManager.js:28-32 | the peer id becomes the assigned id and `open(id)` fires |
| ConnectionManagers.ConnectionManager.OnPeerConnection | js/ConnectionManager.js:35-38 | an inbound connection is appended to the list at once, before it opens |
| ConnectionManagers.ConnectionManager.OnPeerDisconnected | js/ConnectionManager.js:41-44 | `disconnected` fires; the list does not change |
| ConnectionManagers.ConnectionManager.Connect | js/ConnectionManager.js:85-90 | no self check: always returns a new connection, already at the end of the list |
| ConnectionManagers.ConnectionManager.ParseConnection | js/ConnectionManager.js:97-109 | the connection is appended to the list and the open and close listeners are installed |
| ConnectionManagers.ConnectionManager.OnConnectionOpen | js/ConnectionManager.js:100-103 | `connection(c)` fires with no handshake check |
| ConnectionManagers.ConnectionManager.OnConnectionClose | js/ConnectionManager.js:105-108 | the list becomes the filtered list |

## Left out

- The PeerJS `Peer` object and its data channels: peer and channel events are input methods, and what is sent is appended to outboxes. Channel negotiation is out of scope.
- js/main.js: the page (DOM, textarea and resize wiring, the `window.cm` global). It only uses the core.
- Console logging (`console.error`, `console.warn`): it changes no state. The error and unknown branches of `Network._onData` therefore do nothing in the model.
- Running listener code: a firing records one invocation per listener in a trace. Re-entrant listeners and exceptions thrown by listeners are not modelled.
- Asynchrony: each handler is one atomic step.
- Connections.Connection.Close: it only sets a flag. The later `close` event of the channel is a separate input (`OnClose`, then the managers' `OnConnectionClose`), because the channel delivers it asynchronously.
- Connections.Lookup: an unset name reads as undefined. Inherited object-prototype keys such as `toString`, which `_vars[name]` would find in JavaScript, are not modelled.
- Numbers are integers: NaN, `-0` and fractions are not modelled. NaN would make every write of NaN a real write.
- Handshake.BaseCheck: `!=` against `"default"`/`"star"` is modelled as strict inequality. This is exact for every non-object value. It is not modelled for objects whose string form is the network type.
- Received var envelopes carry a string `name`. JavaScript's coercion of other keys to strings is not modelled.
- Removing listeners: the source has no such operation.
- Events.Register, Events.Dispatch: event names that `Object.prototype` already has (`toString`, `constructor`, …) are found by the `in` test at js/Connection.js:63, so `addEventListener` pushes onto a function and throws at js/Connection.js:66, and `_fireEvent` iterates a non-iterable and throws at js/Connection.js:80. The model treats every name as a fresh event: it appends, or dispatches nothing.
- Connections.Replication: an envelope carries the same `Value`, so an object written on one side arrives as the same `Ref`. In JavaScript it arrives as a deserialized copy with a new identity; the lemma's equality of variables is therefore exact for primitive values only.
- Closures installed by the managers are `Listener` values without the manager and connection they capture, so closures of two managers are equal values in a trace.
