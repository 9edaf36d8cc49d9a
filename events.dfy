/** The event hub that Connection, Network and ConnectionManager each carry:
    a map from event name to the ordered list of its listeners, and a trace
    recording every listener invocation in the order it happened. */
module Events {

  /** A registered callback. Application callbacks are told apart by an id;
      the other variants are the closures the two membership managers install
      on every connection they parse. They do not carry the manager and the
      connection they close over, so the closures two managers install are
      equal values; the trace records which closure ran, not for whom. */
  datatype Listener =
    | Callback(id: nat)
    | SendGreetingOnOpen   // Network: "open" sends the greeting
    | ForgetOnClose        // Network: "close" deletes from the member set
    | HandleNetworkData    // Network: "recievednetworkdata" runs the protocol
    | AnnounceOnOpen       // ConnectionManager: "open" fires "connection"
    | FilterOnClose        // ConnectionManager: "close" filters the list

  /** One invocation of `listener` for `event` with arguments `args`. */
  datatype Call<A> = Call(listener: Listener, event: string, args: seq<A>)

  datatype HubState<A> = HubState(handlers: map<string, seq<Listener>>, trace: seq<Call<A>>)

  /** The listeners of `event`, in registration order; none when the event
      has no list yet. */
  function Listeners(handlers: map<string, seq<Listener>>, event: string): seq<Listener>
  {
    if event in handlers then handlers[event] else []
  }

  /** The handler map after `addEventListener(event, callback)`. */
  function Register(handlers: map<string, seq<Listener>>, event: string, callback: Listener)
    : (r: map<string, seq<Listener>>)
    ensures Listeners(r, event) == Listeners(handlers, event) + [callback]
    ensures forall e :: e != event ==> Listeners(r, e) == Listeners(handlers, e)
    ensures r.Keys == handlers.Keys + {event}
  {
    handlers[event := Listeners(handlers, event) + [callback]]
  }

  /** The invocations of the listeners `ls`, one each, in list order. */
  function Calls<A>(ls: seq<Listener>, event: string, args: seq<A>): (r: seq<Call<A>>)
    ensures |r| == |ls|
    ensures forall k :: 0 <= k < |ls| ==> r[k] == Call(ls[k], event, args)
  {
    if ls == [] then [] else [Call(ls[0], event, args)] + Calls(ls[1..], event, args)
  }

  /** What `_fireEvent(event, ...args)` does: nothing for an event nobody
      listens to, otherwise one invocation per registered listener, in
      registration order. */
  function Dispatch<A>(handlers: map<string, seq<Listener>>, event: string, args: seq<A>)
    : (r: seq<Call<A>>)
    ensures event !in handlers ==> r == []
    ensures |r| == |Listeners(handlers, event)|
    ensures forall k :: 0 <= k < |r| ==>
              r[k].listener == Listeners(handlers, event)[k] && r[k].event == event && r[k].args == args
  {
    Calls(Listeners(handlers, event), event, args)
  }

  /** Every invocation a firing produces is for that event, with its arguments. */
  lemma DispatchedEvent<A>(handlers: map<string, seq<Listener>>, event: string, args: seq<A>, c: Call<A>)
    requires c in Dispatch(handlers, event, args)
    ensures c.event == event && c.args == args && c.listener in Listeners(handlers, event)
  {
  }

  /** The hub after firing `event`. */
  function Emit<A>(h: HubState<A>, event: string, args: seq<A>): HubState<A>
  {
    h.(trace := h.trace + Dispatch(h.handlers, event, args))
  }

  /** Registering a listener makes it run once more, last, each time its
      event fires, and changes nothing for any other event. */
  lemma RegisterThenDispatch<A>(
    handlers: map<string, seq<Listener>>, event: string, callback: Listener, fired: string, args: seq<A>)
    ensures Dispatch(Register(handlers, event, callback), fired, args) ==
            if fired == event then Dispatch(handlers, fired, args) + [Call(callback, fired, args)]
            else Dispatch(handlers, fired, args)
  {
  }

  /** The number of times `callback` appears in a listener list. */
  function Occurrences(ls: seq<Listener>, callback: Listener): nat
  {
    if ls == [] then 0 else (if ls[0] == callback then 1 else 0) + Occurrences(ls[1..], callback)
  }

  /** The number of invocations of `callback` in a trace. */
  function Invocations<A>(t: seq<Call<A>>, callback: Listener): nat
  {
    if t == [] then 0 else (if t[0].listener == callback then 1 else 0) + Invocations(t[1..], callback)
  }

  /** No uniqueness check: a callback registered n times for an event runs n
      times each time that event fires. */
  lemma {:induction false} DuplicatesRunOncePerRegistration<A>(
    ls: seq<Listener>, event: string, args: seq<A>, callback: Listener)
    ensures Invocations(Calls(ls, event, args), callback) == Occurrences(ls, callback)
  {
    if ls != [] {
      var r := Calls(ls, event, args);
      assert r[1..] == Calls(ls[1..], event, args);
      DuplicatesRunOncePerRegistration(ls[1..], event, args, callback);
    }
  }

  class EventHub<A> {
    var handlers: map<string, seq<Listener>>
    var trace: seq<Call<A>>

    function State(): HubState<A>
      reads this
    {
      HubState(handlers, trace)
    }

    constructor ()
      ensures handlers == map[] && trace == []
    {
      handlers := map[];
      trace := [];
    }

    /** `addEventListener(event, callback)`: appends, duplicates allowed. */
    method AddEventListener(event: string, callback: Listener)
      modifies this
      ensures handlers == Register(old(handlers), event, callback)
      ensures trace == old(trace)
    {
      if event !in handlers {
        handlers := handlers[event := []];
      }
      handlers := handlers[event := handlers[event] + [callback]];
    }

    /** `_fireEvent(event, ...args)`: runs each listener of `event` once, in
        registration order, recording each run in the trace. */
    method FireEvent(event: string, args: seq<A>)
      modifies this
      ensures handlers == old(handlers)
      ensures trace == old(trace) + Dispatch(handlers, event, args)
    {
      if event !in handlers {
        return;
      }
      var callbacks := handlers[event];
      ghost var expected := Dispatch(handlers, event, args);
      var i := 0;
      while i < |callbacks|
        invariant 0 <= i <= |callbacks|
        invariant handlers == old(handlers)
        invariant trace == old(trace) + expected[..i]
      {
        trace := trace + [Call(callbacks[i], event, args)];
        assert expected[..i + 1] == expected[..i] + [expected[i]];
        i := i + 1;
      }
      assert expected[..|callbacks|] == expected;
    }
  }
}
