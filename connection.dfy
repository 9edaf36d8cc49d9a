/** A connection to one peer: a shared-variable store kept in sync over the
    data channel, application data wrapped in envelopes, and dispatch of
    received envelopes into events. The raw channel is an append-only outbox;
    the network channel and `close` that the membership managers use are
    modelled as a second outbox and a closed flag. */
module Connections {
  import opened Wire
  import opened Events

  /** Arguments of the events a connection fires. */
  datatype ConnArg = Val(v: Value) | Raw(payload: Envelope)

  /** Everything observable about a connection. */
  datatype ConnView = ConnView(
    vars: map<string, Value>,
    outbox: seq<Envelope>,         // sent on the data channel, oldest first
    networkOutbox: seq<Envelope>,  // sent with sendNetwork, oldest first
    closed: bool,
    events: HubState<ConnArg>)

  /** The state of a connection that has just been built. */
  function Initial(): ConnView
  {
    ConnView(map[], [], [], false, HubState(map[], []))
  }

  /** `_vars[name]`: the stored value, or undefined when the name was never
      set. */
  function Lookup(vars: map<string, Value>, name: string): (r: Value)
    ensures name !in vars ==> r == Undefined
    ensures r != Undefined ==> name in vars && vars[name] == r
  {
    if name in vars then vars[name] else Undefined
  }

  /** Whether `var(name, value)` writes: a value is given and it is not
      `===` to the stored one. */
  predicate IsWrite(vars: map<string, Value>, name: string, value: Value)
  {
    value != Undefined && Lookup(vars, name) != value
  }

  function VarUpdateArgs(name: string, value: Value, local: bool): seq<ConnArg>
  {
    [Val(Str(name)), Val(value), Val(Bool(local))]
  }

  /** `var(name, value)`: the new state and the value returned. A read or a
      write of the stored value changes nothing; a real write stores the
      value, sends one var envelope and fires varupdate as a local update. */
  function Write(s: ConnView, name: string, value: Value): (r: (ConnView, Value))
    ensures r.1 == Lookup(r.0.vars, name)
    ensures value != Undefined ==> r.1 == value
    ensures value == Undefined ==> r.1 == Lookup(s.vars, name)
    ensures forall n :: n != name ==> Lookup(r.0.vars, n) == Lookup(s.vars, n)
    ensures !IsWrite(s.vars, name, value) ==> r.0 == s
    ensures IsWrite(s.vars, name, value) ==>
              && r.0.outbox == s.outbox + [VarEnvelope(name, value)]
              && r.0.events.trace == s.events.trace + Dispatch(s.events.handlers, "varupdate", VarUpdateArgs(name, value, true))
    ensures r.0.networkOutbox == s.networkOutbox && r.0.closed == s.closed
    ensures r.0.events.handlers == s.events.handlers
  {
    if !IsWrite(s.vars, name, value) then
      (s, Lookup(s.vars, name))
    else
      (s.(vars := s.vars[name := value],
          outbox := s.outbox + [VarEnvelope(name, value)],
          events := Emit(s.events, "varupdate", VarUpdateArgs(name, value, true))),
       value)
  }

  /** `_onData(payload)`. The two tests are independent: a var envelope is
      applied and then, not being a data envelope, also reported as unknown
      data. Receiving never sends anything. */
  function Receive(s: ConnView, payload: Envelope): (r: ConnView)
    ensures r.outbox == s.outbox && r.networkOutbox == s.networkOutbox && r.closed == s.closed
    ensures r.events.handlers == s.events.handlers
    ensures payload.VarEnvelope? ==> r.vars == s.vars[payload.name := payload.value]
    ensures !payload.VarEnvelope? ==> r.vars == s.vars
    ensures payload.VarEnvelope? ==>
              r.events.trace == s.events.trace
                                + Dispatch(s.events.handlers, "varupdate", VarUpdateArgs(payload.name, payload.value, false))
                                + Dispatch(s.events.handlers, "unknowndata", [Raw(payload)])
    ensures payload.DataEnvelope? ==>
              r.events.trace == s.events.trace + Dispatch(s.events.handlers, "data", [Val(payload.data)])
    ensures !payload.VarEnvelope? && !payload.DataEnvelope? ==>
              r.events.trace == s.events.trace + Dispatch(s.events.handlers, "unknowndata", [Raw(payload)])
  {
    var applied :=
      if payload.VarEnvelope? then
        s.(vars := s.vars[payload.name := payload.value],
           events := Emit(s.events, "varupdate", VarUpdateArgs(payload.name, payload.value, false)))
      else s;
    if payload.DataEnvelope? then
      applied.(events := Emit(applied.events, "data", [Val(payload.data)]))
    else
      applied.(events := Emit(applied.events, "unknowndata", [Raw(payload)]))
  }

  /** Reading a variable that was never set gives undefined and changes
      nothing; reading a set one gives its value and changes nothing. */
  lemma ReadIsPure(s: ConnView, name: string)
    ensures Write(s, name, Undefined) == (s, Lookup(s.vars, name))
    ensures name !in s.vars ==> Write(s, name, Undefined).1 == Undefined
  {
  }

  /** De-duplication: writing the same value twice in a row sends one var
      envelope, fires varupdate once, and the second write is a no-op. */
  lemma WriteTwiceSendsOnce(s: ConnView, name: string, value: Value)
    requires value != Undefined
    ensures var (s1, r1) := Write(s, name, value);
            var (s2, r2) := Write(s1, name, value);
            && s2 == s1 && r2 == r1 == value
            && |s2.outbox| <= |s.outbox| + 1
            && (Lookup(s.vars, name) != value ==> s2.outbox == s.outbox + [VarEnvelope(name, value)])
  {
  }

  /** After a write, reading the variable gives the written value back. */
  lemma WriteThenRead(s: ConnView, name: string, value: Value)
    requires value != Undefined
    ensures Write(Write(s, name, value).0, name, Undefined).1 == value
  {
  }

  /** Received data only ever reaches `data` listeners from a data envelope,
      and only a payload that is not a data envelope reaches `unknowndata`,
      which then gets that exact payload. */
  lemma DataEventOnlyFromDataEnvelope(s: ConnView, payload: Envelope)
    ensures var r := Receive(s, payload);
            forall c :: c in r.events.trace[|s.events.trace|..] ==>
              && (c.event == "data" ==> payload.DataEnvelope?)
              && (c.event == "unknowndata" ==> !payload.DataEnvelope? && c.args == [Raw(payload)])
  {
  }

  /** The variables a receiver ends with after taking in `envs`, in order. */
  function ApplyVars(vars: map<string, Value>, envs: seq<Envelope>): map<string, Value>
    decreases |envs|
  {
    if envs == [] then vars
    else
      var next := if envs[0].VarEnvelope? then vars[envs[0].name := envs[0].value] else vars;
      ApplyVars(next, envs[1..])
  }

  /** A connection that receives `envs`, in order. */
  function ReceiveAll(s: ConnView, envs: seq<Envelope>): ConnView
    decreases |envs|
  {
    if envs == [] then s else ReceiveAll(Receive(s, envs[0]), envs[1..])
  }

  /** A connection on which the application calls `var` with each of `ops`. */
  function WriteAll(s: ConnView, ops: seq<(string, Value)>): (r: ConnView)
    ensures s.outbox <= r.outbox
    decreases |ops|
  {
    if ops == [] then s else WriteAll(Write(s, ops[0].0, ops[0].1).0, ops[1..])
  }

  /** Received envelopes change the variables exactly as ApplyVars says. */
  lemma {:induction false} ReceiveAllApplies(s: ConnView, envs: seq<Envelope>)
    ensures ReceiveAll(s, envs).vars == ApplyVars(s.vars, envs)
    decreases |envs|
  {
    if envs != [] {
      ReceiveAllApplies(Receive(s, envs[0]), envs[1..]);
    }
  }

  /** What a connection sends while its application writes is enough to
      rebuild its variables: replaying the new envelopes over the variables
      it started with gives the variables it ends with. */
  lemma {:induction false} WritesReplay(s: ConnView, ops: seq<(string, Value)>)
    ensures var w := WriteAll(s, ops);
            ApplyVars(s.vars, w.outbox[|s.outbox|..]) == w.vars
    decreases |ops|
  {
    if ops == [] {
      assert WriteAll(s, ops).outbox[|s.outbox|..] == [];
    } else {
      var s1 := Write(s, ops[0].0, ops[0].1).0;
      var w := WriteAll(s1, ops[1..]);
      assert WriteAll(s, ops) == w;
      WritesReplay(s1, ops[1..]);
      var rest := w.outbox[|s1.outbox|..];
      if IsWrite(s.vars, ops[0].0, ops[0].1) {
        var e := VarEnvelope(ops[0].0, ops[0].1);
        assert w.outbox[|s.outbox|..] == [e] + rest;
        assert ApplyVars(s.vars, [e] + rest) == ApplyVars(s1.vars, rest);
      } else {
        assert s1 == s;
      }
    }
  }

  /** Two peers whose variables agree stay in agreement when one of them
      writes and the other receives, in order, everything the writer sent. */
  lemma Replication(writer: ConnView, reader: ConnView, ops: seq<(string, Value)>)
    requires reader.vars == writer.vars
    ensures var w := WriteAll(writer, ops);
            ReceiveAll(reader, w.outbox[|writer.outbox|..]).vars == w.vars
  {
    var w := WriteAll(writer, ops);
    ReceiveAllApplies(reader, w.outbox[|writer.outbox|..]);
    WritesReplay(writer, ops);
  }

  class Connection {
    const hub: EventHub<ConnArg>
    var vars: map<string, Value>
    var outbox: seq<Envelope>
    var networkOutbox: seq<Envelope>
    var closed: bool

    function View(): ConnView
      reads this, hub
    {
      ConnView(vars, outbox, networkOutbox, closed, hub.State())
    }

    /** Wraps a data channel that has not opened yet. */
    constructor ()
      ensures fresh(hub)
      ensures View() == Initial()
    {
      hub := new EventHub<ConnArg>();
      vars := map[];
      outbox := [];
      networkOutbox := [];
      closed := false;
    }

    /** The channel opened: fires `open`. */
    method OnOpen()
      modifies hub
      ensures View() == old(View()).(events := Emit(old(hub.State()), "open", []))
    {
      hub.FireEvent("open", []);
    }

    /** The channel closed: fires `close`. */
    method OnClose()
      modifies hub
      ensures View() == old(View()).(events := Emit(old(hub.State()), "close", []))
    {
      hub.FireEvent("close", []);
    }

    /** The channel reported an error: fires `error(err)`. */
    method OnError(err: Value)
      modifies hub
      ensures View() == old(View()).(events := Emit(old(hub.State()), "error", [Val(err)]))
    {
      hub.FireEvent("error", [Val(err)]);
    }

    /** `var(name, value)`; an omitted value is `Undefined`. */
    method Var(name: string, value: Value) returns (r: Value)
      modifies this, hub
      ensures (View(), r) == Write(old(View()), name, value)
    {
      if Lookup(vars, name) == Undefined && value == Undefined {
        return Undefined;
      }
      if value == Undefined || Lookup(vars, name) == value {
        return Lookup(vars, name);
      }
      vars := vars[name := value];
      outbox := outbox + [VarEnvelope(name, value)];
      hub.FireEvent("varupdate", VarUpdateArgs(name, value, true));
      return value;
    }

    /** `send(data)`: one data envelope, nothing else changes. */
    method Send(data: Value)
      modifies this
      ensures outbox == old(outbox) + [DataEnvelope(data)]
      ensures vars == old(vars) && networkOutbox == old(networkOutbox) && closed == old(closed)
    {
      outbox := outbox + [DataEnvelope(data)];
    }

    /** `_onData(payload)`. */
    method OnData(payload: Envelope)
      modifies this, hub
      ensures View() == Receive(old(View()), payload)
    {
      if payload.VarEnvelope? {
        vars := vars[payload.name := payload.value];
        hub.FireEvent("varupdate", VarUpdateArgs(payload.name, payload.value, false));
      }
      if payload.DataEnvelope? {
        hub.FireEvent("data", [Val(payload.data)]);
      } else {
        hub.FireEvent("unknowndata", [Raw(payload)]);
      }
    }

    /** `sendNetwork(envelope)`, called by Network on the protocol channel. */
    method SendNetwork(e: Envelope)
      modifies this
      ensures networkOutbox == old(networkOutbox) + [e]
      ensures vars == old(vars) && outbox == old(outbox) && closed == old(closed)
    {
      networkOutbox := networkOutbox + [e];
    }

    /** `close()`, called by Network on a rejected connection. */
    method Close()
      modifies this
      ensures closed
      ensures vars == old(vars) && outbox == old(outbox) && networkOutbox == old(networkOutbox)
    {
      closed := true;
    }
  }
}
