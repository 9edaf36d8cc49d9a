/** JavaScript values as far as the overlay core looks at them, and the
    envelopes that travel over a connection's two channels. */
module Wire {

  datatype Option<T> = None | Some(value: T)

  /** A value, or the message of the exception the source throws instead. */
  datatype Result<T> = Ok(value: T) | Err(message: string)

  /** A JavaScript value. Objects, arrays and functions are compared by
      identity under `===`, so they are represented by an identity `Ref(id)`:
      two freshly built arrays with the same contents are two different refs.
      With this representation `===` is datatype equality. */
  datatype Value =
    | Undefined
    | Null
    | Bool(b: bool)
    | Num(n: int)
    | Str(s: string)
    | Ref(id: nat)

  /** JavaScript truthiness, as used by `greeting?.server && this.server`:
      the falsy values are exactly undefined, null, false, 0 and "". */
  predicate Truthy(v: Value)
    ensures !Truthy(v) <==> v in {Undefined, Null, Bool(false), Num(0), Str("")}
  {
    match v
    case Undefined => false
    case Null => false
    case Bool(b) => b
    case Num(n) => n != 0
    case Str(s) => s != ""
    case Ref(_) => true
  }

  /** The fields of a `{type: "peerGreeting", ...}` envelope that the
      admission check reads; an absent `server` field is `Undefined`. */
  datatype Greeting = Greeting(networkType: Value, server: Value)

  /** A payload put on, or taken off, a channel. */
  datatype Envelope =
    | VarEnvelope(name: string, value: Value)  // {type: "var", name, value}
    | DataEnvelope(data: Value)                // {type: "data", data}
    | PeerGreeting(greeting: Greeting)         // {type: "peerGreeting", networkType, server?}
    | ErrorEnvelope(error: Value)              // {type: "error", error}
    | Other(payload: Value)                    // any payload with another or no `type`
}
