/** The switch at the end of `onMessage` (src/renderer/socket.ts:65-88): each
    known kind republishes exactly one event, unknown kinds publish nothing. */
module Dispatcher {
  import opened Common
  import opened Events
  import opened JsValue

  /** Events the socket publishes to its listeners, with their arguments. */
  datatype Emitted =
    | Connect
    | Disconnect
    | Authenticate
    | JoinEvent(a: Value, b: Value)
    | LeaveEvent
    | SetClientEvent(a: Value, b: Value)
    | SetIds(ids: Value)
    | SignalEvent(a: Value, b: Value)

  /** What handling one decoded frame amounts to. */
  datatype Reaction =
    | Emit(event: Emitted)  // one event is published
    | Ignore                // an unknown kind: nothing happens
    | Throw(fault: Fault)   // evaluating the arguments threw before emitting

  /** The wire kind whose frames publish an event; lifecycle events come from
      the transport, not from a frame. This table is the reference the
      dispatcher is checked against. */
  function SourceKind(e: Emitted): Option<EventKind> {
    match e
    case Connect => None
    case Disconnect => None
    case Authenticate => Some(Authentication)
    case JoinEvent(_, _) => Some(Join)
    case LeaveEvent => Some(Leave)
    case SetClientEvent(_, _) => Some(SetClient)
    case SetIds(_) => Some(SetClients)
    case SignalEvent(_, _) => Some(Signal)
  }

  /** The kinds whose handler reads `data[0]` and `data[1]`. */
  predicate TakesPair(k: EventKind) {
    k == Join || k == SetClient || k == Signal
  }

  /** `data[0]` and `data[1]`, evaluated left to right before the emit. */
  function Pair(data: Value): (r: Result<(Value, Value), Fault>)
    ensures r.Err? <==> Nullish(data)
  {
    match Index(data, 0)
    case Err(e) => Err(e)
    case Ok(a) =>
      match Index(data, 1)
      case Err(e) => Err(e)
      case Ok(b) => Ok((a, b))
  }

  /** The reaction to a frame of kind `kind` carrying `data`. */
  function Dispatch(kind: Byte, data: Value): (r: Reaction)
    ensures r.Ignore? <==> FromOrdinal(kind).None?
    ensures r.Emit? ==> SourceKind(r.event) == FromOrdinal(kind)
    ensures r.Throw? <==> FromOrdinal(kind).Some? && TakesPair(FromOrdinal(kind).value) && Nullish(data)
    ensures r.Throw? ==> r.fault == TypeError
  {
    match FromOrdinal(kind)
    case None => Ignore
    case Some(k) =>
      match k
      case Authentication => Emit(Authenticate)
      case Join => EmitPair(data, (a, b) => JoinEvent(a, b))
      case Leave => Emit(LeaveEvent)
      case SetClient => EmitPair(data, (a, b) => SetClientEvent(a, b))
      case Signal => EmitPair(data, (a, b) => SignalEvent(a, b))
      case SetClients => Emit(SetIds(data))
  }

  /** Emit an event built from the first two elements of `data`. */
  function EmitPair(data: Value, mk: (Value, Value) -> Emitted): (r: Reaction)
    ensures r.Throw? <==> Nullish(data)
    ensures r.Throw? ==> r.fault == TypeError
    ensures r.Emit? || r.Throw?
    ensures r.Emit? ==> r.event == mk(Index(data, 0).value, Index(data, 1).value)
  {
    match Pair(data)
    case Err(e) => Throw(e)
    case Ok(p) => Emit(mk(p.0, p.1))
  }

  /** Every frame kind is covered: for each byte exactly one of the three
      reactions applies, and a published event always names the kind of the
      frame that caused it. */
  lemma DispatchTotal(kind: Byte, data: Value)
    ensures var r := Dispatch(kind, data);
            (kind < KindCount ==> (r.Emit? || r.Throw?) && (r.Emit? ==> Ordinal(SourceKind(r.event).value) == kind))
            && (kind >= KindCount ==> r == Ignore)
  {
  }

  /** A two-element array payload is spread into the event's two arguments,
      and a SetClients payload is passed on whole. */
  lemma DispatchPairPayload(x: Value, y: Value, data: Value)
    ensures Dispatch(1, Arr([x, y])) == Emit(JoinEvent(x, y))
    ensures Dispatch(3, Arr([x, y])) == Emit(SetClientEvent(x, y))
    ensures Dispatch(5, Arr([x, y])) == Emit(SignalEvent(x, y))
    ensures Dispatch(4, data) == Emit(SetIds(data))
    ensures Dispatch(0, data) == Emit(Authenticate)
    ensures Dispatch(2, data) == Emit(LeaveEvent)
  {
  }

  /** A frame with no body leaves the payload `null`, so the pair kinds throw
      on it instead of publishing: `03 00 00` publishes no setClient. */
  lemma EmptyPairFrameThrows(kind: Byte)
    requires kind == 1 || kind == 3 || kind == 5
    ensures Dispatch(kind, Null) == Throw(TypeError)
  {
  }

  /** The table for every payload that can be indexed: the pair kinds
      publish `data[0]` and `data[1]`, whatever shape `data` has. */
  lemma DispatchTable(data: Value)
    requires !Nullish(data)
    ensures Dispatch(1, data) == Emit(JoinEvent(Index(data, 0).value, Index(data, 1).value))
    ensures Dispatch(3, data) == Emit(SetClientEvent(Index(data, 0).value, Index(data, 1).value))
    ensures Dispatch(5, data) == Emit(SignalEvent(Index(data, 0).value, Index(data, 1).value))
  {
  }

  /** A pair kind with a one-element array publishes `undefined` as its
      second argument; it does not throw. */
  lemma ShortArrayPublishesUndefined(x: Value)
    ensures Dispatch(1, Arr([x])) == Emit(JoinEvent(x, Undefined))
    ensures Dispatch(3, Arr([x])) == Emit(SetClientEvent(x, Undefined))
    ensures Dispatch(5, Arr([x])) == Emit(SignalEvent(x, Undefined))
  {
  }
}
