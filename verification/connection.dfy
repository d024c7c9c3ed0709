/** The `Socket` class as a state machine (src/renderer/socket.ts:13-119).
    The browser WebSocket is an abstract transport with a ready state, the
    reconnect timers are a queue of pending delays, `emit` appends to a log
    and `ws.send` appends to a list of transmitted frames. */
module Connection {
  import opened Common
  import opened JsValue
  import opened Codec
  import opened Dispatcher
  import opened Address

  /** The WebSocket `readyState` values. */
  datatype ReadyState = Connecting | Open | Closing | Closed

  /** One transport instance: the address it dials, a creation number that
      tells instances apart, and its ready state. */
  datatype Transport = Transport(url: string, id: nat, ready: ReadyState)

  /** An inbound message: an ArrayBuffer or a text string. */
  datatype Message = Binary(bytes: seq<Byte>) | Text(text: string)

  /** The socket's observable state. `created` counts the transports made so
      far; `timers` holds the delay of every scheduled reconnect. */
  datatype Socket = Socket(
    url: string,
    ws: Option<Transport>,
    timers: seq<nat>,
    created: nat,
    log: seq<Emitted>,
    sent: seq<seq<Byte>>)

  /** The fixed delay between a close and the reconnect it schedules. */
  const ReconnectDelayMs: nat := 1000

  /** `connect()`: a fresh transport dialling the stored address replaces the
      current one; nothing is published until it opens. */
  function ConnectTransport(s: Socket): (r: Socket)
    ensures r.ws.Some? && r.ws.value.ready == Connecting && r.ws.value.url == s.url
    ensures r.ws.value.id == s.created && r.created == s.created + 1
    ensures r.(ws := s.ws, created := s.created) == s
  {
    s.(ws := Some(Transport(s.url, s.created, Connecting)), created := s.created + 1)
  }

  /** The constructor: normalise the address, then connect. */
  function New(serverUrl: string): (s: Socket)
    ensures s.url == NormalizeUrl(serverUrl)
    ensures s.ws == Some(Transport(s.url, 0, Connecting))
    ensures s.timers == [] && s.log == [] && s.sent == []
  {
    ConnectTransport(Socket(NormalizeUrl(serverUrl), None, [], 0, [], []))
  }

  /** `close()`: ask the transport, if there is one, to start closing. A
      transport already closing or closed ignores the request. */
  function Close(s: Socket): (r: Socket)
    ensures s.ws.None? ==> r == s
    ensures r.ws.Some? == s.ws.Some?
    ensures r.ws.Some? ==> r.ws.value.id == s.ws.value.id
    ensures r.ws.Some? && r.ws.value.ready != s.ws.value.ready ==> r.ws.value.ready == Closing
    ensures r.(ws := s.ws) == s
    ensures s.ws.Some? && (s.ws.value.ready == Connecting || s.ws.value.ready == Open) ==>
              r.ws == Some(s.ws.value.(ready := Closing))
    ensures s.ws.Some? && (s.ws.value.ready == Closing || s.ws.value.ready == Closed) ==> r == s
  {
    match s.ws
    case None => s
    case Some(t) =>
      if t.ready == Connecting || t.ready == Open then s.(ws := Some(t.(ready := Closing)))
      else s
  }

  /** `onOpen`: publish `connect`. */
  function OnOpen(s: Socket): (r: Socket)
    ensures r.log == s.log + [Connect]
    ensures r.(log := s.log) == s
  {
    s.(log := s.log + [Connect])
  }

  /** `onClose`: publish `disconnect` and schedule one reconnect. */
  function OnClose(s: Socket): (r: Socket)
    ensures r.log == s.log + [Disconnect]
    ensures r.timers == s.timers + [ReconnectDelayMs]
    ensures r.(log := s.log, timers := s.timers) == s
  {
    s.(log := s.log + [Disconnect], timers := s.timers + [ReconnectDelayMs])
  }

  /** The oldest pending reconnect timer fires and calls `connect()`. */
  function FireTimer(s: Socket): (r: Socket)
    requires |s.timers| > 0
    ensures r.timers == s.timers[1..]
    ensures r.ws == Some(Transport(s.url, s.created, Connecting))
    ensures r.created == s.created + 1
    ensures r.log == s.log && r.sent == s.sent && r.url == s.url
  {
    ConnectTransport(s.(timers := s.timers[1..]))
  }

  /** `onMessage`: a text message closes the connection; a binary one is
      decoded and dispatched. An exception thrown while decoding or while
      evaluating the event's arguments abandons the handler and leaves the
      socket as it was. */
  function OnMessage(s: Socket, json: Json, msg: Message): (r: Socket)
    ensures msg.Text? ==> r == Close(s)
    ensures msg.Binary? ==> r.(log := s.log) == s
    ensures msg.Binary? ==> r.log == s.log || |r.log| == |s.log| + 1
    ensures msg.Binary? ==>
              var d := DecodeFrame(json, msg.bytes);
              if d.Ok? && Dispatch(d.value.kind, d.value.payload).Emit?
              then r.log == s.log + [Dispatch(d.value.kind, d.value.payload).event]
              else r == s
  {
    match msg
    case Text(_) => Close(s)
    case Binary(bytes) =>
      match DecodeFrame(json, bytes)
      case Err(_) => s
      case Ok(frame) =>
        match Dispatch(frame.kind, frame.payload)
        case Emit(e) => s.(log := s.log + [e])
        case Ignore => s
        case Throw(_) => s
  }

  /** The transport is present and open, the test `send` makes first. */
  predicate IsOpen(s: Socket) {
    s.ws.Some? && s.ws.value.ready == Open
  }

  /** `send(kind, data)`: on an open transport, transmit one encoded frame;
      otherwise return before serialising anything, so no kind or payload
      can make it throw. On an open transport the buffer library throws for a
      kind outside one byte or a body over 65535 bytes; that is a
      precondition there. */
  function Send(s: Socket, json: Json, kind: int, data: Value): (r: Socket)
    requires IsOpen(s) ==> 0 <= kind < 256 && BodyFits(json, data)
    ensures !IsOpen(s) ==> r == s
    ensures IsOpen(s) ==> r.sent == s.sent + [EncodeMessage(json, kind, data)]
    ensures r.(sent := s.sent) == s
  {
    if !IsOpen(s) then s
    else s.(sent := s.sent + [EncodeMessage(json, kind, data)])
  }

  /** What can happen to a socket: the transport reports that it opened or
      closed, a reconnect timer fires, a message arrives, or the application
      calls `send` or `close`. */
  datatype Input =
    | TransportOpened
    | TransportClosed
    | TimerFired
    | Received(msg: Message)
    | AppSend(kind: int, data: Value)
    | AppClose

  /** The inputs that can occur in a state. A transport opens only while
      connecting, closes at most once, and delivers messages only while open
      (the WebSocket drops a message that arrives in any other state);
      a timer fires only if one is pending; on an open transport a frame must
      fit its one-byte kind and its length field. */
  predicate Enabled(s: Socket, json: Json, i: Input) {
    match i
    case TransportOpened => s.ws.Some? && s.ws.value.ready == Connecting
    case TransportClosed => s.ws.Some? && s.ws.value.ready != Closed
    case TimerFired => |s.timers| > 0
    case Received(_) => IsOpen(s)
    case AppSend(kind, data) => IsOpen(s) ==> 0 <= kind < 256 && BodyFits(json, data)
    case AppClose => true
  }

  /** One input: the transport updates its ready state, then the socket's
      handler runs. */
  function Step(s: Socket, json: Json, i: Input): (r: Socket)
    requires Enabled(s, json, i)
    ensures r.url == s.url
    ensures s.log <= r.log && |r.log| <= |s.log| + 1
    ensures s.sent <= r.sent && |r.sent| <= |s.sent| + 1
  {
    match i
    case TransportOpened => OnOpen(s.(ws := Some(s.ws.value.(ready := Open))))
    case TransportClosed => OnClose(s.(ws := Some(s.ws.value.(ready := Closed))))
    case TimerFired => FireTimer(s)
    case Received(msg) => OnMessage(s, json, msg)
    case AppSend(kind, data) => Send(s, json, kind, data)
    case AppClose => Close(s)
  }

  /** The reconnect loop keeps exactly one transport: while it is not closed
      no reconnect is pending, and once it is closed exactly one reconnect is
      pending, due after the fixed delay. Its creation number is below the
      count of transports made, so a replacement is always a new instance. */
  predicate SingleConnection(s: Socket) {
    && s.ws.Some?
    && s.ws.value.id < s.created
    && s.ws.value.url == s.url
    && |s.timers| <= 1
    && (s.ws.value.ready == Closed <==> |s.timers| == 1)
    && (forall j :: 0 <= j < |s.timers| ==> s.timers[j] == ReconnectDelayMs)
  }

  lemma NewEstablishes(serverUrl: string)
    ensures SingleConnection(New(serverUrl))
  {
  }

  lemma StepPreserves(s: Socket, json: Json, i: Input)
    requires SingleConnection(s)
    requires Enabled(s, json, i)
    ensures SingleConnection(Step(s, json, i))
  {
  }

  /** A reconnect only ever replaces a transport that has already closed, so
      no two transports are live at once. */
  lemma ReplacesOnlyClosedTransport(s: Socket, json: Json)
    requires SingleConnection(s)
    requires Enabled(s, json, TimerFired)
    ensures s.ws.value.ready == Closed
    ensures Step(s, json, TimerFired).ws.value.id != s.ws.value.id
    ensures Step(s, json, TimerFired).timers == []
  {
  }

  /** Runs a sequence of inputs, skipping any the state does not allow. */
  function Run(s: Socket, json: Json, inputs: seq<Input>): Socket
    decreases |inputs|
  {
    if inputs == [] then s
    else if Enabled(s, json, inputs[0]) then Run(Step(s, json, inputs[0]), json, inputs[1..])
    else Run(s, json, inputs[1..])
  }

  /** Every run from a good state keeps the single-connection invariant. */
  lemma {:induction false} RunPreserves(s: Socket, json: Json, inputs: seq<Input>)
    requires SingleConnection(s)
    ensures SingleConnection(Run(s, json, inputs))
    decreases |inputs|
  {
    if inputs != [] {
      if Enabled(s, json, inputs[0]) {
        StepPreserves(s, json, inputs[0]);
        RunPreserves(Step(s, json, inputs[0]), json, inputs[1..]);
      } else {
        RunPreserves(s, json, inputs[1..]);
      }
    }
  }

  /** Published events and transmitted frames are never retracted: a run
      only appends to both, one entry per input at most. */
  lemma {:induction false} RunOnlyAppends(s: Socket, json: Json, inputs: seq<Input>)
    ensures s.log <= Run(s, json, inputs).log
    ensures s.sent <= Run(s, json, inputs).sent
    ensures |Run(s, json, inputs).log| <= |s.log| + |inputs|
    decreases |inputs|
  {
    if inputs != [] {
      if Enabled(s, json, inputs[0]) {
        RunOnlyAppends(Step(s, json, inputs[0]), json, inputs[1..]);
      } else {
        RunOnlyAppends(s, json, inputs[1..]);
      }
    }
  }

  /** An open connection that drops publishes `disconnect`, reconnects once
      the timer fires, and publishes `connect` when the new transport opens. */
  lemma ReconnectCycle(s: Socket, json: Json)
    requires SingleConnection(s)
    requires IsOpen(s)
    ensures var r := Run(s, json, [TransportClosed, TimerFired, TransportOpened]);
            && r.log == s.log + [Disconnect, Connect]
            && IsOpen(r)
            && r.ws.value.id != s.ws.value.id
            && r.timers == []
            && r.sent == s.sent
  {
  }

  /** A text message publishes nothing and asks the transport to close. */
  lemma TextMessageForcesClose(s: Socket, json: Json, text: string)
    requires SingleConnection(s)
    requires IsOpen(s)
    ensures var r := OnMessage(s, json, Text(text));
            r.log == s.log && r.ws.value.ready == Closing && r.timers == []
  {
  }

  /** A frame `send` produced, arriving at a peer socket, publishes exactly
      what the dispatcher makes of the original kind and payload (with a
      falsy payload arriving as `null`). */
  lemma EncodedMessageDispatches(s: Socket, json: Json, kind: Byte, data: Value)
    requires BodyFits(json, data)
    requires Truthy(data) ==> RoundTrips(json, data)
    ensures var r := OnMessage(s, json, Binary(EncodeMessage(json, kind, data)));
            var d := Dispatch(kind, if Truthy(data) then data else Null);
            (d.Emit? ==> r.log == s.log + [d.event]) && (!d.Emit? ==> r == s)
  {
  }

  /** A binary message too short to hold a header throws on the header read:
      the socket is unchanged and, unlike a text message, not closed. */
  lemma ShortBinaryMessageIgnored(s: Socket, json: Json, bytes: seq<Byte>)
    requires |bytes| < HeaderSize
    ensures OnMessage(s, json, Binary(bytes)) == s
  {
  }
}
