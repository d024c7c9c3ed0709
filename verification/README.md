# CrewLink signalling socket, modelled in Dafny

A model of the renderer-side signalling client of CrewLink,
`src/renderer/socket.ts`. The `Socket` class keeps one WebSocket to the
voice server. It frames outbound events as `[kind][length, big-endian][JSON
body]`. It decodes inbound binary frames and republishes them as events. It
reconnects one second after every close.

Modules:

- `Common`: the byte type, `Option` and `Result`.
- `Events`: the `Events` enumeration and its wire ordinals 0 to 5.
- `JsValue`: the JavaScript values a JSON payload can hold. It defines truthiness (`if (data)`) and indexing (`data[0]`). `JSON.stringify` and `JSON.parse` enter as an external codec record `Json`.
- `Address`: the `serverURL.replace(/^http/, 'ws')` rewrite.
- `Codec`: the frame encoder (the body of `send`) and the frame decoder (the first half of `onMessage`).
- `Dispatcher`: the `switch` that turns a decoded frame into one published event, into nothing, or into a thrown `TypeError`.
- `Connection`: the socket as an immutable record. It holds the address, the current transport with its ready state, the pending reconnect timers, the event log that `emit` appends to, and the frames handed to `ws.send`. The handlers `onOpen`, `onClose` and `onMessage`, the methods `connect`, `close` and `send`, and the reconnect timer are functions on that record. The environment's inputs are collected in `Step`. A single-connection invariant is proved over every run.

## Model

| member | source | states |
|---|---|---|
| Events.Ordinal | src/renderer/socket.ts:4-11 | every kind's wire number lies below the kind count 6 |
| Events.FromOrdinal | src/renderer/socket.ts:4-11 | exactly the ordinals 0..5 name a kind, and the kind named by n has ordinal n |
| Events.OrdinalRoundTrip | src/renderer/socket.ts:4-11 | every kind is recovered from its ordinal; distinct kinds have distinct ordinals |
| Address.NormalizeUrl | src/renderer/socket.ts:19 | the result never starts with "http"; an address starting with "http" becomes "ws" followed by everything after those four characters (two characters shorter); any other address is unchanged |
| Address.NormalizeIdempotent | src/renderer/socket.ts:19 | rewriting twice gives the same address as rewriting once |
| Address.NormalizeInjectiveOnHttp | src/renderer/socket.ts:19 | two "http" addresses rewrite to the same address only if they were equal |
| Address.NormalizeHttpsExample | src/renderer/socket.ts:19 | `https://example.com/` becomes `wss://example.com/` |
| Address.NormalizePassThroughExamples | src/renderer/socket.ts:19 | `wss://`, upper-case `HTTP://` and an "http" after the start pass through unchanged |
| Address.NormalizeBarePrefixExample | src/renderer/socket.ts:19 | any leading "http" is rewritten even without a scheme separator (`httpfoo` becomes `wsfoo`) |
| Codec.ReadUInt8 | src/renderer/socket.ts:56 | the kind read succeeds exactly when the offset lies inside the buffer, and otherwise throws RangeError |
| Codec.ReadUInt16BE | src/renderer/socket.ts:57 | the 16-bit read succeeds exactly when two bytes exist at the offset, yields at most 65535, and otherwise throws RangeError |
| Codec.Be16 | src/renderer/socket.ts:111 | the two bytes written for a length read back, big-endian, as that length |
| Codec.EncodeFrame | src/renderer/socket.ts:108-115 | the frame is 3 + body length bytes; byte 0 reads back as the kind, bytes 1-2 as the body length big-endian, and bytes 3.. are the body |
| Codec.SerializedBody | src/renderer/socket.ts:96-106 | a falsy payload serialises to no bytes |
| Codec.EncodeMessage | src/renderer/socket.ts:96-115 | with an absent or falsy payload the frame is exactly 3 bytes and its length field reads 0 |
| Codec.WriteFrame | src/renderer/socket.ts:102-115 | allocating a zero-filled buffer and writing kind, length and body byte by byte yields exactly the frame layout of EncodeFrame |
| Codec.DecodeFrame | src/renderer/socket.ts:54-63 | a buffer shorter than 3 bytes throws RangeError and nothing else does; kind and length are the bytes 0 and 1-2 read back; length 0 gives a null payload without parsing; a non-zero length parses the whole tail after byte 3, and a parse failure is the only SyntaxError; no other error occurs, so a buffer of 3 or more bytes with a zero length or a parseable tail always decodes |
| Codec.MessageRoundTrip | src/renderer/socket.ts:56-63 | decoding what send encodes recovers the kind, the body length and the payload (null for a falsy one); the payload is null exactly when the length is 0 |
| Codec.DecodeIgnoresDeclaredLength | src/renderer/socket.ts:57-63 | frames that differ only in non-zero length fields decode to the same kind and payload, so a wrong length goes unnoticed |
| Codec.EmptyTailWithLengthThrows | src/renderer/socket.ts:61-62 | with a codec that, like JSON.parse, rejects empty text, a 3-byte frame whose length field is non-zero throws SyntaxError instead of decoding |
| Codec.ZeroLengthSkipsParse | src/renderer/socket.ts:59-63 | a zero length field yields a null payload even when body bytes follow |
| JsValue.Truthy | src/renderer/socket.ts:98-113 | predicate: null, undefined, false, 0 and the empty string are falsy, all arrays and objects truthy; its consequences are stated by SerializedBody and EncodeMessage |
| JsValue.DecimalKey | src/renderer/socket.ts:71 | the property key for index n is a digit string without a leading zero that spells n back |
| JsValue.IndexReadsDecimalKeys | src/renderer/socket.ts:71 | on a plain object, `data[0]` and `data[1]` read the properties "0" and "1", or undefined if absent |
| JsValue.Index | src/renderer/socket.ts:71 | `data[i]` throws TypeError exactly on null and undefined, and reads the i-th element of an array |
| Dispatcher.Dispatch | src/renderer/socket.ts:65-88 | a kind outside 0..5 publishes nothing; a published event always belongs to the frame's kind; the reaction throws exactly for a Join, SetClient or Signal frame whose payload is null or undefined |
| Dispatcher.Pair | src/renderer/socket.ts:71 | evaluating `data[0], data[1]` throws exactly when the payload is null or undefined |
| Dispatcher.EmitPair | src/renderer/socket.ts:70-83 | the event `mk(data[0], data[1])` is published unless the payload is null or undefined, in which case TypeError is thrown |
| Dispatcher.DispatchTotal | src/renderer/socket.ts:65-88 | every byte value gets exactly one reaction: kinds 0..5 publish (or throw), and the event's ordinal is the frame's kind; every other byte is ignored |
| Dispatcher.DispatchPairPayload | src/renderer/socket.ts:65-88 | kinds 0, 2 and 4 publish authenticate, leave and setIds(d) for any payload d; a two-element array [x, y] is spread into join(x,y), setClient(x,y) and signal(x,y) |
| Dispatcher.DispatchTable | src/renderer/socket.ts:70-83 | for any payload that is not null or undefined, kinds 1, 3 and 5 publish join, setClient and signal with the arguments `d[0]` and `d[1]` |
| Dispatcher.ShortArrayPublishesUndefined | src/renderer/socket.ts:70-83 | a one-element array payload for kinds 1, 3 and 5 publishes its element and `undefined`; it does not throw |
| Dispatcher.EmptyPairFrameThrows | src/renderer/socket.ts:59-83 | a Join, SetClient or Signal frame with an empty body throws instead of publishing |
| Connection.ConnectTransport | src/renderer/socket.ts:24-30 | connect installs a fresh transport in the connecting state, dialling the stored address, and changes nothing else |
| Connection.New | src/renderer/socket.ts:17-22 | a new socket stores the normalised address, is connecting on transport 0, and has no timers, events or frames |
| Connection.Close | src/renderer/socket.ts:32-34 | with no transport, close is a no-op; a connecting or open transport moves to closing; a closing or closed one is left as it is; nothing but the transport's state changes |
| Connection.OnOpen | src/renderer/socket.ts:36-38 | opening publishes `connect` and changes nothing else |
| Connection.OnClose | src/renderer/socket.ts:40-46 | closing publishes `disconnect` and schedules exactly one reconnect 1000 ms later, nothing else |
| Connection.FireTimer | src/renderer/socket.ts:43-45 | a firing timer is consumed and replaces the transport with a fresh connecting one; the log and the sent frames are unchanged |
| Connection.OnMessage | src/renderer/socket.ts:48-89 | a text message is exactly a close; a binary message that decodes and dispatches to an event appends exactly that event to the log; any other binary message (one that throws, or an unknown kind) leaves the socket unchanged |
| Connection.Send | src/renderer/socket.ts:91-118 | without an open transport nothing changes, for any kind and payload; with one, exactly the encoded frame is appended to the transmitted frames |
| Connection.Step | src/renderer/socket.ts:24-118 | every input keeps the address, and only appends to the event log and the transmitted frames, at most one entry each |
| Connection.NewEstablishes | src/renderer/socket.ts:17-30 | a new socket satisfies the single-connection invariant |
| Connection.StepPreserves | src/renderer/socket.ts:24-46 | every input the environment can deliver preserves the single-connection invariant |
| Connection.ReplacesOnlyClosedTransport | src/renderer/socket.ts:40-46 | a reconnect fires only when the current transport is closed, installs a different instance and leaves no timer pending |
| Connection.RunPreserves | src/renderer/socket.ts:24-46 | every run of inputs keeps exactly one transport, with a reconnect pending exactly when it is closed |
| Connection.RunOnlyAppends | src/renderer/socket.ts:36-46 | over any run, published events and transmitted frames are only appended to, at most one event per input |
| Connection.ReconnectCycle | src/renderer/socket.ts:36-46 | an open connection that drops publishes `disconnect`, then `connect` once the replacement transport opens, on a new instance |
| Connection.TextMessageForcesClose | src/renderer/socket.ts:49-52 | a text message publishes nothing and puts an open transport into closing |
| Connection.EncodedMessageDispatches | src/renderer/socket.ts:54-88 | a frame produced by send, when received, publishes exactly what the dispatch table gives for its kind and payload, or leaves the socket unchanged |
| Connection.ShortBinaryMessageIgnored | src/renderer/socket.ts:54-57 | a binary message shorter than the header leaves the socket unchanged and open |

## Behaviour of the code worth knowing

- On an open transport, a kind outside 0..255 or a body over 65535 bytes makes the buffer library throw. The model makes this a precondition of `Send`, and only when the transport is open.
- The decoder tests the length field only for zero. A non-zero length that disagrees with the body goes unnoticed, because the whole tail after byte 3 is parsed (`DecodeIgnoresDeclaredLength`).
- A binary message shorter than 3 bytes makes the header read throw a RangeError. The socket stays as it was and the connection stays open (`ShortBinaryMessageIgnored`).
- A Join, SetClient or Signal frame with no body leaves the payload `null`. Reading `data[0]` then throws a TypeError, nothing is published, and the connection stays open (`EmptyPairFrameThrows`).
- An array payload with fewer than two elements publishes `undefined` for the missing arguments (`ShortArrayPublishesUndefined`).
- The address rewrite is case-sensitive. An upper-case `HTTP://` address is not rewritten and reaches the WebSocket constructor unchanged.
- There is no shutdown operation. The reconnect delay is the constant 1000.

## Left out

- The browser WebSocket, `EventEmitter`, `setTimeout` and the buffer library are foreign code. The transport is a record with a ready state. Its state changes (opening, closing, delivering messages only while open) are environment inputs, restricted by `Enabled`. Timers are a queue of delays, with no clock.
- `JSON.stringify` and `JSON.parse` are external. They are parameters (`Json`), and their round trip is a hypothesis (`RoundTrips`) about the one value in question. That JSON.parse rejects empty text is a hypothesis too (`RejectsEmpty`), used where a frame has no body.
- Connection.New: the WebSocket constructor is assumed to accept the rewritten address. In the source it throws a SyntaxError for an address whose scheme is not ws or wss (`ftp://host`, an unrewritten `HTTP://host`) or that has a fragment, and then no socket exists. That failure is not modelled.
- Codec.EncodeFrame: the kind is an integer. The source's `type` is a JavaScript number: `writeUInt8` truncates a fraction (1.5 is sent as 1) and writes NaN as 0. Neither case is modelled.
- Codec.EncodeFrame: a kind outside 0..255 and a body over 65535 bytes are preconditions, because the buffer library throws there.
- Codec.SerializedBody: JSON text is modelled as bytes, so its length equals the JavaScript string length. With non-ASCII text, `dataBuf.length` counts UTF-16 units while `buf.write` writes UTF-8, so the body would be truncated. That case is not modelled.
- Connection.Close: the optional `code` and `reason` arguments are not modelled. Their validation belongs to the transport.
- Connection.OnOpen: the `evt` object passed to the `connect` and `disconnect` listeners is not modelled.
- Exceptions thrown by listeners while an event is emitted are not modelled. Neither is the interleaving of callbacks beyond one input at a time.
- JsValue.Index: numbers are integers. NaN, -0, fractions, array holes and prototype properties are not modelled. A string is indexed by Unicode characters, whereas JavaScript indexes UTF-16 code units. So for a payload string outside the Basic Multilingual Plane (an emoji, say), the model's `data[0]` and `data[1]` differ from the source's surrogate halves.
- Connection.StepPreserves: only the constructor and the reconnect timer are assumed to call `connect()`. The method is public, and a direct call on a socket whose transport is still live would install a second transport while the first stays live, breaking the invariant.
- Connection.RunPreserves: same assumption as StepPreserves. `Input` has no direct call to `connect()`.
- Callbacks of a transport that has been replaced are not modelled. A transport is replaced only after it has closed (`ReplacesOnlyClosedTransport`), and a closed transport delivers nothing more.
