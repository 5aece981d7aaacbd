# cf-socket-server: sessions and the chat room, modelled in Dafny

This project models the two stateful parts of an early version of
cf-socket-server, a WebSocket chat server that runs in a Durable Object:

- **the session object** (`User`, src/User.ts). It keeps a per-connection
  listener table, a map from message type to an ordered list of handlers,
  with `on`, `off`, `processIncomingMessage` and `trigger`. It has a
  `connected` flag that an explicit `close` message, a transport close or a
  failed `send` clears. It projects its property bag onto its public keys.
- **the room** (`ChatRoom`, src/ChatRoom.ts). It keeps the ordered list of
  live sessions and the counter that numbers new connections. `broadcast`
  sends to every session. Every session it creates gets two handlers: `chat`
  re-broadcasts the text with the sender's public details, and `close`
  removes the session from the list. `getRoomDetails` reports the count and
  the name.

Modules:

- `Protocol` (protocol.dfy): a JSON-shaped value, the `{type, data}`
  envelope, and the two argument shapes `send`/`trigger` accept.
- `Seqs` (seqs.dfy): `Without`, the model of `filter(v => v !== x)`, and its
  laws.
- `Session` (session.dfy): dispatch as a function that returns the calls it
  makes, and `class User`.
- `Room` (room.dfy): `class ChatRoom`, its well-formedness invariant
  `Valid`, and two small scenarios.

Modelling choices:

- **Handlers** are opaque identifiers (`HandlerId = nat`), so `off`'s
  reference comparison becomes identifier equality.
- **Dispatch** returns the sequence of calls `cb(data, type)` it makes, in
  order. Which calls throw is an input: the set `throwsAt` of their
  positions within the dispatch. A handler registered twice can therefore
  return on one call and throw on the next.
- **The room's two closures** are the identifiers `ChatHandler` and
  `CloseHandler`. The room runs their bodies when a session's dispatch
  reports a call to them.
  - `Room.Wired` says a session carries exactly the room's listener table.
  - `Room.ChatRoom.Valid` says every listed session is wired, was numbered by
    this room, and is listed once.
- **Inputs instead of foreign calls:**
  - whether a transport write succeeds (`transportOk`, or the set `failing`
    for a broadcast)
  - whether a frame parses (`Option<Envelope>`)
  - the stored configuration after `JSON.parse` (`Option<Json>`)
  - the generated identifier (`generatedId`)
- **The socket** is reduced to three facts: whether one is attached, whether
  `close()` has been called on it, and the frames written to it.
- **`broadcast` walks the list as it was when it started.** JavaScript's
  `forEach` keeps iterating the original array while a failing session's
  `close` handler replaces `this.sessions` with a filtered copy.
  `Broadcast` models this with a snapshot. Its contract gives:
  - the final list: the old one without every session whose write failed;
  - each session's outcome: one frame written, or disconnected with its
    transport closed.
- **A `close` message may run the room's `close` handler twice.** It calls
  `socket.close()` before dispatching. If the runtime then delivers the
  transport's `close` event, `SocketClosed` runs the handler again. Removal
  is idempotent (`Seqs.WithoutIdempotent`), so the second run changes
  nothing.

## Model

| member | source | states |
|---|---|---|
| Protocol.Compose | src/User.ts:96-99 | a type name is paired with the separate `data` argument; a whole envelope is used as given |
| Seqs.Without | src/ChatRoom.ts:92 | `filter(v => v !== x)` over a set of removed values: never longer than the input, its laws are the lemmas below |
| Seqs.WithoutShape | src/ChatRoom.ts:92 | the filtered list is no longer than the original, holds only elements outside the removed set, and keeps every element outside it |
| Seqs.WithoutConcat | src/ChatRoom.ts:92 | filtering distributes over concatenation, so the survivors keep their relative order |
| Seqs.WithoutDisjoint | src/ChatRoom.ts:92 | filtering out elements that do not occur returns the list unchanged |
| Seqs.WithoutAbsent | src/ChatRoom.ts:92 | removing a session that is not listed leaves the list unchanged |
| Seqs.WithoutMultiset | src/User.ts:92 | every occurrence of the removed element goes and every other element keeps its multiplicity |
| Seqs.WithoutAgree | src/ChatRoom.ts:92 | the result depends only on which of the list's elements are removed |
| Seqs.WithoutIdempotent | src/ChatRoom.ts:92 | running the close filter a second time changes nothing |
| Seqs.WithoutAppended | src/ChatRoom.ts:68 | appending a new session and then filtering it out gives back the earlier list |
| Seqs.WithoutWithout | src/ChatRoom.ts:92 | filtering by one set and then another is filtering by their union |
| Seqs.DistinctAt | src/ChatRoom.ts:64-68 | in a list without repetitions an element occurs at exactly one position |
| Seqs.DistinctAppend | src/ChatRoom.ts:68 | pushing a session not yet listed keeps the list free of repetitions |
| Seqs.WithoutDistinct | src/ChatRoom.ts:92 | filtering keeps a list free of repetitions |
| Session.Dispatch | src/User.ts:78-83 | the calls of a `forEach` inside one `try`: never more calls than handlers; its shape is `DispatchShape` |
| Session.DispatchShape | src/User.ts:78-83 | a dispatch calls a prefix of the handlers, in order, with `(data, type)`: all of them if none throws, none for a type with no handlers, and it stops only right after a throwing handler |
| Session.DispatchWithoutThrow | src/User.ts:79-80 | with no throwing handler, every registered handler is called once, in registration order |
| Session.DispatchFirstThrow | src/User.ts:78-83 | when handler `j` is the first to throw, exactly the first `j + 1` handlers are called |
| Session.RepeatedHandlerThrowsOnSecondCall | src/User.ts:78-83 | with handlers `[5, 5, 6]` and only the second call throwing, the calls are 5 and 5, and 6 is not called |
| Session.CallAll | src/User.ts:50-57 | the calls of a `forEach` with a `try` around each call: one call per handler, in order, with `(data, type)`, whatever throws |
| Session.InvokeUntilThrow | src/User.ts:78-83 | the `forEach` inside one `try` makes exactly the calls of `Dispatch` |
| Session.InvokeIsolated | src/User.ts:50-57 | the `forEach` with a `try` per call calls every handler once, in order, with the same `(data, type)`, whatever throws |
| Session.IsPublicKey | src/User.ts:114 | a key is public exactly when `_` is not a prefix of it (`indexOf('_') !== 0`) and it is not `subscriptions` |
| Session.PublicProjection | src/User.ts:112-116 | exactly the keys not starting with `_` and other than `subscriptions` are kept, each with its original value |
| Session.ProjectionIdempotent | src/User.ts:112-116 | projecting a projection changes nothing |
| Session.ProjectionOfPublicBag | src/User.ts:112-116 | a bag without private keys is its own projection |
| Session.DetailsRelation | src/User.ts:104-126 | a session's private details have the public details' keys plus `id` and `connectionDetails`; both agree on name and suffix, and projecting the private property bag yields the public one |
| Session.User.Handlers | src/User.ts:79 | the list registered for the type, or none when it was never registered |
| Session.User.PublicProperties | src/User.ts:112-116 | the session's properties under public keys, each with its value |
| Session.User.PublicDetails | src/User.ts:104-110 | an object with exactly `name`, `suffix` and the public properties |
| Session.User.PrivateDetails | src/User.ts:118-126 | an object with the whole property bag, the identifier and the connection details |
| Session.User.constructor | src/User.ts:15-21 | `suffix` defaults to 0, `name` to `''`, both bags to `{}`; an absent or empty `id` is replaced by the generated one; `connected` holds iff a transport was supplied; no listeners |
| Session.User.SetSocket | src/User.ts:32-34 | the session is connected exactly when a transport is attached |
| Session.User.On | src/User.ts:86-89 | `cb` is appended to the list for the type, which is created if absent; every other type's list is unchanged |
| Session.User.Off | src/User.ts:91-93 | every occurrence of `cb` leaves the type's list, the rest stay in order, an unregistered type ends with an empty list, other types are unchanged |
| Session.User.ProcessIncomingMessage | src/User.ts:70-84 | a `close` message disconnects the session and closes the transport before any handler runs; any other type leaves both flags alone; the calls are the abort-on-throw dispatch of the type's handlers with `(data, type)` |
| Session.User.Trigger | src/User.ts:95-102 | behaves exactly as `processIncomingMessage` on the envelope its arguments describe |
| Session.User.ReceiveFrame | src/User.ts:36-43 | a frame that does not parse changes nothing and calls nothing; one that parses is processed |
| Session.User.TransportClosed | src/User.ts:44-57 | the session is disconnected and every `close` handler is called, in order, even after one throws |
| Session.User.Send | src/User.ts:128-143 | without a transport nothing happens; a successful write appends the frame and changes nothing else; a failed write disconnects the session, closes the transport and dispatches `close` through `trigger` |
| Room.Greet | src/ChatRoom.ts:80-93 | the new session's first and only frame is the configuration, then it carries exactly the room's `chat` and `close` handlers; a failed configuration write leaves it disconnected |
| Room.ChatMessage | src/ChatRoom.ts:82-88 | the chat frame has type `chat` and data with exactly `message` (the text as received) and `user` (the sender's details) |
| Room.ConfigMessage | src/ChatRoom.ts:70-79 | the configuration frame has type `config` and carries the parsed configuration, or `{}` when it did not parse |
| Room.ChatHidesPrivateDetails | src/ChatRoom.ts:82-88 | a chat frame never carries the sender's identifier or connection details, and its properties are exactly the sender's properties under public keys, with their values |
| Room.ListedWithout | src/ChatRoom.ts:92 | removing sessions keeps the session list well formed |
| Room.ListedAppend | src/ChatRoom.ts:63-68 | appending a wired session with a freshly issued suffix keeps the list well formed |
| Room.ChatRoom.constructor | src/ChatRoom.ts:24-31 | a new room has no sessions and a counter of 1 |
| Room.ChatRoom.NameFromQuery | src/ChatRoom.ts:40 | the name is the `room` query parameter, or `default` when it is missing or empty |
| Room.ChatRoom.Details | src/ChatRoom.ts:96-103 | `count` is the number of listed sessions; `name` and `config` default to `''` |
| Room.ChatRoom.OnClose | src/ChatRoom.ts:91-93 | the list becomes the previous list without that session, the others in order |
| Room.ChatRoom.CloseSession | src/ChatRoom.ts:91-93 | the same removal, keeping the room well formed |
| Room.ChatRoom.SendOne | src/ChatRoom.ts:59 | one send to a session of the room: a frame is written, or the session is disconnected, its transport closed and the session removed by its `close` handler |
| Room.ChatRoom.Broadcast | src/ChatRoom.ts:58-60 | every session listed at the start gets exactly one send; each session either has the frame appended or is disconnected with its transport closed; the final list is the old one without the failing sessions, in order |
| Room.ChatRoom.OnChat | src/ChatRoom.ts:81-90 | the chat frame with the text and the sender's public details is sent to every listed session, the sender included, and the room stays well formed |
| Room.ChatRoom.HandleSession | src/ChatRoom.ts:61-94 | the counter is pre-incremented and the new session gets it as a suffix never issued before; the session is appended at the end with the others in order; it gets the configuration, then the room's two handlers; the room stays well formed |
| Room.ChatRoom.Receive | src/ChatRoom.ts:81-93 | a frame on a room session: one that does not parse, or whose type has no handler, changes nothing, for that session and every listed one; `close` disconnects it, closes its transport and removes it, and leaves every other listed session unchanged; `chat` broadcasts the text with its public details |
| Room.ChatRoom.SocketClosed | src/ChatRoom.ts:91-93 | a transport close disconnects the session and removes it from the list |
| Room.FirstTwoSessions | src/ChatRoom.ts:63-68 | a fresh room numbers its first two connections 2 and 3, lists them in arrival order and reports a count of 2 |
| Room.JoinJoinLeave | src/ChatRoom.ts:91-93 | after two sessions join and the second's transport closes, only the first is listed |

## Left out

- The ping timer and `clearInterval` (src/User.ts:13, src/User.ts:45-47,
  src/User.ts:59-67). These are timer behaviour, so no periodic `ping`
  frame is modelled.
- Event-listener wiring on the socket beyond what the handlers do when an
  event arrives. `ReceiveFrame` and `TransportClosed` model the two events
  themselves.
- Logging with `console.error`.
- `fetch` routing, `Response` construction, `WebSocketPair` and `accept`, and
  the `CF-Connecting-IP` header. The header's value is never used by
  `handleSession`.
- src/index.ts is not part of this model.
- The storage read and all `async`/`await` boundaries. `handleSession` awaits
  the store between listing the session and sending it the configuration;
  the model runs it without interleaving.
- `JSON.parse`, `JSON.stringify` and `uuid()` are inputs. This covers:
  - a frame that fails to parse, or that is not an object;
  - a stored configuration that fails to parse;
  - the generated identifier.
- Floating-point numbers, `undefined` data and the envelope's key order.
  `send` with a type name writes `{data, type}`, and `trigger` builds
  `{type, data}`. The model has one `Envelope`.
- Type names that hit a property inherited from `Object.prototype`
  (`listeners['constructor']` is the function `Object`, for example). In the
  source such a name makes `on` throw at `.push` (src/User.ts:88), `off`
  throw at `.filter` (src/User.ts:92) and the dispatch throw at `forEach`
  (src/User.ts:80). The model treats these names as ordinary types: `On`
  and `Off` succeed on them, and after `On` the type has handlers.
- Session.User.ProcessIncomingMessage: a frame's type is always a string in
  the model. In the source a non-string type, such as `["close"]`, fails
  the strict test `type === 'close'` (src/User.ts:72) but is coerced to the
  key `"close"` by the lookup `this.listeners[type]` (src/User.ts:79). Such
  a frame runs the `close` handlers, so the room drops the session, while
  `connected` stays true and the socket stays open. The model does not
  capture this.
- Handlers that call `on` or `off` on their own session while a dispatch is
  running. Dispatch here runs over the list as it was when the dispatch
  began.
- The room's own `chat` and `close` handlers never throw in the model. In the
  source they call only `getPublicDetails`, `broadcast` (which calls `send`)
  and `filter`, and `send` catches.
- Room.ChatRoom.Broadcast: each session's own frames are in order, but the
  order of writes across sessions is not observable in the model.
- Room.Greet: like the source, a session whose configuration write fails
  stays listed, disconnected, because its `close` listener is registered
  only after that send. The failed send also calls `socket.close()`
  (src/User.ts:138). If the runtime later delivers the transport's `close`
  event, `SocketClosed` removes the session.
- Room.ChatRoom.HandleSession: suffix uniqueness is stated through the
  ghost set `issued` of suffixes handed out, rather than as a property of a
  sequence of calls.
- The predicate `SentTo`, which states one send's outcome for `Broadcast` and
  `OnChat`, does not repeat that a session's identity fields stay the same.
  The callers' `modifies` clauses state that.
