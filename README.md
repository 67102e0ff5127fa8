# Haloscan HTTP session transport, modelled in Dafny

This project models the session transport of the Haloscan MCP server's HTTP
entry point (`src/http-server.ts`). The entry point has four parts:

- **The registry.** `transports` is a process-wide table from session id to the transport that owns the session.
- **`GET /sse`.** It sends the event-stream head, builds a transport, files the transport under its id, and deletes that entry when the stream closes.
- **`POST /messages?sessionId=...`.** It rejects a missing or empty id with 400 and an unknown id with 404. As written, the code also treats the names an object inherits from `Object.prototype` as known ids and answers them 200; see Findings. For a known id, it saves the response's `end`, installs a shim that only writes its first argument, runs the transport's message handler, catches anything the handler throws, and restores `end`. If the head is still unsent, it then answers `200 {status: 'ok'}`.
- **`GET /health`.** It reports the number of registered sessions.

Files:

- `http.dfy` (module `Http`): the response as a class (`Response`) with the fields the routes touch: `statusCode`, `headersSent`, `endImpl` (original or shim), `written` and `finished`. It also holds functions that give the meaning of `status`, `writeHead`, `write`, `end` and `send`/`json` on a snapshot of those fields. As in Node, `write` sends the head implicitly. `send` and `json` go through whatever `end` currently is.
- `registry.dfy` (module `Registry`): the transport, treated as opaque apart from its session id, and the registry operations.
- `http_server.dfy` (module `HttpServer`): the `Server` class with the `transports` field and one method per route, the `Dispatched` function that specifies `POST /messages`, and lemmas about it.
- `sessions.dfy` (module `Sessions`): the event loop as a sequence of turns (opens, closes, calls, health checks) and what any such sequence does to the registry.
- `prototype_lookup.dfy` (module `PrototypeLookup`): the session lookup exactly as written, on a plain JavaScript object. See Findings.

The message handler belongs to a library that is not part of this model. Each transport has its own handler. The parameter `handler: Transport -> HandlerRun` gives each transport's behaviour as a `HandlerRun`, which says:
- whether the handler sends a head, and with which status;
- whether it calls `end`, and with which arguments;
- whether it throws.

It runs as one synchronous step. Session ids are generated by the transport's constructor, so the model takes them as inputs.

Where the code and the intended design differ, the model follows the code, with one exception. For the session lookup, the model uses the own-key test: an id counts as known only when it is a key of the table. The code as written also finds names inherited from `Object.prototype`. `PrototypeLookup.PropertyOf` models that read, and Findings describes the difference. In these cases the model follows the code:

- **A handler that throws.** The exception is caught. The answer is then the `200 {status: 'ok'}` fallback if the head is still unsent. No 500 is sent.
- **Reused ids.** A new transport whose id is already in use overwrites the old entry. Nothing checks that ids are unique.
- **Heartbeats.** This file sends no heartbeat frames and no tool-catalog frame.
- **A handler that answers for itself.** A handler may send a head or pass `end` a payload, for example `writeHead(202).end("Accepted")`. The shim writes the chunk, the fallback is skipped, and nothing ever finishes the `POST` response. The intended design promises exactly one acknowledgment per call. `HttpServer.FallbackAcknowledgesSilentHandler` proves this behaviour as written. It is not listed as a finding: the real handler is asynchronous, and this model runs it as one synchronous step, so the model cannot say what the deployed code does on this path.

## Model

| member | source | states |
|---|---|---|
| `Http.Response.End` | src/http-server.ts:89-95 | calling `end` runs the implementation currently in the field. The shim writes only its first argument. The original sends its first argument and finishes the response. |
| `Http.Response.Send` | src/http-server.ts:79 | `send`/`json` set content headers, so the head must still be unsent, and then hand their body to the current `end` |
| `Http.ShimEndOnlyWritesFirstArgument` | src/http-server.ts:89-95 | while the shim is installed, `end(x, ...)` appends exactly `x` and `end()` writes nothing. Neither finishes the response or removes the shim. The head counts as sent exactly when a chunk was written. |
| `Http.OriginalEndFinishesOnce` | src/http-server.ts:105-109 | the restored original `end` finishes the response and sends its head; a second call changes nothing |
| `Registry.Lookup` | src/http-server.ts:82 | the corrected own-key lookup: it finds an entry exactly for registered ids, and it finds that id's transport. The read as written, which also finds inherited names, is `PrototypeLookup.PropertyOf`. |
| `Registry.Register` | src/http-server.ts:54-55 | after an open, `transports[id]` is the new transport. The key set gains exactly `id`, and every other key keeps its entry. Filing entries under their own ids is preserved. |
| `Registry.Unregister` | src/http-server.ts:59-62 | closing removes exactly the session's key and keeps every other entry. Deleting an absent key leaves the table unchanged. |
| `Registry.UnregisterIdempotent` | src/http-server.ts:61 | repeated close events have the effect of one |
| `Registry.RegisterOverwrites` | src/http-server.ts:55 | an open under an id already in use replaces the earlier entry; nothing checks uniqueness |
| `HttpServer.Relayed` | src/http-server.ts:86-110 | a call relayed to a handler: `end` is the original afterwards, and the output gains exactly the handler's chunks, plus `{status: 'ok'}` exactly when the handler left the head unsent |
| `HttpServer.Dispatched` | src/http-server.ts:74-114 | the route with the corrected own-key lookup: `end` is the original afterwards, and earlier output is only added to. The lemmas below state each branch. |
| `HttpServer.MissingSessionIdRejected` | src/http-server.ts:76-80 | a missing or empty `sessionId` gets 400 and the missing-parameter text, and the response is finished. The answer is the same for every registry and every handler, so the registry is never read. |
| `HttpServer.UnknownSessionRejected` | src/http-server.ts:111-113 | under the corrected own-key lookup (the read as written is `PrototypeLookup.PropertyOf`), an id with no entry gets 404 and the no-transport text. `end` is never replaced, and the answer does not depend on the handler, so the handler never runs. |
| `HttpServer.KnownSessionReachesItsTransport` | src/http-server.ts:82-99 | a call for a registered id is relayed to the handler of the transport filed under that id. The answer depends on that handler alone, and in a keyed registry that transport carries the requested id. |
| `HttpServer.KnownSessionRestoresEnd` | src/http-server.ts:86-105 | for a registered id, the original `end` is in place after dispatch. A handler that throws leaves the same response as one that returns after the same actions. |
| `HttpServer.FallbackAcknowledgesSilentHandler` | src/http-server.ts:107-110 | for a registered id, the handler's chunks reach the wire. `200 {status: 'ok'}` is appended exactly once when the handler sent no head and passed `end` no payload, and the response then finishes. Otherwise nothing is appended, the handler's status stands, and the response is left unfinished. |
| `HttpServer.HandlePostMessage` | src/http-server.ts:99 | the handler of the given transport runs: its head and `end` call are applied to the response, and the step reports whether it threw |
| `HttpServer.Server.constructor` | src/http-server.ts:38 | the registry starts empty |
| `HttpServer.Server.OpenStream` | src/http-server.ts:41-56 | the stream's head goes out with status 200, and a constructed transport is registered under its id. When construction throws, the registry is unchanged. |
| `HttpServer.Server.CloseStream` | src/http-server.ts:59-62 | the close event deletes the key of the stream's transport |
| `HttpServer.Server.PostMessages` | src/http-server.ts:74-114 | with the corrected own-key lookup (the read as written is `PrototypeLookup.PropertyOf`), the response after the call is `Dispatched` of the registry, the query and the transports' handlers. The registry is unchanged and stays keyed. The transport reached is `transports[sessionId]`, whose own id is `sessionId`, or none when the call is rejected. The lemmas above state what that response is. |
| `HttpServer.Server.Health` | src/http-server.ts:117-124 | on an unanswered response: 200 with `connections` equal to the number of registry keys; the registry is unchanged |
| `Sessions.Step` | src/http-server.ts:41-124 | one event-loop turn: calls, health checks and failed opens leave the registry unchanged. A close removes its id, and a successful open files its transport under its id. Entries stay filed under their own ids. |
| `Sessions.Apply` | src/http-server.ts:41-124 | one event-loop turn runs the matching `Server` route or close handler on a fresh response, and leaves the registry that `Step` gives. This makes the lemmas about `Run` statements about the class. |
| `Sessions.RunMatchesLatestEntry` | src/http-server.ts:53-62 | after any sequence of opens, failed opens, closes, calls and health checks, looking up an id gives the transport of its latest successful open, unless a close of that id came later |
| `Sessions.RegistryHoldsOpenSessions` | src/http-server.ts:122 | the registry's keys are exactly the open sessions, so the health count equals the number of open sessions |
| `Sessions.RunKeepsKeyed` | src/http-server.ts:55 | every entry stays filed under its own transport's id through any sequence of turns |
| `Sessions.ClosedSessionAnswered404` | src/http-server.ts:111-113 | under the corrected own-key lookup, a call naming an id whose latest turn is a close, or that was never opened, gets 404 |
| `Sessions.CloseThenPostAnswered404` | src/http-server.ts:59-62 | under the corrected own-key lookup, after one or more close events for a session, a call naming it gets 404 |
| `Sessions.OpenSessionReachesLatestTransport` | src/http-server.ts:82-99 | after any sequence of turns, a call for an open id is relayed to the handler of the transport from that id's latest open, and to no other |
| `Sessions.CallsLeaveRegistry` | src/http-server.ts:74-124 | message calls and health checks never change the registry |
| `PrototypeLookup.PropertyOf` | src/http-server.ts:82 | a property read on the registry object yields the own entry for registered ids. It yields an inherited member, which is truthy, for unregistered names of `Object.prototype`, and `undefined` otherwise. |
| `PrototypeLookup.DispatchedAsWritten` | src/http-server.ts:74-114 | the route as written. An inherited name runs no handler, because calling `handlePostMessage` throws and the exception is caught, and it falls through to the 200 fallback. In every case `end` is the original afterwards, and earlier output is only added to. |
| `PrototypeLookup.ConstructorIdAcknowledged` | src/http-server.ts:82-110 | as written, with an empty registry and id `constructor`, the answer is `200 {status: 'ok'}`; the corrected dispatcher answers 404 |
| `PrototypeLookup.InheritedNamesAcknowledged` | src/http-server.ts:82-110 | as written, every unregistered name of `Object.prototype` gets the 200 acknowledgment; the corrected dispatcher answers 404 |
| `PrototypeLookup.AsWrittenAgreesElsewhere` | src/http-server.ts:74-114 | apart from those names, the code as written and the corrected dispatcher answer alike |

## Findings

| source | as written | input that shows it | evidently intended | confidence | as-written member | corrected member |
|---|---|---|---|---|---|---|
| src/http-server.ts:82-84 | `transports[sessionId]` on a plain object literal, tested for truthiness | `POST /messages?sessionId=constructor` (also `__proto__`, `toString`, ...) with no such session: the inherited value is truthy, `handlePostMessage` is not a function, the `TypeError` is caught, and the fallback answers `200 {status: 'ok'}` | 404 for every id that is not a registered session (an own-key test) | high, not executed | `PrototypeLookup.ConstructorIdAcknowledged` | `HttpServer.UnknownSessionRejected` |

The route as written is `PrototypeLookup.DispatchedAsWritten`, and the lemma above exhibits its 200 answer. The corrected route is `HttpServer.Dispatched`, and `HttpServer.Server.PostMessages` is proved against it; both use the own-key test.

## Left out

- The Express app, both CORS registrations, the global OPTIONS handler, JSON body parsing and the `/` redirect (src/http-server.ts:9-26, 127-129) are framework setup with no state.
- Building the MCP server and registering its tools (src/http-server.ts:29-35) are calls into code that is not part of this model.
- The transport library is not part of this model. Its session-id generation, event framing, `handlePostMessage` and `server.connect` are represented by an opaque transport and the `HandlerRun` parameter.
- The 500 answer after a failed open (src/http-server.ts:67-69) cannot send anything, because the head already went out at line 46. The model keeps only that a failed open registers nothing.
- Socket and keep-alive timeouts, `listen` and logging are I/O and timing.
- Asynchronous interleaving is not modelled. The handler runs as one synchronous step, so work it finishes after `end` is restored is not modelled.
- A query value that is an array or an object (repeated or bracketed parameters) is not modelled. The query is either missing or one string.
- Registry keys are ordinary map keys. Storing an entry under the key `__proto__` of a JavaScript object would not behave like storing an entry under any other key, but generated ids never take that form.
- `HttpServer.HandlerRun`: a handler makes at most one `writeHead` and then at most one `end` call. A handler that calls `res.write` directly or calls `end` several times is not modelled, so the exactly-once acknowledgment of `HttpServer.FallbackAcknowledgesSilentHandler` is proved for handlers of that kind only. `Http.ShimEndOnlyWritesFirstArgument` covers any single `end` call.
- `HttpServer.HandlePostMessage`: a handler that sends a head twice is not modelled, because Node throws on a second `writeHead`. A handler acts on an unanswered response only.
