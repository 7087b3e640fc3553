# Solidity debugger bridge and debug-adapter session, in Dafny

This project models two parts of a VS Code debug extension for Solidity.

The first is `SdbRuntimeInterface`, the bridge to a remote debugger over one websocket. It covers:

- the message envelope `{id, isRequest, type, content}`;
- the command builders, which send one request frame under a fresh uuid;
- the pending-request table `_debuggerMessages`, which holds the `resolve` function of each awaited command;
- the inbound dispatcher `handleMessage`, which echoes pings, publishes events, ignores other pushes, throws on error replies and resolves data replies;
- the `attach`/`reconnect`/`disconnect` lifecycle over the flags `_connected` and `_disconnecting`.

The second is `SolidityDebugSession`, the debug-adapter session. The model covers each request handler's runtime calls and front-end messages, and the mapping from runtime events to front-end events.

Everything is a pure function over immutable datatypes:

- the dispatcher is a step `(table, frame) -> (table', sent frames, published events, resolutions | thrown fault)`;
- each command is `(table, freshId) -> (table', frame)`;
- the connection lifecycle is a step over the two flags and the phase of the current socket, driven by the inputs attach, socket open, socket error, close from the remote side, retry timer and disconnect.

Modules: `Wrappers` (Option), `Json` (JavaScript values, truthiness, property reads), `Text` (decimal rendering of numbers), `Protocol` (envelopes, commands, frame layout and its decoder), `Correlator` (pending table, command builders), `Dispatcher` (`handleMessage`), `Connection` (lifecycle), `Bridge` (the bridge object as a whole), `Session` (the debug-adapter session).

Three behaviours of the code are worth stating up front:

- **Error replies.** An error reply throws `new Error(content.error)` before the `delete` is reached. No `reject` is ever stored, so the entry stays in the table and its caller never settles. `Dispatcher.ErrorReplyKeepsEntry` states this.
- **No session states.** The session keeps no state such as running, stopped or terminated, and rejects no request after `end`. It only translates each request and event.
- **Disconnect with no socket.** `disconnect()` before any `attach` sets the flag and then fails on the undefined socket. The model reports this as `NoSocketError`.

## Model

| member | source | states |
|---|---|---|
| `Protocol.Frame` | src/runtimeInterface.ts:28-205 | a command frame is a request under the given id, and the remote side decodes its content back to exactly that command (type, path, line, frame range, args or `null`, action, expression/context/frameId) |
| `Protocol.UiActionFrames` | src/runtimeInterface.ts:97-185 | the six step/continue builders send `type` `uiAction`, and each action name is one of continue, continueReverse, stepOver, stepBack, stepIn, stepOut and decodes back to its own action |
| `Correlator.Issue` | src/runtimeInterface.ts:28-205 | every builder sends a request frame under its fresh id; the four awaited builders add exactly their own id with their own resolve function and keep every other entry; `clearBreakpoints` and the `uiAction` builders leave the table unchanged |
| `Correlator.IssueRegistersIffAwaited` | src/runtimeInterface.ts:43-95 | an id is pending after a builder exactly when the command is setBreakpoint, stack, variables or evaluate |
| `Dispatcher.Dispatch` | src/runtimeInterface.ts:207-241 | per frame shape: ping echoed, event published, other push ignored, error reply throws with the table unchanged, unreadable content throws TypeError, data reply resolves the pending id once and deletes only it; the table only ever loses entries |
| `Dispatcher.PingEcho` | src/runtimeInterface.ts:215-224 | a ping request yields exactly one frame: same id, `isRequest` false, type `ping`, empty content; nothing published or resolved; table unchanged |
| `Dispatcher.EventForwarding` | src/runtimeInterface.ts:212-214 | an event push publishes exactly `(content.event, content.args)`, sends nothing, resolves nothing, leaves the table unchanged |
| `Dispatcher.UnknownPushIgnored` | src/runtimeInterface.ts:210-227 | a request frame of any other type changes nothing and produces nothing |
| `Dispatcher.CorrelatedReply` | src/runtimeInterface.ts:233-239 | a data reply to a pending id runs that id's handler exactly once with `content.data`, removes that id and keeps every other entry |
| `Dispatcher.UnmatchedReply` | src/runtimeInterface.ts:234-238 | a data reply to an id that is not pending runs no handler and leaves the table unchanged |
| `Dispatcher.ErrorReplyKeepsEntry` | src/runtimeInterface.ts:229-238 | a reply with a truthy `content.error` throws with that value before the delete, so the table, including the matching entry, is unchanged and no handler runs |
| `Dispatcher.ReplyResolvesOnce` | src/runtimeInterface.ts:233-239 | delivering the same data reply twice resolves nothing the second time |
| `Dispatcher.DrainAppend` | src/runtimeInterface.ts:207-241 | a run of frames that has not thrown can be continued: the later frames' sends, events and resolutions follow the earlier ones', and a later throw takes none of them back |
| `Dispatcher.ResolvedBeforeThrow` | src/runtimeInterface.ts:229-238 | a data reply followed by a frame that throws: the run reports both the caller's resolution and the fault, and the resolved id is gone from the table |
| `Dispatcher.DrainStopsAtThrow` | src/runtimeInterface.ts:207-241 | the first frame that throws ends the run: nothing further is sent, published or resolved, and the table is as it was before that frame |
| `Dispatcher.RepliesResolveTheirCallers` | src/runtimeInterface.ts:207-241 | data replies to distinct pending ids, in any arrival order, resolve each reply's own handler exactly once, in arrival order, and the table loses exactly those ids |
| `Connection.Step` | src/runtimeInterface.ts:252-299 | `_disconnecting` and `_connected` never reset; disconnect sets the flag; no socket is opened while disconnecting; a socket error schedules a retry iff no open has happened yet, and is fatal iff one has; only an open sets `_connected` and makes the bridge ready; a close from the remote side sends nothing, keeps both flags and leaves an open socket not ready |
| `Connection.RunKeepsConsistent` | src/runtimeInterface.ts:267-293 | on every run of inputs, the bridge is never open, closed or crashed without `_connected`, and never back to having no socket with `_connected` set |
| `Connection.DisconnectIsPermanent` | src/runtimeInterface.ts:252-265 | once `disconnect` has set the flag it stays set, and no later input of any kind opens a socket |
| `Connection.AttachWhileDisconnecting` | src/runtimeInterface.ts:267-298 | `attach` while disconnecting resolves at once and opens no socket |
| `Connection.ErrorAfterOpenIsFatal` | src/runtimeInterface.ts:285-292 | in every state reachable from the constructor in which the socket is open, a socket error is thrown as fatal |
| `Connection.RetryUntilOpen` | src/runtimeInterface.ts:252-293 | a handshake failing k times and then succeeding makes k retries, opens k+1 sockets and resolves `attach` exactly once, at the successful open |
| `Connection.PeerCloseStalls` | src/runtimeInterface.ts:243-293 | a close from the remote side reaches no listener: the open socket stops being ready, and without a new `attach` no later input opens a socket or makes the bridge ready again, so `waitForConnection` never returns |
| `Connection.DisconnectDuringRetry` | src/runtimeInterface.ts:252-265 | a retry that fires after `disconnect` resolves the waiting `attach` without re-attaching, and nothing afterwards opens a socket |
| `Bridge.Send` | src/runtimeInterface.ts:243-250 | a command goes out only once the socket is ready; the connection is untouched; the id is pending afterwards iff the command awaits a reply; older entries are kept |
| `Bridge.Receive` | src/runtimeInterface.ts:281-283 | a frame arriving on the open socket only shrinks the table, and a thrown frame leaves it unchanged |
| `Bridge.SetBreakpointRoundTrip` | src/runtimeInterface.ts:43-60 | `setBreakpoint` followed by a data reply under its id resolves the breakpoint promise with the reply's data and restores the table |
| `Bridge.IssueAll` | src/runtimeInterface.ts:28-205 | issuing several commands under distinct fresh ids adds exactly the awaited ids, each with its own command's handler, and keeps older entries |
| `Bridge.ConcurrentRequestsCorrelate` | src/runtimeInterface.ts:207-241 | after several awaited commands, replies carrying exactly their ids in any order resolve each with the handler of the command that used that id, and the table returns to its state before the commands |
| `Session.OnRuntimeEvent` | src/sdbDebug.ts:49-80 | each stop event becomes one stopped event on thread 1 with its reason; `end` becomes terminated; breakpointValidated becomes a `changed` breakpoint event with the runtime's verified and id; output gets a newline and converted line/column; other events send nothing |
| `Session.StopReasonTable` | src/sdbDebug.ts:50-67 | entry, step, stepin, stepout, breakpoint, exception for the six stop events, and no two stop events share a reason |
| `Session.InitializeRequest` | src/sdbDebug.ts:87-107 | the initialized event is sent before the response; the body (`{}` if absent) gets the three capabilities set to true and keeps all other fields |
| `Session.SetBreakPointsRequest` | src/sdbDebug.ts:122-143 | the path is cleared first, even with no lines; then one setBreakPoint per requested line in order; the response has one breakpoint per line, in order, with `verified` and `id` from the runtime's answer for that line |
| `Session.ThreadsRequest` | src/sdbDebug.ts:145-154 | exactly one thread, with id 1 |
| `Session.StackTraceRequest` | src/sdbDebug.ts:156-169 | startFrame defaults to 0 and levels to 1000; the runtime is asked for startFrame to startFrame+levels; one response frame per runtime frame, in order, with its index, name, source and converted line; totalFrames is the runtime's count |
| `Session.ScopesRequest` | src/sdbDebug.ts:171-182 | exactly two scopes: Local (not expensive), then Global (expensive), with two new distinct handles standing for `"local_"+frameId` and `"global_"+frameId`; existing handles keep their values |
| `Session.ScopeKeysIdentifyFrame` | src/sdbDebug.ts:175 | distinct frame ids give distinct scope keys |
| `Session.VariablesRequest` | src/sdbDebug.ts:184-193 | the runtime's variables are returned as they are |
| `Session.ControlRequestHandler` | src/sdbDebug.ts:195-229 | each control request makes exactly one runtime call and sends its response; reverse-continue is `continue(true)`, step-back is `stepOver(true)`, forward variants pass no flag |
| `Session.EvaluateRequest` | src/sdbDebug.ts:257-263 | the evaluator gets the request's expression, context and frame; the handler itself sends no response |
| `Session.EvaluateAnswered` | src/sdbDebug.ts:257-262 | each run of the evaluator's callback sends one response whose result is the reply, with variablesReference 0, and makes no runtime call |
| `Session.LaunchRequest` | src/sdbDebug.ts:109-120 | the runtime interface serves on 127.0.0.1:8455, then the response is sent |
| `Session.LaunchServed` | src/sdbDebug.ts:115-117 | once serving, the runtime starts, stopping on entry exactly when `stopOnEntry` was true |
| `Text.NatToString` | src/sdbDebug.ts:175-176 | the number in a scope key is a non-empty run of decimal digits with no leading zero |
| `Text.IntToStringInjective` | src/sdbDebug.ts:175-176 | the decimal rendering reads back, so distinct numbers render differently |

## Left out

- Websocket transport and JSON: frames are the objects before `JSON.stringify` and after `JSON.parse`. Text encoding and malformed JSON are not modelled.
- `waitForConnection` polling: it is the readiness precondition of `Bridge.Send`.
- Timing: the 10000 ms retry period, the 50 ms poll, the 10000 ms handshake timeout and the `console.log` lines.
- uuid generation: the id is a parameter, required to be absent from the table.
- `setImmediate` deferral in `sendEvent`: a published event is appended to the step's `published` list. The later `emit` to subscribers is scheduling.
- `LibSdbRuntime`, `Handles`, `Source`, `Logger` and the line/column/path conversions: these libraries are not part of this model. The runtime and the conversions are function values passed as parameters. `Handles` is modelled as an allocator that hands out an unused handle. The library's real numbering is not modelled.
- `Logger` setup in `launchRequest`: it only controls logging.
- JavaScript numbers are modelled as integers: NaN, fractions and float rendering are not modelled.
- Concurrent `attach` calls: `Connection` tracks one current socket. A new attach replaces it, and the listeners of an abandoned socket are not followed. A retry that is already sleeping is dropped as well: in the code, `reconnect` would still call `attach` when it wakes and open a second socket. The promises that `reconnect` chains are collapsed into one `ResolveAttach` for the caller's promise.
- What a thrown error does next: `Dispatcher` reports the fault (`RemoteError`, `TypeError`). `Connection` moves to `Crashed`. Process termination is not modelled.
- Session.EvaluateRequest: the evaluator's callback is a separate step, `Session.EvaluateAnswered`. How often it runs (never, once or more) and when, relative to other messages, is the evaluator's business and is not modelled.
- `isRequest` is a boolean. Frames whose `isRequest` is some other JSON value, and are read by truthiness, are not modelled.
- `RemoteError` carries the `content.error` value itself. Its conversion into the `Error` message string is not modelled.
- `instanceof Function` in the dispatcher: only resolve functions are ever stored, so the check always holds, and a table value names the awaiting command.
- `variables(args)`: `args` is an object or absent, so `args || null` is that object or `null`.
- The commented-out REPL block in `evaluateRequest` (src/sdbDebug.ts:234-255): it is dead code.
- src/extension.ts: it only registers a configuration provider whose resolve step returns its input.
- test/test.ts: an integration test driver with no bridge or session logic.
