# TutoriaLLM session and sandbox bookkeeping, in Dafny

This project models the server side of TutoriaLLM that keeps a tutoring
session consistent: the WebSocket coordinator, which owns the session
records, the connected clients and the frames sent to them; and the
execution manager, which keeps one table entry of isolated sandboxes per
session owner, starts and stops them, prunes the sandbox router and turns the sandbox's log lines into
dialogue entries.

Two checkouts of the coordinator are modelled. `Session.Coordinator` follows
`src/server/session/websocket/index.ts`, the newer one with error handling and
the tutor. `Legacy.LegacyCoordinator` follows `src/server/websocket/index.ts`,
the older one.

Layout, one module per file:

- `wrappers.dfy`: `Option`.
- `types.dfy`: the session record, dialogue entries, command envelopes, the
  JavaScript values that matter (`undefined`, `null`, strings, booleans) and
  their truthiness. It also holds the empty-code test.
- `broadcast.dfy`: what both coordinators share about connections. This is
  the handler context, client ids, the calls into the execution manager,
  the fan-out of one payload to a record's registered clients, and the
  removal of one client id.
- `log.dfy`: the sandbox's `LogBuffer` class. A ghost history proves that
  no line is lost or duplicated between `add` and the flush callback.
- `contexts.dfy`: the host globals installed in a sandbox, the `log` and
  `error` primitives, and the `messageHandlers` table.
- `vm.dfy`: the `vmInstances` table and router as the `VmHost` class. Its
  methods are proved equal to the state functions `ExecSpec` and `StopSpec`.
  Lemmas about those functions relate starting and stopping.
- `session.dfy` and `legacy.dfy`: the two coordinators as classes. Each
  handler is one method, and its `ensures` gives the new store, the new
  registry, the frames sent and the calls made.

What is a parameter of the model, because it is I/O, time, randomness or
code outside the core:

- The clock (`now`).
- The random client-id suffix.
- How the tutor call ends: a reply, a falsy value, or a throw.
- How the coordinator's call of `ExecCodeTest` ends: its result string, or a rejection.
- The localised empty-code text.
- Whether the user's script compiled, ran or threw.
- The isolate, context and script handles.
- The timer handle `setInterval` returns.

Calls into the execution manager and the tutor are recorded in traces
(`vmCalls`, `tutorCalls`), not run.

The model keeps these behaviours of the code as written:

- `StopCodeTest` never stops the sandbox's log buffer.
- A successful `ExecCodeTest` replaces a running instance of the same owner
  without disposing it (`Vm.ExecLeaksPrevious`).
- A session-shaped frame from another uuid is answered with `Invalid uuid`
  and a close, and is still persisted unless the tutor throws
  (`Session.MismatchedWorkspaceStillPersisted`).
- The tutor gate's `data.dialogue !== currentDataJson.dialogue` always holds,
  because the two arrays are parsed separately, so resending a dialogue
  invokes the tutor again (`Session.TutorGate`).
- The empty-code test `value === (undefined || null || "")` accepts only the
  empty string (`Types.EmptyCodeIsOnlyEmptyString`).
- A `stop` request broadcasts the `false` flag but does not persist it.
- The error line queued when the script throws starts with a literal double
  quote: `"VM error: "` followed by the error.

## Model

| member | source | states |
|---|---|---|
| Types.EmptyCodeIsOnlyEmptyString | src/server/session/websocket/index.ts:236 | the empty-code test holds exactly for the empty string; `undefined` and `null` fail it |
| Broadcast.BroadcastAppend | src/server/session/websocket/index.ts:344-350 | broadcasting to a concatenated id list is broadcasting to each part in turn, so a loop over the ids produces the list's broadcast |
| Broadcast.BroadcastReaches | src/server/session/websocket/index.ts:344-350 | a frame is sent exactly when some listed id is registered, and it goes to that id's socket with the given payload |
| Broadcast.BroadcastLength | src/server/session/websocket/index.ts:344-350 | at most one frame per listed id, and exactly one each when all listed ids are registered |
| Broadcast.BroadcastCount | src/server/session/websocket/index.ts:344-350 | the number of frames is exactly the number of list positions whose id is registered |
| Broadcast.WithoutAppend | src/server/session/websocket/index.ts:300-302 | filtering out an id distributes over concatenation |
| Broadcast.WithoutMembers | src/server/session/websocket/index.ts:300-302 | the filtered list holds exactly the other ids of the original list |
| Broadcast.WithoutAbsent | src/server/session/websocket/index.ts:300-302 | filtering out an id not in the list changes nothing |
| Broadcast.JoinThenLeave | src/server/session/websocket/index.ts:63-66 | a client that joins with a new id and then leaves restores the client list |
| Logging.LogBuffer.constructor | app/src/server/session/websocket/vm/log.ts:2-9 | a new buffer is empty, stopped and bound to its session code |
| Logging.LogBuffer.Start | app/src/server/session/websocket/vm/log.ts:11-14 | sets the timer only when none is set, so a second call changes nothing; the queue is kept |
| Logging.LogBuffer.Stop | app/src/server/session/websocket/vm/log.ts:16-21 | clears the timer, or changes nothing when already stopped; the queue is kept |
| Logging.LogBuffer.Add | app/src/server/session/websocket/vm/log.ts:23-25 | exactly the line is appended at the end of the queue and the timer is untouched |
| Logging.LogBuffer.Flush | app/src/server/session/websocket/vm/log.ts:27-36 | an empty queue calls nothing; otherwise the callback gets the code and exactly the queued lines, and the queue is emptied whether or not the callback fails; no line is lost or duplicated |
| Logging.AddThenTickTwice | app/src/server/session/websocket/vm/log.ts:11-36 | lines added to a started buffer reach the callback in one batch, in order, and a second tick calls nothing |
| Contexts.SplitJoin | app/src/server/session/websocket/vm/contexts.ts:33-40 | arguments without spaces are recovered from the joined line, so joining loses only the separators |
| Contexts.Log | app/src/server/session/websocket/vm/contexts.ts:33-36 | `log(...args)` queues exactly one line, the arguments joined with single spaces |
| Contexts.Error | app/src/server/session/websocket/vm/contexts.ts:37-40 | `error(...args)` queues the same line into the same buffer as `log` |
| Contexts.MessageHandlers.constructor | app/src/server/session/websocket/vm/contexts.ts:7 | the handler table starts empty |
| Contexts.MessageHandlers.OnMessage | app/src/server/session/websocket/vm/contexts.ts:51-53 | the handler of that uuid, and only that entry, is replaced |
| Contexts.MessageHandlers.HandleMessageFromVM | app/src/server/session/websocket/vm/contexts.ts:9-14 | the handler of the sender's uuid, and no other, is invoked once with the message; nothing happens without a callable handler |
| Contexts.Jail.constructor | app/src/server/session/websocket/vm/index.ts:75 | a new global object has no bindings |
| Contexts.Jail.Set | app/src/server/session/websocket/vm/contexts.ts:24 | `jail.set` binds one name and leaves the others |
| Contexts.AddDefaultContexts | app/src/server/session/websocket/vm/contexts.ts:16-56 | the nine default globals are bound: the global itself, copies of code, uuid and server root path, `log` and `error` onto the given buffer, `sleep`, and the messaging pair bound to the uuid; other globals are kept |
| Vm.IncludesIffOccurs | app/src/server/session/websocket/vm/index.ts:148 | the recursive `includes` agrees with "occurs at some index" |
| Vm.KeepLayersAppend | app/src/server/session/websocket/vm/index.ts:145-151 | pruning a concatenation prunes each part and keeps the survivors' order |
| Vm.KeepLayersMembers | app/src/server/session/websocket/vm/index.ts:145-151 | a layer survives pruning exactly when it was on the stack and has no route whose path contains the code |
| Vm.KeepLayersNone | app/src/server/session/websocket/vm/index.ts:145-151 | a stack with no layer of the code is left as it was |
| Vm.AppendLogLines | app/src/server/session/websocket/vm/index.ts:61-68 | each log line becomes a `log` entry, not by the user, with ids continuing the dialogue's numbering; earlier entries are kept |
| Vm.FlushToSession | app/src/server/session/websocket/vm/index.ts:55-70 | with no record nothing is written; otherwise the record goes to the updater with only its dialogue extended by the lines |
| Vm.StopSpec | app/src/server/session/websocket/vm/index.ts:118-161 | "not running" exactly when the owner has no running instance, leaving the state alone; otherwise the isolate is disposed and the instance marked stopped; success exactly when the session exists and is the owner's, removing the instance and pruning the router; a running instance with a missing session gets "Invalid session" and one of another owner gets "Invalid uuid", both leaving the stopped entry and the router |
| Vm.ExecSpec | app/src/server/session/websocket/vm/index.ts:44-116 | `"Valid uuid"` exactly when the session exists and is the owner's; the invalid cases change nothing; a valid run sets the owner's entry to a new running instance, with a script handle unless compiling threw, and keeps every other owner's entry; unless the run threw while a previous instance ran, the router and the disposed isolates are unchanged |
| Vm.StopTwice | app/src/server/session/websocket/vm/index.ts:118-161 | a stop right after a stop finds nothing running and changes nothing |
| Vm.ExecThenStop | app/src/server/session/websocket/vm/index.ts:110-156 | a valid run followed by a stop succeeds, removes the owner's instance and disposes exactly the run's isolate |
| Vm.ExecLeaksPrevious | app/src/server/session/websocket/vm/index.ts:110 | a run that does not throw replaces the owner's running instance without disposing it or pruning the router |
| Vm.ExecErrorStopsPrevious | app/src/server/session/websocket/vm/index.ts:101-110 | a run that throws first stops the owner's previous instance, then stores the new one |
| Vm.VmHost.constructor | app/src/server/session/websocket/vm/index.ts:19-30 | no instances, nothing disposed, and the given router stack |
| Vm.VmHost.PruneRoutes | app/src/server/session/websocket/vm/index.ts:145-151 | the backward `splice` loop leaves exactly the layers without a route of the code, in their order |
| Vm.VmHost.StopCodeTest | app/src/server/session/websocket/vm/index.ts:118-161 | the new manager state and the result are those of `StopSpec` |
| Vm.VmHost.ExecCodeTest | app/src/server/session/websocket/vm/index.ts:32-116 | the new manager state and the result are those of `ExecSpec`; on a valid session a fresh started log buffer holds the error line if the script threw, and a fresh global object holds the default globals bound to that buffer |
| Session.UpdateDialogueLLM | src/server/session/websocket/index.ts:104-210 | no result exactly when the gate holds and the tutor throws; without the gate or with a falsy non-nullish reply, the dialogue and progress are unchanged; with a reply, an `ai` entry, then a block-id entry and a block-name entry when present, consecutively numbered, with the reply's progress; never replying |
| Session.DataToPut | src/server/session/websocket/index.ts:212-229 | run flag, clients, creation time and language are the stored record's; code, owner, workspace, tutor context and tutorial are the frame's; dialogue and progress are the tutor's update; no record exactly when the tutor throws |
| Session.MismatchedWorkspaceStillPersisted | src/server/session/websocket/index.ts:96-101 | a frame with another uuid is persisted carrying the sender's uuid, unless the tutor throws |
| Session.OpenRecord | src/server/session/websocket/index.ts:235-280 | the persisted run flag is set exactly when the code is not empty and the manager answered `"Valid uuid"`; the empty code adds one `log` entry; nothing else changes; no record exactly when the code is not empty and the manager's call rejected |
| Session.OpenEventsReachListedClients | src/server/session/websocket/index.ts:235-280 | every frame an `open` request sends goes to a registered client listed in the record |
| Session.Coordinator.constructor | src/server/session/websocket/index.ts:16-19 | an empty registry, nothing sent and nothing called |
| Session.Coordinator.SendToAllClients | src/server/session/websocket/index.ts:344-350 | the message, or else the record, goes to each listed registered id in list order |
| Session.Coordinator.UpdateDatabase | src/server/session/websocket/index.ts:84-92 | persists the record, then broadcasts it to its registered clients |
| Session.Coordinator.Connect | src/server/session/websocket/index.ts:36-71 | a missing code gets `Invalid code` and a close; another owner gets `Invalid uuid` and a close; otherwise the new id is registered, added to the record once, the language switched, and the run flag sent to the new socket only |
| Session.Coordinator.HandleWorkspace | src/server/session/websocket/index.ts:94-233 | sends the mismatch error, then persists and broadcasts the merged record; when the tutor throws, only the mismatch error goes out and nothing is persisted; the tutor is called exactly when its gate holds |
| Session.Coordinator.HandleOpen | src/server/session/websocket/index.ts:235-280 | the store, frames and manager calls of an `open` request; a rejected manager call persists and sends nothing and reports failure |
| Session.Coordinator.HandleStop | src/server/session/websocket/index.ts:282-288 | the manager is asked to stop and the `false` flag is broadcast; the store is not changed |
| Session.Coordinator.OnMessage | src/server/session/websocket/index.ts:73-293 | a missing record gets `Server error` and changes nothing; a throwing tutor gets the mismatch error, then `Server error`, with nothing persisted and no `open` or `stop` handled; a rejected manager call on `open` gets `Server error` after the session-shaped part; otherwise the session-shaped part runs when a non-empty workspace is sent, then `open` or `stop` against the record read first |
| Session.Coordinator.OnClose | src/server/session/websocket/index.ts:295-308 | the closing id alone leaves the record's client list and the registry; with no record nothing changes |
| Legacy.UpdateLog | src/server/websocket/index.ts:193-208 | one `log` entry without id is appended and every other field is kept |
| Legacy.DataToPut | src/server/websocket/index.ts:89-100 | the frame's code, owner, workspace and dialogue as sent; the stored record's creation time, run flag, clients and language |
| Legacy.OpenRecord | src/server/websocket/index.ts:106-139 | the persisted run flag is set exactly when the code is not empty and the manager answered `"Valid uuid"`; the empty code adds one `log` entry without id; no record exactly when the code is not empty and the manager's call rejected |
| Legacy.LegacyCoordinator.constructor | src/server/websocket/index.ts:13-16 | an empty registry, nothing sent and nothing called |
| Legacy.LegacyCoordinator.SendToAllClients | src/server/websocket/index.ts:185-191 | the message, or else the record, goes to each listed registered id in list order |
| Legacy.LegacyCoordinator.UpdateDatabase | src/server/websocket/index.ts:73-81 | persists the record, then broadcasts it |
| Legacy.LegacyCoordinator.Connect | src/server/websocket/index.ts:33-60 | a missing code throws and nothing is sent; another owner gets `Invalid uuid` and a close; otherwise as in the newer checkout |
| Legacy.LegacyCoordinator.HandleWorkspace | src/server/websocket/index.ts:83-104 | persists the verbatim merge and sends the mismatch error, then the broadcast; no tutor |
| Legacy.LegacyCoordinator.HandleOpen | src/server/websocket/index.ts:106-139 | the store, frames and manager calls of an `open` request; a rejected manager call persists and sends nothing |
| Legacy.LegacyCoordinator.HandleStop | src/server/websocket/index.ts:141-147 | the manager is asked to stop and the `false` flag is broadcast; the store is not changed |
| Legacy.LegacyCoordinator.OnMessage | src/server/websocket/index.ts:62-148 | a missing record throws and nothing changes; otherwise as in the newer checkout, without the tutor, and a rejected manager call on `open` ends the step with nothing further sent |
| Legacy.LegacyCoordinator.OnClose | src/server/websocket/index.ts:150-159 | the closing id alone leaves the client list and the registry |

## Left out

- The isolated-vm internals: the memory limit, context creation and the script's own behaviour. Handles are opaque and the run's outcome is an input.
- `sleep` and every timer callback. Timer handles are parameters, and each tick of the log timer is one call of `Flush`.
- Logging.LogBuffer.Flush: a tick after `stop` is not excluded, because the model does not say when ticks happen.
- Contexts.MessageHandlers.HandleMessageFromVM: a handler that is truthy but not a function throws in the source. Here a handler is either callable or falsy.
- Contexts.Log: each argument is taken as its string form. In the source `arg.toString()` throws on a `null` or `undefined` argument, so `log(null)` queues nothing and throws back into the sandbox; that throw is not modelled. The same holds for Contexts.Error.
- The application of a message inside the sandbox's handler. Deliveries are recorded, not run.
- Vm.VmHost.ExecCodeTest: the user's script text is not held by the instance. The coordinator passes it, and the model records that.
- Vm.VmHost.ExecCodeTest: a script that throws `null` or `undefined` makes `(e as string).toString()` throw inside the catch, so the source rejects without stopping the previous instance, storing the new one or starting the buffer. The model's thrown error is always a string, so it always queues the error line and answers `"Valid uuid"`.
- Legacy.LegacyCoordinator.Connect: with a missing record the handler's promise rejects and nothing catches it. A current Node.js process exits on such a rejection by default; the model treats it as a step with no effect.
- Legacy.LegacyCoordinator.OnMessage: the same unhandled rejection on a missing record, or on a rejected `ExecCodeTest`, treated as a step that ends there rather than a process exit.
- Legacy.LegacyCoordinator.OnClose: the same unhandled rejection on a missing record, treated as a step with no effect rather than a process exit.
- The extension loader and the HTTP route for serving sandbox code (`vmExpress` gets its routes from outside the core). The router stack is the constructor's argument.
- The coordinators' calls of `ExecCodeTest` do not match its signature at app/src/server/session/websocket/vm/index.ts:32-43, which takes six parameters: code, uuid, script, server root path, a `clients` map and a three-argument `DBupdator`. The newer checkout passes five arguments (src/server/session/websocket/index.ts:254-260), so its `updateDatabase` lands in `clients` and `DBupdator` is `undefined`. The older checkout passes its router as `clients` and a one-argument updater (src/server/websocket/index.ts:118-125). The coordinators therefore take the call's answer (a result string or a rejection) as a parameter and do not run the manager.
- Vm.VmHost.ExecCodeTest: a synchronous run that never ends keeps the call pending at app/src/server/session/websocket/vm/index.ts:100, so no instance is stored and a later `stop` finds nothing running. The model's run always ends.
- `invokeLLM` and `utils/dialogueUpdater.js` are not part of this model. `updateDialogue` is taken to append one entry, not by the user, numbered one past the dialogue's length.
- The `/get/:code` and `/hello` HTTP routes, which are read-only lookups outside the session bookkeeping.
- i18next's translation lookup. The localised text is a parameter, and only the language switch on connect is recorded.
- JSON parsing and serialisation. Frames and records are datatype values, and a malformed frame is not modelled.
- Interleaving of concurrent handlers and of awaited database calls. Each handler is one atomic step, and the unawaited second update of the empty-code path is placed after the flag broadcast.
- Console output.
- The Editor UI in `src/client`.
