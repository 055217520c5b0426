# Roblox Studio MCP bridge: dispatch state and config install, in Dafny

This project models the core of a bridge between an MCP tool-calling client and Roblox
Studio. The bridge (src/rbx_studio_server.rs) turns each tool call into a command envelope
and appends it to a FIFO queue. It registers the call's result channel in a map keyed by
the envelope's UUID. The Studio plugin long-polls `/request` to take the queue's head and
posts results to `/response`, which completes the matching pending entry. A second bridge
that cannot bind the plugin port runs a relay loop instead. That loop pops its own commands
and forwards each to the owner's `/proxy` endpoint. The owner queues the forwarded command
like its own and answers once the plugin has replied.

The installer (src/install.rs) registers the executable as the `"Roblox Studio"` server in
a client's JSON config. It then reports which of the two clients, Claude and Cursor, were
set up.

Modules:

- `Wrappers`: `Option` and `Result`.
- `Dispatch`: the envelope (`ToolArguments`), the tool argument variants, ids, result
  channels (`Sender`), sends (`Delivery`), and the translation of a host result into a tool
  result. It also holds `Awaited`, the invariant "every queued command has an id, no two
  share one, and each has a pending entry".
- `ProxyRelay`: `Relay`, a function that specifies the relay loop, and its lemmas.
- `Server`: the class `AppState` (the queue `processQueue`, the map `outputMap` and a
  ghost set `issued` of ids seen). It has one method per locked section of the handlers.
- `Scenarios`: client methods that drive one `AppState` through whole lifecycles.
- `Install`: a JSON datatype, the config rewrite, and the aggregation of the two install
  results.

How the asynchronous code is modelled:

- Each mutex-guarded section is one atomic method.
- A handler that awaits between two locked sections becomes two methods:
  `StartToolRun`/`FinishToolRun` for `generic_tool_run`, and `ProxyEnqueue`/`ProxyFinish`
  for `proxy_handler`. The value the result channel's `recv()` yields is a parameter of
  the second method (`None` when every sender was dropped).
- `DudProxyLoop` is the exception to both rules: one call runs whole loop iterations, each
  one the pop (src/rbx_studio_server.rs:269), the awaited forward (:271-275) and the removal
  (:277-284). Nothing is lost by this on a follower. The only other operation there is a
  tool call, which appends under a fresh id and cannot touch the command in flight. A call
  with a single outcome is exactly one iteration, so interleavings between iterations can
  still be written as a sequence of calls.
- A send on a result channel is returned as a `Delivery`: the channel and the value sent.
- `Uuid::new_v4` is a parameter `drawn`. The precondition `drawn !in issued` says that a
  drawn UUID never repeats an earlier one.
- The relay loop gets the outcome of each forward as a parameter: a transport failure, or
  a reply whose body decoded to a response text or failed to decode.

Where the code and its design description differ, the model follows the code:

- An unknown id on `/response` surfaces as HTTP 500 "Something went wrong"
  (src/error.rs:29-39), not as a 4xx.
- `generic_tool_run` removes the pending entry only after a value was received. When the
  channel closed without a value it returns early and leaves the entry in place.
- `proxy_handler` also returns early, without removing the entry, when the received value
  is an error.
- A relay transport failure leaves the command's entry in `outputMap`, so its tool call
  stays unresolved.

## Model

| member | source | states |
|---|---|---|
| `Dispatch.WithId` | src/rbx_studio_server.rs:61-70 | the new envelope keeps the arguments and carries `Some(i)`, where `i` is the id returned beside it |
| `Dispatch.NewToolArguments` | src/rbx_studio_server.rs:57-60 | the envelope holds the given arguments unchanged and `Some` of the returned id |
| `Dispatch.ToCallToolResult` | src/rbx_studio_server.rs:203-206 | host success becomes a non-error tool result and host error an error tool result; the host result can be read back from it unchanged |
| `Server.AppState.constructor` | src/rbx_studio_server.rs:46-54 | a new state has an empty queue and an empty pending map |
| `Server.AppState.StartToolRun` | src/rbx_studio_server.rs:182-189 | the envelope with the drawn id is appended at the tail and its channel registered under that id; earlier queue entries and other map entries are unchanged; the follower invariant is kept |
| `Server.AppState.FinishToolRun` | src/rbx_studio_server.rs:194-206 | a received success or error becomes a tool result returned as a protocol success and the id's entry is removed (a no-op when already gone); a closed channel fails with "Couldn't receive response" and changes nothing; the queue is untouched |
| `Server.AppState.RequestHandler` | src/rbx_studio_server.rs:213-226 | on a non-empty queue it returns the head and leaves exactly the tail; on an empty queue it answers no work (423) and not an error; the pending map is untouched |
| `Server.AppState.ResponseHandler` | src/rbx_studio_server.rs:235-240 | an id without a pending entry fails with "Unknown ID" and changes nothing; otherwise exactly that entry is removed and `Ok(response)` is sent on its channel; afterwards the id is never pending, so a second post fails; the queue is untouched |
| `Server.AppState.ProxyEnqueue` | src/rbx_studio_server.rs:247-254 | a command without an id is rejected before any change; otherwise it is appended at the tail and its channel registered under its id |
| `Server.AppState.ProxyFinish` | src/rbx_studio_server.rs:255-261 | a received success removes the entry and answers with the same id; a closed channel or an error text fails and changes nothing |
| `Server.AppState.DudProxyLoop` | src/rbx_studio_server.rs:264-298 | the new queue, pending map and sends are those of `Relay` on the old state; the follower invariant, under which both `unwrap`s succeed, is kept |
| `ProxyRelay.RelayQueue` | src/rbx_studio_server.rs:268-269 | the relay pops the queue from its head, one command per forward, and leaves exactly the rest (FIFO) |
| `ProxyRelay.RelayPending` | src/rbx_studio_server.rs:276-293 | exactly the forwarded commands that got a reply lose their pending entry; all other entries stay as they were |
| `ProxyRelay.RelayKeepsFailed` | src/rbx_studio_server.rs:291-293 | a command whose forward failed in transport keeps its pending entry and channel |
| `ProxyRelay.RelayDelivers` | src/rbx_studio_server.rs:276-290 | each reply is sent to the channel pending for its command's id, and there is one send per reply (the order of the sends is not stated) |
| `ProxyRelay.RelayAwaited` | src/rbx_studio_server.rs:269-283 | after relaying, every queued command still has an id, a distinct one, with a pending entry |
| `Scenarios.RoundTrip` | src/rbx_studio_server.rs:182-240 | a polled command answered with "2" resolves its tool call to the success result "2"; a second post with the same id fails with "Unknown ID" |
| `Scenarios.StaleResult` | src/rbx_studio_server.rs:224-240 | while one call is pending, a result for an id never issued fails with "Unknown ID" and leaves that call pending; once its command is polled, a poll of the empty queue answers 423 |
| `Scenarios.FirstInFirstOut` | src/rbx_studio_server.rs:187-218 | two commands are served in the order they were enqueued, then the poll answers no work |
| `Scenarios.Relayed` | src/rbx_studio_server.rs:264-298 | on a follower, a forward that fails in transport leaves its call pending; a forward that gets "x" delivers "x" to its own call's channel only |
| `Scenarios.Proxied` | src/rbx_studio_server.rs:243-262 | the owner refuses a forwarded command without an id; one with an id is polled, answered, and returned under the same id |
| `Install.WithStudioServer` | src/install.rs:87-96 | `mcpServers` becomes an object whose `"Roblox Studio"` entry is exactly `{command: exe_path, args: ["--stdio"]}`; other top-level keys are kept, and so are the other servers of an existing servers object |
| `Install.WithStudioServerReplaces` | src/install.rs:87-89 | a missing or non-object `mcpServers` is replaced by `{}` first, so the Studio server is then the only server |
| `Install.WithStudioServerIdempotent` | src/install.rs:87-96 | applying the update twice gives the same config as applying it once |
| `Install.InstallToConfig` | src/install.rs:68-105 | a failed config path lookup fails with its error; otherwise the call returns the name it was given and writes back the updated config, starting from `{}` when there was no file |
| `Install.GetMessage` | src/install.rs:13-22 | the message is exactly the fixed head text, then the list of configured clients, then the fixed tail text |
| `Install.SuccessesEmpty` | src/install.rs:139-144 | there is no success exactly when every install failed; every result is either a success or an error |
| `Install.Partition` | src/install.rs:133-142 | the successes and the errors are collected separately, each in the order of the results |
| `Install.InstallInternal` | src/install.rs:133-155 | it fails exactly when both installs failed, with both errors as notes; otherwise the message lists the successful clients, Claude before Cursor, joined by newlines |

## Left out

- The tokio runtime, the mutex, and the `watch` channel that wakes pollers
  (src/rbx_studio_server.rs:18, 40-41, 184-193). Each locked section is one atomic method.
  The `trigger.send` of `generic_tool_run` cannot fail while the state holds its own
  receiver, so its error path is not modelled.
- The long-poll loop and its 15-second window (src/rbx_studio_server.rs:23, 211-223).
  Between two rounds only other tasks change the state. So the model makes one locked
  attempt, and an empty queue gives the 423 answer the window's expiry gives.
- UUID randomness. A drawn id is a parameter, and it is required to differ from every id
  seen before.
- axum routing, JSON (de)serialisation of the HTTP bodies, the reqwest call to `/proxy`
  (its outcome is a parameter), and the rmcp tool macros, schemas and server info
  (src/rbx_studio_server.rs:78-176).
- Server.AppState.ResponseHandler: does not model the send failing because the tool
  call's receiver is gone (a cancelled call). The source then answers 500 after removing
  the entry. The same send in `dud_proxy_loop` would panic; the model assumes live receivers.
- Server.AppState.DudProxyLoop: requires the follower invariant `Tracked` rather than
  modelling the panics of its two `unwrap`s. Every follower operation keeps that invariant.
- The exit signal of `dud_proxy_loop` is not modelled. The loop stops after the given
  forward outcomes or when the queue is empty, where the source waits for the next enqueue.
- src/main.rs (port binding, owner/follower choice, task spawning, shutdown) and build.rs
  are not part of this model.
- In src/install.rs: file creation, reading, parsing and writing (:74-85, 98-100), path
  lookup (:25-66), plugin writing (:107-131), and the dialogs (:158-187). A config file that
  fails to parse, or a write error, is not modelled. JSON numbers are integers here;
  floating point is left out. Key order in the written file is not modelled.
- Install.InstallToConfig: takes the executable path as a string. A non-UTF-8 path, which
  serde_json cannot serialise, is not modelled.
