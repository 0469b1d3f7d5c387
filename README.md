# Computer-use backend orchestration, modelled in Dafny

This project models the orchestration layer of the computer-use backend:

- the **worker** of each session: a status machine around its delegate agent service;
- the **worker pool**: a map from session id to worker under a capacity bound;
- the **stream handler**: a registry of the listeners that follow each session's updates, with broadcast and lazy pruning;
- the **agent service** adapter:
  - its pure translations of content blocks and tool results into updates;
  - its two-queue polling loop, over an explicit schedule of polling turns;
- the **mock agent service**: a keyword classifier with a fixed-shape update stream;
- the **session manager**: get-or-create and terminate on top of the pool, over an abstract session store;
- the **schemas**: the enumerations and records above.

Files, one module each:

| file | module | models |
|---|---|---|
| `common.dfy` | `Common` | `Option`, `Result`, `Outcome` and the service errors, one constructor per raise site |
| `text.dfy` | `Text` | `str.lower()` on ASCII and the substring test `pat in s` |
| `schemas.dfy` | `Schemas` | `SessionStatus`, `MessageRole`, `UpdateType`, `AgentUpdate` and `MessageCreate` |
| `agent_service.dfy` | `AgentServices` | content-block and tool-result translation, the polling loop, the `AgentService` class |
| `mock_agent_service.dfy` | `MockAgent` | tool selection, canned replies, the mock stream, the `MockAgentService` class |
| `worker.dfy` | `Workers` | the `Worker` and `WorkerPool` classes |
| `stream_handler.dfy` | `Streaming` | payload serialisation and the `StreamHandler` class |
| `session_manager.dfy` | `Sessions` | UUID text parsing, the store queries and the `SessionManager` class |

Objects whose fields the code reassigns are Dafny classes with `modifies` frames:

- `Worker`, `WorkerPool`, `StreamHandler`, `AgentService` and `MockAgentService`;
- the session store, as `Database`.

`SessionManager` is a class too, though it never reassigns its pool after construction: it holds the mutable pool, which its methods change.

The pure translations are functions. Each loop in the code is a method with its loop invariants:

- forwarding the delegate's updates;
- the polling loop;
- the health report;
- cleanup of all workers;
- the broadcast's sends and its pruning;
- the total connection count.

Most of these methods are proved equal to a specification function, and the properties of that function are lemmas. These state their effect directly in their postconditions instead:

- `CleanupEach`, the cleanup of all workers;
- `PruneDisconnected`, the broadcast's pruning;
- `HealthCheck`, the health report;
- `SendAll`, the broadcast's sends.

Things the code receives from outside become parameters:

- wall-clock readings: `Timestamp` strings, one for each update the code stamps (a polling turn carries one for its block's update and one for its tool result's), or a `clock` indexed by update position;
- fresh worker ids;
- `hash(session_id)`;
- which sends and cleanups raise.

## Model

| member | source | states |
|---|---|---|
| Schemas.ParseUpdateType | computer_use_backend/models/schemas.py:28-35 | reading a wire value back gives the kind that has that value; a value no kind has is rejected |
| Schemas.UpdateTypesAreSix | computer_use_backend/models/schemas.py:28-35 | there are exactly six update kinds, and their wire values are pairwise distinct |
| Schemas.UpdateTypeRoundTrip | computer_use_backend/models/schemas.py:28-35 | every update kind is recovered from its wire value |
| Schemas.RoleAndStatusWireValues | computer_use_backend/models/schemas.py:13-25 | roles are user/assistant/tool and statuses active/processing/idle/terminated, with distinct wire values |
| Schemas.NewAgentUpdate | computer_use_backend/models/schemas.py:87-92 | an update keeps its kind, content and timestamp; metadata left out defaults to the empty map |
| Schemas.RoleOrDefault | computer_use_backend/services/agent_service.py:68 | a role left out of a call is the user role; a given role is kept |
| Schemas.AsBuilt | computer_use_backend/models/schemas.py:87-92 | the update the code builds is the one built with its metadata omitted: a `metadata=` keyword fills no field |
| Schemas.AsBuiltDropsMetadata | computer_use_backend/models/schemas.py:87-92 | as built, every update's metadata is empty, and an update changes in the building exactly when it had metadata |
| Schemas.NewMessageCreate | computer_use_backend/models/schemas.py:44-48 | a request is accepted exactly when its content has at most 1024*1024 characters; role defaults to user, metadata to the empty map |
| AgentServices.ContentBlockToUpdate | computer_use_backend/services/agent_service.py:223-263 | text and thinking blocks give Thinking updates (thinking flagged `is_thinking`); a tool-use block gives "Using tool: name", with name defaulting to "unknown" and input to `{}`; other blocks and non-dicts give nothing |
| AgentServices.BlockTypeRecoverable | computer_use_backend/services/agent_service.py:226-257 | the kind of block that produced an update can be read off the update alone |
| AgentServices.Truncate | computer_use_backend/services/agent_service.py:277 | `s[:n]` is a prefix of `s` of length min(len(s), n) |
| AgentServices.AsBuiltBlockKindLost | computer_use_backend/services/agent_service.py:228-243 | as built, a text block and a thinking block with the same text give the same update, though the intended updates differ in their source block kind |
| AgentServices.ToolResultToUpdate | computer_use_backend/services/agent_service.py:265-289 | always a ToolResult with `session_id` and `tool_id`; error wins over output; output shows its first 200 characters; a screenshot appends exactly the note to that content and sets the flag; otherwise the content is empty |
| AgentServices.ToolResultContentBounded | computer_use_backend/services/agent_service.py:276-282 | without an error, a tool-result update is at most 238 characters however long the output |
| AgentServices.ToolOutputPreviewRecoverable | computer_use_backend/services/agent_service.py:276-278 | the first 200 characters of the output can be read back from the update |
| AgentServices.TickUpdates | computer_use_backend/services/agent_service.py:164-180 | a turn yields at most two updates; the block's update is stamped with the reading taken for it and, when a tool result arrived, its update comes last, stamped with its own reading |
| AgentServices.Drain | computer_use_backend/services/agent_service.py:141-198 | the loop is still polling only if no turn stopped it, and each turn adds at most two updates |
| AgentServices.TickUpdatesKinds | computer_use_backend/services/agent_service.py:164-180 | a turn that does not stop the loop yields no Error and no Complete update |
| AgentServices.DrainStopsAtFirstStop | computer_use_backend/services/agent_service.py:141-186 | the loop emits the updates of every turn before the first sentinel or failure marker, in order, and never reads that turn's tool item or any later turn; a failure adds one error update |
| AgentServices.DrainErrors | computer_use_backend/services/agent_service.py:154-162 | the drained stream holds one Error update, as its last element, exactly when the engine failed, and no Complete update |
| AgentServices.PollTurn | computer_use_backend/services/agent_service.py:143-183 | one turn: the sentinel ends the loop with nothing emitted; the failure marker emits "Agent error: …" and ends it; otherwise the block's update precedes the tool result's |
| AgentServices.PollAll | computer_use_backend/services/agent_service.py:141-198 | the imperative loop yields exactly the drained stream and end reason |
| AgentServices.RunUpdates | computer_use_backend/services/agent_service.py:84-90 | a submission's stream opens with the "Starting to process…" Thinking update |
| AgentServices.RunCounts | computer_use_backend/services/agent_service.py:141-209 | once the loop stops there is exactly one Complete update (none while still polling), and there is one Error update exactly when the engine failed |
| AgentServices.RunEnds | computer_use_backend/services/agent_service.py:154-209 | the first update is Thinking; once the loop has stopped the last update is the Complete update flagged `completed: True`, and after a failure the error update comes just before it |
| AgentServices.AgentService.constructor | computer_use_backend/services/agent_service.py:36-53 | a new adapter has an empty history |
| AgentServices.AgentService.ProcessMessage | computer_use_backend/services/agent_service.py:65-209 | appends the message as a text block to the history, with the role defaulting to user, then yields the run's stream; the sentinel installs the history the engine returned |
| AgentServices.AgentService.ClearHistory | computer_use_backend/services/agent_service.py:295-297 | the history is empty |
| MockAgent.SelectTool | computer_use_backend/services/mock_agent_service.py:58-119 | a chosen tool has one of its keywords in the lower-cased message; no tool is chosen exactly when no tool's keyword occurs |
| MockAgent.SelectToolFirstMatch | computer_use_backend/services/mock_agent_service.py:58-119 | at most one tool branch fires: the first of calculator, bash, web_search whose keyword occurs in the lower-cased message; none fires when no keyword occurs |
| MockAgent.GenerateResponse | computer_use_backend/services/mock_agent_service.py:156-185 | the default reply is given exactly when no keyword rule applies, and it carries the original message; the Dubai report needs both "weather" and "dubai" |
| MockAgent.TwoPlusTwoAnswer | computer_use_backend/services/mock_agent_service.py:161-162 | the reply is "The answer is 4…" exactly when the lower-cased message contains "2+2" or "2 + 2" |
| MockAgent.TwentyFiveTimesFourAnswer | computer_use_backend/services/mock_agent_service.py:164-165 | the reply is "25 times 4 equals 100." exactly when "25", "4" and a multiplication word occur and the 2+2 rule did not fire |
| MockAgent.DubaiWeather | computer_use_backend/services/mock_agent_service.py:171-173 | the Dubai report is given exactly for a weather question mentioning Dubai that no arithmetic rule caught first |
| MockAgent.DefaultReplyQuotesMessage | computer_use_backend/services/mock_agent_service.py:185 | when no rule applies, the reply quotes the original, not lower-cased, message |
| MockAgent.TwoPlusTwoUsesCalculator | computer_use_backend/services/mock_agent_service.py:58-162 | a message containing "2+2" takes the calculator branch and gets the arithmetic answer |
| MockAgent.ToolUpdates | computer_use_backend/services/mock_agent_service.py:59-119 | a tool branch emits ToolUse naming its tool, then ToolResult, both carrying the session id |
| MockAgent.MockStream | computer_use_backend/services/mock_agent_service.py:47-141 | a run has five updates when a tool branch fires and three otherwise |
| MockAgent.MockUpdates | computer_use_backend/services/mock_agent_service.py:47-141 | a message's stream has five updates when a tool fires and three otherwise, the canned reply second to last and the completion last |
| MockAgent.MockStreamEnds | computer_use_backend/services/mock_agent_service.py:48-141 | a run opens with "Analyzing your request...", its next-to-last update is the Thinking reply, and its last is Complete flagged `completed: True` |
| MockAgent.MockStreamTool | computer_use_backend/services/mock_agent_service.py:58-119 | when a tool fires, updates 2 and 3 are its ToolUse (naming the tool) and ToolResult |
| MockAgent.MockStreamStamps | computer_use_backend/services/mock_agent_service.py:48-140 | each update is stamped with its own clock reading, in emission order |
| MockAgent.ToolUpdatesCounts | computer_use_backend/services/mock_agent_service.py:59-119 | a tool branch's updates hold no Error and no Complete update |
| MockAgent.MockStreamCounts | computer_use_backend/services/mock_agent_service.py:47-141 | a run holds no Error update and exactly one Complete update |
| MockAgent.EmitStream | computer_use_backend/services/mock_agent_service.py:47-141 | the step-by-step emission yields exactly the mock stream |
| MockAgent.MockAgentService.constructor | computer_use_backend/services/mock_agent_service.py:23-26 | a new mock has no stored messages |
| MockAgent.MockAgentService.ProcessMessage | computer_use_backend/services/mock_agent_service.py:28-141 | appends `{role, content}` to the stored messages, with the role defaulting to user, and yields the mock stream for the message |
| MockAgent.MockAgentService.ClearHistory | computer_use_backend/services/mock_agent_service.py:191-193 | the stored messages are empty |
| Workers.VncPort | computer_use_backend/services/worker.py:153 | the display port lies in 5900..6899 and is congruent to 5900 + hash modulo 1000 |
| Workers.Forwarded | computer_use_backend/services/worker.py:83-100 | a ready worker's stream starts with the delegate's updates, unchanged and in order, and adds one update at most, none when the delegate does not raise |
| Workers.ForwardedShape | computer_use_backend/services/worker.py:83-100 | a ready worker forwards the delegate's updates unchanged and in order; a delegate exception adds exactly one Error update naming the worker and the exception |
| Workers.Worker.constructor | computer_use_backend/services/worker.py:22-34 | a new worker is initializing, with no port and no delegate |
| Workers.Worker.Health | computer_use_backend/services/worker.py:272-277 | a worker's health entry carries its id, status string, creation time and port |
| Workers.Worker.Initialize | computer_use_backend/services/worker.py:38-58 | the port is assigned; success ends ready with the delegate set; a delegate failure ends failed and propagates |
| Workers.Worker.ProcessMessage | computer_use_backend/services/worker.py:60-102 | raises before yielding unless the worker is ready and has a delegate; otherwise it goes processing (then error, when the delegate raises), ends ready, and yields the forwarded stream |
| Workers.Worker.Cleanup | computer_use_backend/services/worker.py:113-137 | ends terminated without a delegate; a failing delegate reset leaves it terminating and propagates |
| Workers.WorkerPool.constructor | computer_use_backend/services/worker.py:191-193 | a new pool is empty with the given capacity |
| Workers.WorkerPool.SpawnWorker | computer_use_backend/services/worker.py:196-224 | an existing worker is returned unchanged; at capacity, or when initialisation fails, the pool is unchanged and the error propagates; otherwise a fresh ready worker is filed under the session; the capacity bound and distinct worker ids are preserved |
| Workers.WorkerPool.GetWorker | computer_use_backend/services/worker.py:226-236 | the session's worker when the pool has one, nothing otherwise |
| Workers.WorkerPool.TerminateWorker | computer_use_backend/services/worker.py:238-261 | an unknown session gives false with no change; a worker whose cleanup raises stays in the pool; otherwise the worker ends terminated, only its entry is removed, and the result is true |
| Workers.WorkerPool.HealthCheck | computer_use_backend/services/worker.py:263-283 | the report gives the pool's size and capacity and one health entry per session |
| Workers.WorkerPool.CleanupAll | computer_use_backend/services/worker.py:285-297 | the pool ends empty whatever the cleanups raise, and every worker has been cleaned up |
| Workers.CleanupEach | computer_use_backend/services/worker.py:289-294 | each worker of the pool is cleaned up exactly once, its status history growing by exactly one cleanup's steps; the errors are ignored |
| Streaming.Serialize | computer_use_backend/services/stream_handler.py:57-63 | the payload is `{type: "agent_update", update_type, content, timestamp, metadata}` |
| Streaming.Deserialize | computer_use_backend/services/stream_handler.py:57-63 | a payload read back as an update is exactly that update's serialisation |
| Streaming.PayloadRoundTrip | computer_use_backend/services/stream_handler.py:57-63 | serialisation loses nothing: a client recovers the exact update |
| Streaming.TotalSizeRemove | computer_use_backend/services/stream_handler.py:118 | the total over all sessions does not depend on the order in which sessions are summed |
| Streaming.AfterBroadcast | computer_use_backend/services/stream_handler.py:80-85 | a broadcast removes exactly the failed listeners from its session, keeps the entry, and changes no other session |
| Streaming.BroadcastCanLeaveEmptyEntry | computer_use_backend/services/stream_handler.py:80-85 | unlike unregistering, pruning can leave a session entry with no listeners |
| Streaming.SendAll | computer_use_backend/services/stream_handler.py:70-78 | each listener of the snapshot gets the payload once; exactly the failed ones are collected as disconnected |
| Streaming.StreamHandler.constructor | computer_use_backend/services/stream_handler.py:20-24 | a new handler has no sessions |
| Streaming.StreamHandler.RegisterClient | computer_use_backend/services/stream_handler.py:26-35 | creates the entry if needed and adds the listener; other sessions are unchanged; the total grows by one unless the listener was already there |
| Streaming.StreamHandler.UnregisterClient | computer_use_backend/services/stream_handler.py:37-49 | discards the listener and deletes the entry once empty; an unknown session is untouched; the total drops by one exactly when the listener was registered |
| Streaming.BroadcastAsWritten | computer_use_backend/services/stream_handler.py:51-63 | as written, a broadcast to a session with an entry raises on the missing `metadata` field before any send; a session without one gets nothing |
| Streaming.BroadcastAsWrittenSendsNothing | computer_use_backend/services/stream_handler.py:51-63 | as written, a session with a listener receives no broadcast |
| Streaming.StreamHandler.BroadcastUpdate | computer_use_backend/services/stream_handler.py:51-85 | a session with no entry gets nothing; otherwise each of its listeners gets the serialised update once, no other session's listener gets it, and the failed listeners are pruned |
| Streaming.StreamHandler.PruneDisconnected | computer_use_backend/services/stream_handler.py:80-85 | removes exactly the disconnected listeners from the session's set and keeps every entry |
| Streaming.StreamHandler.SendStatus | computer_use_backend/services/stream_handler.py:87-95 | every listener reads back a Thinking update with metadata `{status}` |
| Streaming.StreamHandler.SendError | computer_use_backend/services/stream_handler.py:97-105 | every listener reads back an Error update with metadata `{error: True}` |
| Streaming.StreamHandler.GetClientCount | computer_use_backend/services/stream_handler.py:107-109 | 0 for an unknown session, else the size of its set, and never more than the total |
| Streaming.StreamHandler.GetTotalConnections | computer_use_backend/services/stream_handler.py:111-118 | the sum of the sizes of all sessions' sets |
| Sessions.ParseUuid | computer_use_backend/services/session_manager.py:52 | id text is accepted exactly when, braces stripped and hyphens removed, 32 hex digits remain; the key is those digits in lower case, a canonical key |
| Sessions.UuidKeyParsesToItself | computer_use_backend/services/session_manager.py:52 | a canonical key parses to itself |
| Sessions.UuidTextRoundTrip | computer_use_backend/services/session_manager.py:52 | the hyphenated text of a key parses back to that key |
| Sessions.SpellingsShareSessionNotWorker | computer_use_backend/services/session_manager.py:147-177 | the hyphenated and bare spellings of an id reach the same stored session but are different pool keys |
| Sessions.GetSession | computer_use_backend/services/session_manager.py:45-69 | malformed id text gives nothing rather than an error; otherwise the stored row, if any |
| Sessions.ListSessions | computer_use_backend/services/session_manager.py:71-85 | exactly the stored sessions that are not terminated |
| Sessions.GetSessionMessages | computer_use_backend/services/session_manager.py:87-109 | the session's messages in order; empty for malformed text or an unknown session |
| Sessions.MarkTerminated | computer_use_backend/services/session_manager.py:179-180 | only the session's status changes, to terminated; its messages are kept |
| Sessions.TerminatedSessionStillFetched | tests/test_database_ops.py:100-115 | a terminated session leaves the listing but is still fetched by id, with its messages |
| Sessions.ToStored | computer_use_backend/services/session_manager.py:126-131 | the stored message keeps role, content and the given metadata; unset metadata is stored as the empty map |
| Sessions.SessionManager.constructor | computer_use_backend/services/session_manager.py:21-22 | uses the given pool, or a fresh empty pool of capacity 100 |
| Sessions.SessionManager.CreateMessage | computer_use_backend/services/session_manager.py:111-145 | malformed id text and an unknown session raise and leave the store unchanged; otherwise the message is appended to that session only |
| Sessions.SessionManager.GetOrCreateWorker | computer_use_backend/services/session_manager.py:147-163 | the pool's existing worker is returned without spawning; otherwise the spawn's result, errors included |
| Sessions.SessionManager.GetOrCreateWorkerTwice | tests/test_properties_append.py:62-101 | asking twice for a session's worker gives the same worker and spawns once |
| Sessions.SessionManager.TerminateSession | computer_use_backend/services/session_manager.py:165-187 | an unknown session gives false and leaves its worker, if any, untouched; a failing worker cleanup leaves the worker terminating, rolls back and propagates; otherwise the worker ends terminated without a delegate, its entry is removed, the session is marked terminated, and the result is true |
| Sessions.SessionManager.GetWorkerHealth | computer_use_backend/services/session_manager.py:189-191 | the pool's health report: its size, its capacity, and each worker's own health entry |

## Left out

- Asynchrony and locking are not modelled. Every operation is atomic and sequential. This covers:
  - the stream handler's lock;
  - the race across `await worker.initialize()` in `spawn_worker`;
  - the callback tasks of the polling loop.
- Time is not modelled. Waits, timeouts and sleeps are timing only, and polling is an explicit finite schedule of turns (`Tick`). Each turn records what each queue delivered within its wait.
- A schedule that runs out before the sentinel or the failure marker ends the model's run as `StillPolling`, with no completion update. The code would keep polling.
- The engine (`sampling_loop`, the tool collection, the Anthropic types) is an abstract source of content blocks, tool results, a returned history and a failure marker.
- Wall-clock times, `uuid.uuid4()` and `hash(session_id)` are parameters.
- The "Streaming error" branch and the outer "Failed to process message" branch of the agent service are not modelled, and neither is the mock's error branch. Nothing the model computes raises there.
- `get_conversation_history` of both agent services is not modelled. The real adapter returns a copy of each history entry; the mock returns its `messages` list itself, an alias.
- `get_vnc_stream` is not modelled: `vnc_server` is never set, so it always raises. The VM and VNC placeholder steps of initialise and cleanup are no-ops here, and `vm_instance`/`vnc_server` stay unset.
- Workers.Worker: the worker holds a handle naming its delegate rather than the `AgentService` object. `ProcessMessage` receives the delegate's run as a value: the updates it yields and the exception it raises, if any.
- Workers.Worker.Initialize: only the delegate's construction can fail. The VM and VNC placeholders cannot raise.
- Workers.Worker.Cleanup: the `failure` parameter stands for an exception while releasing the delegate. Nothing in the code shown raises there.
- `create_session`, commits, refreshes and rollbacks are not modelled. The store is an in-memory map from canonical UUID key to status and messages.
- Sessions.ListSessions returns a set. The newest-first ordering by creation time is not modelled.
- Sessions.ParseUuid covers braces at either end, hyphens anywhere, and 32 hex digits in either case. It does not cover:
  - `uuid.UUID` removing the text `urn:` and `uuid:` wherever they occur, not only as a prefix;
  - the forms `int(..., 16)` would also accept: a `0x` prefix, signs, underscores, surrounding whitespace, and non-ASCII Unicode decimal digits such as fullwidth digits.
- Text.Lower lower-cases ASCII letters only. Python's Unicode case mapping is not modelled.
- AgentServices.Render renders scalar values as Python's `str()` does. Lists and dicts are rendered as fixed placeholders.
- The members below state the metadata the code passes to each update, as intended. As written, `AgentUpdate` declares `update_metadata` and ignores the `metadata=` keyword, so every update carries empty metadata and a broadcast to a session with listeners raises; see Findings, where `Schemas.AsBuilt` and `Streaming.BroadcastAsWritten` model that.
- AgentServices.ContentBlockToUpdate: states the intended metadata; as written it is dropped (see Findings).
- AgentServices.BlockTypeRecoverable: holds for the intended metadata; as written the block kind is lost (see Findings).
- AgentServices.ToolResultToUpdate: states the intended metadata; as written it is dropped (see Findings).
- AgentServices.RunEnds: the `completed` flag is the intended metadata; as written it is dropped (see Findings).
- MockAgent.ToolUpdates: states the intended metadata; as written it is dropped (see Findings).
- MockAgent.MockStreamEnds: the `completed` flag is the intended metadata; as written it is dropped (see Findings).
- MockAgent.MockStreamTool: the tool name and session id are the intended metadata; as written they are dropped (see Findings).
- Workers.ForwardedShape: the worker id is the intended metadata; as written it is dropped (see Findings).
- Streaming.Serialize: reads the intended `metadata` field; as written the read raises (see Findings).
- Streaming.PayloadRoundTrip: holds for the intended update; as written no payload is built (see Findings).
- Streaming.StreamHandler.BroadcastUpdate: the intended broadcast; as written it raises before any send when the session has an entry (see Findings).
- Streaming.StreamHandler.SendStatus: the intended broadcast; as written it raises like `broadcast_update` (see Findings).
- Streaming.StreamHandler.SendError: the intended broadcast; as written it raises like `broadcast_update` (see Findings).
- AgentServices.AgentService.ProcessMessage: the engine receives the history list itself (`messages=self.messages`, agent_service.py:116) and may append to it in place before it fails or the schedule runs out. The model keeps only the user's message in those cases; the aliasing is not modelled. Nor is an error marker that reaches the loop through `output_callback` while the engine still returns normally: the loop stops at agent_service.py:162, `await agent_task` (agent_service.py:201) lets the engine finish, and `self.messages = updated_messages` (agent_service.py:128) installs its history. The model treats every error marker as engine failure and keeps the old history plus the user's entry.
- Routers, the WebSocket endpoint, persistence models, configuration, logging, the singletons in `services/__init__.py` and the VNC server process are not part of this model.
- Two behaviours worth noting:
  - `terminate_worker` keeps the entry when cleanup raises;
  - broadcast pruning can leave an empty session entry.

## Findings

| source | as written | input that shows it | evidently intended | confidence | as-written member | corrected member |
|---|---|---|---|---|---|---|
| computer_use_backend/models/schemas.py:92 | `AgentUpdate` declares `update_metadata`, but every construction passes `metadata=` (for example agent_service.py:234 and 242), which the model ignores, so every update's metadata is empty | a text block and a thinking block with the same text: both give the same update, without `is_thinking` | each update carries the metadata passed to it | not executed | AgentServices.AsBuiltBlockKindLost | AgentServices.BlockTypeRecoverable |
| computer_use_backend/services/stream_handler.py:62 | `broadcast_update` reads `update.metadata`, a field `AgentUpdate` does not declare, so it raises before any send whenever the session has an entry; `send_status` and `send_error` raise with it | a session with one registered listener and any update | every listener receives the serialised update with its metadata | not executed | Streaming.BroadcastAsWritten | Streaming.StreamHandler.BroadcastUpdate |
