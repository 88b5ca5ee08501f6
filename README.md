# Chat relay session core, in Dafny

A model of the session lifecycle and completion bookkeeping of a WebSocket
chat relay that streams answers from a large-language-model provider.

- **Manager** (`manager.dfy`, from `manager.py`): sessions as objects, the
  per-client session registry (`SessionManager`: create-or-get, lookup,
  cancel) and the connection registry (`WebSocketManager`: connect,
  disconnect, history lookup and append). Ids from `shortuuid`, clock
  readings and task handles are parameters.
- **Formater** (`formater.dfy`, from `formater.py`): the trailing window of
  a history projected to role/content pairs, with Python's slice semantics
  for `messages[-limit:]`, both as a function and as the source's loop; and
  the outbound event record.
- **App** (`app.dfy`, from `app.py`): the completion orchestrator as a fold
  over a given provider answer, and one turn of the inbound-message loop.
  The provider is an input: a list of chunks when streaming, one response
  otherwise, or a fault raised by the call. Cancellation by other tasks is
  an oracle: each streamed chunk carries the value the cancel flag had when
  the chunk was taken and after its running event was sent, and the
  `is_cancelled` read after the answer is a boolean parameter. Under
  single-threaded cooperative scheduling these are the only points where
  another task's cancel can become visible.

Behaviour the model follows from the code:

- No code path stores RUNNING, ERROR or COMPLETED in a session. They are
  only event tags. Every operation keeps each session either CREATED with
  both cancel flags clear or CANCELLED with both set (`Manager.Consistent`).
- A `cancel` message also launches a completion. That completion stores
  the text `cancel` as a user message.
- A failed streamed chunk sends an error event and the loop goes on. The
  run still ends with a completed event and stores the reply.
- In single-shot mode the cancel flag is never polled. A failed answer
  sends no running or error event; unless the session is cancelled, the
  completed event still follows and an empty reply is stored.
- `connect` adopts a new registry only when the current client id is empty
  or has no registry. A reconnect under a registered id keeps the old
  registry, and a second client id gets none while the first stays
  registered.
- A chunk counts as successful when its status is OK and its choice list
  is non-empty (app.py:62).

## Model

| member | source | states |
|---|---|---|
| Manager.CancelIdempotent | manager.py:105-111 | cancelling a session twice changes nothing the second time; the end time is stamped once |
| Manager.CancelConsistent | manager.py:105-111 | on a consistent session, cancel leaves it CANCELLED with both flags set, stamping the end time if it was active |
| Manager.Session.constructor | manager.py:51-62 | a new session has status CREATED, no task, clear flags, empty history and no end time |
| Manager.Session.CancelAt | manager.py:107-111 | a CREATED or RUNNING session gets the cancel signal, the cancelled flag, status CANCELLED and the end time; any other session is left untouched; history and task never change |
| Manager.SessionManager.constructor | manager.py:67-68 | a new registry is empty |
| Manager.SessionManager.CreateSession | manager.py:70-83 | no id: a fresh session under the fresh id; unknown id: a fresh CREATED session with empty history under that id; known id: the stored object itself, registry unchanged; a new session starts at the given clock reading; keys stay equal to session ids and consistency is kept |
| Manager.SessionManager.GetSession | manager.py:85-88 | finds a session exactly when its id is a key, and the found session has that id |
| Manager.SessionManager.CancelSession | manager.py:90-114 | unknown id raises and changes nothing; each targeted CREATED/RUNNING session is cancelled and stamped with its own clock reading, every other session is untouched; returns true whenever an id was given or the registry is non-empty |
| Manager.RemoveFirstCutsFirst | manager.py:140 | removing a socket cuts out exactly its first occurrence and keeps the order of the rest |
| Manager.RemoveFirstMultiset | manager.py:140 | removing a present socket takes away exactly one copy of it |
| Manager.WebSocketManager.constructor | manager.py:118-121 | the client id is the given one when truthy, else a fresh one; no connections, no registries |
| Manager.WebSocketManager.Connect | manager.py:123-136 | appends the connection; adopts the new client id with a fresh empty registry only when the current id is empty or unregistered, otherwise changes nothing else |
| Manager.WebSocketManager.Disconnect | manager.py:138-147 | an unknown connection raises and changes nothing; otherwise the connection is removed, then the current client's registry is popped and emptied, or the missing key raises after the removal |
| Manager.WebSocketManager.CheckSession | manager.py:165-175 | returns the current client's session filed under the id, which carries that id; raises for a missing registry or a missing session |
| Manager.WebSocketManager.AddHistory | manager.py:177-186 | appends exactly one message at the end of the found session's history and writes nothing else; raises as check_session does |
| Manager.WebSocketManager.GetHistory | manager.py:188-196 | returns the found session's history, or check_session's error |
| Formater.Projected | formater.py:18-22 | one entry per message, in order, holding exactly its role and content |
| Formater.LLMFormat | formater.py:11-24 | for a positive limit, min(H, limit) entries; for a zero limit, the whole history; each entry projects the message at the same place from the end, in chronological order; an empty history gives no entries |
| Formater.FormatHistory | formater.py:14-24 | the loop that slices and appends computes exactly LLMFormat |
| Formater.NewestMessageKept | formater.py:16-17 | with a positive limit the newest message is always the last entry |
| Formater.RespFormatKeeps | formater.py:29-36 | the event record keeps the session id and the message's id, content and timestamp, and drops exactly its role and name |
| App.ConsumeStream | app.py:58-96 | the streaming loop computes exactly the events, accumulated content and early return of StreamRun |
| App.StopIsFinal | app.py:58-84 | once the loop has returned on a cancel, later chunks add no events and no content |
| App.StreamEventTags | app.py:62-96 | every streamed event carries the session id and is tagged running or error |
| App.StreamTextMatches | app.py:62-81 | the running events carry, in order, exactly the accumulated content |
| App.UninterruptedStream | app.py:58-96 | without cancellation each chunk gives exactly one event: running with its content if it succeeded, error with the provider's message otherwise; the content is that of the successful chunks |
| App.CancelOnTake | app.py:58-60 | a cancel seen when chunk k is taken stops the loop with only the events of the chunks before k |
| App.CancelAfterSend | app.py:78-84 | a cancel seen after chunk k's running event stops the loop with that event last |
| App.CompletedIsLast | app.py:114-132 | all events belong to the session; a completed event occurs only last and exactly when a reply is stored, which is exactly when the call did not fail, the loop did not return and the session was not cancelled |
| App.ReplyIsRunningText | app.py:56-132 | the stored reply is the concatenation of the running events' contents, in both modes |
| App.StreamedCompletion | app.py:55-132 | an uncancelled streaming run sends one event per chunk, then one completed event with no content, and stores the successful chunks' content |
| App.CancelledBeforeFirstChunk | app.py:57-60 | a session cancelled before the first chunk gets no event and no reply |
| App.SingleShot | app.py:98-132 | single-shot success sends exactly one running event with the content, failure none; unless cancelled, the completed event follows as the only other event and the content (empty on failure) is stored |
| App.Completion | app.py:30-163 | the user message is stored before the request is built from the 20-message window; the request's model and stream flag default to the provider default and true only when their keys are absent (a null model is passed on as null, a null stream means single-shot); the events, the exit and the reply stored after the user message are those of CompletionRun; an unregistered session raises with no event |
| App.CancelCommandShape | app.py:191-193 | a message is the cancel command exactly when it is `cancel` with only whitespace around it |
| App.OtherMessageReactivates | app.py:208-213 | a non-cancel message never sends an event, leaves the session uncancelled, and resets a cancelled one to CREATED with a clear signal |
| App.DecideConsistent | app.py:193-213 | on a consistent session the result stays consistent, the session is cancelled afterwards exactly when the message was the cancel command, and the cancelled event is sent exactly when that command met an uncancelled session |
| App.ApplyDecision | app.py:193-213 | the session ends in the state Decide gives and the cancelled event is due exactly when Decide says so; its history, task and start time, and every other session, are untouched; consistency is kept |
| App.HandleInbound | app.py:183-217 | resolves or creates the session (a new one starts at the creation clock reading, an existing one keeps its history and start time), writes its id into the arguments, applies the decision with the cancel clock reading to that session only, sends the cancelled event when decided, launches a completion for every message and keeps the registry consistent |

## Left out

- Socket I/O (`accept`, `receive_text`, `send_json`, `send_text`) and logging: sends become the returned event sequence.
- Parsing of inbound frames: the arguments are an already parsed record. A `message` that is JSON null (which makes `strip` raise) is not modelled.
- Concurrency: tasks, the wake-up side of `asyncio.Event`, and races between a stale and a new completion on one session. Cancellation by other tasks is only observed, through the oracle values.
- A registry change during a run, such as a disconnect while streaming: in the model the registry cannot change between the two history appends, so the second append cannot raise. The error event and re-raise that such a failure would cause are not modelled.
- Faults raised by the provider in the middle of a stream: only faults raised by the call itself are modelled. The cancellation of the completion task itself (re-raised as is) is not modelled.
- App.Completion: outbound events carry the session id, status and content but not the per-event message id and timestamp. Formater.RespFormat models the full record.
- Manager.WebSocketManager.GetHistory: returns the history as a value. The source returns the live list, so later appends would be visible through it.
- Manager.WebSocketManager.Disconnect: the source replaces the popped registry's dict with an empty list. The model uses an empty map.
- The session constructor's optional task and status arguments, which no caller passes.
- The connection prelude of the inbound loop (app.py:167-178) and its exception handlers (app.py:219-226); the loop body is modelled as `App.HandleInbound`.
- The provider client in llm.py is not part of this model. Its `None` on failure only shows up as a fault raised by the call.
- The HTML page and the server entry point.
