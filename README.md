# Chat relay server: a verified model

This project models the server of a small chat relay in Dafny. Clients
connect over TCP and exchange newline-terminated JSON objects. A client
registers a username and password and logs in. It can then ask for the user
list, send a message to another user, and send typing notices. A message to
a user who is not logged in is stored in the `offline_messages` table. It is
delivered, in timestamp order, when that user next logs in. Each login, and
each disconnect of a handler with a logged-in user, is announced to the
logged-in sessions with a status update followed by the full user list with
presences. An announcement stops at the first session whose socket the
server has closed.

The model is a sequential state machine over the server's shared state.
Each handler step runs atomically; the lock is not modelled.

- `Server` (a class) holds:
  - the `users` table, username to password digest
  - the session registry `clients`, an ordered list of sessions with
    distinct names, standing for a Python dict in insertion order
  - the `offline_messages` table, in insertion order
  - a clock standing for `datetime.now()`
  - the log `wire` of everything written to a socket
  - the set of sockets the server has closed
- `Handler` (a class) is one `handle_client` thread. It holds its
  connection, its `user` and its receive buffer.
- A socket's view of the log is `Wire.Outbox`.
- The pure parts are functions and lemmas:
  - frame splitting (`Framing`)
  - registry operations (`Registry`)
  - queue queries (`OfflineQueue`)
  - fan-out and the user-list directory (`Wire`)
- `Steps` restates the whole server as functions on a value `World` that
  holds the server's fields:
  - `Step` is one decoded request served by a handler.
  - `Handle` is one frame, which may not decode.
  - `Run` is the frame loop over a buffer's frames.

  Every command a handler dispatches, the frame loop and the handler's exit
  are proved to compute exactly the matching function (`Step`, `Run`,
  `FinishStep`). So is every server method except three small helpers:
  `Now`, `CloseConn` and `StoreOfflineMessage`. `RouteStep` and
  `FinishStep` fold those helpers in. The properties of commands and of the
  loop are lemmas about these functions.

Three behaviours of the code drive the model:

- **Closed sockets.** A write to a socket the server has closed raises
  `OSError`. Neither `send_with_delimiter` nor the handler's `except` clause
  catches it. A fan-out therefore stops at the first session whose socket is
  closed (`Wire.LivePrefix`), and the error propagates to the handler's
  `finally` block.
- **Peer resets.** A write that fails because the peer reset the connection
  is swallowed, and is indistinguishable from a successful write.
- **Python truthiness.** `user` is truthy (`Steps.Truthy`) when it is a
  name other than the empty string.

Behaviours of the code a reader may not expect:

- A frame that is not valid JSON makes `loads` raise `ValueError`
  (server.py:71). The handler's `except` catches it (server.py:85) and the
  connection ends. The frame is not skipped.
- On disconnect the handler deletes its name from the registry whichever
  socket the name now maps to (server.py:90-91). There is no check that the
  entry is this handler's own.
- A login is announced to every session, the new one included. The new
  session is installed (server.py:121) before the broadcast
  (server.py:124, 190-191).
- The login replies come in this order: acknowledgement, status update,
  user list, stored messages (server.py:122-126).
- `get_users` sends the list to every session, not only to the one that
  asked (server.py:80, 142-143).
- An error while draining stored messages leaves every row in the table.
  The delete only runs after the whole loop (server.py:169-177).
- A failed login sets the handler's `user` to `None` (server.py:77, 130).
- A message's `from` field is forwarded and stored as sent. It is not
  checked against the logged-in name (server.py:145-151, 159).

The `Scenario` module applies the contracts to concrete scenarios:

- `Scenario.BobLogsIn`: alice writes to bob while bob is offline, and bob
  later receives the message.
- `Scenario.LoginAfterStaleSessionRaises`: after a failed re-login, alice's
  session is left bound to a closed socket. Bob's later login then raises
  while announcing itself.

## Model

| member | source | states |
|---|---|---|
| Framing.FirstDelimiter | server.py:70 | the cut point of `split('\n', 1)` is a newline with no newline before it |
| Framing.SplitFrames | server.py:69-70 | the frames cut from a buffer and the retained tail contain no newline |
| Framing.SplitFramesJoin | server.py:68-70 | the frames, each re-terminated, followed by the tail, give back the buffer exactly (nothing is lost or reordered) |
| Framing.JoinCons | server.py:70 | a frame joined in front of others is followed by its newline |
| Framing.SplitFramesUnique | server.py:68-70 | splitting newline-free frames joined with a newline-free tail returns exactly those frames and that tail |
| Framing.NextFrame | server.py:69-70 | one turn of the split loop yields the next frame in order and leaves a buffer that holds exactly the later frames and the same tail |
| Registry.LookupKeys | server.py:149 | `clients.get(name)` finds a socket exactly when the name is a registry key |
| Registry.PutLookup | server.py:121 | after `clients[name] = sock` the name maps to the new socket and every other name keeps its lookup |
| Registry.PutKeys | server.py:121 | assignment adds the key, keeps keys distinct, and grows the registry only when the key is new |
| Registry.RemoveLookup | server.py:90-91 | after the delete the name has no session and every other name keeps its socket |
| Registry.RemoveKeys | server.py:90-91 | the delete removes exactly that key and keeps keys distinct |
| Registry.LookupHolder | server.py:142-143 | a socket some name maps to holds at least one session, so it is reached by every fan-out |
| OfflineQueue.DrainEnvelopes | server.py:173-174 | the drain builds one `msg` per row, addressed to the user, with the row's sender, text and stored timestamp |
| OfflineQueue.PendingRows | server.py:167 | the selected rows are exactly the table's rows addressed to the user |
| OfflineQueue.PendingOrdered | server.py:167 | in a table stored in time order, a recipient's rows come out in ascending timestamp order |
| OfflineQueue.WithoutOrdered | server.py:176 | after the delete the remaining rows are those for other recipients, still in time order and no later than the clock |
| OfflineQueue.PendingPartition | server.py:167-176 | the selected rows and the rows the delete keeps partition the table as a multiset |
| OfflineQueue.PendingAfterDelete | server.py:176 | after the delete the user has nothing pending and every other recipient's rows are unchanged |
| OfflineQueue.DeleteNothing | server.py:169-177 | with no rows for the user, the table is left as it was |
| OfflineQueue.PendingAppend | server.py:158-160 | storing a row appends it to its recipient's pending rows and to no one else's |
| OfflineQueue.DrainAscending | server.py:167-175 | the drain writes `msg` packets to the user, one per row, in strictly ascending timestamp order |
| Wire.LivePrefix | server.py:13-17 | a fan-out reaches the sessions before the first closed socket; those are open, and the one where it stops is closed |
| Wire.DirectoryPresence | server.py:136-140 | the user list covers exactly the registered names and says online exactly for names with a session |
| Wire.OutboxAppend | server.py:13-17 | a socket's view of a log made of two parts is its view of the first part followed by its view of the second |
| Wire.OutboxFanout | server.py:142-143 | a fan-out writes the envelope to a socket once per session that socket holds |
| Wire.OutboxDeliver | server.py:173-175 | the drained messages go to the recipient's socket and no other |
| Wire.FanoutAt | server.py:190-191 | the fan-out writes to every session once each, in registry order |
| Wire.FanoutSnoc | server.py:190-191 | extending a partial fan-out by one session appends one write to that session |
| Wire.DeliverSnoc | server.py:173-175 | extending the drain by one row appends one write to the recipient's socket |
| ChatServer.Server.constructor | server.py:42-48 | the server starts with the users and offline rows already in the database file, nobody logged in, nothing written and nothing closed |
| ChatServer.Server.Send | server.py:13-17 | a write to a closed socket raises and records nothing; any other write is recorded; the new state and the raise are exactly `Steps.Emit` of the old state |
| ChatServer.Server.Now | server.py:147 | each clock reading is later than the one before |
| ChatServer.Server.CloseConn | server.py:94 | the handler's socket joins the closed set |
| ChatServer.Server.Broadcast | server.py:189-191 | the envelope is written to each session in registry order up to the first closed socket; it raises exactly when some session's socket is closed; the new state and the raise are exactly `Steps.Spread` of the old state |
| ChatServer.Server.BroadcastStatus | server.py:187-191 | a `status_update` fan-out to every session, the subject's own included; the new state and the raise are exactly `Steps.Spread` of the old state |
| ChatServer.Server.SendUserList | server.py:132-143 | a `user_list` fan-out of the whole directory with presences; the new state and the raise are exactly `Steps.Spread` of the old state |
| ChatServer.Server.Register | server.py:96-108 | a new name is stored with its digest and acknowledged; a taken name is refused and its credential kept; the registry is untouched; the new state is exactly `Steps.RegisterStep` of the old state, which does not raise on the caller's open socket |
| ChatServer.Server.StoreOfflineMessage | server.py:155-162 | one row is appended with a fresh timestamp; the table stays in time order |
| ChatServer.Server.RouteMessage | server.py:145-153 | a message to a name with a session is written to that socket and never stored; otherwise it is stored with the later of two clock readings, and nothing is written; the new state and the raise are exactly `Steps.RouteStep` of the old state |
| ChatServer.Server.NotifyTyping | server.py:180-185 | a typing notice is forwarded to a recipient with a session and dropped otherwise; the table is never touched; the new state and the raise are exactly `Steps.TypingStep` of the old state |
| ChatServer.Server.SendOfflineMessages | server.py:164-178 | with rows waiting and a session present, the rows are written in order and then deleted; an error on the write leaves the table intact; in any other case nothing happens; the new state and the raise are exactly `Steps.DrainStep` of the old state |
| ChatServer.Server.Login | server.py:110-130 | a wrong password is refused with no other effect; the right one installs the session, then writes the acknowledgement, the status fan-out, the user-list fan-out and the drained messages, and empties the user's rows; a closed socket in the registry cuts this short; the new state and the raise are exactly `Steps.LoginStep` of the old state |
| ChatServer.LoginOutbox | server.py:119-127 | the new session's own socket receives the acknowledgement, then at least one status update and one user list, then its stored messages |
| Protocol.Hash | server.py:10-11 | definition: the stand-in for the SHA-256 digest of a password |
| Protocol.Authentic | server.py:115-119 | definition: a login is accepted when the name is registered with the digest of the given password |
| Registry.Lookup | server.py:149 | definition: `clients.get(name)`, the socket of the session with that name, if any |
| Registry.Put | server.py:121 | definition: `clients[name] = sock`, replacing the name's entry in place or appending a new one |
| Registry.Remove | server.py:90-91 | definition: `del clients[name]` when the name is a key, leaving the others in order |
| OfflineQueue.Pending | server.py:167 | definition: the rows addressed to the user, in table order |
| OfflineQueue.Without | server.py:176 | definition: the table with every row addressed to the user deleted |
| Wire.Fanout | server.py:142-143 | definition: one write of the envelope to each session's socket, in registry order |
| Wire.Deliver | server.py:173-175 | definition: one write per drained envelope, all to the recipient's socket |
| Wire.Directory | server.py:135-140 | definition: each registered name mapped to online when it has a session, offline otherwise |
| Steps.Emit | server.py:13-17 | definition: `send_with_delimiter` on the state: a closed socket raises with no effect, any other write is appended to the log |
| Steps.Spread | server.py:189-191 | definition: a fan-out on the state, cut at the first closed socket, raising when there is one |
| Steps.ListEnvelope | server.py:132-141 | definition: the `user_list` envelope of the registered names and their presences |
| Steps.RegisterStep | server.py:96-108 | definition: `_register` on the state |
| Steps.DrainStep | server.py:164-178 | definition: `_send_offline_messages` on the state: the rows are written and then deleted, or a closed socket raises before the delete |
| Steps.LoginStep | server.py:110-130 | definition: `_login` on the state, each write cutting the rest short when it raises |
| Steps.RouteStep | server.py:145-162 | definition: `_route_message` with `_store_offline_message` on the state, with two clock readings on the offline path |
| Steps.TypingStep | server.py:180-185 | definition: `_notify_typing` on the state |
| Steps.Step | server.py:72-84 | definition: one decoded request dispatched by command, with `register` and `login` ungated, the rest gated on a truthy `user`, and `user` set by `login` |
| Steps.Handle | server.py:71-84 | definition: one frame, where text that does not decode raises with no effect |
| Steps.Run | server.py:69-85 | definition: the frame loop, stopping after the first frame that raises |
| Steps.FinishStep | server.py:87-94 | definition: the handler's `finally` block on the state |
| Steps.LoginGood | server.py:110-130 | a login keeps the state good: sessions only for registered names, one per name, and the offline table in time order |
| Steps.RouteGood | server.py:145-162 | storing a message stamps it after every stored row, so the table stays in time order |
| Steps.StepGood | server.py:72-84 | every command keeps the state good |
| Steps.LoginFollows | server.py:110-130 | a login removes or changes no credential, closes no socket, and only appends to what was written |
| Steps.StepFollows | server.py:72-84 | no command removes or changes a stored credential or closes a socket; writes are only appended and the clock never goes back |
| Steps.StepGate | server.py:78-84 | while `user` is not truthy, anything but `register` and `login` changes nothing and does not raise; an unknown command never does |
| Steps.StepRegister | server.py:96-108 | `register` is served in any state: a new name is stored and acknowledged, a taken one refused with its credential kept; the handler's user, the registry and the table are untouched |
| Steps.StepLogin | server.py:110-130 | `login` keeps the users table, installs the session exactly when the password is right, raises exactly when the new registry holds a closed socket, and sets `user` to the name, to nothing on a wrong password, or leaves it on a raise |
| Steps.StepServed | server.py:78-84 | with a truthy user, `get_users` fans the list out and raises exactly when a session's socket is closed; `msg` and `typing` reach the recipient's socket and raise exactly when it is closed; a `msg` for a name without a session is stored |
| Steps.RunShape | server.py:69-85 | the frame loop cuts frames off in order and stops only after one that raised; every earlier frame decoded; the last one did not decode or is a command; a frame that does not decode is the last one handled; a connection that goes on handled every frame |
| Steps.RunStopsAtMalformed | server.py:71-85 | frames after one that does not decode are never handled |
| Steps.RunGood | server.py:64-85 | however many frames a connection sends, the state stays good |
| ChatServer.Handler.constructor | server.py:61-62 | a handler starts with no user and an empty buffer |
| ChatServer.Handler.Dispatch | server.py:72-84 | the server state, the handler's `user` and whether it raised are exactly `Step` of the request on the state before |
| ChatServer.Handler.HandleFrame | server.py:70-84 | the state, `user` and whether the connection ends are exactly `Handle` of the decoded frame: a frame that does not decode ends it with no effect, any other is dispatched |
| ChatServer.Handler.ProcessBuffer | server.py:69-84 | the state, `user`, the end flag and the number of frames cut off are exactly `Run` over the buffer's decoded frames; the buffer keeps the frames not cut off and the unterminated tail |
| ChatServer.Handler.Receive | server.py:64-70 | an empty read ends the connection with no effect; otherwise the text is appended and the result is `Run` over the frames of the whole buffer |
| ChatServer.Handler.Finish | server.py:87-94 | a truthy user's name is deleted from the registry, announced offline and followed by a user list; the socket is closed unless one of those writes raised; the new state is exactly `Steps.FinishStep` of the old state |
| ChatServer.DecodeAll | server.py:71 | each frame is decoded independently, in order |
| Scenario.BothRegister | server.py:96-108 | two new names register on two sockets and each socket gets its acknowledgement |
| Scenario.AliceWritesToOfflineBob | server.py:145-162 | a message to a registered user with no session is stored once and nothing reaches that user's socket |
| Scenario.LoginRepliesSkipBob | server.py:119-126 | with alice the only session, her login replies go to her socket only, so bob's socket still holds just his registration reply |
| Scenario.BobsOutbox | server.py:119-127 | with alice and bob online and one message stored for bob, his socket receives the acknowledgement, his status update, the list with both online, then alice's message |
| Scenario.AliceLeavesStaleSession | server.py:87-94 | after a failed re-login the handler's exit closes the socket but leaves the session registered |

## Left out

- Sockets, `accept`, threads and the lock are not modelled. Each handler step is atomic, and interleavings between steps are arbitrary.
- A handler's socket is identified by a number. `Server.Register`, `Server.Login` and `Handler.Dispatch` require the caller's socket to be open. The server closes a socket only in that socket's own `finally` block, after which the handler serves nothing. The `Steps` functions also say what happens on a closed socket.
- Server.constructor: the database file's contents are parameters. The offline rows must be in time order and stamped no later than the clock's first reading. Rows written by a server run whose clock behaved as modelled satisfy this.
- `recv` and UTF-8 decoding are not modelled. `Handler.Receive` takes the decoded text of one read. A chunk boundary inside a multi-byte character, which raises `UnicodeDecodeError`, is not modelled.
- JSON is not modelled. Decoding is a parameter `parse` that yields a request or `Malformed`. A valid JSON value that is not an object, or a request with missing fields or with a field of the wrong type, is not modelled. In the source a non-string `password` makes `hash_password` raise `AttributeError` (server.py:11), and a list as `to` makes `clients.get` raise `TypeError` (server.py:149). Both end the connection. `msg` and `typing` forward the request object with any extra fields it carries; the model forwards only the named fields.
- SQLite is replaced by a map for `users` and a sequence for `offline_messages`. The foreign key on `recipient` is not enforced, and the model does the same: a message to an unknown name is stored. Database errors are not modelled.
- SHA-256 is replaced by an injective stand-in (`Protocol.Hash`). Distinct passwords with equal SHA-256 digests are not modelled.
- `datetime.now()` is a counter that rises by one per reading. Equal readings, a clock that goes backwards, and the string form of timestamps are not modelled.
- Server.Send: a write that fails with `ConnectionResetError` or `BrokenPipeError` is swallowed by the source (server.py:16). The model records it like a successful write, because the peer's state is not modelled. Any other failure of a write to a socket the server has not closed is not modelled either. Examples are `ConnectionAbortedError` and `TimeoutError`. The source does not swallow these. They end the writing handler's connection: `ConnectionAbortedError` is caught at server.py:85, the others escape, and either way its `finally` block runs (server.py:87-94). The model records every such write and reports no raise. So `RouteMessage`, `NotifyTyping`, `Broadcast` and `Login` promise no raise where the source can raise.
- An error from `recv` (a `ConnectionResetError` or `ConnectionAbortedError` caught at server.py:85) is represented by the caller running `Handler.Finish`, as for an empty read.
- The console messages (`print`) are not modelled.
- Handler.Finish: the caller runs it after `Receive` reports that the connection ended. The model does not say how the thread's exception unwinds.
