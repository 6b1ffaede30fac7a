# Real-time log notification core of Cadmium Cloud, in Dafny

This project models the in-memory part of the Cadmium Cloud log service. That part tells a live dashboard that a new log exists. It has four pieces, plus a small store:

- **Connection registry** (`Server`, from `src/websocket/server.rs`). A map from organization id to application id to the ordered list of actor addresses connected for that scope. `WebSocketServer` adds to a list, filters a list, returns the first address, and pushes a `SendLogId` to that address.
- **Retry queue** (`RetryQueue`, from `src/services/websocket_queue.rs`). A FIFO of `{organization_id, application_id, log_id}` entries. One iteration of its background loop pops the head. If the head's scope has a connection, the entry is delivered and dropped; otherwise it goes back on the tail.
- **Connection actor** (`Connection`, from `src/websocket/connection.rs`). The actor bound to one scope. Its handler for `SendLogId` writes the text frame `New log ID: <id>`. Its frame dispatch answers pings, ignores pongs and text, and stops on anything else.
- **OTP store** (`OtpService`, from `src/services/otp_service.rs`). A map from email to the last six-digit OTP generated for it, with an exact-match check.
- **Composition** (`Coordination`). A delivery attempt (push a log id, queue it on a miss) and a lemma about letting the retry loop run afterwards. The repository never wires these pieces together, so they describe a composition, not existing code.

Shared pieces: `Wrappers` (Option, map lookup) and `ObjectIds`. `ObjectIds` models a MongoDB id as twelve bytes, displayed as 24 lower-case hexadecimal digits.

Each lock-guarded section of the source is one atomic method on a class. The registry, the queue, the OTP store and the actor context are classes whose methods update `map`/`seq` fields. Each method is proved against a pure function (`Added`, `Removed`, `First`, `PushBack`, `PopFront`, `ProcessStep`, `React`, `Verify`), and the lemmas state the properties of those functions. An actix `do_send` appends an `Envelope` to an `Outbox` object. An actor's `ctx.text`, `ctx.pong` and `ctx.stop` update a `WebsocketContext` object.

The model follows the code as written:

- `SendLogId` has only a `log_id` field (`src/websocket/connection.rs:9-11`). `src/services/websocket_queue.rs:80-82` also passes an `app_id`, which that struct does not have. The model sends `SendLogId(logId)` from both places.
- The notification frame is `New log ID: <log id>` (`src/websocket/connection.rs:36`). It carries no application id.
- `remove_connection` deletes every address equal to the given one (`retain`), not just the first. It never removes a map key, so an emptied list stays as an empty entry.
- The actor has two states, running and stopped (`ctx.stop()`). No lifecycle hook registers or deregisters the actor.
- A retry entry is not guaranteed to be delivered within one loop iteration once a connection appears. An entry at queue position `k` is delivered within `k + 1` iterations (`RetryQueue.DeliveredWithin`).
- `src/handlers/forget_password_handler.rs` calls OTP functions with an extra database argument, and calls a `verify_and_delete_otp` that `otp_service.rs` does not define. The model follows `otp_service.rs`.

## Model

| member | source | states |
|---|---|---|
| `ObjectIds.Display` | src/websocket/connection.rs:36 | An id is displayed as exactly 24 lower-case hexadecimal digits, and reading those digits back gives the id again. |
| `ObjectIds.DisplayInjective` | src/websocket/server.rs:29-30 | Two ids are displayed the same iff they are equal, so keying maps by the id's string is keying by the id. |
| `ObjectIds.FromHexToHex` | src/websocket/connection.rs:36 | Reading back the hexadecimal text of any byte string returns that byte string. |
| `ObjectIds.ToHexFromHex` | src/websocket/connection.rs:36 | Every even-length lower-case hexadecimal text is the rendering of the bytes read from it. |
| `Connection.RenderLogId` | src/websocket/connection.rs:36 | The frame text is the prefix "New log ID: " followed by 24 hexadecimal digits, 36 characters in all. |
| `Connection.ParseRenderLogId` | src/websocket/connection.rs:36 | A client parsing the frame text recovers exactly the SendLogId that was rendered. |
| `Connection.RenderParseLogId` | src/websocket/connection.rs:36 | Every text the parser accepts is the rendering of the message it returns, so the format has one rendering per log id. |
| `Connection.React` | src/websocket/connection.rs:42-55 | An item stops the actor iff it is not a Ping, Pong or Text frame. A Ping with payload p produces exactly one pong with payload p. Every other item produces no frame. |
| `Connection.Outbox.DoSend` | src/websocket/server.rs:96 | `do_send` appends exactly one envelope (target address, message) to the mailboxes and changes nothing else. |
| `Connection.WebSocketActor.constructor` | src/websocket/connection.rs:20-25 | A new actor stores exactly the given organization and application ids. |
| `Connection.WebSocketActor.HandleSendLogId` | src/websocket/connection.rs:35-38 | Handling SendLogId appends one text frame, the rendered log id, keeps the actor's state, and leaves the actor's ids unchanged. |
| `Connection.WebSocketActor.HandleStreamItem` | src/websocket/connection.rs:42-55 | The context gains exactly the frames of React. The actor is stopped iff React says stop, and otherwise keeps its state. The actor's ids are unchanged. |
| `Server.First` | src/websocket/server.rs:79-83 | The lookup returns None iff the org is absent, the app is absent or the list is empty; otherwise it returns the list's element at index 0. |
| `Server.Added` | src/websocket/server.rs:32-38 | The org and app keys are created if absent. The scope's list gains `conn` at its end. Every other scope's list and every other inner map is unchanged. |
| `Server.Without` | src/websocket/server.rs:60 | The filtered list holds no element equal to `conn` and is no longer than the input. |
| `Server.WithoutKeepsOthers` | src/websocket/server.rs:60 | The filter keeps every other address exactly as often as it occurred. |
| `Server.WithoutAppend` | src/websocket/server.rs:60 | The filter of a concatenation is the concatenation of the filters, so the surviving elements keep their original order. |
| `Server.WithoutAbsent` | src/websocket/server.rs:60 | Filtering a list that does not contain `conn` leaves it exactly as it was. |
| `Server.Retain` | src/websocket/server.rs:60 | The in-order pass keeping each element unequal to `conn` computes exactly the filtered list. |
| `Server.Removed` | src/websocket/server.rs:57-67 | Only the scope's list is filtered, and every other scope is untouched. No org or app key is ever removed. An unknown org or app leaves the registry exactly as it was. |
| `Server.EmptyRegistryHasNoConnection` | src/websocket/server.rs:79-83 | A fresh, empty registry returns None for every scope. |
| `Server.FirstAfterAdded` | src/websocket/server.rs:32-38 | After adding `conn`, the lookup returns `conn` if the scope had no connection; otherwise it returns the same first address as before. |
| `Server.RemoveUndoesAdd` | src/websocket/server.rs:57-60 | Removing a just-added connection that was not in the list before restores the scope's list exactly, and restores the whole registry when the scope already existed. |
| `Server.WebSocketServer.constructor` | src/websocket/server.rs:16-20 | A new registry is empty. |
| `Server.WebSocketServer.AddConnection` | src/websocket/server.rs:23-45 | The new registry is `Added` of the old one. |
| `Server.WebSocketServer.RemoveConnection` | src/websocket/server.rs:48-68 | The new registry is `Removed` of the old one. |
| `Server.WebSocketServer.GetConnection` | src/websocket/server.rs:71-84 | The read-only lookup returns the first address of the scope's list, or None exactly when that list is empty or absent. |
| `Server.WebSocketServer.PushLogId` | src/websocket/server.rs:87-107 | Returns true iff the lookup finds an address. On true it posts exactly one SendLogId with the given log id to that first address, and on false it posts nothing. The registry is unchanged. |
| `RetryQueue.PushBack` | src/services/websocket_queue.rs:33 | The entry is placed at the tail, after the unchanged old entries, and the length grows by exactly one. |
| `RetryQueue.PopFront` | src/services/websocket_queue.rs:41 | A non-empty queue yields its head, and what remains is the rest. An empty queue yields None and stays empty. |
| `RetryQueue.Fifo` | src/services/websocket_queue.rs:31-53 | Entries enqueued in order come back from successive dequeues in the same order, after the entries already waiting. |
| `RetryQueue.ProcessStep` | src/services/websocket_queue.rs:68-92 | On an empty queue, nothing changes and nothing is sent. If the head's scope has a connection, the head is dropped, delivered to that connection, and the size drops by one. Otherwise the queue is rotated by one: same length, same multiset of entries. |
| `RetryQueue.Iterate` | src/services/websocket_queue.rs:67-96 | Over any number of iterations, the entries left plus the notifications sent always add up to the original queue length. |
| `RetryQueue.DeliveredWithin` | src/services/websocket_queue.rs:67-96 | An entry at position k whose scope has a connection receives its SendLogId at that connection within k + 1 iterations. |
| `RetryQueue.WebSocketQueue.constructor` | src/services/websocket_queue.rs:24-28 | A new queue is empty. |
| `RetryQueue.WebSocketQueue.Enqueue` | src/services/websocket_queue.rs:31-36 | The new queue is `PushBack` of the old one. |
| `RetryQueue.WebSocketQueue.Dequeue` | src/services/websocket_queue.rs:39-53 | The result and the new queue are `PopFront` of the old queue. |
| `RetryQueue.WebSocketQueue.Size` | src/services/websocket_queue.rs:56-59 | Returns the current length and changes nothing. |
| `RetryQueue.WebSocketQueue.ProcessQueueOnce` | src/services/websocket_queue.rs:68-92 | One loop body: the new queue is that of `ProcessStep`, and the outbox gains exactly the one delivery it names, or nothing. |
| `OtpService.DecimalString` | src/services/otp_service.rs:11 | `to_string` gives at least one decimal digit, no leading zero, and one character exactly for numbers below ten. |
| `OtpService.DecimalRoundTrip` | src/services/otp_service.rs:11 | Reading back the decimal rendering of any number gives that number, so the rendering is injective. |
| `OtpService.DecimalLength` | src/services/otp_service.rs:11 | A number in [10^k, 10^(k+1)) is rendered with exactly k + 1 digits. |
| `OtpService.OtpShape` | src/services/otp_service.rs:11 | Every draw in the half-open range [100000, 999999) renders as six digits denoting the draw, and never as "999999". |
| `OtpService.Verify` | src/services/otp_service.rs:19-25 | Verification succeeds iff an entry is stored for the email and it equals the candidate exactly. It is false for an email with no entry. |
| `OtpService.RegenerateRevokes` | src/services/otp_service.rs:10-24 | After a second generation for the same email, the first OTP still verifies iff the two draws are equal. |
| `OtpService.OtpStorage.constructor` | src/services/otp_service.rs:6-8 | The store starts empty. |
| `OtpService.OtpStorage.VerifyOtp` | src/services/otp_service.rs:19-25 | `verify_otp` on the store: true iff the email has a stored OTP equal to the candidate. It only reads the storage, so verifying never consumes an OTP and repeating it gives the same answer. |
| `OtpService.OtpStorage.GenerateOtp` | src/services/otp_service.rs:10-17 | Returns the six-digit rendering of the draw and maps the email to it, overwriting any earlier entry and leaving the other emails unchanged. Verifying that OTP right afterwards succeeds. |
| `Coordination.Deliver` | src/websocket/server.rs:87-107 | One delivery attempt (push, then enqueue on a miss). When the scope has a connection, exactly one SendLogId with the log id goes to its first address and the retry queue is unchanged. When it has none, nothing is sent and the queue gains exactly the attempted triple at its tail, growing by one. |
| `Coordination.MissedPushReachesLaterConnection` | src/services/websocket_queue.rs:68-82 | If a delivery attempt found no connection, and a connection is then registered for its scope, that connection receives its SendLogId within queue-length-plus-one iterations of the retry loop. |

## Left out

- Locks (`Arc<RwLock<..>>`), async/await and scheduling. Each locked section is one atomic method. `process_queue` releases the lock between its dequeue and its re-enqueue, so in the source an enqueue from elsewhere can slip in between; one atomic iteration does not model that interleaving.
- The infinite `loop` of `process_queue` and its 5-second sleep. `ProcessQueueOnce` models one iteration, and `Iterate` models a given number of iterations against a fixed lookup.
- Actix mailbox delivery. `do_send` only appends an envelope to an outbox. When, or whether, the actor handles it is not modelled, and neither is a send to a stopped actor.
- `ObjectId::to_string` keys. The maps are keyed by ids directly, and `ObjectIds.DisplayInjective` shows that this is the same keying.
- The random draw in `generate_otp`. It is a parameter with the range precondition of `gen_range(100000..999999)`.
- The logging and `println!` calls in every core method. They are output only.
- The WebSocket close reason and received text. They are only logged, so the model keeps them in the frame datatype and ignores them.
- MongoDB access, JWT, password hashing, the email client, HTTP handlers and routes. They are outside this core.
