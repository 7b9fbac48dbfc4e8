# ChatExpo chat core in Dafny

A model of the core of ChatExpo ("SynapseChat"), a Socket.IO group chat with a
MongoDB history:

- the server's connection handler (`server/index.js`). Text, image and audio
  messages are validated, stored and then emitted to every socket. An image or
  audio failure sends an `error` event to the sender only. Call rooms are named
  and returned to the requester. A call notification goes to everybody else.
  A connection the transport did not recover is sent the backlog after its
  cursor: the oldest 50 documents, in ascending `createdAt` order.
- the `Message` schema (`server/models/message.js`): required `content` and
  `user`, the `type` enum with its default, and the timestamps.
- the browser client (`client/scripts/indexClient.js`): the stored username,
  the resumption cursor, the own/other decision, `formatTimestamp` and the form
  guard.

Modules, one per component:

| file | module | models |
|---|---|---|
| `wrappers.dfy` | `Wrappers` | Option / Result |
| `strings.dfy` | `Strings` | `toString()`, `padStart(2, '0')`, `substring`/`substr`, the text of `Math.random().toString(36)` |
| `message_schema.dfy` | `MessageSchema` | the schema: validation, default type, timestamps |
| `protocol.dfy` | `Protocol` | server-to-client events and the handshake cursor |
| `replay.dfy` | `Replay` | the recovery query (filter, sort, limit) and the events it emits |
| `call_room.dfy` | `CallRoom` | room name and URL |
| `relay.dfy` | `Relay` | the `ChatRelay` class: store, id counter, sessions, per-socket outboxes |
| `calendar.dfy` | `Calendar` | local dates and the previous day |
| `timestamp.dfy` | `Timestamp` | `formatTimestamp` |
| `chat_client.dfy` | `ChatClient` | the `Client` class: storage, username, cursor, rendered items, form |
| `scenario.dfy` | `Scenario` | a two-client conversation derived from the contracts alone |

The store, the clock, randomness and the transport are inputs:

- whether the database accepts a write (`writeOk`) or answers the recovery
  query (`queryOk`);
- `Date.now()` (`now`);
- `Math.random()`: the first draw as a real in [0, 1), a base-36 draw as its
  `toString(36)` text;
- `socket.recovered`;
- the handshake's `auth.username`.

Each socket's received events are a `seq<Event>` in the relay's `outbox` map.
So "emitted to all", "to all but the sender" and "to the sender only" are
statements about that map.

Four behaviours of the code a reader might not expect, all modelled as the code has them:

- A whitespace-only text is stored and broadcast. Mongoose's `required` rejects
  only null, undefined and `""`.
- The code checks no payload size ceiling. Beyond the transport's 100 MB
  buffer, the database refuses documents over 16 MiB; the model leaves that
  refusal to `writeOk`, so such a payload takes the failed-save path.
- The replay is sorted by `createdAt`, not by id.
- A text message that cannot be stored produces no event at all.

One behaviour is modelled as evidently intended rather than as written: an
image or audio message with no payload. `Relay.ChatRelay.MediaMessage` sends
the sender the handler's `error` event; the code as written stops the server
(see Findings).

## Model

| member | source | states |
|---|---|---|
| `MessageSchema.Create` | server/models/message.js:3-19 | a document is rejected exactly when `content` or `user` is missing or empty, or `type` is given and not text/image/audio. The error names exactly the failing paths. An accepted document keeps content and user, gets type "text" when it was omitted, and gets `createdAt == updatedAt ==` the creation time |
| `MessageSchema.KindOf` | server/models/message.js:12-15 | a stored name denotes a kind iff it is "text", "image" or "audio", and the kind's name is that string |
| `MessageSchema.KindNameRoundTrip` | server/models/message.js:12-16 | every kind's stored name reads back as that kind |
| `Replay.After` | server/index.js:164-166 | the `_id: { $gt: cursor }` filter, in store order; `Replay.AfterMembers` proves it keeps exactly the documents above the cursor and `Replay.AfterMultiset` that it keeps nothing new |
| `Replay.Select` | server/index.js:161-166 | the query object: the `$gt` filter only for a truthy valid offset, else `{}`; its meaning is `Replay.SelectMembers` |
| `Replay.SelectMembers` | server/index.js:161-166 | with a truthy valid cursor the query keeps exactly the documents whose id is above it. With an unset, falsy or malformed offset it keeps the whole collection |
| `Replay.SortByCreatedAt` | server/index.js:169 | `.sort({ createdAt: 1 })` as a stable insertion sort; proved sorted and a permutation by `Replay.SortByCreatedAtSpec` |
| `Replay.SortByCreatedAtSpec` | server/index.js:169 | the sort yields ascending `createdAt` and is a permutation of its input |
| `Replay.SortByCreatedAtKeepsSorted` | server/index.js:169 | input already in `createdAt` order comes back unchanged, so ties keep store order |
| `Replay.Backlog` | server/index.js:168-170 | the documents the recovery query returns: filtered, sorted, first 50; its properties are `Replay.BacklogOrder`, `Replay.BacklogFiltered` and `Replay.BacklogInStoreOrder` |
| `Replay.BacklogOrder` | server/index.js:168-170 | the backlog has exactly min(50, matching) entries and ascending `createdAt`. It is a sub-multiset of the matching documents. Every matching document left out is no older than every one sent, so it is the oldest page. When at most 50 match, all are sent |
| `Replay.BacklogFiltered` | server/index.js:163-170 | every replayed document is in the store and, under a cursor, has id above it |
| `Replay.BacklogInStoreOrder` | server/index.js:163-170 | when the collection is in `createdAt` order, the backlog is the first 50 matching documents in store order |
| `Replay.EventFor` | server/index.js:175-181 | the event one document replays as: its kind's event with (content, id, user, createdAt), or none for another `type`; tied to the live handlers by `Relay.LiveEventMatchesReplay` |
| `Replay.ReplayEvents` | server/index.js:174-182 | the `forEach` over the returned documents, one `EventFor` each in order; its properties are `Replay.ReplayEventsAppend` and `Replay.ReplayEventsSpec`, and `Relay.ChatRelay.ReplayTo` is proved to emit exactly it |
| `Replay.ReplayEventsAppend` | server/index.js:174-182 | the `forEach` emission of a concatenation is the concatenation of the emissions |
| `Replay.ReplayEventsSpec` | server/index.js:174-182 | at most one event per document. Each event is a chat event built from one document's (content, id, user, createdAt) under its kind. Unknown types emit nothing. When all types are known, the i-th event is the i-th document's |
| `CallRoom.RoomName` | server/index.js:136 | "synapsechat", `Date.now()` in decimal and `substr(2, 6)` of the random base-36 text; its shape and read-back are `CallRoom.RoomNameShape` |
| `CallRoom.RoomUrl` | server/index.js:137 | the 8x8.vc meeting address of a room name; stated in `CallRoom.RoomNameShape` |
| `CallRoom.RoomNameShape` | server/index.js:136-137 | a room name is "synapsechat", then the decimal clock reading (which reads back as `now`), then at most six base-36 digits from the front of the random fraction. The URL is "https://8x8.vc/" followed by the name |
| `Relay.Author` | server/index.js:77 | `auth.username ?? 'anonymous'` (also at lines 93, 113, 133, 149): only an absent username is replaced, an empty one is kept; `Relay.ChatRelay.ChatMessage` and the other handlers state their events under it |
| `Relay.LiveEventMatchesReplay` | server/index.js:174-182 | a document written by a live handler (lines 84, 103, 123) replays as the same event: same name and same (content, id, user, createdAt) |
| `Relay.MediaOutcomeAsWritten` | server/index.js:92-95 | the media handlers as written: a missing payload exits the process, a stored one is broadcast, any other failure reaches the sender (as-written half of Findings) |
| `Relay.MissingPayloadStopsServer` | server/index.js:92-95 | as written, an `image message` with no payload ends the process whatever the author and the database's answer (see Findings) |
| `Relay.ChatRelay.constructor` | server/index.js:68 | no socket connected, the existing collection as the store, and a next id above every stored id |
| `Relay.ChatRelay.Persist` | server/index.js:79-84 | a document is stored iff the payload is a non-empty string, the author is non-empty and the database accepts the write. Only then is it appended with the next id and the event emitted to every socket. Otherwise store, counter and every outbox are unchanged |
| `Relay.ChatRelay.ChatMessage` | server/index.js:76-89 | the text is stored and broadcast to all under the handshake author (or "anonymous"), never a payload field. On failure nothing is stored and no socket, the sender included, receives anything |
| `Relay.ChatRelay.MediaMessage` | server/index.js:92-129 | an image or audio is stored and broadcast to all under the handshake author. On failure, a missing payload included, only the sender receives the handler's `error` text and nothing is stored |
| `Relay.ChatRelay.CreateCallRoom` | server/index.js:132-145 | only the requester receives `call-room-created`, with URL "https://8x8.vc/" + name, the generated name and the handshake author. Nothing else changes |
| `Relay.ChatRelay.NotifyCall` | server/index.js:148-156 | every socket except the sender receives `call-notification` with the payload's URL and name and the sender's handshake author. The sender receives nothing |
| `Relay.ChatRelay.Connect` | server/index.js:159-186 | a new socket is registered. When the transport did not recover it and the query succeeds, it alone receives the replay events of `Backlog(store, offset)`; otherwise it receives nothing. Other sockets and the store are untouched |
| `Relay.ChatRelay.ReplayTo` | server/index.js:174-182 | the loop appends exactly `ReplayEvents(messages)` to this socket's outbox and nothing elsewhere |
| `Relay.ChatRelay.EmitReplayed` | server/index.js:175-181 | one document emits the event for its type (chat/image/audio message), or nothing for any other type, to this socket only |
| `Relay.ChatRelay.Disconnect` | server/index.js:71-73 | the socket no longer receives events. Store and ids are unchanged |
| `Strings.IntToDecimalShape` | client/scripts/indexClient.js:63-64 | the text of any integer has no leading zero, starts with '-' exactly for a negative one, and its digits read back as the magnitude |
| `Strings.DecimalRoundTrip` | client/scripts/indexClient.js:63-64 | the decimal text of a non-negative integer reads back as that integer |
| `Strings.Pad2RoundTrip` | client/scripts/indexClient.js:52-53 | below 100, `padStart(2, '0')` of the decimal gives exactly two digits that read back as the number |
| `Strings.RandomSuffix` | server/index.js:136 | `substr(2, n)` of a random base-36 text is at most n base-36 digits, a prefix of the fraction |
| `Calendar.PreviousDay` | client/scripts/indexClient.js:47-48 | the local calendar day before a date, across month and year ends and leap years; `Calendar.PreviousDayIsPredecessor` and `Calendar.PreviousNextRoundTrip` state it |
| `Calendar.PreviousDayIsPredecessor` | client/scripts/indexClient.js:47-48 | `setDate(getDate() - 1)` gives a valid date before today with no valid date in between |
| `Calendar.PreviousNextRoundTrip` | client/scripts/indexClient.js:47-48 | the previous day and the next day are inverse |
| `Timestamp.FormatTimestamp` | client/scripts/indexClient.js:40-66 | `formatTimestamp`: empty for no stamp, "Hoy "/"Ayer " plus the clock today and yesterday, else "DD/MM/YYYY HH:MM"; stated by `Timestamp.FormatEmptyIffMissing`, `Timestamp.FormatEndsWithClock`, `Timestamp.FormatLabel` and `Timestamp.FormatFullDate` |
| `Timestamp.ClockShape` | client/scripts/indexClient.js:52-54 | the clock text is exactly five characters "HH:MM" that read back as hour and minute |
| `Timestamp.FormatEmptyIffMissing` | client/scripts/indexClient.js:41 | the result is '' iff the timestamp is missing or empty |
| `Timestamp.FormatEndsWithClock` | client/scripts/indexClient.js:52-64 | every non-empty result ends with "HH:MM" of the message's hour and minute, zero-padded |
| `Timestamp.FormatLabel` | client/scripts/indexClient.js:56-59 | the result starts with "Hoy " iff the message is from today, and with "Ayer " iff it is from the previous calendar day. On those days it is exactly "Hoy HH:MM" (9 characters) or "Ayer HH:MM" (10 characters) |
| `Timestamp.FormatFullDate` | client/scripts/indexClient.js:60-64 | on any other day the result begins "DD/MM/" with the day and the 1-based month zero-padded to two digits. Then comes the year exactly as `${year}` prints it: no leading zero, a '-' before a negative year, and reading back as the year. Then a space and the clock |
| `ChatClient.GeneratedName` | client/scripts/indexClient.js:18-20 | a name picked by `Math.floor(r1 * 20)`, "_" and `substring(2, 5)` of the random base-36 text; its shape is `ChatClient.GeneratedNameShape` |
| `ChatClient.GeneratedNameShape` | client/scripts/indexClient.js:18-20 | a generated username is one of the 20 listed names, "_" and at most three base-36 digits, and is never empty |
| `ChatClient.Client.constructor` | client/scripts/indexClient.js:26-33 | the page's username is the stored one or a new one, now stored, and the first handshake cursor is 0 |
| `ChatClient.Client.GetUsername` | client/scripts/indexClient.js:11-24 | a stored non-empty username is returned unchanged and storage is untouched. Otherwise the generated name is returned and stored, and being non-empty it is what the next call returns |
| `ChatClient.Client.OnChatMessage` | client/scripts/indexClient.js:68-78 | the item is marked own iff its author equals the local username and carries the formatted time. Afterwards the cursor is exactly the message's id |
| `ChatClient.Client.Submit` | client/scripts/indexClient.js:83-90 | a non-empty field is emitted once and cleared. An empty field emits nothing |

## Findings

| source | as written | input that shows it | evidently intended | confidence | as-written member | corrected member |
|---|---|---|---|---|---|---|
| server/index.js:94 (and 114) | the handler computes `imageData.length` for a log line before its `try`. For a missing payload this throws. The async handler's promise rejects unhandled, and the `unhandledRejection` handler (lines 244-247) calls `gracefulShutdown`, which exits the process | a client emits `image message` (or `audio message`) with no argument | the failure is reported to the sender with the handler's `error` event, as for any other failed save, and the server keeps running | not executed; follows from Node's rejection semantics and the shutdown handler | `Relay.MediaOutcomeAsWritten`, `Relay.MissingPayloadStopsServer` | `Relay.ChatRelay.MediaMessage` |

## Left out

- MongoDB connection, DNS set-up, the environment check and exit on a
  failed start (server/index.js:10-66): process control and I/O.
- The Express routes, `server.listen`, and the graceful-shutdown and signal
  handlers (server/index.js:189-247): plumbing. They appear only in the finding
  above.
- All `console` logging, including the size-in-KB lines (94, 114). These are
  logs, not checks.
- Socket.IO internals:
  - `connectionStateRecovery` and its redelivery of missed packets.
    `socket.recovered` is an input.
  - `maxHttpBufferSize`.
  - Disconnection: the source only logs it; the model drops the socket from
    the emission targets.
- Interleaving: every handler runs atomically. In the source, the replay
  `forEach` (server/index.js:174-182) is synchronous, so nothing comes between
  two replay events; the only suspension is `await Message.find(...)` at line
  168. Live broadcasts made while that query runs reach the new socket before
  its replay, so a live message can precede older replayed ones, and a message
  stored during the query can arrive twice, live and replayed. The model
  replays at connection time and does not capture that ordering or duplicate.
- ObjectId structure: ids are naturals from a counter, and `$gt` is a
  comparison of naturals. `ObjectId.isValid` is folded into the `Offset`
  classification (Cursor vs Malformed).
- Mongoose casting of non-string payloads (numbers stored as strings, objects
  rejected): payloads are `Option<string>`. With them goes the
  `msg.substring` log call at line 85, which would throw after the broadcast
  for a non-string.
- `notify-call` with no payload: `data.roomUrl` throws synchronously and the
  `uncaughtException` handler shuts the server down. The handler's intended
  behaviour in that case is unclear, so the model takes the two fields as
  strings.
- Timestamp.FormatTimestamp: `new Date(y, m, d)` (client/scripts/indexClient.js:46,
  50) maps years 0-99 to 1900-1999, so for such years the source compares shifted
  dates. The model compares the calendar fields as they are, so a message dated
  0024-05-01 read when the clock shows 1924-05-01 prints "Hoy" in the source and
  the full date in the model. A server-stamped time cannot be in those years.
- `toISOString()` and the client's parsing of it into local calendar fields,
  time zones and daylight saving: `createdAt` is a millisecond count on the
  server, and `formatTimestamp` receives local fields. Invalid date strings
  (which print NaN) are not modelled.
- Replay.SortByCreatedAt: documents with equal `createdAt` keep store order.
  MongoDB promises no order among ties, so the model is more deterministic
  than the source there.
- DOM insertion, scrolling, the `localStorage` API and the CDN import
  (client/scripts/indexClient.js:2, 35-37, 72-80). Storage is an
  `Option<string>` field and rendering a list of items.
- The client file has no image or audio handler, so only `chat message`
  advances its cursor. That is what the model does.
- WebRTC offer/answer/ICE relay, call accept/reject/end and call teardown on
  disconnect are not in server/index.js or indexClient.js and are not part of
  this model.
