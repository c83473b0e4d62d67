# SlackLite real-time core, modelled in Dafny

SlackLite is a chat backend: FastAPI handlers over a MongoDB store, plus websockets
that push events to connected clients. This project models the part that pushes events.

- **`ConnectionManager`** (`registry.dfy`) is the live connection registry. It maps each
  user id to that user's current socket. It registers and unregisters users, and it
  sends envelopes on personal, channel and presence fan-outs.
- **Audience routing** (`routing.dfy`, `handlers.dfy`) decides where a message event goes.
  `send_message`, `edit_message` and `add_reaction` each push to a channel's members, or
  to a direct-message pair, or to nobody.
- **Record rules** (`channels.dfy`, `messages.dfy`) cover joining and leaving a channel,
  the reaction merge, and the rule that only a message's sender may edit it.
- **The websocket endpoint's registry use** (`endpoint.dfy`) covers how a session is
  admitted or refused, and how it is unregistered when it ends.

How the model is laid out:

- The registry is a class. `order` is the key order of the Python dict
  `active_connections` (insertion order; re-assigning a key keeps its place). `conns`
  is the dict itself. `online` stands in for the users' `is_online` flags in the store.
  `closed` is the set of sockets whose transport has gone away. `log` records every
  send attempt: the user whose entry supplied the socket, the socket, the envelope,
  and whether the send went through.
- A send on a closed socket raises. `broadcast_user_status` catches that and goes on
  (`Fanout.Attempts`). `send_personal_message` and `broadcast_to_channel` do not catch it.
  The first failure ends the loop and reaches the handler (`Fanout.ChannelSends`).
- A direct-message audience is the two-element target list `[recipient, echo]`. The
  handlers send to it with two personal sends, and that behaves exactly like
  `ChannelSends` over the list. So every dispatch is stated as `ChannelSends(Targets(..))`.
- Channel ids and recipient ids are tested by Python truthiness. `None` and `""` both
  count as absent (`Types.Truthy`).
- The store is modelled as values. `map<ChannelId, Channel>` holds the channels,
  `map<MessageId, Message>` holds the messages, and a dispatch reads the membership
  snapshot `map<ChannelId, seq<UserId>>`.
- `TransportClosed` is the environment closing a client. The registry is not told, so
  stale entries stay until the user disconnects. The `ClosedSocket` scenarios show what
  such a socket does to a presence broadcast and to a channel broadcast.
- Message payloads are taken to serialize, as intended. What the code does as written,
  where `json.dumps` refuses them, is modelled beside it (`Fanout.ChannelSendsAsWritten`).

## Model

| member | source | states |
|---|---|---|
| Types.AddToSetProps | backend/server.py:288-291 | After `$addToSet` the element is present and nothing else was added. The old list stays as a prefix, with at most one element appended. A second add changes nothing. A duplicate-free list stays duplicate-free, with the element in it exactly once. |
| Types.Pull | backend/server.py:297-300 | `$pull` removes every occurrence of the element. Every other element keeps its membership and its number of occurrences. A list without the element is returned unchanged. |
| Types.PullAppend | backend/server.py:297-300 | `$pull` works element by element: pulling from a concatenation pulls from each part, and a single element is kept exactly when it differs from the pulled one. So the result is the list with the pulled element struck out, everything else in its original order. |
| Types.PullNoDup | backend/server.py:129-130 | Removing a key keeps a duplicate-free key order duplicate-free. |
| Fanout.AttemptsAt | backend/server.py:163-167 | Presence fan-out isolates failures. The i-th attempt goes to the i-th registered user's socket. It succeeds exactly when that socket is open, whatever happened to the attempts before it. |
| Fanout.AttemptsReachEachOnce | backend/server.py:163-167 | Over a duplicate-free key order, every registered user's socket gets exactly one attempt, and no one else gets any. |
| Fanout.OnlineMembers | backend/server.py:149-150 | A member is reached exactly when it is in the member list and has a registry entry. |
| Fanout.OnlineCount | backend/server.py:149-150 | A registered member is reached as often as the member list names it. An unregistered member is never reached. |
| Fanout.OnlineNoDup | backend/server.py:149-150 | A duplicate-free member list gives a duplicate-free list of reached members. |
| Fanout.ChannelSendsAppend | backend/server.py:149-151 | A fan-out over `p + t` is the fan-out over `p` followed, only if nothing in `p` raised, by the fan-out over `t`. |
| Fanout.ChannelSendsFailAt | backend/server.py:149-151 | The first send that raises is the last send of the whole channel fan-out, and the fan-out reports it as raised. |
| Fanout.ChannelSendsStopAtFirstFailure | backend/server.py:149-151 | The channel fan-out is a prefix of one attempt per registered member, in member-list order. Every send except possibly the last succeeds. The prefix is the whole list unless its last send failed. |
| Fanout.ChannelSendsAllOpen | backend/server.py:145-151 | When no member's socket is closed, each registered member gets the envelope once, in member-list order, and every send succeeds. |
| Fanout.ChannelSendsAudience | backend/server.py:145-151 | Every send of a channel fan-out goes to a registered member of the list, through that member's current socket, and carries the given envelope. |
| Fanout.ChannelSendsOutcome | backend/server.py:149-151 | A channel or personal fan-out raises exactly when one of its sends failed. |
| Fanout.RaisingSockets | backend/server.py:141-151 | As written, a send raises on every closed socket. When `json.dumps` refuses the payload, it also raises on every registered socket. |
| Fanout.AsWrittenAgreesWhenSerializable | backend/server.py:400-413 | The `user_status` and `reaction_added` payloads serialize, so for them the fan-out as written is the modelled fan-out. |
| Fanout.AsWrittenMessagePushRaises | backend/server.py:318-325 | As written, a `new_message` or `message_edited` push delivers nothing. It raises at the first registered target, and completes only when no target is registered. |
| Registry.ConnectionManager.constructor | backend/server.py:111-113 | A new registry has no entries, no flags and no sends. |
| Registry.ConnectionManager.Transmit | backend/server.py:143 | One `send_text` on the user's current socket. It is logged, and it succeeds exactly when the socket is open (the payload is taken to serialize; see Findings). |
| Registry.ConnectionManager.Connect | backend/server.py:115-126 | Last writer wins: the user's entry becomes the new socket and no other entry changes. A new key goes last in the iteration order, and an existing key keeps its place. The user is flagged online. Every registered socket gets one attempt with the online status, and the new user gets exactly one. |
| Registry.ConnectionManager.Disconnect | backend/server.py:128-139 | The user's entry is deleted whichever socket it holds; an absent user leaves the map as it is. No other entry changes. The user is flagged offline. Every remaining socket gets one attempt with the offline status, and the leaving user gets none. |
| Registry.ConnectionManager.SendPersonalMessage | backend/server.py:141-143 | A registered user's socket gets exactly one send. An unregistered user gets nothing and no error is raised. A closed socket raises to the caller. |
| Registry.ConnectionManager.BroadcastToChannel | backend/server.py:145-151 | The log grows by the channel fan-out over the member list. An unknown channel sends nothing. The first raising send ends the loop and is reported to the caller. |
| Registry.ConnectionManager.BroadcastUserStatus | backend/server.py:153-167 | The log grows by exactly one presence attempt per registered socket, in dict order. A failing socket is swallowed and the remaining sockets are still tried. |
| Registry.ThreeUsersOneClosed | backend/server.py:115-126 | Alice, Bob and Carol connect on sockets 1, 2 and 3, in that order, and Bob's transport then goes away unnoticed. The key order, the entries and the closed set are exactly that. |
| Registry.ClosedSocketPresenceScenario | backend/server.py:153-167 | In that state Dana connects on socket 4. Her presence is attempted on all four sockets in registration order, and only the attempt on Bob's closed socket fails. |
| Registry.ClosedSocketChannelScenario | backend/server.py:145-151 | In the same state, a channel broadcast to Alice, Bob and Carol reaches Alice, raises at Bob's socket, and never tries Carol. |
| Routing.RouteTargets | backend/server.py:321-325 | A truthy channel id wins, even when a recipient is also set, and the targets are that channel's member list. Otherwise a truthy recipient gives the recipient and then the echo target. Otherwise there are no targets. |
| Routing.DirectAudience | backend/server.py:323-325 | A direct message has exactly two targets, the recipient first and then the echo target, and no one else. |
| Routing.EditReachesOriginalAudience | backend/server.py:371-375 | Once the ownership check has passed, an edit's audience is the original message's audience. |
| Routing.ReactionSkipsThirdPartyReactor | backend/server.py:409-413 | A reaction to a direct message goes to the recipient and then to the message's sender. A reacting user who is neither of them is not notified. |
| Channels.JoinErrors | backend/server.py:280-285 | A join fails with 404 exactly when the channel is unknown, and with 403 exactly when the channel is private. |
| Channels.JoinAdds | backend/server.py:287-291 | A successful join leaves the user a member exactly once. Earlier members keep their order. Nothing else in the store changes. Joining again changes nothing. |
| Channels.LeaveRemoves | backend/server.py:295-300 | Leaving removes the user from the member list and keeps the other members. An unknown channel is a no-op, no error is raised, and leaving again changes nothing. |
| Channels.LeaveKeepsDistinct | backend/server.py:297-300 | Leaving keeps every member list duplicate-free. |
| Channels.JoinSnapshot | backend/server.py:287-291 | After a successful join, the membership snapshot a later broadcast reads differs from the old one only in the joined channel, whose list gains the user by add-to-set. |
| Channels.LeaveSnapshot | backend/server.py:297-300 | After a leave, the snapshot differs from the old one only in the left channel, whose list loses the user. Leaving an unknown channel changes no list. |
| Channels.JoinThenLeave | backend/server.py:278-300 | Joining a public channel and then leaving it restores the store. |
| Messages.MergeReaction | backend/server.py:389-393 | The in-place merge (create the list, append the user if absent) computes the add-to-set reaction map. |
| Messages.ReactionMerge | backend/server.py:386-393 | After a reaction the user is in the emoji's list, exactly once when the list had no duplicates. Existing ids keep their order, with the user appended only if new. Other emojis are unchanged. Repeating the reaction changes nothing. |
| Messages.ReactionMergeKeepsDistinct | backend/server.py:389-393 | Every emoji's list stays duplicate-free. |
| Messages.EditOwnership | backend/server.py:351-361 | An edit fails with 404 exactly when the message is missing, and with 403 exactly when the editor is not the sender. A successful edit changes only the content and the edit time. |
| Messages.ReactOutcome | backend/server.py:381-398 | A reaction fails with 404 exactly when the message is missing. Anyone else may react, and only the reactions change. |
| Handlers.Dispatch | backend/server.py:321-325 | A channel audience goes through the channel broadcast. A direct pair gets two personal sends, and the second is skipped if the first raised. Nobody means no sends. Together these make the log grow by the stop-at-first-failure fan-out over the targets. |
| Handlers.SendMessage | backend/server.py:306-327 | Builds and stores a text message with no reactions, then pushes `new_message` to its routed audience. The sender is the echo target. |
| Handlers.EditAndNotify | backend/server.py:350-377 | A refused edit changes neither the store nor the log. An accepted edit is stored and pushed as `message_edited` to the original message's audience. |
| Handlers.AddReaction | backend/server.py:380-415 | A missing message gives 404 and changes nothing. Otherwise the merged reactions are stored and pushed as `reaction_added` to the channel or to the recipient and the message's sender. |
| Handlers.JoinedMemberIsReached | backend/server.py:145-151 | After a successful join, a channel fan-out from the refreshed membership reaches a registered new member exactly once, provided no socket fails. |
| Handlers.LeftMemberIsNotReached | backend/server.py:295-300 | After leaving, no channel fan-out from the refreshed membership addresses the user. |
| Handlers.SupersededSessionScenario | backend/server.py:115-117 | Bob and Alice are connected, and Alice has reconnected on a new socket. A DM from Alice to Bob reaches exactly Bob's socket and Alice's newest socket, in that order. Alice's superseded socket gets nothing. |
| Handlers.SupersededSessionAsWritten | backend/server.py:318-325 | The same DM with the serialization the code performs: the push raises at Bob's socket, and neither Bob nor Alice gets it. |
| Endpoint.OpenSession | backend/server.py:444-466 | A bad token or an unknown user gets close code 1008 and the registry is unchanged. A verified user is connected on the socket, with the whole new state of `connect`: the entry, the key order, the online flag, the closed set, and one online-status attempt per registered socket, exactly one of them to the user. |
| Endpoint.EndSession | backend/server.py:462-463 | A session end as written: `disconnect` by user id alone. The entry goes whichever socket it holds, the key is pulled from the order, the user is flagged offline, the closed set is unchanged, and every remaining socket gets one offline-status attempt, none of them to the user. |
| Endpoint.EndSessionChecked | backend/server.py:462-463 | Corrected session end: while the entry still holds the ending session's socket, the new state is that of `disconnect` (entry, key order, flag, closed set, offline-status attempts). Otherwise nothing changes. |
| Endpoint.StaleEndScenario | backend/server.py:128-130 | With the code as written, when a superseded session ends, a user whose newer session is still open is no longer registered. |
| Endpoint.CheckedEndScenario | backend/server.py:128-130 | With the corrected session end, the same sequence leaves the user registered on the newer socket. |

## Left out

- Self-expiring (TTL) messages, expiry warnings, the periodic sweep and its backoff, and `channel_settings_updated` events: `backend/server.py` has no code for them, and `Message` and `Channel` have no TTL fields. Nothing of them is modelled.
- Isolating per-send failures in every fan-out: only `broadcast_user_status` catches a failing send. In the code, `send_personal_message` and `broadcast_to_channel` let the error escape to the HTTP handler, after the store write has happened. The model follows the code.
- JWT decoding and bcrypt hashing are foreign library calls. The endpoint takes their conclusion as an `Auth` input (bad token, unknown user, or verified user).
- MongoDB calls. Stores are Dafny maps, passed in and returned. `is_online` writes become the `online` map. Message ids are taken as fresh (the source draws a uuid), so an insert is a map update.
- `websocket.accept()`, the `receive_text` loop, the JSON text itself and `datetime.utcnow()`. Timestamps are opaque integers passed in, and envelopes are a datatype. Whether a payload serializes at all is modelled (`Fanout.JsonDumpsAccepts`); see Findings.
- Registry.ConnectionManager.Transmit: models the intended send, where every payload serializes. As written, `json.dumps` raises on message payloads before `send_text`; `Fanout.ChannelSendsAsWritten` models that.
- Handlers.SendMessage: its push is the intended one. As written, the `new_message` payload holds a datetime and the push raises at the first registered target (`Fanout.AsWrittenMessagePushRaises`).
- Handlers.EditAndNotify: the same holds for the `message_edited` push, whose payload holds the creation and edit datetimes.
- Handlers.SupersededSessionScenario: shows the intended delivery. As written, the DM reaches no one (`Handlers.SupersededSessionAsWritten`).
- Async interleaving between handlers. Each handler and registry call is one sequential step, so a dict changing size during the presence loop is not modelled.
- The unused `user_channels` field.
- The CRUD endpoints outside the real-time path: register, login, `me`, user and channel listing, channel creation, message history with sorting and paging, and file upload.
- The driver script `backend_test.py`. It only issues HTTP requests against a running server.

## Findings

| source | as written | input that shows it | evidently intended | confidence | as-written member | corrected member |
|---|---|---|---|---|---|---|
| backend/server.py:462-463 | A session end calls `disconnect(user_id)`, which deletes the user's entry whatever socket it holds. | Alice connects on socket 1 and then on socket 2. The socket-1 session then ends. Alice is unregistered and flagged offline, and socket 2, still open, receives nothing more. | A session end should unregister the user only while the entry still holds that session's socket. | medium; not executed | Endpoint.StaleEndScenario | Endpoint.EndSessionChecked |
| backend/server.py:318-325 | `send_message` pushes `message.dict()`, and `edit_message` does the same at lines 368-375. The `created_at` field (and `edited_at` after an edit) is a `datetime`, and `json.dumps` raises a TypeError on it. The error is raised per target, just before `send_text`, and escapes to the handler. | Bob is connected and Alice sends him a DM. The first personal send raises before anything is written, so neither Bob nor Alice receives the message, and the request fails after the store write. | Message payloads should serialize, with datetimes written as ISO strings as the presence payload already does. Every registered target then receives the push. | high; not executed | Handlers.SupersededSessionAsWritten | Handlers.SupersededSessionScenario |
