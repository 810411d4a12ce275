# Chat backend presence, history and dispatch — a Dafny model

This project models the server core of a small Django Channels group chat. The core has
three parts:

- the stored records `ChatMessage` and `ActiveUser`;
- the read selectors and write services over them;
- the three connection managers:
  - `UserTrackManager` counts each user's open connections and announces a user coming
    online or going offline;
  - `InitManager` sends a new connection who it is, the chat history and who is online;
  - `ReceiveManager` turns an inbound event's `type` into a handler name and runs that
    handler.

How the model is built:

- **Database.** The database is one object, `DbServices.Database`. Its tables (users,
  presence rows, messages) are sequence fields. Each write service is a method that
  reassigns the tables it writes and keeps the foreign-key invariant `Valid()`.
- **Reads.** The selectors are pure functions over those sequences.
- **Channel layer.** `Channels.ChannelLayer` holds:
  - the group memberships;
  - one outbox per channel name;
  - the log of every `group_send` and direct `send`, in order.

  A connection's direct `send` is modelled as a delivery to its own channel name.
- **Hooks.** Each manager hook has a pure counterpart in `HookEffects`. The counterpart
  states the hook's whole effect: the new presence rows, the messages stored, and the
  deliveries made. The lemmas about hook behaviour are proved over these counterparts.
- **Hook methods.** Each manager method is proved, against the two-state predicate
  `Managers.Applied` or, for a hook that can fail, `Managers.Performed`, to make exactly
  its counterpart's change:
  - the tables and the log move by exactly that change;
  - the outbox becomes `Channels.Replay` of the deliveries;
  - nothing else changes;
  - a failing hook changes nothing and reports the error.

Modules:

- `Wrappers`: option, result and error values.
- `Models`: the records and the string form of a message.
- `DbSelectors`: the read queries.
- `DbServices`: the write services.
- `Events`: outbound events and inbound event dictionaries.
- `Channels`: the channel layer.
- `Presence`: the zero-crossing rule over runs of hooks.
- `EventDispatch`: the type-to-handler naming rule.
- `HookEffects`: the pure effect of each hook.
- `Managers`: the three manager classes.

The environment is passed in as parameters:

- the current time is a `now` parameter, which is what `auto_now` stores;
- the room name `CHAT_ROOM_NAME` is a constructor parameter `room` of the managers;
- the authenticated user is the constructor parameter `username`;
- a connection's channel name is the constructor parameter `channel`;
- Django's `normalize_username` (Unicode NFKC) is the function `normalize` given to the
  database's constructor.

Several behaviours of the code are easy to misread. The model follows the code:

- `active_user_get` uses `.get()`. A missing presence row is therefore the error
  `DoesNotExist`, not a row created on demand. `ActiveUser.user` is a plain foreign key,
  so two rows for one user are possible and give `MultipleObjectsReturned`.
- The decrement has no lower bound. A disconnect without its connect takes the count
  below zero, and nothing reports it (`Presence.UnmatchedDisconnectSilencesConnect`).
- There is no `user_whoami` handler. A `user.whoami` event therefore reaches no handler
  (`EventDispatch.DispatchWhoamiUnknown`).
- Increment and decrement read the row and then save it, with no lock. Concurrent hooks
  can lose an update; see Findings. Everywhere else the model runs hooks one at a time.
- `chat/models.py` as shown declares no `service_msg` column and a non-null author. The
  write service and the managers, however, store service messages with `author=None`
  and `service_msg=True`. The model follows the writers: a message carries a service
  flag and an optional author.
- The declared `max_length=8192` is not checked by `objects.create`. What happens to a
  longer text depends on the database backend: SQLite stores it whole, PostgreSQL and
  MySQL in strict mode raise an error. The model stores it whole.
- `group_send` checks the group name. The channel layer refuses a name that is empty, is
  100 characters or longer, or holds a character other than an ASCII letter or digit,
  `-`, `_` or `.`. A mention names its target by user name, so a mention of a user whose
  name has a space fails (`HookEffects.MentionOfSpacedNameFails`).
- A composing consumer decides the order in which the managers' `on_connect` hooks run,
  and that order decides what the new connection is told
  (`HookEffects.JoinerInSnapshotIffTrackedFirst`).

## Model

| member | source | states |
|---|---|---|
| Models.NewActiveUser | chat/models.py:24-26 | a new presence row belongs to its user and starts at the column default 0 |
| Models.DisplayText | chat/models.py:12-15 | a text of at most 16 characters is shown whole; a longer one is shown as its first 16 characters followed by "...", 19 characters in all |
| Models.DisplayTextIdempotent | chat/models.py:12-15 | shortening an already shortened text changes nothing |
| Models.Str | chat/models.py:11-18 | the string form fails exactly when the message has no author; otherwise it is "ChatMessage(", the shortened text, ", ", the author's name, ", ", the sent text and ")", each at its own position |
| Models.Repr | chat/models.py:20-21 | the repr is the string form |
| DbSelectors.UsernameTaken | chat/db_selectors.py:16-17 | true exactly when some stored user has that name |
| DbSelectors.Matching | chat/db_selectors.py:21 | the positions of exactly the rows owned by the user, in ascending order |
| DbSelectors.ActiveUserGet | chat/db_selectors.py:20-22 | success gives the one row owned by the user; `DoesNotExist` exactly when no row is the user's; `MultipleObjectsReturned` exactly when two rows are; no other outcome |
| DbSelectors.OnlineUsers | chat/db_selectors.py:25-26 | a row is listed exactly when it is stored with a positive count, and exactly as many times as it is stored |
| DbSelectors.ChatMessageAll | chat/db_selectors.py:29-30 | the history is ascending by `sent` and holds each stored message exactly as often as it is stored |
| DbSelectors.SortedPermutationUnique | chat/db_selectors.py:29-30 | when no two messages share a `sent`, the only ascending arrangement of them is the one ascending order, so any ordering the database picks gives it |
| DbSelectors.HistoryOfSortedLog | chat/db_selectors.py:29-30 | a log stored with strictly increasing `sent` comes back exactly as stored |
| DbSelectors.HistoryAppend | chat/db_selectors.py:29-30 | when no two stored messages share a `sent`, a message later than every stored one comes last, after the old history, which is unchanged; this follows from the contract of `ChatMessageAll` alone |
| DbServices.WithConnections | chat/db_services.py:25-32 | the row's count moves by the delta; its owner and every other row stay as they were |
| DbServices.IncrThenDecr | chat/db_services.py:25-32 | an increment then a decrement of a row restores the table |
| DbServices.DecrThenIncr | chat/db_services.py:25-32 | a decrement then an increment of a row restores the table |
| DbServices.Database.UserCreate | chat/db_services.py:15-18 | an empty name fails with `EmptyUsername`, changing nothing; otherwise the name is normalized, a taken normalized name fails with `IntegrityError`, changing nothing, and a free one is stored and returned along with a presence row at 0; messages are unchanged |
| DbServices.Database.ActiveUserCreate | chat/db_services.py:21-22 | appends a presence row for the user at count 0 and returns it |
| DbServices.Database.ActiveUserConnectionsIncr | chat/db_services.py:25-27 | the row's count goes up by one; nothing else changes |
| DbServices.Database.ActiveUserConnectionsDecr | chat/db_services.py:30-32 | the row's count goes down by one, below zero included; nothing else changes |
| DbServices.Database.ChatMessageCreate | chat/db_services.py:35-42 | appends one message with the given text, author, service flag (default false) and the current time, and returns it |
| Channels.Deliver | chat/managers.py:60-61 | each target channel's inbox gains the event at its end; every other inbox is unchanged |
| Channels.ReplayConcat | chat/managers.py:60-62 | making deliveries `a` and then `b` is making `a + b` |
| Channels.ReplayInbox | chat/managers.py:60-62 | a channel's inbox after a run is its old inbox followed by the run's events that reach it, in order |
| Channels.RefusedGroupNames | chat/managers.py:191-193 | names with a space, an `@` or a non-ASCII letter, and the empty name, are refused as group names; `bob_smith.2` is accepted |
| Channels.ReplayToChannel | chat/managers.py:114-117 | three events sent straight to one channel reach it in order and reach no other channel |
| Channels.ChannelLayer.GroupSend | chat/managers.py:90-92 | a refused group name fails with `InvalidGroupName` and sends nothing; otherwise logs the delivery and appends the event to the inbox of every member of the group at send time; memberships are unchanged |
| Channels.ChannelLayer.Send | chat/managers.py:61 | logs the delivery and appends the event to that one channel's inbox |
| Presence.ConnectBurst | chat/managers.py:51-64 | `n` connects from count `c` end at `c + n` and announce once exactly when `c <= 0 < c + n` |
| Presence.DisconnectBurst | chat/managers.py:66-78 | `n` disconnects from count `c` announce once exactly when `1 <= c <= n` |
| Presence.AnnouncementsTrackPresence | chat/managers.py:51-78 | over any run in which no disconnect lacks its connect, announcements alternate; the first is the one the start count calls for; the last is "online" exactly when the user ends online |
| Presence.UnmatchedDisconnectSilencesConnect | chat/managers.py:66-68 | a disconnect from 0 leaves the count at -1, so the next connect announces nothing although a connection is open |
| EventDispatch.Lower | chat/managers.py:178 | same length; each character lower-cased |
| EventDispatch.ReplaceDots | chat/managers.py:178 | same length; each dot becomes an underscore, and every other character stays |
| EventDispatch.HandlerNameIsLowerThenReplace | chat/managers.py:178 | the handler name is the tag lower-cased and then with dots replaced |
| EventDispatch.HandlerNameShape | chat/managers.py:178 | a handler name has the tag's length and contains no dot and no upper-case letter |
| EventDispatch.HandlerNameIgnoresCase | chat/managers.py:178 | lower-casing the tag first does not change its handler name |
| EventDispatch.HandlerNameIdempotent | chat/managers.py:178 | a handler name is its own handler name |
| EventDispatch.MethodNamesDistinct | chat/managers.py:188-199 | no two dispatchable handlers share a method name |
| EventDispatch.Dispatch | chat/managers.py:178-179 | gives a handler exactly when the tag's handler name is that handler's method name |
| EventDispatch.DispatchIgnoresCase | chat/managers.py:178-179 | dispatch does not depend on the tag's letter case |
| EventDispatch.DispatchChatMessageTag | chat/managers.py:178-179 | `chat.message` reaches `chat_message` |
| EventDispatch.DispatchMixedCaseTag | chat/managers.py:178-179 | `Chat.Message` reaches `chat_message` |
| EventDispatch.DispatchUnderscoreTag | chat/managers.py:178-179 | `chat_message` reaches `chat_message` |
| EventDispatch.DispatchUserMentionTag | chat/managers.py:178-179 | `user.mention` reaches `user_mention` |
| EventDispatch.DispatchServiceMessageTag | chat/managers.py:178-179 | `chat.servicemessage` reaches `chat_servicemessage` |
| EventDispatch.DispatchWhoamiUnknown | chat/managers.py:178-179 | `user.whoami` reaches no handler |
| HookEffects.ServiceRecord | chat/managers.py:89 | a service message has no author, has the service flag, and records the current time |
| HookEffects.ServiceTextsIdentifyUser | chat/managers.py:88-96 | a join text is never a leave text, and each names exactly one user |
| HookEffects.TrackConnectAnnouncesIffOffline | chat/managers.py:51-64 | connecting always adds one to the user's row, leaving other rows alone. It announces exactly when the row read 0: one stored "joined" message, then online.connect to the room, online.connect to the connection, and the service message to the room, in that order |
| HookEffects.TrackDisconnectAnnouncesIffLast | chat/managers.py:66-78 | disconnecting always takes one from the user's row, leaving other rows alone. It announces exactly when the row is then 0, with one stored "left" message and the three deliveries in order |
| HookEffects.ConnectThenDisconnect | chat/managers.py:51-78 | a connect then a disconnect restores the presence table, and the two announce together or not at all |
| HookEffects.SameOwnersSameLookup | chat/db_services.py:25-32 | changing counts keeps every row's owner, so the lookup finds the same row |
| HookEffects.OwnChannelSeesConnect | chat/managers.py:54-62 | among the deliveries addressed to the connection that brings a user online, in the order the calls were made, is online.connect sent directly. If it is already in the room, the room's copy comes before it and the service message after it |
| HookEffects.HistoryData | chat/managers.py:139-147 | one history entry per stored message |
| HookEffects.OnlineData | chat/managers.py:149-155 | an entry is listed exactly when it is the dictionary of a stored row with a positive count; entry for entry, the list is the dictionaries of the rows `OnlineUsers` lists, in the order it lists them |
| HookEffects.HistoryDataOfSortedLog | chat/managers.py:139-147 | a log stored with strictly increasing `sent` is sent back entry for entry as stored |
| HookEffects.InitReachesOnlyJoiner | chat/managers.py:114-155 | the joining channel receives whoami, the history and the online list, in that order, and no other channel receives anything |
| HookEffects.OnlineSnapshotOrder | chat/managers.py:149-155 | a user who was offline is absent from the online list taken before the connect is counted, and present with count 1 in one taken after |
| HookEffects.ReceiveShape | chat/managers.py:174-210 | a missing `type` fails with the schema error; an unknown handler fails naming the derived name; a success makes exactly one delivery and stores at most one message, which is authored by the sender and is not a service message |
| HookEffects.ChatMessageRoundTrip | chat/managers.py:199-210 | a `chat.message` from a user stores that text once with the user as author and sends it once to the room with the stored timestamp |
| HookEffects.MentionReachesOnlyTarget | chat/managers.py:188-193 | a mention succeeds exactly when it has a name that is a valid group name; with no name it fails with `MissingKey`, with a refused one with `InvalidGroupName`. On success it reaches, stamped with the sender, every channel of the named group and no other channel |
| HookEffects.MentionOfSpacedNameFails | chat/managers.py:188-193 | a mention of `bob smith` fails with `InvalidGroupName` |
| HookEffects.TrackHookFound | chat/managers.py:51-78 | once the row is found, either presence hook moves it as the presence rule says and has effects exactly when the rule says it announces |
| HookEffects.TrackRunFollowsPresence | chat/managers.py:51-78 | any run of presence hooks on a found row succeeds, ends the row at the rule's final count, keeps every other row, and announces exactly the rule's announcements, in order |
| HookEffects.SequentialConnectsAnnounceOnce | chat/managers.py:51-64 | two connects of an offline user, one after the other, leave count 2 and announce once |
| HookEffects.InterleavedConnectsLoseUpdate | chat/managers.py:52-64 | two connects of an offline user that both read the row before either saves store "joined" twice, send online.connect to the room twice, and leave count 1 |
| HookEffects.NoInitNoSnapshot | chat/managers.py:51-64 | a run of `on_connect` hooks without `InitManager` sends no online list |
| HookEffects.InitFirstSnapshot | chat/managers.py:114-117 | a run that starts with `InitManager` sends one online list, of the table as it was |
| HookEffects.ConnectRunPasses | chat/managers.py:51-64 | a run of `on_connect` hooks for a user with exactly one presence row never fails |
| HookEffects.ConnectOrderDecidesSnapshot | chat/managers.py:51-64 | any order of the distinct managers that includes `InitManager` succeeds and sends one online list: of the incremented table when `UserTrackManager` comes first, otherwise of the table as it was |
| HookEffects.JoinerInSnapshotIffTrackedFirst | chat/managers.py:114-155 | for a user connecting from offline, the online list includes the user with count 1 when `UserTrackManager` comes first, and omits the user otherwise |
| Managers.UserTrackManager.GetUserActiveRecord | chat/managers.py:82-84 | the result is the presence lookup of the connection's user |
| Managers.UserTrackManager.SendServiceMsgConnect | chat/managers.py:86-92 | stores "User <name> joined" as a service message and sends it to the room, and nothing else |
| Managers.UserTrackManager.SendServiceMsgDisconnect | chat/managers.py:94-100 | stores "User <name> left" as a service message and sends it to the room, and nothing else |
| Managers.UserTrackManager.AnnounceConnect | chat/managers.py:55-62 | online.connect to the room, then to the connection, then the "joined" service message, and nothing else |
| Managers.UserTrackManager.AnnounceDisconnect | chat/managers.py:71-78 | online.disconnect to the room, then to the connection, then the "left" service message, and nothing else |
| Managers.UserTrackManager.OnConnect | chat/managers.py:51-64 | makes exactly the change `TrackConnect` describes, or fails with the lookup error and changes nothing |
| Managers.UserTrackManager.OnDisconnect | chat/managers.py:66-78 | makes exactly the change `TrackDisconnect` describes, or fails with the lookup error and changes nothing |
| Managers.InitManager.SendWhoami | chat/managers.py:132-137 | sends the user's name to the connection only |
| Managers.InitManager.SendChatHistory | chat/managers.py:139-147 | sends the ordered history to the connection only |
| Managers.InitManager.SendCurrentOnline | chat/managers.py:149-155 | sends the online list to the connection only |
| Managers.InitManager.OnConnect | chat/managers.py:114-117 | whoami, then history, then online list, all to the connection; no table changes |
| Managers.ReceiveManager.HandleUserMention | chat/managers.py:188-193 | stamps the sender and sends to the named group; with no name it fails with `MissingKey`, with a refused group name with `InvalidGroupName`, and sends nothing |
| Managers.ReceiveManager.HandleChatServicemessage | chat/managers.py:195-197 | relays the event unchanged to the room and nothing else |
| Managers.ReceiveManager.HandleChatMessage | chat/managers.py:199-210 | stores the text with the sender as author and sends it with the stored time to the room; with no text it fails with `MissingKey` and changes nothing |
| Managers.ReceiveManager.DispatchReceiveEvent | chat/managers.py:174-180 | makes exactly the change `ReceiveEffects` describes, or fails with its error and changes nothing |
| Managers.ReceiveManager.OnReceive | chat/managers.py:182-184 | an undecodable frame fails with `DecodeError` and changes nothing; a decoded one is dispatched |

## Left out

- Concurrency. The event loop and any interleaving of hooks are not modelled: hooks run one after the other. The one interleaving that matters is shown separately under Findings. `HookEffects.InterleavedConnects` fixes one order for the two hooks' effects, the first hook's then the second's; a real interleaving could mix them.
- JSON. The wire encoding is not modelled. An outbound event is a typed value. An inbound event is the string fields of the decoded object. Non-string JSON values, and decoded values that are not objects, are not modelled. `json.loads` failing is the `DecodeError` outcome of `OnReceive`.
- Time. `datetime_to_json` and `str(self.sent)` are not modelled. A timestamp is an integer, and its text form is a parameter of `Models.Str`.
- EventDispatch.Lower: maps only the ASCII letters, where `str.lower` also maps other Unicode letters.
- Attribute lookup. `getattr` can also reach attributes of the manager that are not handlers, such as `on_connect` for a tag `on.connect`. The model dispatches only to the three handlers. Every other name is `MissingHandler`.
- The hooks that are `pass`: `on_receive` of `UserTrackManager` and `InitManager`, `on_disconnect` of `InitManager` and `ReceiveManager`, and `on_connect` of `ReceiveManager`. They do nothing and have no methods here; in a composed run, `HookEffects.ConnectHook` gives `ReceiveManager.on_connect` no effect. `get_chat_messages` and `get_online_users` are inlined into the senders that call them.
- Composition. The consumer that composes the managers and joins channels to groups is not part of this model. The order of the managers is therefore a parameter of `HookEffects.ConnectRun`, and the lemmas about it hold for every order. Only `on_connect` is composed. `Channels.ChannelLayer.GroupAdd` and `GroupDiscard` exist so that memberships can be set up; no core code calls them.
- Room name. `CHAT_ROOM_NAME` comes from `chat/const.py`, which is not part of this model. The manager methods that send to the room require it to be a valid group name (`ValidGroupName(room)`). With an invalid constant every send to the room would fail, and the model does not describe that configuration.
- Channels.ValidGroupName: the channel layer tests names against a Python regular expression in which `\d` also matches non-ASCII digits and `$` also matches before a final newline. The model admits only ASCII digits and no newline.
- DbServices.Database.UserCreate: NFKC normalization itself is not defined here. It is the parameter `normalize`, so no contract says anything about what it does to a name. Password hashing is not modelled.
- DbSelectors.ChatMessageAll: `order_by("sent")` leaves the order of messages with equal `sent` to the database, and this definition puts them in storage order. So the contracts that fix exact positions require distinct timestamps: `DbSelectors.HistoryOfSortedLog` and `HookEffects.HistoryDataOfSortedLog` require strictly increasing `sent`, and `DbSelectors.HistoryAppend` stored messages with distinct `sent` and a strictly later message. Under those requirements no two messages tie, so the result is the same for every order the database might pick (`DbSelectors.SortedPermutationUnique`). With ties, the model promises nothing about their order.
- HookEffects.OnlineData: its entry-for-entry ensures follows the order of `DbSelectors.OnlineUsers`, which is storage order, while the query has no `order_by` and `ActiveUser` no default ordering, so the source leaves the order of the online list to the database. Only which entries appear, and how often, is the source's promise.
- DbSelectors.OnlineUsers, HookEffects.OnlineData, HookEffects.ConnectOrderDecidesSnapshot: the query leaves the order of the online rows to the database, and the model uses storage order. `ConnectOrderDecidesSnapshot` equates the list sent with `OnlineData` of a table, and so fixes that order as well; `HookEffects.JoinerInSnapshotIffTrackedFirst` is stated by membership and does not depend on it.
- DbServices.Database.ActiveUserConnectionsIncr, DbServices.Database.ActiveUserConnectionsDecr: `active_connections` is a 32-bit `IntegerField`, while the model's count is an unbounded integer. A count beyond that range, which a 32-bit column such as that of PostgreSQL or MySQL would refuse, is not modelled.
- HookEffects.OwnChannelSeesConnect, Channels.ChannelLayer.Send: a direct `send` goes straight to the connection's socket, while `group_send` goes through the channel layer. The outbox records the calls in the order they were made, which need not be the order in which the client receives them.
- `as_dict`. The method is not in `chat/models.py` as shown. `Events.MessageAsDict` and `Events.PresenceAsDict` take the records' columns.
- DbServices.Database.ChatMessageCreate: does not reject texts over 8192 characters. `objects.create` runs no validators, and what the database then does depends on its backend.
- Users. Passwords, authentication, views, forms, URL routing, the browser script, `chat/services.py` (an older copy of the services) and `chat/utils.py` are not part of this model.
- HookEffects.HistoryData: its own contract states only that there is one entry per message. Order and content are stated by `DbSelectors.ChatMessageAll` and `HookEffects.HistoryDataOfSortedLog`.

## Findings

| source | as written | input that shows it | evidently intended | confidence | as-written member | corrected member |
|---|---|---|---|---|---|---|
| chat/managers.py:52-64 | `on_connect` reads the presence row, announces if it reads 0, then saves the value it read plus one, with no lock and no database-side increment | two `on_connect` hooks of an offline user both read 0 before either saves | one `online.connect` and a count of 2 | medium, not executed | HookEffects.InterleavedConnectsLoseUpdate | HookEffects.SequentialConnectsAnnounceOnce |
