/** What each manager hook does to the stores and the channel layer, as values: the
    presence table it leaves behind, the messages it stores and the deliveries it makes,
    in order. The manager classes are proved to make exactly these changes. */
module HookEffects {
  import opened Wrappers
  import opened Models
  import opened DbSelectors
  import opened DbServices
  import opened Events
  import opened Channels
  import opened Presence
  import opened EventDispatch

  /** The messages a hook stores and the `group_send`/`send` calls it makes, in order. */
  datatype Effects = Effects(messages: seq<ChatMessage>, deliveries: seq<Delivery>)

  /** The whole change a hook makes: the presence table afterwards, and its effects. */
  datatype Change = Change(rows: seq<ActiveUser>, effects: Effects)

  const NoEffects: Effects := Effects([], [])

  // ---------------------------------------------------------------- UserTrackManager

  function JoinedText(user: string): string { "User " + user + " joined" }

  function LeftText(user: string): string { "User " + user + " left" }

  /** A service message as `chat_message_create(text=..., author=None, service_msg=True)` stores it. */
  function ServiceRecord(text: string, now: Timestamp): (m: ChatMessage)
    ensures m.text == text && m.author.None? && m.serviceMsg && m.sent == now
  {
    ChatMessage(text, None, now, true)
  }

  /** One announcement: the presence event to the room and to the user's own channel, then
      the service message stored and relayed to the room. */
  function Announcement(room: string, channel: ChannelName, e: Event, text: string, now: Timestamp): Effects
  {
    Effects([ServiceRecord(text, now)],
            [ToGroup(room, e), ToChannel(channel, e), ToGroup(room, ServiceMessage(text))])
  }

  /** `UserTrackManager.on_connect`: read the user's presence row; announce if it reads 0;
      then increment it. A missing or duplicated row is the error `.get()` raises. */
  function TrackConnect(rows: seq<ActiveUser>, user: string, room: string, channel: ChannelName, now: Timestamp)
    : Result<Change>
  {
    match ActiveUserGet(rows, user)
    case Failure(e) => Failure(e)
    case Success(i) =>
      Success(Change(WithConnections(rows, i, 1),
                     if ConnectAnnounces(rows[i].activeConnections)
                     then Announcement(room, channel, OnlineConnect(user), JoinedText(user), now)
                     else NoEffects))
  }

  /** `UserTrackManager.on_disconnect`: decrement the user's presence row; announce if it
      is then 0. */
  function TrackDisconnect(rows: seq<ActiveUser>, user: string, room: string, channel: ChannelName, now: Timestamp)
    : Result<Change>
  {
    match ActiveUserGet(rows, user)
    case Failure(e) => Failure(e)
    case Success(i) =>
      Success(Change(WithConnections(rows, i, -1),
                     if DisconnectAnnounces(rows[i].activeConnections)
                     then Announcement(room, channel, OnlineDisconnect(user), LeftText(user), now)
                     else NoEffects))
  }

  /** `on_connect` once the row is found: the change is read off the row. */
  lemma TrackConnectFound(rows: seq<ActiveUser>, user: string, room: string, channel: ChannelName,
                          now: Timestamp, i: nat)
    requires ActiveUserGet(rows, user) == Success(i)
    ensures i < |rows|
    ensures TrackConnect(rows, user, room, channel, now) ==
      Success(Change(WithConnections(rows, i, 1),
                     if rows[i].activeConnections == 0
                     then Announcement(room, channel, OnlineConnect(user), JoinedText(user), now)
                     else NoEffects))
  {
  }

  /** `on_disconnect` once the row is found: the change is read off the row. */
  lemma TrackDisconnectFound(rows: seq<ActiveUser>, user: string, room: string, channel: ChannelName,
                             now: Timestamp, i: nat)
    requires ActiveUserGet(rows, user) == Success(i)
    ensures i < |rows|
    ensures TrackDisconnect(rows, user, room, channel, now) ==
      Success(Change(WithConnections(rows, i, -1),
                     if rows[i].activeConnections - 1 == 0
                     then Announcement(room, channel, OnlineDisconnect(user), LeftText(user), now)
                     else NoEffects))
  {
  }

  /** The join and leave texts of one user never coincide, and each names its user. */
  lemma ServiceTextsIdentifyUser(a: string, b: string)
    ensures JoinedText(a) != LeftText(b)
    ensures JoinedText(a) == JoinedText(b) ==> a == b
    ensures LeftText(a) == LeftText(b) ==> a == b
  {
    var ja, lb := JoinedText(a), LeftText(b);
    assert ja[|ja| - 1] == 'd' && lb[|lb| - 1] == 't';
    assert ja[5..5 + |a|] == a;
    assert LeftText(a)[5..5 + |a|] == a;
    if JoinedText(a) == JoinedText(b) {
      assert JoinedText(b)[5..5 + |b|] == b;
    }
    if LeftText(a) == LeftText(b) {
      assert LeftText(b)[5..5 + |b|] == b;
    }
  }

  /** `on_connect` always counts the connection; it announces, with exactly one stored
      service message and the three deliveries, iff the row read exactly 0. */
  lemma TrackConnectAnnouncesIffOffline(rows: seq<ActiveUser>, user: string, room: string,
                                                            channel: ChannelName, now: Timestamp)
    requires ActiveUserGet(rows, user).Success?
    ensures var i := ActiveUserGet(rows, user).value;
            var c := TrackConnect(rows, user, room, channel, now).value;
            && c.rows[i].activeConnections == rows[i].activeConnections + 1
            && (forall j | 0 <= j < |rows| && j != i :: c.rows[j] == rows[j])
            && (c.effects != NoEffects <==> rows[i].activeConnections == 0)
            && (c.effects != NoEffects ==>
                  c.effects.messages == [ChatMessage(JoinedText(user), None, now, true)]
                  && |c.effects.deliveries| == 3
                  && c.effects.deliveries[0] == ToGroup(room, OnlineConnect(user))
                  && c.effects.deliveries[1] == ToChannel(channel, OnlineConnect(user))
                  && c.effects.deliveries[2] == ToGroup(room, ServiceMessage(JoinedText(user))))
  {
    var i := ActiveUserGet(rows, user).value;
    assert |WithConnections(rows, i, 1)| == |rows|;
  }

  /** `on_disconnect` always uncounts the connection; it announces iff the row is 0 afterwards. */
  lemma TrackDisconnectAnnouncesIffLast(rows: seq<ActiveUser>, user: string, room: string,
                                                            channel: ChannelName, now: Timestamp)
    requires ActiveUserGet(rows, user).Success?
    ensures var i := ActiveUserGet(rows, user).value;
            var c := TrackDisconnect(rows, user, room, channel, now).value;
            && c.rows[i].activeConnections == rows[i].activeConnections - 1
            && (forall j | 0 <= j < |rows| && j != i :: c.rows[j] == rows[j])
            && (c.effects != NoEffects <==> c.rows[i].activeConnections == 0)
            && (c.effects != NoEffects ==>
                  c.effects.messages == [ChatMessage(LeftText(user), None, now, true)]
                  && c.effects.deliveries == [ToGroup(room, OnlineDisconnect(user)), ToChannel(channel, OnlineDisconnect(user)),
                                              ToGroup(room, ServiceMessage(LeftText(user)))])
  {
  }

  /** A connect followed by a disconnect of the same user restores the presence table, and
      the two announce together or not at all. */
  lemma ConnectThenDisconnect(rows: seq<ActiveUser>, user: string, room: string, channel: ChannelName,
                              t1: Timestamp, t2: Timestamp)
    requires ActiveUserGet(rows, user).Success?
    ensures var c := TrackConnect(rows, user, room, channel, t1).value;
            && ActiveUserGet(c.rows, user) == ActiveUserGet(rows, user)
            && TrackDisconnect(c.rows, user, room, channel, t2).Success?
            && TrackDisconnect(c.rows, user, room, channel, t2).value.rows == rows
            && (c.effects == NoEffects <==> TrackDisconnect(c.rows, user, room, channel, t2).value.effects == NoEffects)
  {
    var i := ActiveUserGet(rows, user).value;
    var after := WithConnections(rows, i, 1);
    SameOwnersSameLookup(rows, after, user);
    IncrThenDecr(rows, i);
  }

  /** Changing counts keeps every row's owner, so the lookup finds the same row. */
  lemma SameOwnersSameLookup(rows: seq<ActiveUser>, other: seq<ActiveUser>, user: string)
    requires |rows| == |other|
    requires forall j | 0 <= j < |rows| :: rows[j].user == other[j].user
    ensures ActiveUserGet(other, user) == ActiveUserGet(rows, user)
  {
    SameOwnersSameMatches(rows, other, user);
  }

  lemma {:induction false} SameOwnersSameMatches(rows: seq<ActiveUser>, other: seq<ActiveUser>, user: string)
    requires |rows| == |other|
    requires forall j | 0 <= j < |rows| :: rows[j].user == other[j].user
    ensures Matching(other, user) == Matching(rows, user)
    decreases |rows|
  {
    if rows != [] {
      SameOwnersSameMatches(rows[..|rows| - 1], other[..|other| - 1], user);
    }
  }

  /** The deliveries addressed to the connecting channel when the user comes online, in
      the order the calls were made: the room's copy of `online.connect` and the service
      message if the channel is already in the room, and the direct copy in between. */
  lemma OwnChannelSeesConnect(rows: seq<ActiveUser>, groups: map<string, set<ChannelName>>, user: string,
                              room: string, channel: ChannelName, now: Timestamp)
    requires ActiveUserGet(rows, user).Success?
    requires rows[ActiveUserGet(rows, user).value].activeConnections == 0
    ensures var ds := TrackConnect(rows, user, room, channel, now).value.effects.deliveries;
            Received(groups, ds, channel) ==
              if channel in Members(groups, room)
              then [OnlineConnect(user), OnlineConnect(user), ServiceMessage(JoinedText(user))]
              else [OnlineConnect(user)]
  {
    var ds := TrackConnect(rows, user, room, channel, now).value.effects.deliveries;
    ReceivedThree(groups, ds[0], ds[1], ds[2], channel);
    assert ds == [ds[0], ds[1], ds[2]];
  }

  // ----------------------------------------------------------------------- InitManager

  /** `init.chat_history` data: every stored message as a dictionary, ascending by `sent`. */
  function HistoryData(messages: seq<ChatMessage>): (r: seq<MessageData>)
    ensures |r| == |messages|
  {
    var h := ChatMessageAll(messages);
    seq(|h|, k requires 0 <= k < |h| => MessageAsDict(h[k]))
  }

  /** The dictionaries of the rows `o`, one by one, are the dictionaries of the online rows. */
  lemma PresenceOfOnline(rows: seq<ActiveUser>, o: seq<ActiveUser>, r: seq<PresenceData>)
    requires forall x :: x in o <==> x in rows && x.activeConnections > 0
    requires |r| == |o| && forall k | 0 <= k < |o| :: r[k] == PresenceAsDict(o[k])
    ensures forall d :: d in r <==> exists x | x in rows :: x.activeConnections > 0 && d == PresenceAsDict(x)
  {
    forall d ensures d in r <==> exists x | x in rows :: x.activeConnections > 0 && d == PresenceAsDict(x) {
      if d in r {
        var k :| 0 <= k < |r| && r[k] == d;
        assert o[k] in o;
      }
      if exists x | x in rows :: x.activeConnections > 0 && d == PresenceAsDict(x) {
        var x :| x in rows && x.activeConnections > 0 && d == PresenceAsDict(x);
        assert x in o;
        var k :| 0 <= k < |o| && o[k] == x;
        assert r[k] == d;
      }
    }
  }

  /** `init.online_users` data: every presence row with a positive count, as a dictionary,
      one entry per row of `OnlineUsers` and in its order. */
  function OnlineData(rows: seq<ActiveUser>): (r: seq<PresenceData>)
    ensures forall d :: d in r <==> exists x | x in rows :: x.activeConnections > 0 && d == PresenceAsDict(x)
    ensures |r| == |OnlineUsers(rows)|
    ensures forall k | 0 <= k < |r| :: r[k] == PresenceAsDict(OnlineUsers(rows)[k])
  {
    var o := OnlineUsers(rows);
    var r := seq(|o|, k requires 0 <= k < |o| => PresenceAsDict(o[k]));
    PresenceOfOnline(rows, o, r);
    r
  }

  /** `InitManager.on_connect`: whoami, then history, then who is online, each sent to the
      joining channel only. */
  function InitDeliveries(channel: ChannelName, user: string, messages: seq<ChatMessage>, rows: seq<ActiveUser>)
    : seq<Delivery>
  {
    [ToChannel(channel, InitWhoami(user)),
     ToChannel(channel, InitChatHistory(HistoryData(messages))),
     ToChannel(channel, InitOnlineUsers(OnlineData(rows)))]
  }

  /** If messages were stored with strictly increasing `sent`, the history replays them
      exactly as stored. */
  lemma HistoryDataOfSortedLog(messages: seq<ChatMessage>)
    requires StrictlyBySent(messages)
    ensures forall k | 0 <= k < |messages| :: HistoryData(messages)[k] == MessageAsDict(messages[k])
  {
    HistoryOfSortedLog(messages);
  }

  /** The joining channel receives the three snapshots and no other channel receives anything. */
  lemma InitReachesOnlyJoiner(outbox: map<ChannelName, seq<Event>>, groups: map<string, set<ChannelName>>,
                              channel: ChannelName, user: string, messages: seq<ChatMessage>,
                              rows: seq<ActiveUser>, c: ChannelName)
    ensures var ds := InitDeliveries(channel, user, messages, rows);
            Inbox(Replay(outbox, groups, ds), c) ==
              Inbox(outbox, c) + (if c == channel then [ds[0].event, ds[1].event, ds[2].event] else [])
  {
    var ds := InitDeliveries(channel, user, messages, rows);
    ReplayToChannel(outbox, groups, channel, ds[0].event, ds[1].event, ds[2].event, c);
  }

  /** Why the hook order matters: a user who was offline is missing from the online
      snapshot taken before `on_connect` of `UserTrackManager`, and present, counted once,
      in one taken after it. */
  lemma OnlineSnapshotOrder(rows: seq<ActiveUser>, user: string)
    requires ActiveUserGet(rows, user).Success?
    requires rows[ActiveUserGet(rows, user).value].activeConnections == 0
    ensures forall d | d in OnlineData(rows) :: d.user != user
    ensures var i := ActiveUserGet(rows, user).value;
            PresenceData(user, 1) in OnlineData(WithConnections(rows, i, 1))
  {
    var i := ActiveUserGet(rows, user).value;
    var after := WithConnections(rows, i, 1);
    forall d | d in OnlineData(rows) ensures d.user != user {
      var x :| x in rows && x.activeConnections > 0 && d == PresenceAsDict(x);
      var j :| 0 <= j < |rows| && rows[j] == x;
    }
    assert after[i] in after;
    assert PresenceAsDict(after[i]) == PresenceData(user, 1);
  }

  // -------------------------------------------------------------------- ReceiveManager

  /** `user_mention`: stamp the event with the sender, then send it to the group named by
      its `name` field. A missing name, or one the channel layer refuses as a group name,
      raises before anything is sent. */
  function MentionEffects(event: InboundEvent, user: string): Result<Effects>
  {
    var stamped := event["by" := user];
    if "name" !in stamped then Failure(MissingKey("name"))
    else if !ValidGroupName(stamped["name"]) then Failure(InvalidGroupName(stamped["name"]))
    else Success(Effects([], [ToGroup(stamped["name"], Forwarded(stamped))]))
  }

  /** `chat_servicemessage`: relay the event unchanged to the room. */
  function ServiceRelayEffects(event: InboundEvent, room: string): Result<Effects>
  {
    Success(Effects([], [ToGroup(room, Forwarded(event))]))
  }

  /** `chat_message`: store the text with the sender as author, then relay it to the room
      with the stored message's timestamp. */
  function ChatMessageEffects(event: InboundEvent, user: string, room: string, now: Timestamp): Result<Effects>
  {
    if "message" !in event then Failure(MissingKey("message"))
    else
      var text := event["message"];
      Success(Effects([ChatMessage(text, Some(user), now, false)], [ToGroup(room, NewMessage(text, user, now))]))
  }

  /** What one dispatchable handler does with the event. */
  function HandlerEffects(h: Handler, event: InboundEvent, user: string, room: string, now: Timestamp)
    : Result<Effects>
  {
    match h
    case UserMentionHandler => MentionEffects(event, user)
    case ServiceMessageHandler => ServiceRelayEffects(event, room)
    case ChatMessageHandler => ChatMessageEffects(event, user, room, now)
  }

  /** `dispatch_receive_event`: the `type` field picks the handler. */
  function ReceiveEffects(event: InboundEvent, user: string, room: string, now: Timestamp): Result<Effects>
  {
    if "type" !in event then Failure(MessageSchemaError)
    else
      match Dispatch(event["type"])
      case None => Failure(MissingHandler(HandlerName(event["type"])))
      case Some(h) => HandlerEffects(h, event, user, room, now)
  }

  /** A receive handler leaves the presence table as it is. */
  function Keeping(rows: seq<ActiveUser>, r: Result<Effects>): Result<Change>
  {
    match r
    case Failure(e) => Failure(e)
    case Success(fx) => Success(Change(rows, fx))
  }

  /** A failed receive stores nothing and sends nothing; a successful one makes exactly one
      delivery, stores at most one message, and never stores a service message. */
  lemma ReceiveShape(event: InboundEvent, user: string, room: string, now: Timestamp)
    ensures var r := ReceiveEffects(event, user, room, now);
            r.Success? ==> |r.value.deliveries| == 1 && |r.value.messages| <= 1
                           && forall m | m in r.value.messages :: m.author == Some(user) && !m.serviceMsg
    ensures "type" !in event ==> ReceiveEffects(event, user, room, now) == Failure(MessageSchemaError)
    ensures "type" in event && Dispatch(event["type"]).None? ==>
              ReceiveEffects(event, user, room, now) == Failure(MissingHandler(HandlerName(event["type"])))
  {
  }

  /** A chat message from `user` is stored once with `user` as author, and relayed once to
      the room carrying the stored message's own timestamp. */
  lemma ChatMessageRoundTrip(text: string, user: string, room: string, now: Timestamp)
    ensures ReceiveEffects(map["type" := "chat.message", "message" := text], user, room, now)
            == Success(Effects([ChatMessage(text, Some(user), now, false)], [ToGroup(room, NewMessage(text, user, now))]))
  {
    var event := map["type" := "chat.message", "message" := text];
    assert "type" in event && event["type"] == "chat.message";
    assert "message" in event && event["message"] == text;
    DispatchChatMessageTag();
    assert ReceiveEffects(event, user, room, now) == ChatMessageEffects(event, user, room, now);
  }

  /** A mention succeeds exactly when it names a valid group. It then reaches every channel
      of that group, stamped with the sender, and no other channel; the room is not
      addressed unless it is the named group. */
  lemma MentionReachesOnlyTarget(outbox: map<ChannelName, seq<Event>>, groups: map<string, set<ChannelName>>,
                                 event: InboundEvent, user: string, room: string, now: Timestamp, c: ChannelName)
    requires "type" in event && Dispatch(event["type"]) == Some(UserMentionHandler)
    ensures ReceiveEffects(event, user, room, now).Success? <==> "name" in event && ValidGroupName(event["name"])
    ensures "name" !in event ==> ReceiveEffects(event, user, room, now) == Failure(MissingKey("name"))
    ensures "name" in event && !ValidGroupName(event["name"]) ==>
      ReceiveEffects(event, user, room, now) == Failure(InvalidGroupName(event["name"]))
    ensures "name" in event && ValidGroupName(event["name"]) ==>
      var ds := ReceiveEffects(event, user, room, now).value.deliveries;
      && ds == [ToGroup(event["name"], Forwarded(event["by" := user]))]
      && Inbox(Replay(outbox, groups, ds), c) ==
           Inbox(outbox, c) + (if c in Members(groups, event["name"]) then [Forwarded(event["by" := user])] else [])
  {
    if "name" in event && ValidGroupName(event["name"]) {
      var ds := ReceiveEffects(event, user, room, now).value.deliveries;
      ReplayInbox(outbox, groups, ds, c);
      assert ds[..0] == [];
    }
  }

  /** Mentioning a user whose name has a space fails, and nothing is sent. */
  lemma MentionOfSpacedNameFails(user: string, room: string, now: Timestamp)
    ensures ReceiveEffects(map["type" := "user.mention", "name" := "bob smith"], user, room, now)
            == Failure(InvalidGroupName("bob smith"))
  {
    var event := map["type" := "user.mention", "name" := "bob smith"];
    assert "type" in event && event["type"] == "user.mention";
    assert event["by" := user]["name"] == "bob smith";
    DispatchUserMentionTag();
    RefusedGroupNames();
  }

  // -------------------------------------------------------------- runs of presence hooks

  /** One presence hook of `UserTrackManager` on the table. */
  function TrackHook(h: Hook, rows: seq<ActiveUser>, user: string, room: string, channel: ChannelName,
                     now: Timestamp): Result<Change>
  {
    match h
    case Connect => TrackConnect(rows, user, room, channel, now)
    case Disconnect => TrackDisconnect(rows, user, room, channel, now)
  }

  /** The presence hooks `hooks` of one user run one after another on the table: the table
      at the end, and the hooks that announced, in order. */
  function TrackRun(rows: seq<ActiveUser>, user: string, hooks: seq<Hook>, room: string, channel: ChannelName,
                    now: Timestamp): Result<(seq<ActiveUser>, seq<Hook>)>
    decreases |hooks|
  {
    if hooks == [] then Success((rows, []))
    else
      match TrackHook(hooks[0], rows, user, room, channel, now)
      case Failure(e) => Failure(e)
      case Success(c) =>
        match TrackRun(c.rows, user, hooks[1..], room, channel, now)
        case Failure(e) => Failure(e)
        case Success(rest) => Success((rest.0, (if c.effects != NoEffects then [hooks[0]] else []) + rest.1))
  }

  /** One presence hook once the row is found: the row moves as `Apply` says, and the hook
      has effects exactly when it announces. */
  lemma TrackHookFound(h: Hook, rows: seq<ActiveUser>, user: string, room: string, channel: ChannelName,
                       now: Timestamp, i: nat)
    requires ActiveUserGet(rows, user) == Success(i)
    ensures i < |rows|
    ensures var r := TrackHook(h, rows, user, room, channel, now);
            && r.Success?
            && r.value.rows == WithConnections(rows, i, Apply(rows[i].activeConnections, h) - rows[i].activeConnections)
            && (r.value.effects != NoEffects <==> Announces(rows[i].activeConnections, h))
  {
    if h == Connect {
      TrackConnectFound(rows, user, room, channel, now, i);
    } else {
      TrackDisconnectFound(rows, user, room, channel, now, i);
    }
  }

  /** On the table, a run of presence hooks moves the user's row exactly as `Final` says,
      keeps every other row, and announces exactly as `Announcements` says. */
  lemma {:induction false} TrackRunFollowsPresence(rows: seq<ActiveUser>, user: string, hooks: seq<Hook>,
                                                   room: string, channel: ChannelName, now: Timestamp, i: nat)
    requires ActiveUserGet(rows, user) == Success(i)
    ensures TrackRun(rows, user, hooks, room, channel, now).Success?
    ensures var r := TrackRun(rows, user, hooks, room, channel, now).value;
            && |r.0| == |rows| && i < |rows|
            && r.0[i].activeConnections == Final(rows[i].activeConnections, hooks)
            && (forall j | 0 <= j < |rows| && j != i :: r.0[j] == rows[j])
            && r.1 == Announcements(rows[i].activeConnections, hooks)
    decreases |hooks|
  {
    if hooks != [] {
      var h := hooks[0];
      TrackHookFound(h, rows, user, room, channel, now, i);
      var c := TrackHook(h, rows, user, room, channel, now).value;
      SameOwnersSameLookup(rows, c.rows, user);
      TrackRunFollowsPresence(c.rows, user, hooks[1..], room, channel, now, i);
    }
  }

  /** Two connects of an offline user, one after the other, count both connections and
      announce once. */
  lemma SequentialConnectsAnnounceOnce(rows: seq<ActiveUser>, user: string, room: string,
                                       channel: ChannelName, now: Timestamp)
    requires ActiveUserGet(rows, user).Success?
    requires rows[ActiveUserGet(rows, user).value].activeConnections == 0
    ensures TrackRun(rows, user, [Connect, Connect], room, channel, now).Success?
    ensures var r := TrackRun(rows, user, [Connect, Connect], room, channel, now).value;
            r.0[ActiveUserGet(rows, user).value].activeConnections == 2 && r.1 == [Connect]
  {
    var i := ActiveUserGet(rows, user).value;
    assert Connects(2) == [Connect, Connect];
    ConnectBurst(0, 2);
    TrackRunFollowsPresence(rows, user, [Connect, Connect], room, channel, now, i);
  }

  /** `on_connect` as written, for two connections of one user whose hooks interleave: both
      read the row before either saves, each makes the effects its own read calls for (the
      first hook's, then the second's), and the table ends as the later save leaves it. */
  function InterleavedConnects(rows: seq<ActiveUser>, user: string, room: string, channel: ChannelName,
                               t1: Timestamp, t2: Timestamp): Result<Change>
  {
    match TrackConnect(rows, user, room, channel, t1)
    case Failure(e) => Failure(e)
    case Success(first) =>
      match TrackConnect(rows, user, room, channel, t2)
      case Failure(e) => Failure(e)
      case Success(second) =>
        Success(Change(second.rows, Effects(first.effects.messages + second.effects.messages,
                                            first.effects.deliveries + second.effects.deliveries)))
  }

  /** From offline, the interleaved hooks store "joined" twice, announce online.connect
      twice, and leave the count at 1 with two connections open. */
  lemma InterleavedConnectsLoseUpdate(rows: seq<ActiveUser>, user: string, room: string,
                                      channel: ChannelName, t1: Timestamp, t2: Timestamp)
    requires ActiveUserGet(rows, user).Success?
    requires rows[ActiveUserGet(rows, user).value].activeConnections == 0
    ensures InterleavedConnects(rows, user, room, channel, t1, t2).Success?
    ensures var c := InterleavedConnects(rows, user, room, channel, t1, t2).value;
            && c.rows[ActiveUserGet(rows, user).value].activeConnections == 1
            && c.effects.messages == [ServiceRecord(JoinedText(user), t1), ServiceRecord(JoinedText(user), t2)]
            && |c.effects.deliveries| == 6
            && c.effects.deliveries[0] == ToGroup(room, OnlineConnect(user))
            && c.effects.deliveries[3] == ToGroup(room, OnlineConnect(user))
  {
    var i := ActiveUserGet(rows, user).value;
    TrackConnectFound(rows, user, room, channel, t1, i);
    TrackConnectFound(rows, user, room, channel, t2, i);
  }

  // ------------------------------------------------------------ composing the managers

  /** The managers a connection composes. */
  datatype ManagerKind = UserTrack | Init | Receive

  /** The `on_connect` hook of one manager. `ReceiveManager.on_connect` does nothing. */
  function ConnectHook(k: ManagerKind, rows: seq<ActiveUser>, messages: seq<ChatMessage>, user: string,
                       room: string, channel: ChannelName, now: Timestamp): Result<Change>
  {
    match k
    case UserTrack => TrackConnect(rows, user, room, channel, now)
    case Init => Success(Change(rows, Effects([], InitDeliveries(channel, user, messages, rows))))
    case Receive => Success(Change(rows, NoEffects))
  }

  /** The effects of `a` followed by those of `b`. */
  function Then(a: Effects, b: Effects): Effects
  {
    Effects(a.messages + b.messages, a.deliveries + b.deliveries)
  }

  /** What running hooks did: the change made, and how the run ended. */
  datatype Run = Run(change: Change, outcome: Outcome)

  /** The `on_connect` hooks of the managers in `order`, each seeing the tables the earlier
      ones left. A hook that raises ends the run; what the earlier hooks did stays done. */
  function ConnectRun(order: seq<ManagerKind>, rows: seq<ActiveUser>, messages: seq<ChatMessage>, user: string,
                      room: string, channel: ChannelName, now: Timestamp): Run
    decreases |order|
  {
    if order == [] then Run(Change(rows, NoEffects), Pass)
    else
      match ConnectHook(order[0], rows, messages, user, room, channel, now)
      case Failure(e) => Run(Change(rows, NoEffects), Fail(e))
      case Success(c) =>
        var rest := ConnectRun(order[1..], c.rows, messages + c.effects.messages, user, room, channel, now);
        Run(Change(rest.change.rows, Then(c.effects, rest.change.effects)), rest.outcome)
  }

  /** `a` comes before `b` in `order`. */
  predicate Precedes(order: seq<ManagerKind>, a: ManagerKind, b: ManagerKind)
    decreases |order|
  {
    order != [] && if order[0] == a then b in order[1..] else order[0] != b && Precedes(order[1..], a, b)
  }

  /** No manager appears twice in `order`. */
  predicate Distinct(order: seq<ManagerKind>)
  {
    forall p, q | 0 <= p < q < |order| :: order[p] != order[q]
  }

  /** The presence hooks send no online snapshot. */
  lemma TrackConnectSendsNoSnapshot(rows: seq<ActiveUser>, user: string, room: string, channel: ChannelName,
                                    now: Timestamp)
    requires TrackConnect(rows, user, room, channel, now).Success?
    ensures forall d | d in TrackConnect(rows, user, room, channel, now).value.effects.deliveries ::
              !d.event.InitOnlineUsers?
  {
  }

  /** Without `InitManager`, a run sends no online snapshot. */
  lemma {:induction false} NoInitNoSnapshot(order: seq<ManagerKind>, rows: seq<ActiveUser>,
                                            messages: seq<ChatMessage>, user: string, room: string,
                                            channel: ChannelName, now: Timestamp)
    requires Init !in order
    ensures forall d | d in ConnectRun(order, rows, messages, user, room, channel, now).change.effects.deliveries ::
              !d.event.InitOnlineUsers?
    decreases |order|
  {
    if order != [] {
      var step := ConnectHook(order[0], rows, messages, user, room, channel, now);
      if step.Success? {
        if order[0] == UserTrack {
          TrackConnectSendsNoSnapshot(rows, user, room, channel, now);
        }
        var c := step.value;
        assert Init !in order[1..];
        NoInitNoSnapshot(order[1..], c.rows, messages + c.effects.messages, user, room, channel, now);
      }
    }
  }

  /** `a` never precedes anything in an order it is not part of. */
  lemma {:induction false} AbsentNeverPrecedes(order: seq<ManagerKind>, a: ManagerKind, b: ManagerKind)
    requires a !in order
    ensures !Precedes(order, a, b)
    decreases |order|
  {
    if order != [] {
      assert a !in order[1..];
      AbsentNeverPrecedes(order[1..], a, b);
    }
  }

  /** The one snapshot among `b` stays the one snapshot after deliveries that carry none. */
  lemma OnlySnapshot(a: seq<Delivery>, b: seq<Delivery>, s: Delivery)
    requires s.event.InitOnlineUsers?
    requires (forall d | d in a :: !d.event.InitOnlineUsers?) || (forall d | d in b :: !d.event.InitOnlineUsers?)
    requires s in a + b
    requires forall d | (d in a || d in b) && d.event.InitOnlineUsers? :: d == s
    ensures forall d | d in a + b && d.event.InitOnlineUsers? :: d == s
  {
  }

  /** A run that starts with `InitManager` sends one snapshot, of the table as it was. */
  lemma InitFirstSnapshot(order: seq<ManagerKind>, rows: seq<ActiveUser>, messages: seq<ChatMessage>,
                          user: string, room: string, channel: ChannelName, now: Timestamp)
    requires order != [] && order[0] == Init && Init !in order[1..]
    ensures var ds := ConnectRun(order, rows, messages, user, room, channel, now).change.effects.deliveries;
            && ToChannel(channel, InitOnlineUsers(OnlineData(rows))) in ds
            && forall d | d in ds && d.event.InitOnlineUsers? :: d == ToChannel(channel, InitOnlineUsers(OnlineData(rows)))
  {
    var c := ConnectHook(Init, rows, messages, user, room, channel, now).value;
    var tail := ConnectRun(order[1..], c.rows, messages + c.effects.messages, user, room, channel, now);
    NoInitNoSnapshot(order[1..], c.rows, messages + c.effects.messages, user, room, channel, now);
    var s := ToChannel(channel, InitOnlineUsers(OnlineData(rows)));
    assert c.effects.deliveries[2] == s;
    OnlySnapshot(c.effects.deliveries, tail.change.effects.deliveries, s);
  }

  /** The online snapshot a run sends reflects the user's connection exactly when
      `UserTrackManager` runs before `InitManager`: the run sends one snapshot, taken of the
      table after the increment in that case, and of the table as it was otherwise. */
  lemma {:induction false} ConnectOrderDecidesSnapshot(order: seq<ManagerKind>, rows: seq<ActiveUser>,
                                                       messages: seq<ChatMessage>, user: string, room: string,
                                                       channel: ChannelName, now: Timestamp)
    requires ActiveUserGet(rows, user).Success?
    requires Distinct(order) && Init in order
    ensures var i := ActiveUserGet(rows, user).value;
            var snapshot := OnlineData(if Precedes(order, UserTrack, Init) then WithConnections(rows, i, 1) else rows);
            var run := ConnectRun(order, rows, messages, user, room, channel, now);
            && run.outcome == Pass
            && ToChannel(channel, InitOnlineUsers(snapshot)) in run.change.effects.deliveries
            && forall d | d in run.change.effects.deliveries && d.event.InitOnlineUsers? ::
                 d == ToChannel(channel, InitOnlineUsers(snapshot))
    decreases |order|
  {
    ConnectRunPasses(order, rows, messages, user, room, channel, now);
    var i := ActiveUserGet(rows, user).value;
    var k, rest := order[0], order[1..];
    assert order == [k] + rest;
    assert Distinct(rest) by {
      forall p, q | 0 <= p < q < |rest| ensures rest[p] != rest[q] {
        assert rest[p] == order[p + 1] && rest[q] == order[q + 1];
      }
    }
    assert k !in rest by {
      forall q | 0 <= q < |rest| ensures rest[q] != k {
        assert rest[q] == order[q + 1];
      }
    }
    if k == Init {
      assert !Precedes(order, UserTrack, Init);
      InitFirstSnapshot(order, rows, messages, user, room, channel, now);
    } else {
      assert Init in rest;
      var c: Change;
      if k == UserTrack {
        TrackConnectFound(rows, user, room, channel, now, i);
        c := TrackConnect(rows, user, room, channel, now).value;
        TrackConnectSendsNoSnapshot(rows, user, room, channel, now);
        SameOwnersSameLookup(rows, c.rows, user);
        AbsentNeverPrecedes(rest, UserTrack, Init);
        assert Precedes(order, UserTrack, Init);
      } else {
        c := Change(rows, NoEffects);
        assert Precedes(order, UserTrack, Init) == Precedes(rest, UserTrack, Init);
      }
      assert ConnectHook(k, rows, messages, user, room, channel, now) == Success(c);
      var tail := ConnectRun(rest, c.rows, messages + c.effects.messages, user, room, channel, now);
      var after := if Precedes(order, UserTrack, Init) then WithConnections(rows, i, 1) else rows;
      ConnectOrderDecidesSnapshot(rest, c.rows, messages + c.effects.messages, user, room, channel, now);
      OnlySnapshot(c.effects.deliveries, tail.change.effects.deliveries, ToChannel(channel, InitOnlineUsers(OnlineData(after))));
    }
  }

  /** A run for a user with exactly one presence row never raises. */
  lemma {:induction false} ConnectRunPasses(order: seq<ManagerKind>, rows: seq<ActiveUser>,
                                            messages: seq<ChatMessage>, user: string, room: string,
                                            channel: ChannelName, now: Timestamp)
    requires ActiveUserGet(rows, user).Success?
    ensures ConnectRun(order, rows, messages, user, room, channel, now).outcome == Pass
    decreases |order|
  {
    if order != [] {
      if order[0] == UserTrack {
        TrackConnectFound(rows, user, room, channel, now, ActiveUserGet(rows, user).value);
      }
      var c := ConnectHook(order[0], rows, messages, user, room, channel, now).value;
      SameOwnersSameLookup(rows, c.rows, user);
      ConnectRunPasses(order[1..], c.rows, messages + c.effects.messages, user, room, channel, now);
    }
  }

  /** For a user connecting from offline: if `UserTrackManager` runs before `InitManager`,
      the online snapshot the connection receives lists the user with one connection;
      otherwise it does not list the user at all. */
  lemma JoinerInSnapshotIffTrackedFirst(order: seq<ManagerKind>, rows: seq<ActiveUser>,
                                        messages: seq<ChatMessage>, user: string, room: string,
                                        channel: ChannelName, now: Timestamp)
    requires ActiveUserGet(rows, user).Success?
    requires rows[ActiveUserGet(rows, user).value].activeConnections == 0
    requires Distinct(order) && Init in order
    ensures var ds := ConnectRun(order, rows, messages, user, room, channel, now).change.effects.deliveries;
            && (exists d | d in ds :: d.event.InitOnlineUsers?)
            && forall d | d in ds && d.event.InitOnlineUsers? ::
                 && (Precedes(order, UserTrack, Init) ==> PresenceData(user, 1) in d.event.online)
                 && (!Precedes(order, UserTrack, Init) ==> forall p | p in d.event.online :: p.user != user)
  {
    ConnectOrderDecidesSnapshot(order, rows, messages, user, room, channel, now);
    OnlineSnapshotOrder(rows, user);
  }
}
