/** The three managers a chat connection composes. Each holds the connection's database,
    channel layer, its own channel name and the authenticated user's name; each hook is a
    method proved to make exactly the change its counterpart in HookEffects describes. */
module Managers {
  import opened Wrappers
  import opened Models
  import opened DbSelectors
  import opened DbServices
  import opened Events
  import opened Channels
  import opened Presence
  import opened EventDispatch
  import opened HookEffects

  /** The stores and the layer made exactly the change `c`: the presence table is `c.rows`,
      the messages and deliveries of `c` were appended in order, and nothing else moved. */
  twostate predicate Applied(db: Database, layer: ChannelLayer, c: Change)
    reads db, layer
  {
    && db.users == old(db.users)
    && db.activeUsers == c.rows
    && db.messages == old(db.messages) + c.effects.messages
    && layer.groups == old(layer.groups)
    && layer.sent == old(layer.sent) + c.effects.deliveries
    && layer.outbox == Replay(old(layer.outbox), old(layer.groups), c.effects.deliveries)
  }

  /** A hook that fails changes nothing and raises the error; one that succeeds makes its change. */
  twostate predicate Performed(db: Database, layer: ChannelLayer, step: Result<Change>, r: Outcome)
    reads db, layer
  {
    match step
    case Failure(e) => r == Fail(e) && Applied(db, layer, Change(old(db.activeUsers), NoEffects))
    case Success(c) => r == Pass && Applied(db, layer, c)
  }

  class UserTrackManager {
    const db: Database
    const layer: ChannelLayer
    const room: string
    const channel: ChannelName
    const username: string

    constructor (db: Database, layer: ChannelLayer, room: string, channel: ChannelName, username: string)
      ensures this.db == db && this.layer == layer && this.room == room
      ensures this.channel == channel && this.username == username
    {
      this.db, this.layer, this.room, this.channel, this.username := db, layer, room, channel, username;
    }

    /** `get_user_active_record`. */
    method GetUserActiveRecord() returns (r: Result<nat>)
      ensures r.Success? ==> r.value < |db.activeUsers| && db.activeUsers[r.value].user == username
      ensures r == ActiveUserGet(db.activeUsers, username)
    {
      r := ActiveUserGet(db.activeUsers, username);
    }

    /** `send_service_msg_connect`: store "User <name> joined" and relay it to the room. */
    method SendServiceMsgConnect(now: Timestamp)
      requires db.Valid()
      requires ValidGroupName(room)
      modifies db, layer
      ensures db.Valid()
      ensures Applied(db, layer, Change(old(db.activeUsers),
        Effects([ServiceRecord(JoinedText(username), now)], [ToGroup(room, ServiceMessage(JoinedText(username)))])))
    {
      var message := JoinedText(username);
      var _ := db.ChatMessageCreate(message, None, now, true);
      ghost var o0 := layer.outbox;
      var _ := layer.GroupSend(room, ServiceMessage(message));
      ReplayOne(o0, layer.groups, ToGroup(room, ServiceMessage(message)));
    }

    /** `send_service_msg_disconnect`: store "User <name> left" and relay it to the room. */
    method SendServiceMsgDisconnect(now: Timestamp)
      requires db.Valid()
      requires ValidGroupName(room)
      modifies db, layer
      ensures db.Valid()
      ensures Applied(db, layer, Change(old(db.activeUsers),
        Effects([ServiceRecord(LeftText(username), now)], [ToGroup(room, ServiceMessage(LeftText(username)))])))
    {
      var message := LeftText(username);
      var _ := db.ChatMessageCreate(message, None, now, true);
      ghost var o0 := layer.outbox;
      var _ := layer.GroupSend(room, ServiceMessage(message));
      ReplayOne(o0, layer.groups, ToGroup(room, ServiceMessage(message)));
    }

    /** The announcement block of `on_connect`: the online event to the room and to the
        connection itself, then the "joined" service message. */
    method AnnounceConnect(now: Timestamp)
      requires db.Valid()
      requires ValidGroupName(room)
      modifies db, layer
      ensures db.Valid()
      ensures Applied(db, layer, Change(old(db.activeUsers),
        Announcement(room, channel, OnlineConnect(username), JoinedText(username), now)))
    {
      var e := OnlineConnect(username);
      ghost var d0, d1, d2 := ToGroup(room, e), ToChannel(channel, e), ToGroup(room, ServiceMessage(JoinedText(username)));
      ghost var o0, g, s0 := layer.outbox, layer.groups, layer.sent;
      var _ := layer.GroupSend(room, e);
      ghost var o1 := layer.outbox;
      ReplayOne(o0, g, d0);
      layer.Send(channel, e);
      ghost var o2 := layer.outbox;
      ReplayOne(o1, g, d1);
      SendServiceMsgConnect(now);
      ReplayThree(o0, o1, o2, layer.outbox, g, d0, d1, d2);
      LogThree(s0, d0, d1, d2);
    }

    /** The announcement block of `on_disconnect`: the offline event to the room and to the
        connection itself, then the "left" service message. */
    method AnnounceDisconnect(now: Timestamp)
      requires db.Valid()
      requires ValidGroupName(room)
      modifies db, layer
      ensures db.Valid()
      ensures Applied(db, layer, Change(old(db.activeUsers),
        Announcement(room, channel, OnlineDisconnect(username), LeftText(username), now)))
    {
      var e := OnlineDisconnect(username);
      ghost var d0, d1, d2 := ToGroup(room, e), ToChannel(channel, e), ToGroup(room, ServiceMessage(LeftText(username)));
      ghost var o0, g, s0 := layer.outbox, layer.groups, layer.sent;
      var _ := layer.GroupSend(room, e);
      ghost var o1 := layer.outbox;
      ReplayOne(o0, g, d0);
      layer.Send(channel, e);
      ghost var o2 := layer.outbox;
      ReplayOne(o1, g, d1);
      SendServiceMsgDisconnect(now);
      ReplayThree(o0, o1, o2, layer.outbox, g, d0, d1, d2);
      LogThree(s0, d0, d1, d2);
    }

    /** `on_connect`: read the row, announce if it reads 0, then increment it. */
    method OnConnect(now: Timestamp) returns (r: Outcome)
      requires db.Valid()
      requires ValidGroupName(room)
      modifies db, layer
      ensures db.Valid()
      ensures Performed(db, layer, TrackConnect(old(db.activeUsers), username, room, channel, now), r)
    {
      var found := GetUserActiveRecord();
      if found.Failure? {
        return Fail(found.error);
      }
      var i := found.value;
      TrackConnectFound(db.activeUsers, username, room, channel, now, i);
      if db.activeUsers[i].activeConnections == 0 {
        AnnounceConnect(now);
      }
      db.ActiveUserConnectionsIncr(i);
      r := Pass;
    }

    /** `on_disconnect`: decrement the row, then announce if it is now 0. */
    method OnDisconnect(now: Timestamp) returns (r: Outcome)
      requires db.Valid()
      requires ValidGroupName(room)
      modifies db, layer
      ensures db.Valid()
      ensures Performed(db, layer, TrackDisconnect(old(db.activeUsers), username, room, channel, now), r)
    {
      var found := GetUserActiveRecord();
      if found.Failure? {
        return Fail(found.error);
      }
      var i := found.value;
      TrackDisconnectFound(db.activeUsers, username, room, channel, now, i);
      db.ActiveUserConnectionsDecr(i);
      if db.activeUsers[i].activeConnections == 0 {
        AnnounceDisconnect(now);
      }
      r := Pass;
    }
  }

  class InitManager {
    const db: Database
    const layer: ChannelLayer
    const channel: ChannelName
    const username: string

    constructor (db: Database, layer: ChannelLayer, channel: ChannelName, username: string)
      ensures this.db == db && this.layer == layer && this.channel == channel && this.username == username
    {
      this.db, this.layer, this.channel, this.username := db, layer, channel, username;
    }

    /** `send_whoami`. */
    method SendWhoami()
      modifies layer
      ensures Applied(db, layer, Change(db.activeUsers, Effects([], [ToChannel(channel, InitWhoami(username))])))
    {
      ghost var o0 := layer.outbox;
      layer.Send(channel, InitWhoami(username));
      ReplayOne(o0, layer.groups, ToChannel(channel, InitWhoami(username)));
    }

    /** `send_chat_history`. */
    method SendChatHistory()
      modifies layer
      ensures Applied(db, layer, Change(db.activeUsers,
        Effects([], [ToChannel(channel, InitChatHistory(HistoryData(db.messages)))])))
    {
      var data := HistoryData(db.messages);
      ghost var o0 := layer.outbox;
      layer.Send(channel, InitChatHistory(data));
      ReplayOne(o0, layer.groups, ToChannel(channel, InitChatHistory(data)));
    }

    /** `send_current_online`. */
    method SendCurrentOnline()
      modifies layer
      ensures Applied(db, layer, Change(db.activeUsers,
        Effects([], [ToChannel(channel, InitOnlineUsers(OnlineData(db.activeUsers)))])))
    {
      var data := OnlineData(db.activeUsers);
      ghost var o0 := layer.outbox;
      layer.Send(channel, InitOnlineUsers(data));
      ReplayOne(o0, layer.groups, ToChannel(channel, InitOnlineUsers(data)));
    }

    /** `on_connect`: the three snapshots, in order, to the joining channel; no store changes. */
    method OnConnect()
      modifies layer
      ensures Applied(db, layer, Change(db.activeUsers,
        Effects([], InitDeliveries(channel, username, db.messages, db.activeUsers))))
    {
      ghost var o0, g, s0 := layer.outbox, layer.groups, layer.sent;
      ghost var d0 := ToChannel(channel, InitWhoami(username));
      ghost var d1 := ToChannel(channel, InitChatHistory(HistoryData(db.messages)));
      ghost var d2 := ToChannel(channel, InitOnlineUsers(OnlineData(db.activeUsers)));
      SendWhoami();
      ghost var o1 := layer.outbox;
      SendChatHistory();
      ghost var o2 := layer.outbox;
      SendCurrentOnline();
      ReplayThree(o0, o1, o2, layer.outbox, g, d0, d1, d2);
      LogThree(s0, d0, d1, d2);
    }
  }

  class ReceiveManager {
    const db: Database
    const layer: ChannelLayer
    const room: string
    const username: string

    constructor (db: Database, layer: ChannelLayer, room: string, username: string)
      ensures this.db == db && this.layer == layer && this.room == room && this.username == username
    {
      this.db, this.layer, this.room, this.username := db, layer, room, username;
    }

    /** `user_mention`. */
    method HandleUserMention(event: InboundEvent) returns (r: Outcome)
      modifies layer
      ensures Performed(db, layer, Keeping(db.activeUsers, MentionEffects(event, username)), r)
    {
      var stamped := event["by" := username];
      if "name" !in stamped {
        return Fail(MissingKey("name"));
      }
      var target := stamped["name"];
      ghost var o0 := layer.outbox;
      r := layer.GroupSend(target, Forwarded(stamped));
      if r.Pass? {
        ReplayOne(o0, layer.groups, ToGroup(target, Forwarded(stamped)));
      }
    }

    /** `chat_servicemessage`. */
    method HandleChatServicemessage(event: InboundEvent) returns (r: Outcome)
      requires ValidGroupName(room)
      modifies layer
      ensures Performed(db, layer, Keeping(db.activeUsers, ServiceRelayEffects(event, room)), r)
    {
      ghost var o0 := layer.outbox;
      var _ := layer.GroupSend(room, Forwarded(event));
      ReplayOne(o0, layer.groups, ToGroup(room, Forwarded(event)));
      r := Pass;
    }

    /** `chat_message`. */
    method HandleChatMessage(event: InboundEvent, now: Timestamp) returns (r: Outcome)
      requires db.Valid() && username in db.users
      requires ValidGroupName(room)
      modifies db, layer
      ensures db.Valid()
      ensures Performed(db, layer, Keeping(old(db.activeUsers), ChatMessageEffects(event, username, room, now)), r)
    {
      if "message" !in event {
        return Fail(MissingKey("message"));
      }
      var message := event["message"];
      var msg := db.ChatMessageCreate(message, Some(username), now);
      ghost var o0 := layer.outbox;
      var toSend := NewMessage(message, username, msg.sent);
      var _ := layer.GroupSend(room, toSend);
      ReplayOne(o0, layer.groups, ToGroup(room, toSend));
      r := Pass;
    }

    /** `dispatch_receive_event`. */
    method DispatchReceiveEvent(event: InboundEvent, now: Timestamp) returns (r: Outcome)
      requires db.Valid() && username in db.users
      requires ValidGroupName(room)
      modifies db, layer
      ensures db.Valid()
      ensures Performed(db, layer, Keeping(old(db.activeUsers), ReceiveEffects(event, username, room, now)), r)
    {
      if "type" !in event {
        return Fail(MessageSchemaError);
      }
      var handler := Dispatch(event["type"]);
      match handler
      case None =>
        r := Fail(MissingHandler(HandlerName(event["type"])));
      case Some(UserMentionHandler) =>
        r := HandleUserMention(event);
      case Some(ServiceMessageHandler) =>
        r := HandleChatServicemessage(event);
      case Some(ChatMessageHandler) =>
        r := HandleChatMessage(event, now);
    }

    /** `on_receive`: decode the frame, then dispatch it. `frame` is None when the text is
        not a JSON object. */
    method OnReceive(frame: Option<InboundEvent>, now: Timestamp) returns (r: Outcome)
      requires db.Valid() && username in db.users
      requires ValidGroupName(room)
      modifies db, layer
      ensures db.Valid()
      ensures frame.None? ==> Performed(db, layer, Failure(DecodeError), r)
      ensures frame.Some? ==>
        Performed(db, layer, Keeping(old(db.activeUsers), ReceiveEffects(frame.value, username, room, now)), r)
    {
      if frame.None? {
        return Fail(DecodeError);
      }
      r := DispatchReceiveEvent(frame.value, now);
    }
  }
}
