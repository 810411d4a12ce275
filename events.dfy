/** The events the backend sends and receives. JSON objects are abstracted: an outbound
    event is a typed value, and an inbound event is the decoded object's string fields. */
module Events {
  import opened Wrappers
  import opened Models

  /** A decoded inbound frame: field name to field value. */
  type InboundEvent = map<string, string>

  /** One entry of `init.chat_history`: a message record as a dictionary. */
  datatype MessageData = MessageData(message: string, author: Option<string>, sent: Timestamp, serviceMsg: bool)

  /** One entry of `init.online_users`: a presence record as a dictionary. */
  datatype PresenceData = PresenceData(user: string, connections: int)

  datatype Event =
    | OnlineConnect(user: string)                                  // online.connect
    | OnlineDisconnect(user: string)                               // online.disconnect
    | ServiceMessage(message: string)                              // chat.servicemessage
    | NewMessage(message: string, author: string, sent: Timestamp) // chat.message
    | InitWhoami(user: string)                                     // init.whoami
    | InitChatHistory(history: seq<MessageData>)                   // init.chat_history
    | InitOnlineUsers(online: seq<PresenceData>)                   // init.online_users
    | Forwarded(fields: InboundEvent)                              // an inbound event relayed as a dictionary

  /** `as_dict` of a message: its columns. */
  function MessageAsDict(m: ChatMessage): MessageData
  {
    MessageData(m.text, m.author, m.sent, m.serviceMsg)
  }

  /** `as_dict` of a presence row: its columns. */
  function PresenceAsDict(a: ActiveUser): PresenceData
  {
    PresenceData(a.user, a.activeConnections)
  }
}
