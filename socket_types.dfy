/** Record shapes of src/types/socket.types.ts: per-socket data, wire payloads, acknowledgements. */
module SocketTypes {
  import opened Common
  import opened MessageModel

  /** `SocketData`: what the server remembers about one connection. */
  datatype SocketData = SocketData(
    userId: Option<string>,
    userType: Role,
    sessionToken: Option<string>,
    currentConversation: Option<string>)

  /** A connection as `handleConnection` leaves it: a guest with no identity yet. */
  const InitialSocketData: SocketData := SocketData(None, User, None, None)

  /** The handlers' `if (!socket.data.userId)` guard, read positively. */
  predicate IsAuthenticated(d: SocketData)
  {
    Truthy(d.userId)
  }

  /** `ChatUserData`: the public user snapshot (no session token, no socket id). */
  datatype ChatUserData = ChatUserData(id: string, name: string, email: string, photo: Option<string>,
                                       isOnline: bool, lastSeen: Timestamp)

  /** `MessageReaction` on the wire; note the field is `usersIds` here, `userIds` in storage. */
  datatype WireReaction = WireReaction(emoji: string, usersIds: seq<string>)

  /** `MessageData`: the public projection of a message. */
  datatype MessageData = MessageData(id: string, conversationId: string, senderId: string,
                                     senderType: Role, content: string, media: Option<Media>,
                                     reactions: seq<WireReaction>, readAt: Option<Timestamp>,
                                     createdAt: Timestamp)

  /** `SendMessagePayload` */
  datatype SendMessagePayload = SendMessagePayload(conversationId: string, content: string, media: Option<Media>)

  /** The names of `ServerToClientEvents`. */
  datatype ServerEvent =
    | UserOnline | UserOffline | UserTyping | UserStopTyping
    | MessageNew | MessageRead | MessageReaction
    | ConversationNew | ConversationUpdate | ErrorEvent

  function ServerEventName(e: ServerEvent): string
  {
    match e
    case UserOnline => "user:online"
    case UserOffline => "user:offline"
    case UserTyping => "user:typing"
    case UserStopTyping => "user:stop-typing"
    case MessageNew => "message:new"
    case MessageRead => "message:read"
    case MessageReaction => "message:reaction"
    case ConversationNew => "conversation:new"
    case ConversationUpdate => "conversation:update"
    case ErrorEvent => "error"
  }

  /** Distinct server events go out under distinct names. */
  lemma ServerEventNameInjective(a: ServerEvent, b: ServerEvent)
    requires ServerEventName(a) == ServerEventName(b)
    ensures a == b
  {
  }

  /** The payloads the core emits (`UserStatusPayload`, `TypingPayload`, ...). */
  datatype Payload =
    | UserStatus(userId: string, lastSeen: Option<Timestamp>)
    | Typing(conversationId: string, typingUserId: string, userName: string)
    | NewMessage(message: MessageData)
    | ReadReceipt(readConversationId: string, readBy: string, readByType: Role)
    | ReactionUpdate(messageId: string, reactions: seq<WireReaction>)

  /**
   * One emission: `room`, event name and payload; `except` is the emitting socket's id
   * when it was sent with `socket.to(room)` (the sender does not receive it), and
   * `None` when sent with `io.to(room)` (every member, sender included).
   */
  datatype Emission = Emission(room: string, event: ServerEvent, payload: Payload, except: Option<string>)

  /** Acknowledgement of `user:join`. */
  datatype UserJoinAck = UserJoinAck(success: bool, user: Option<ChatUserData>, error: Option<string>)

  /** Acknowledgement of `admin:join`: never carries the admin's identity. */
  datatype AdminJoinAck = AdminJoinAck(success: bool, error: Option<string>)

  /** Acknowledgement of `message:send`. */
  datatype SendAck = SendAck(success: bool, message: Option<MessageData>, error: Option<string>)

  /** Acknowledgement of `message:react`. */
  datatype ReactAck = ReactAck(success: bool, reactions: Option<seq<WireReaction>>, error: Option<string>)
}
