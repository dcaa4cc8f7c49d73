/**
 * src/socket/server.ts: the lazily created server instance, the per-connection event
 * table and the emit utilities used by the rest of the backend.
 */
module SocketServer {
  import opened Common
  import opened MessageModel
  import opened SocketTypes
  import opened Rooms
  import opened Auth
  import opened Database
  import opened Transport
  import opened ChatUserModel
  import opened Reactions
  import ConnectionHandler
  import MessageHandler
  import TypingHandler
  import DisconnectHandler

  /** The module-level `io` variable: `null` until the first initialisation. */
  class SocketModule {
    /** ADMIN_ROOM, as configured. */
    const adminRoom: string
    var io: Io?

    constructor (adminRoom: string)
      ensures this.adminRoom == adminRoom && io == null
    {
      this.adminRoom := adminRoom;
      io := null;
    }

    /** `initSocketServer`: the first call creates the server, every later call returns it. */
    method InitSocketServer() returns (server: Io)
      modifies this
      ensures old(io) != null ==> server == old(io) && io == old(io)
      ensures old(io) == null ==> fresh(server) && io == server && server.log == [] && server.adminRoom == adminRoom
    {
      if io != null {
        return io;
      }
      server := new Io(adminRoom);
      io := server;
    }

    /** `getIO`: the instance, or `null` before initialisation. */
    method GetIO() returns (server: Io?)
      ensures server == io
    {
      server := io;
    }

    /** `emitToUser`: to the user's personal room; nothing before initialisation. */
    method EmitToUser(userId: string, event: ServerEvent, payload: Payload)
      modifies io
      ensures io != null ==> io.log == old(io.log) + [Emission(UserRoom(userId), event, payload, None)]
    {
      if io != null {
        io.log := io.log + [Emission(UserRoom(userId), event, payload, None)];
      }
    }

    /**
     * `emitToAdmins`: to the room literally named "admin-room", which is not the
     * configured admin room unless ADMIN_ROOM has that value.
     */
    method EmitToAdmins(event: ServerEvent, payload: Payload)
      modifies io
      ensures io != null ==> io.log == old(io.log) + [Emission(AdminRoomLiteral, event, payload, None)]
    {
      if io != null {
        io.log := io.log + [Emission(AdminRoomLiteral, event, payload, None)];
      }
    }

    /** `emitToConversation`: to the conversation room, every member included. */
    method EmitToConversation(conversationId: string, event: ServerEvent, payload: Payload)
      modifies io
      ensures io != null ==> io.log == old(io.log) + [Emission(ConversationRoom(conversationId), event, payload, None)]
    {
      if io != null {
        io.log := io.log + [Emission(ConversationRoom(conversationId), event, payload, None)];
      }
    }
  }

  /** `handleConnection`: a new connection is a guest with no identity, in its own room only. */
  method HandleConnection(id: string) returns (socket: Socket)
    ensures fresh(socket)
    ensures socket.id == id && socket.data == InitialSocketData && socket.rooms == {id}
    ensures !IsAuthenticated(socket.data) && socket.data.userType == User
  {
    socket := new Socket(id);
  }

  /** The handlers `handleConnection` registers. */
  datatype Handler =
    | UserJoinHandler | AdminJoinHandler | ConversationJoinHandler | ConversationLeaveHandler
    | TypingStartHandler | TypingStopHandler
    | MessageSendHandler | MessageReadHandler | MessageReactHandler
    | DisconnectHandlerEntry

  /** The event each handler is registered under. */
  function EventName(h: Handler): string
  {
    match h
    case UserJoinHandler => "user:join"
    case AdminJoinHandler => "admin:join"
    case ConversationJoinHandler => "conversation:join"
    case ConversationLeaveHandler => "conversation:leave"
    case TypingStartHandler => "typing:start"
    case TypingStopHandler => "typing:stop"
    case MessageSendHandler => "message:send"
    case MessageReadHandler => "message:read"
    case MessageReactHandler => "message:react"
    case DisconnectHandlerEntry => "disconnect"
  }

  /** The table lookup: which handler an incoming event name reaches, if any. */
  function Route(name: string): (h: Option<Handler>)
    ensures h.Some? ==> EventName(h.value) == name
  {
    if name == "user:join" then Some(UserJoinHandler)
    else if name == "admin:join" then Some(AdminJoinHandler)
    else if name == "conversation:join" then Some(ConversationJoinHandler)
    else if name == "conversation:leave" then Some(ConversationLeaveHandler)
    else if name == "typing:start" then Some(TypingStartHandler)
    else if name == "typing:stop" then Some(TypingStopHandler)
    else if name == "message:send" then Some(MessageSendHandler)
    else if name == "message:read" then Some(MessageReadHandler)
    else if name == "message:react" then Some(MessageReactHandler)
    else if name == "disconnect" then Some(DisconnectHandlerEntry)
    else None
  }

  /** Every handler is reachable under its own name and under no other. */
  lemma RouteRoundTrip(h: Handler, name: string)
    ensures Route(EventName(h)) == Some(h)
    ensures Route(name) == Some(h) <==> name == EventName(h)
  {
  }

  /** An incoming event with its arguments. */
  datatype ClientEvent =
    | UserJoin(sessionToken: string)
    | AdminJoin(token: string)
    | ConversationJoin(joinId: string)
    | ConversationLeave(leaveId: string)
    | TypingStart(startId: string)
    | TypingStop(stopId: string)
    | MessageSend(data: SendMessagePayload)
    | MessageRead(readId: string)
    | MessageReact(messageId: string, emoji: string)
    | Disconnect

  function HandlerOf(e: ClientEvent): Handler
  {
    match e
    case UserJoin(_) => UserJoinHandler
    case AdminJoin(_) => AdminJoinHandler
    case ConversationJoin(_) => ConversationJoinHandler
    case ConversationLeave(_) => ConversationLeaveHandler
    case TypingStart(_) => TypingStartHandler
    case TypingStop(_) => TypingStopHandler
    case MessageSend(_) => MessageSendHandler
    case MessageRead(_) => MessageReadHandler
    case MessageReact(_, _) => MessageReactHandler
    case Disconnect => DisconnectHandlerEntry
  }

  /** What a handler answers through the acknowledgement callback, if it has one. */
  datatype Reply =
    | NoReply
    | UserJoinReply(userJoin: UserJoinAck)
    | AdminJoinReply(adminJoin: AdminJoinAck)
    | SendReply(send: SendAck)
    | ReactReply(react: ReactAck)

  /**
   * One event on one connection, handled to completion. Whatever arrives, in whatever
   * order, the store keeps its schema and index guarantees, and only the events with
   * a callback answer. Each event is the one registered under its handler's name.
   * `verify` is the token check, `newId` the id the store would give a new message,
   * `now` the clock and `updateSucceeds` whether the disconnect's write goes through.
   */
  method Dispatch(store: Store, io: Io, socket: Socket, e: ClientEvent, verify: TokenVerifier,
                  newId: string, now: Timestamp, updateSucceeds: bool) returns (reply: Reply)
    requires store.Valid() && newId != "" && newId !in store.messages
    modifies store, io, socket
    ensures store.Valid()
    ensures Route(EventName(HandlerOf(e))) == Some(HandlerOf(e))
    ensures reply.NoReply? <==> !(e.UserJoin? || e.AdminJoin? || e.MessageSend? || e.MessageReact?)
    ensures !e.UserJoin? && !e.AdminJoin? && !e.ConversationJoin? && !e.ConversationLeave? ==>
      socket.View() == old(socket.View())
    // user:join
    ensures e.UserJoin? && TokenOwner(old(store.users), e.sessionToken).None? ==>
      && reply == UserJoinReply(UserJoinAck(false, None, Some("Invalid session token")))
      && unchanged(store) && socket.View() == old(socket.View()) && io.log == old(io.log)
    ensures e.UserJoin? && TokenOwner(old(store.users), e.sessionToken).Some? ==>
      var id := TokenOwner(old(store.users), e.sessionToken).value;
      var u := GoOnline(old(store.users)[id], socket.id, now);
      && store.users == old(store.users)[id := u]
      && store.conversations == old(store.conversations) && store.messages == old(store.messages)
      && socket.View() == ConnectionHandler.UserJoined(old(socket.View()), id, e.sessionToken)
      && io.log == old(io.log) + [Emission(io.adminRoom, UserOnline, UserStatus(id, None), Some(socket.id))]
      && reply == UserJoinReply(UserJoinAck(true, Some(ConnectionHandler.JoinSnapshot(id, u)), None))
    // admin:join
    ensures e.AdminJoin? ==> unchanged(store) && io.log == old(io.log)
    ensures e.AdminJoin? && verify(e.token).None? ==>
      reply == AdminJoinReply(AdminJoinAck(false, Some("Invalid or expired token"))) &&
      socket.View() == old(socket.View())
    ensures e.AdminJoin? && verify(e.token).Some? ==>
      reply == AdminJoinReply(AdminJoinAck(true, None)) &&
      socket.View() == ConnectionHandler.AdminJoined(old(socket.View()), io.adminRoom, verify(e.token).value)
    // conversation:join and conversation:leave
    ensures e.ConversationJoin? ==>
      unchanged(store) && io.log == old(io.log) &&
      socket.View() == ConnectionHandler.Joined(old(socket.View()), e.joinId)
    ensures e.ConversationLeave? ==>
      unchanged(store) && io.log == old(io.log) &&
      socket.View() == ConnectionHandler.Left(old(socket.View()), e.leaveId)
    // typing:start and typing:stop
    ensures e.TypingStart? ==>
      var t := TypingHandler.TypingStartEmission(old(store.users), old(socket.data), socket.id, e.startId);
      unchanged(store) && io.log == old(io.log) + (if t.Some? then [t.value] else [])
    ensures e.TypingStop? ==>
      var t := TypingHandler.TypingStopEmission(old(socket.data), socket.id, e.stopId);
      unchanged(store) && io.log == old(io.log) + (if t.Some? then [t.value] else [])
    // message:send
    ensures e.MessageSend? && !IsAuthenticated(socket.data) ==>
      && reply == SendReply(SendAck(false, None, Some("Not authenticated")))
      && unchanged(store) && io.log == old(io.log)
    ensures e.MessageSend? && IsAuthenticated(socket.data) &&
            MessageHandler.SendCandidate(socket.data, e.data, now).None? ==>
      && reply == SendReply(SendAck(false, None, Some("Failed to send message")))
      && unchanged(store) && io.log == old(io.log)
    ensures e.MessageSend? && IsAuthenticated(socket.data) &&
            MessageHandler.SendCandidate(socket.data, e.data, now).Some? ==>
      var m := MessageHandler.SendCandidate(socket.data, e.data, now).value;
      var cid := e.data.conversationId;
      var md := MessageHandler.Projection(newId, m);
      && store.messages == old(store.messages)[newId := m]
      && store.conversations ==
           (if cid in old(store.conversations)
            then old(store.conversations)[cid := MessageHandler.SendUpdate(old(store.conversations)[cid],
                                                                           socket.data.userType, e.data.content, now)]
            else old(store.conversations))
      && store.users == old(store.users)
      && reply == SendReply(SendAck(true, Some(md), None))
      && io.log == old(io.log) + MessageHandler.SendFanOut(io.adminRoom, socket.id, md)
    // message:read
    ensures e.MessageRead? && !IsAuthenticated(socket.data) ==> unchanged(store) && io.log == old(io.log)
    ensures e.MessageRead? && IsAuthenticated(socket.data) ==>
      var reader := socket.data.userType;
      && store.messages == MessageHandler.MarkRead(old(store.messages), e.readId, reader, now)
      && store.conversations ==
           (if e.readId in old(store.conversations)
            then old(store.conversations)[e.readId := MessageHandler.ReadUpdate(old(store.conversations)[e.readId], reader, now)]
            else old(store.conversations))
      && store.users == old(store.users)
      && io.log == old(io.log) +
           [Emission(ConversationRoom(e.readId), ServerEvent.MessageRead, ReadReceipt(e.readId, socket.data.userId.value, reader), None)]
    // message:react
    ensures e.MessageReact? && !IsAuthenticated(socket.data) ==>
      reply == ReactReply(ReactAck(false, None, Some("Not authenticated"))) && unchanged(store) && io.log == old(io.log)
    ensures e.MessageReact? && IsAuthenticated(socket.data) && e.messageId !in old(store.messages) ==>
      reply == ReactReply(ReactAck(false, None, Some("Message not found"))) && unchanged(store) && io.log == old(io.log)
    ensures e.MessageReact? && IsAuthenticated(socket.data) && e.messageId in old(store.messages) && e.emoji == "" ==>
      reply == ReactReply(ReactAck(false, None, Some("Failed to add reaction"))) && unchanged(store) && io.log == old(io.log)
    ensures e.MessageReact? && IsAuthenticated(socket.data) && e.messageId in old(store.messages) && e.emoji != "" ==>
      var m := old(store.messages)[e.messageId];
      var toggled := Toggled(m.reactions, e.emoji, socket.data.userId.value);
      && store.messages == old(store.messages)[e.messageId := m.(reactions := toggled, updatedAt := now)]
      && store.conversations == old(store.conversations) && store.users == old(store.users)
      && reply == ReactReply(ReactAck(true, Some(Project(toggled)), None))
      && io.log == old(io.log) +
           [Emission(ConversationRoom(m.conversationId), MessageReaction, ReactionUpdate(e.messageId, Project(toggled)), None)]
    // disconnect
    ensures e.Disconnect? && (!DisconnectHandler.TracksPresence(socket.data) || !updateSucceeds) ==>
      unchanged(store) && io.log == old(io.log)
    ensures e.Disconnect? && DisconnectHandler.TracksPresence(socket.data) && updateSucceeds ==>
      && store.users == DisconnectHandler.Disconnected(old(store.users), socket.data.userId.value, now)
      && store.conversations == old(store.conversations) && store.messages == old(store.messages)
      && io.log == old(io.log) + [DisconnectHandler.OfflineNotice(io.adminRoom, socket.id, socket.data.userId.value, now)]
  {
    RouteRoundTrip(HandlerOf(e), EventName(HandlerOf(e)));
    match e
    case UserJoin(token) =>
      var ack := ConnectionHandler.HandleUserJoin(store, io, socket, token, now);
      reply := UserJoinReply(ack);
    case AdminJoin(token) =>
      var ack := ConnectionHandler.HandleAdminJoin(io, socket, verify, token);
      reply := AdminJoinReply(ack);
    case ConversationJoin(cid) =>
      ConnectionHandler.HandleConversationJoin(socket, cid);
      reply := NoReply;
    case ConversationLeave(cid) =>
      ConnectionHandler.HandleConversationLeave(socket, cid);
      reply := NoReply;
    case TypingStart(cid) =>
      TypingHandler.HandleTypingStart(store, io, socket, cid);
      reply := NoReply;
    case TypingStop(cid) =>
      TypingHandler.HandleTypingStop(io, socket, cid);
      reply := NoReply;
    case MessageSend(data) =>
      var ack := MessageHandler.HandleMessageSend(store, io, socket, data, newId, now);
      reply := SendReply(ack);
    case MessageRead(cid) =>
      MessageHandler.HandleMessageRead(store, io, socket, cid, now);
      reply := NoReply;
    case MessageReact(mid, emoji) =>
      var ack := MessageHandler.HandleMessageReact(store, io, socket, mid, emoji, now);
      reply := ReactReply(ack);
    case Disconnect =>
      DisconnectHandler.HandleDisconnect(store, io, socket, now, updateSucceeds);
      reply := NoReply;
  }
}
