/** src/handlers/typing.handler.ts: typing indicators relayed to the rest of a conversation room. */
module TypingHandler {
  import opened Common
  import opened ChatUserModel
  import opened SocketTypes
  import opened Rooms
  import opened Database
  import opened Transport

  /**
   * The name shown while typing: "Admin" for an admin; for a guest the stored name,
   * or "User" when the user is not found or its name is empty (`user?.name || "User"`).
   */
  function TypingName(users: map<string, ChatUser>, d: SocketData): (n: string)
    requires IsAuthenticated(d)
    ensures n != ""
    ensures d.userType == Admin ==> n == "Admin"
    ensures d.userType == User && d.userId.value in users && users[d.userId.value].name != "" ==>
              n == users[d.userId.value].name
    ensures d.userType == User && (d.userId.value !in users || users[d.userId.value].name == "") ==> n == "User"
  {
    if d.userType == Admin then "Admin"
    else if d.userId.value in users && users[d.userId.value].name != "" then users[d.userId.value].name
    else "User"
  }

  /**
   * `typing:start`: nothing for an unidentified connection; otherwise `user:typing`
   * to the conversation room, without the sender, naming the typist.
   */
  function TypingStartEmission(users: map<string, ChatUser>, d: SocketData, socketId: string,
                               conversationId: string): (e: Option<Emission>)
    ensures e.Some? <==> IsAuthenticated(d)
    ensures e.Some? ==> && e.value.room == ConversationRoom(conversationId)
                        && e.value.event == UserTyping && e.value.except == Some(socketId)
    ensures e.Some? ==> e.value.payload == Typing(conversationId, d.userId.value, TypingName(users, d))
  {
    if !IsAuthenticated(d) then None
    else Some(Emission(ConversationRoom(conversationId), UserTyping,
                       Typing(conversationId, d.userId.value, TypingName(users, d)), Some(socketId)))
  }

  /** `typing:stop`: as the start, but `user:stop-typing` with an empty name and no lookup. */
  function TypingStopEmission(d: SocketData, socketId: string, conversationId: string): (e: Option<Emission>)
    ensures e.Some? <==> IsAuthenticated(d)
    ensures e.Some? ==> && e.value.room == ConversationRoom(conversationId)
                        && e.value.event == UserStopTyping && e.value.except == Some(socketId)
    ensures e.Some? ==> e.value.payload == Typing(conversationId, d.userId.value, "")
  {
    if !IsAuthenticated(d) then None
    else Some(Emission(ConversationRoom(conversationId), UserStopTyping, Typing(conversationId, d.userId.value, ""), Some(socketId)))
  }

  /**
   * A start and a stop from the same connection address the same room, exclude the
   * same sender and name the same typist; only the stop's name is empty.
   */
  lemma StartStopPaired(users: map<string, ChatUser>, d: SocketData, socketId: string, conversationId: string)
    requires IsAuthenticated(d)
    ensures var start := TypingStartEmission(users, d, socketId, conversationId).value;
      var stop := TypingStopEmission(d, socketId, conversationId).value;
      && start.room == stop.room && start.except == stop.except
      && start.payload.typingUserId == stop.payload.typingUserId
      && start.payload.userName != "" && stop.payload.userName == ""
  {
  }

  /** Appends the start indicator, if any, to the log; the store is only read. */
  method HandleTypingStart(store: Store, io: Io, socket: Socket, conversationId: string)
    modifies io
    ensures var e := TypingStartEmission(store.users, socket.data, socket.id, conversationId);
      io.log == old(io.log) + (if e.Some? then [e.value] else [])
  {
    var e := TypingStartEmission(store.users, socket.data, socket.id, conversationId);
    if e.Some? {
      io.log := io.log + [e.value];
    }
  }

  method HandleTypingStop(io: Io, socket: Socket, conversationId: string)
    modifies io
    ensures var e := TypingStopEmission(socket.data, socket.id, conversationId);
      io.log == old(io.log) + (if e.Some? then [e.value] else [])
  {
    var e := TypingStopEmission(socket.data, socket.id, conversationId);
    if e.Some? {
      io.log := io.log + [e.value];
    }
  }
}
