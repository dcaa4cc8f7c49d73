/**
 * src/handlers/connection.handler.ts: a guest joining with its session token, an
 * admin joining with a signed token, and conversation rooms joined and left. The
 * effect on the connection is stated as transitions of its `Session`.
 */
module ConnectionHandler {
  import opened Common
  import opened ChatUserModel
  import opened SocketTypes
  import opened Rooms
  import opened Auth
  import opened Database
  import opened Transport

  // ---------------------------------------------------------------------------
  // Session transitions
  // ---------------------------------------------------------------------------

  /** A guest's identity is bound to the connection, which also enters its personal room. */
  function UserJoined(s: Session, userId: string, sessionToken: string): (r: Session)
    ensures r.data.userId == Some(userId) && r.data.userType == User
    ensures r.data.sessionToken == Some(sessionToken)
    ensures r.data.currentConversation == s.data.currentConversation
    ensures UserRoom(userId) in r.rooms && s.rooms <= r.rooms
    ensures forall room :: room in r.rooms ==> room in s.rooms || room == UserRoom(userId)
  {
    Session(s.data.(userId := Some(userId), userType := User, sessionToken := Some(sessionToken)),
            s.rooms + {UserRoom(userId)})
  }

  /**
   * The admin's identity: the token's subject when it is a non-empty string, "admin"
   * otherwise (`payload.sub || "admin"`). Never empty.
   */
  function AdminIdentity(p: JwtPayload): (id: string)
    ensures id != ""
    ensures Truthy(p.sub) ==> id == p.sub.value
  {
    if Truthy(p.sub) then p.sub.value else "admin"
  }

  /** An admin is recorded on the connection, which enters the admin room; the session token is left alone. */
  function AdminJoined(s: Session, adminRoom: string, p: JwtPayload): (r: Session)
    ensures r.data.userType == Admin && r.data.userId == Some(AdminIdentity(p))
    ensures r.data.sessionToken == s.data.sessionToken
    ensures r.data.currentConversation == s.data.currentConversation
    ensures adminRoom in r.rooms && s.rooms <= r.rooms
    ensures forall room :: room in r.rooms ==> room in s.rooms || room == adminRoom
  {
    Session(s.data.(userType := Admin, userId := Some(AdminIdentity(p))), s.rooms + {adminRoom})
  }

  /** `conversation:join`: enter the room and remember it as the current conversation. */
  function Joined(s: Session, conversationId: string): (r: Session)
    ensures ConversationRoom(conversationId) in r.rooms && s.rooms <= r.rooms
    ensures forall room :: room in r.rooms ==> room in s.rooms || room == ConversationRoom(conversationId)
    ensures r.data.currentConversation == Some(conversationId)
    ensures r.data.(currentConversation := s.data.currentConversation) == s.data
  {
    Session(s.data.(currentConversation := Some(conversationId)), s.rooms + {ConversationRoom(conversationId)})
  }

  /**
   * `conversation:leave`: leave the named room and forget the current conversation,
   * whichever conversation that was.
   */
  function Left(s: Session, conversationId: string): (r: Session)
    ensures ConversationRoom(conversationId) !in r.rooms
    ensures forall room :: room in s.rooms && room != ConversationRoom(conversationId) ==> room in r.rooms
    ensures r.rooms <= s.rooms
    ensures r.data.currentConversation.None?
    ensures r.data.(currentConversation := s.data.currentConversation) == s.data
  {
    Session(s.data.(currentConversation := None), s.rooms - {ConversationRoom(conversationId)})
  }

  /** A guest join authenticates the connection as a guest exactly when the id is non-empty. */
  lemma UserJoinAuthenticates(s: Session, userId: string, sessionToken: string)
    ensures IsAuthenticated(UserJoined(s, userId, sessionToken).data) <==> userId != ""
  {
  }

  /** An admin join always authenticates the connection. */
  lemma AdminJoinAuthenticates(s: Session, adminRoom: string, p: JwtPayload)
    ensures IsAuthenticated(AdminJoined(s, adminRoom, p).data)
  {
  }

  /** Joining the same conversation twice is joining it once. */
  lemma JoinIdempotent(s: Session, conversationId: string)
    ensures Joined(Joined(s, conversationId), conversationId) == Joined(s, conversationId)
  {
  }

  /**
   * Joining a second conversation keeps the first room: the connection then belongs
   * to both, while `currentConversation` names only the second.
   */
  lemma JoinKeepsEarlierRooms(s: Session, first: string, second: string)
    requires first != second
    ensures var r := Joined(Joined(s, first), second);
      && ConversationRoom(first) in r.rooms && ConversationRoom(second) in r.rooms
      && r.data.currentConversation == Some(second)
  {
  }

  /** Leaving after joining removes exactly that room and clears the current conversation. */
  lemma LeaveUndoesJoin(s: Session, conversationId: string)
    ensures Left(Joined(s, conversationId), conversationId) ==
            Session(s.data.(currentConversation := None), s.rooms - {ConversationRoom(conversationId)})
  {
  }

  /**
   * Leaving a conversation other than the current one still clears `currentConversation`
   * while the current room stays joined.
   */
  lemma LeaveOtherForgetsCurrent(s: Session, current: string, other: string)
    requires current != other
    ensures var r := Left(Joined(s, current), other);
      ConversationRoom(current) in r.rooms && r.data.currentConversation.None?
  {
    if ConversationRoom(current) == ConversationRoom(other) {
      ConversationRoomInjective(current, other);
    }
  }

  // ---------------------------------------------------------------------------
  // The handlers
  // ---------------------------------------------------------------------------

  /** The public snapshot the join acknowledges, `isOnline` set outright. */
  function JoinSnapshot(id: string, u: ChatUser): ChatUserData
  {
    ChatUserData(id, u.name, u.email, u.photo, true, u.lastSeen)
  }

  /**
   * `user:join`: look the token up; an unknown token is refused with nothing changed.
   * Otherwise the user goes online bound to this connection, the connection takes the
   * guest identity and its personal room, every admin but this connection hears
   * `user:online`, and the acknowledgement carries the public snapshot.
   */
  method HandleUserJoin(store: Store, io: Io, socket: Socket, sessionToken: string, now: Timestamp)
    returns (ack: UserJoinAck)
    requires store.Valid()
    modifies store, io, socket
    ensures store.Valid()
    ensures TokenOwner(old(store.users), sessionToken).None? ==>
      && ack == UserJoinAck(false, None, Some("Invalid session token"))
      && unchanged(store) && unchanged(socket) && io.log == old(io.log)
    ensures TokenOwner(old(store.users), sessionToken).Some? ==>
      var id := TokenOwner(old(store.users), sessionToken).value;
      var u := GoOnline(old(store.users)[id], socket.id, now);
      && store.users == old(store.users)[id := u]
      && store.conversations == old(store.conversations) && store.messages == old(store.messages)
      && socket.View() == UserJoined(old(socket.View()), id, sessionToken)
      && io.log == old(io.log) + [Emission(io.adminRoom, UserOnline, UserStatus(id, None), Some(socket.id))]
      && ack == UserJoinAck(true, Some(JoinSnapshot(id, u)), None)
  {
    var found := store.FindOneBySessionToken(sessionToken);
    if found.None? {
      return UserJoinAck(false, None, Some("Invalid session token"));
    }
    var id := found.value;
    var user := GoOnline(store.users[id], socket.id, now);
    TokensUniqueUpdate(store.users, id, user);
    store.users := store.users[id := user];
    socket.data := socket.data.(userId := Some(id), userType := User, sessionToken := Some(sessionToken));
    socket.rooms := socket.rooms + {UserRoom(id)};
    io.log := io.log + [Emission(io.adminRoom, UserOnline, UserStatus(id, None), Some(socket.id))];
    ack := UserJoinAck(true, Some(JoinSnapshot(id, user)), None);
  }

  /**
   * `admin:join`: a token the verifier refuses is answered with an error and changes
   * nothing; otherwise the connection becomes an admin and joins the admin room.
   * No role claim is inspected.
   */
  method HandleAdminJoin(io: Io, socket: Socket, verify: TokenVerifier, token: string)
    returns (ack: AdminJoinAck)
    modifies socket
    ensures verify(token).None? ==>
      ack == AdminJoinAck(false, Some("Invalid or expired token")) && unchanged(socket)
    ensures verify(token).Some? ==>
      && ack == AdminJoinAck(true, None)
      && socket.View() == AdminJoined(old(socket.View()), io.adminRoom, verify(token).value)
  {
    var payload := verify(token);
    if payload.None? {
      return AdminJoinAck(false, Some("Invalid or expired token"));
    }
    socket.data := socket.data.(userType := Admin, userId := Some(AdminIdentity(payload.value)));
    socket.rooms := socket.rooms + {io.adminRoom};
    ack := AdminJoinAck(true, None);
  }

  /** `conversation:join`, with no check of who may join. */
  method HandleConversationJoin(socket: Socket, conversationId: string)
    modifies socket
    ensures socket.View() == Joined(old(socket.View()), conversationId)
  {
    socket.rooms := socket.rooms + {ConversationRoom(conversationId)};
    socket.data := socket.data.(currentConversation := Some(conversationId));
  }

  /** `conversation:leave` */
  method HandleConversationLeave(socket: Socket, conversationId: string)
    modifies socket
    ensures socket.View() == Left(old(socket.View()), conversationId)
  {
    socket.rooms := socket.rooms - {ConversationRoom(conversationId)};
    socket.data := socket.data.(currentConversation := None);
  }
}
