/** src/handlers/disconnect.handler.ts: a guest's connection closing. */
module DisconnectHandler {
  import opened Common
  import opened ChatUserModel
  import opened SocketTypes
  import opened Database
  import opened Transport

  /** Only a connection identified as a guest has presence to clear. */
  predicate TracksPresence(d: SocketData)
  {
    d.userType == User && IsAuthenticated(d)
  }

  /**
   * The offline notice every admin but this connection receives. Its `lastSeen` is the
   * same instant the store records.
   */
  function OfflineNotice(adminRoom: string, socketId: string, userId: string, now: Timestamp): (e: Emission)
    ensures e.event == UserOffline && e.room == adminRoom && e.except == Some(socketId)
    ensures e.payload.UserStatus? && e.payload.userId == userId && e.payload.lastSeen == Some(now)
  {
    Emission(adminRoom, UserOffline, UserStatus(userId, Some(now)), Some(socketId))
  }

  /**
   * The users after the update by id: the user goes offline when it exists, and the
   * update matches nothing otherwise.
   */
  function Disconnected(users: map<string, ChatUser>, id: string, now: Timestamp): (r: map<string, ChatUser>)
    ensures r.Keys == users.Keys
    ensures forall k :: k in users && k != id ==> r[k] == users[k]
    ensures id in users ==> r[id] == GoOffline(users[id], now)
  {
    if id in users then users[id := GoOffline(users[id], now)] else users
  }

  lemma DisconnectedKeepsUsersValid(users: map<string, ChatUser>, id: string, now: Timestamp)
    requires forall k :: k in users ==> ValidChatUser(users[k])
    requires TokensUnique(users)
    ensures forall k :: k in Disconnected(users, id, now) ==> ValidChatUser(Disconnected(users, id, now)[k])
    ensures TokensUnique(Disconnected(users, id, now))
  {
    var r := Disconnected(users, id, now);
    if id in users {
      TokensUniqueUpdate(users, id, GoOffline(users[id], now));
    }
    forall k | k in r
      ensures ValidChatUser(r[k])
    {
      if k == id {
        assert r[k] == GoOffline(users[id], now);
      } else {
        assert r[k] == users[k];
      }
    }
  }

  /**
   * `disconnect`: for a guest, the stored user goes offline and the admins are told.
   * The update is by id and matches nothing when the user no longer exists; the
   * notice is sent all the same. When the update itself fails (`updateSucceeds` is
   * false) the error is swallowed: nothing is written and nothing is sent. Admin and
   * anonymous connections change nothing.
   */
  method HandleDisconnect(store: Store, io: Io, socket: Socket, now: Timestamp, updateSucceeds: bool)
    requires store.Valid()
    modifies store, io
    ensures store.Valid()
    ensures !TracksPresence(socket.data) || !updateSucceeds ==> unchanged(store) && io.log == old(io.log)
    ensures TracksPresence(socket.data) && updateSucceeds ==>
      store.users == Disconnected(old(store.users), socket.data.userId.value, now)
    ensures TracksPresence(socket.data) && updateSucceeds ==>
      store.conversations == old(store.conversations) && store.messages == old(store.messages)
    ensures TracksPresence(socket.data) && updateSucceeds ==>
      io.log == old(io.log) + [OfflineNotice(io.adminRoom, socket.id, socket.data.userId.value, now)]
  {
    if !TracksPresence(socket.data) || !updateSucceeds {
      return;
    }
    var id := socket.data.userId.value;
    DisconnectedKeepsUsersValid(store.users, id, now);
    store.users := Disconnected(store.users, id, now);
    io.log := io.log + [OfflineNotice(io.adminRoom, socket.id, id, now)];
  }
}
