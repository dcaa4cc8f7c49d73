/** Room keys: the `user:<id>` and `conversation:<id>` families and the admin room literal. */
module Rooms {

  const UserPrefix: string := "user:"
  const ConversationPrefix: string := "conversation:"

  /** The literal `emitToAdmins` targets; the handlers use the separately configured ADMIN_ROOM. */
  const AdminRoomLiteral: string := "admin-room"

  /** `user:${userId}` */
  function UserRoom(userId: string): (r: string)
    ensures |r| == |userId| + 5 && r[..5] == UserPrefix && r[5..] == userId
  {
    UserPrefix + userId
  }

  /** `conversation:${conversationId}` */
  function ConversationRoom(conversationId: string): (r: string)
    ensures |r| == |conversationId| + 13 && r[..13] == ConversationPrefix && r[13..] == conversationId
  {
    ConversationPrefix + conversationId
  }

  /** Distinct users get distinct rooms. */
  lemma UserRoomInjective(a: string, b: string)
    requires UserRoom(a) == UserRoom(b)
    ensures a == b
  {
    assert a == UserRoom(a)[5..];
  }

  /** Distinct conversations get distinct rooms. */
  lemma ConversationRoomInjective(a: string, b: string)
    requires ConversationRoom(a) == ConversationRoom(b)
    ensures a == b
  {
    assert a == ConversationRoom(a)[13..];
  }

  /** The families never collide with each other or with the admin literal. */
  lemma RoomFamiliesDisjoint(u: string, c: string)
    ensures UserRoom(u) != ConversationRoom(c)
    ensures UserRoom(u) != AdminRoomLiteral
    ensures ConversationRoom(c) != AdminRoomLiteral
  {
    assert UserRoom(u)[0] == 'u';
    assert ConversationRoom(c)[0] == 'c';
    assert AdminRoomLiteral[0] == 'a';
  }
}
