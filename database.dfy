/** The document store reached through the three mongoose models, as maps from document id to record. */
module Database {
  import opened Common
  import opened MessageModel
  import opened ConversationModel
  import opened ChatUserModel
  import Reactions

  /** A stored message: it passed the schema, and its reaction list keeps the toggle's invariants. */
  predicate StoredMessage(m: Message)
  {
    ValidMessage(m) && Reactions.WellFormed(m.reactions)
  }

  class Store {
    var users: map<string, ChatUser>
    var conversations: map<string, Conversation>
    var messages: map<string, Message>

    /**
     * The store invariant. Two parts come from the database itself: every document
     * passed its schema, and the unique indexes on `sessionToken` and `participant`
     * hold; ids (ObjectIds) are never empty. One part is an invariant the handlers
     * keep rather than anything the schema checks: every message's reaction list is
     * `Reactions.WellFormed` (unique emojis, no empty entry, no user twice).
     */
    ghost predicate Valid()
      reads this
    {
      && "" !in users && "" !in conversations && "" !in messages
      && (forall id {:trigger ValidChatUser(users[id])} :: id in users ==> ValidChatUser(users[id]))
      && TokensUnique(users)
      && (forall id {:trigger ValidConversation(conversations[id])} :: id in conversations ==> ValidConversation(conversations[id]))
      && ParticipantsUnique(conversations)
      && (forall id {:trigger StoredMessage(messages[id])} :: id in messages ==> StoredMessage(messages[id]))
    }

    constructor ()
      ensures Valid()
      ensures users == map[] && conversations == map[] && messages == map[]
    {
      users, conversations, messages := map[], map[], map[];
    }

    /** `ChatUser.findOne({ sessionToken })` */
    method FindOneBySessionToken(token: string) returns (r: Option<string>)
      requires Valid()
      ensures r == TokenOwner(users, token)
    {
      if exists id :: id in users && users[id].sessionToken == token {
        var id :| id in users && users[id].sessionToken == token;
        TokenOwnerUnique(users, token, id);
        r := Some(id);
      } else {
        r := None;
      }
    }
  }
}
