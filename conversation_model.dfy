/** The Conversation document of src/models/Conversation.ts. */
module ConversationModel {
  import opened Common

  /** The denormalised summary of the latest message. */
  datatype LastMessage = LastMessage(content: string, timestamp: Timestamp, senderType: Role)

  /** The two counters: `admin` counts what admins have not read, `user` what the guest has not read. */
  datatype UnreadCount = UnreadCount(admin: nat, user: nat)

  datatype Conversation = Conversation(
    participant: string,
    lastMessage: Option<LastMessage>,
    unreadCount: UnreadCount,
    isActive: bool,
    createdAt: Timestamp,
    updatedAt: Timestamp)

  /** The counter that belongs to role `r` (`unreadCount.admin` or `unreadCount.user`). */
  function Unread(c: Conversation, r: Role): nat
  {
    match r
    case Admin => c.unreadCount.admin
    case User => c.unreadCount.user
  }

  /** `participant` is required; the summary's role is one of the two by construction. */
  predicate ValidConversation(c: Conversation)
  {
    c.participant != ""
  }

  /**
   * A new conversation document with the schema's defaults: both counters 0,
   * `isActive` true, no summary. `None` when the required participant is missing.
   */
  function CreateConversation(participant: string, now: Timestamp): (r: Option<Conversation>)
    ensures r.Some? <==> participant != ""
    ensures r.Some? ==> ValidConversation(r.value) && r.value.participant == participant
    ensures r.Some? ==> Unread(r.value, Admin) == 0 && Unread(r.value, User) == 0
    ensures r.Some? ==> r.value.isActive && r.value.lastMessage.None?
    ensures r.Some? ==> r.value.createdAt == now && r.value.updatedAt == now
  {
    var c := Conversation(participant, None, UnreadCount(0, 0), true, now, now);
    if ValidConversation(c) then Some(c) else None
  }

  /** The unique index on `participant`: no two conversations share a participant. */
  ghost predicate ParticipantsUnique(cs: map<string, Conversation>)
  {
    forall a, b :: a in cs && b in cs && a != b ==> cs[a].participant != cs[b].participant
  }

  /** The conversations of participant `p`. */
  ghost function ConversationsOf(cs: map<string, Conversation>, p: string): set<string>
  {
    set id | id in cs && cs[id].participant == p
  }

  /** Under the unique index every guest has at most one conversation. */
  lemma AtMostOneConversation(cs: map<string, Conversation>, p: string)
    requires ParticipantsUnique(cs)
    ensures |ConversationsOf(cs, p)| <= 1
  {
    var s := ConversationsOf(cs, p);
    if s != {} {
      var a :| a in s;
      assert s == {a} by {
        forall b | b in s ensures b == a {
        }
      }
    }
  }

  /** Rewriting one conversation without touching its participant keeps the index satisfied. */
  lemma ParticipantsUniqueUpdate(cs: map<string, Conversation>, id: string, c: Conversation)
    requires ParticipantsUnique(cs)
    requires id in cs && c.participant == cs[id].participant
    ensures ParticipantsUnique(cs[id := c])
  {
  }
}
