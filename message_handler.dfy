/**
 * `handleMessageSend`, `handleMessageRead` and `handleMessageReact` of
 * src/handlers/message.handler.ts, each one atomic step over the store and the
 * emission log, with the conversation bookkeeping they perform stated as functions.
 */
module MessageHandler {
  import opened Common
  import opened Strings
  import opened MessageModel
  import opened ConversationModel
  import opened SocketTypes
  import opened Rooms
  import opened Reactions
  import opened Database
  import opened Transport

  /** The summary keeps the first 100 characters of the content. */
  const SummaryLength: nat := 100

  // ---------------------------------------------------------------------------
  // Conversation bookkeeping
  // ---------------------------------------------------------------------------

  /**
   * The conversation update of a send: the summary is overwritten and the counter
   * of the role that did NOT send is incremented.
   */
  function SendUpdate(c: Conversation, sender: Role, content: string, now: Timestamp): (r: Conversation)
    ensures Unread(r, Opposite(sender)) == Unread(c, Opposite(sender)) + 1
    ensures Unread(r, sender) == Unread(c, sender)
    ensures r.lastMessage == Some(LastMessage(Prefix(content, SummaryLength), now, sender))
    ensures |r.lastMessage.value.content| <= SummaryLength
    ensures r.participant == c.participant && r.isActive == c.isActive
    ensures r.createdAt == c.createdAt && r.updatedAt == now
  {
    var counter := if sender == Admin then User else Admin;
    var counts := if counter == User then c.unreadCount.(user := c.unreadCount.user + 1)
                  else c.unreadCount.(admin := c.unreadCount.admin + 1);
    c.(lastMessage := Some(LastMessage(Prefix(content, SummaryLength), now, sender)),
       unreadCount := counts, updatedAt := now)
  }

  /** The conversation update of a read: the reader's own counter is set to 0, nothing else. */
  function ReadUpdate(c: Conversation, reader: Role, now: Timestamp): (r: Conversation)
    ensures Unread(r, reader) == 0
    ensures Unread(r, Opposite(reader)) == Unread(c, Opposite(reader))
    ensures r.lastMessage == c.lastMessage
    ensures r.participant == c.participant && r.isActive == c.isActive
    ensures r.createdAt == c.createdAt && r.updatedAt == now
  {
    var counts := if reader == Admin then c.unreadCount.(admin := 0) else c.unreadCount.(user := 0);
    c.(unreadCount := counts, updatedAt := now)
  }

  /** The events that touch a conversation's bookkeeping. */
  datatype ConversationEvent = Sent(sender: Role, content: string, at: Timestamp) | ReadBy(reader: Role, at: Timestamp)

  function Apply(c: Conversation, e: ConversationEvent): Conversation
  {
    match e
    case Sent(sender, content, at) => SendUpdate(c, sender, content, at)
    case ReadBy(reader, at) => ReadUpdate(c, reader, at)
  }

  /** The conversation after a sequence of events, oldest first. */
  function Replay(c: Conversation, evs: seq<ConversationEvent>): Conversation
    decreases |evs|
  {
    if evs == [] then c else Replay(Apply(c, evs[0]), evs[1..])
  }

  /** The number of sends by role `r`. */
  function SendsBy(evs: seq<ConversationEvent>, r: Role): nat
  {
    if evs == [] then 0
    else (if evs[0].Sent? && evs[0].sender == r then 1 else 0) + SendsBy(evs[1..], r)
  }

  predicate NoReadBy(evs: seq<ConversationEvent>, r: Role)
  {
    forall k :: 0 <= k < |evs| ==> !(evs[k].ReadBy? && evs[k].reader == r)
  }

  lemma {:induction false} ReplayAppend(c: Conversation, a: seq<ConversationEvent>, b: seq<ConversationEvent>)
    ensures Replay(c, a + b) == Replay(Replay(c, a), b)
    decreases |a|
  {
    if a == [] {
      assert a + b == b;
    } else {
      assert (a + b)[1..] == a[1..] + b;
      ReplayAppend(Apply(c, a[0]), a[1..], b);
    }
  }

  /** Without a read by `r`, `r`'s counter grows by one per send of the other role. */
  lemma {:induction false} UnreadCountsSends(c: Conversation, evs: seq<ConversationEvent>, r: Role)
    requires NoReadBy(evs, r)
    ensures Unread(Replay(c, evs), r) == Unread(c, r) + SendsBy(evs, Opposite(r))
    decreases |evs|
  {
    if evs != [] {
      assert NoReadBy(evs[1..], r) by {
        forall k | 0 <= k < |evs[1..]| ensures !(evs[1..][k].ReadBy? && evs[1..][k].reader == r) {
          assert evs[1..][k] == evs[k + 1];
        }
      }
      UnreadCountsSends(Apply(c, evs[0]), evs[1..], r);
      match evs[0]
      case Sent(sender, content, at) =>
        if sender != r {
          assert Opposite(sender) == r;
        }
      case ReadBy(reader, at) =>
        assert reader == Opposite(r) by {
          assert !(evs[0].ReadBy? && evs[0].reader == r);
        }
        OppositeInvolutive(r);
    }
  }

  /**
   * A role's counter equals the number of sends by the other role since that role's
   * last read, and is 0 right after it.
   */
  lemma UnreadSinceLastRead(c: Conversation, pre: seq<ConversationEvent>, at: Timestamp,
                            post: seq<ConversationEvent>, r: Role)
    requires NoReadBy(post, r)
    ensures Unread(Replay(c, pre + [ReadBy(r, at)] + post), r) == SendsBy(post, Opposite(r))
  {
    ReplayAppend(c, pre + [ReadBy(r, at)], post);
    ReplayAppend(c, pre, [ReadBy(r, at)]);
    UnreadCountsSends(Replay(c, pre + [ReadBy(r, at)]), post, r);
  }

  /** Reads never touch the summary. */
  lemma {:induction false} ReadsKeepSummary(c: Conversation, evs: seq<ConversationEvent>)
    requires forall k :: 0 <= k < |evs| ==> evs[k].ReadBy?
    ensures Replay(c, evs).lastMessage == c.lastMessage
    decreases |evs|
  {
    if evs != [] {
      assert forall k :: 0 <= k < |evs[1..]| ==> evs[1..][k] == evs[k + 1];
      ReadsKeepSummary(Apply(c, evs[0]), evs[1..]);
    }
  }

  /** The summary always describes the latest send. */
  lemma LatestSendSummarised(c: Conversation, evs: seq<ConversationEvent>, k: nat)
    requires k < |evs| && evs[k].Sent?
    requires forall m :: k < m < |evs| ==> evs[m].ReadBy?
    ensures Replay(c, evs).lastMessage ==
            Some(LastMessage(Prefix(evs[k].content, SummaryLength), evs[k].at, evs[k].sender))
  {
    assert evs == evs[..k] + [evs[k]] + evs[k + 1..];
    ReplayAppend(c, evs[..k] + [evs[k]], evs[k + 1..]);
    ReplayAppend(c, evs[..k], [evs[k]]);
    var rest := evs[k + 1..];
    assert forall m :: 0 <= m < |rest| ==> rest[m] == evs[k + 1 + m];
    ReadsKeepSummary(Replay(c, evs[..k] + [evs[k]]), evs[k + 1..]);
  }

  // ---------------------------------------------------------------------------
  // Read receipts on messages
  // ---------------------------------------------------------------------------

  /** The filter of the read's `updateMany`: this conversation, the other role, `readAt: null`. */
  predicate AwaitingRead(m: Message, conversationId: string, reader: Role)
  {
    m.conversationId == conversationId && m.senderType == Opposite(reader) && m.readAt.None?
  }

  /** `Message.updateMany(filter, { readAt: now })`, with the automatic `updatedAt`. */
  function MarkRead(msgs: map<string, Message>, conversationId: string, reader: Role, now: Timestamp)
    : (r: map<string, Message>)
    ensures r.Keys == msgs.Keys
  {
    map id | id in msgs :: if AwaitingRead(msgs[id], conversationId, reader)
                           then msgs[id].(readAt := Some(now), updatedAt := now) else msgs[id]
  }

  /**
   * Exactly the awaiting messages are stamped (`readAt` and the automatic `updatedAt`
   * both become `now`, nothing else changes): own-role messages, already-read ones and
   * other conversations' are unchanged, and afterwards nothing from the other role in
   * this conversation is unread.
   */
  lemma MarkReadEffect(msgs: map<string, Message>, conversationId: string, reader: Role, now: Timestamp)
    ensures var r := MarkRead(msgs, conversationId, reader, now);
      && (forall id :: id in msgs && AwaitingRead(msgs[id], conversationId, reader) ==>
            r[id].readAt == Some(now) && r[id].updatedAt == now && r[id].(readAt := None, updatedAt := msgs[id].updatedAt) == msgs[id])
      && (forall id :: id in msgs && !AwaitingRead(msgs[id], conversationId, reader) ==> r[id] == msgs[id])
      && (forall id :: id in r ==> !AwaitingRead(r[id], conversationId, reader))
  {
  }

  /** A second read in a row changes nothing. */
  lemma MarkReadIdempotent(msgs: map<string, Message>, conversationId: string, reader: Role, now: Timestamp, later: Timestamp)
    ensures MarkRead(MarkRead(msgs, conversationId, reader, now), conversationId, reader, later)
            == MarkRead(msgs, conversationId, reader, now)
  {
  }

  lemma MarkReadKeepsStored(msgs: map<string, Message>, conversationId: string, reader: Role, now: Timestamp)
    requires forall id :: id in msgs ==> StoredMessage(msgs[id])
    ensures var r := MarkRead(msgs, conversationId, reader, now);
      forall id :: id in r ==> StoredMessage(r[id])
  {
  }

  // ---------------------------------------------------------------------------
  // Projections and fan-out
  // ---------------------------------------------------------------------------

  /** `messageData`: the projection of a freshly created message (no reactions, no `readAt`). */
  function Projection(id: string, m: Message): MessageData
  {
    MessageData(id, m.conversationId, m.senderId, m.senderType, m.content, m.media, [], None, m.createdAt)
  }

  /**
   * `message:new` goes to the conversation room with the sender included; a guest's
   * message also goes to the admin room, without the sender.
   */
  function SendFanOut(adminRoom: string, socketId: string, md: MessageData): (r: seq<Emission>)
    ensures |r| == (if md.senderType == User then 2 else 1)
    ensures r[0] == Emission(ConversationRoom(md.conversationId), MessageNew, NewMessage(md), None)
    ensures |r| == 2 ==> r[1] == Emission(adminRoom, MessageNew, NewMessage(md), Some(socketId))
  {
    [Emission(ConversationRoom(md.conversationId), MessageNew, NewMessage(md), None)] +
    (if md.senderType == User then [Emission(adminRoom, MessageNew, NewMessage(md), Some(socketId))] else [])
  }

  /** The document `Message.create` is given for this socket and payload. */
  function SendCandidate(d: SocketData, data: SendMessagePayload, now: Timestamp): Option<Message>
    requires IsAuthenticated(d)
  {
    CreateMessage(data.conversationId, d.userId.value, d.userType, data.content, data.media, now)
  }

  // ---------------------------------------------------------------------------
  // The handlers
  // ---------------------------------------------------------------------------

  /**
   * `message:send`. `newId` is the id the store assigns, `now` the creation time.
   * A failed validation surfaces as "Failed to send message" and writes nothing.
   * A missing conversation is not an error: the message is still stored and broadcast.
   */
  method HandleMessageSend(store: Store, io: Io, socket: Socket, data: SendMessagePayload,
                           newId: string, now: Timestamp) returns (ack: SendAck)
    requires store.Valid() && newId != "" && newId !in store.messages
    modifies store, io
    ensures store.Valid()
    ensures !IsAuthenticated(socket.data) ==>
      && ack == SendAck(false, None, Some("Not authenticated"))
      && unchanged(store) && io.log == old(io.log)
    ensures IsAuthenticated(socket.data) && SendCandidate(socket.data, data, now).None? ==>
      && ack == SendAck(false, None, Some("Failed to send message"))
      && unchanged(store) && io.log == old(io.log)
    ensures IsAuthenticated(socket.data) && SendCandidate(socket.data, data, now).Some? ==>
      var m := SendCandidate(socket.data, data, now).value;
      var cid := data.conversationId;
      && store.messages == old(store.messages)[newId := m]
      && store.conversations ==
           (if cid in old(store.conversations)
            then old(store.conversations)[cid := SendUpdate(old(store.conversations)[cid], socket.data.userType, data.content, now)]
            else old(store.conversations))
      && store.users == old(store.users)
      && ack == SendAck(true, Some(Projection(newId, m)), None)
      && io.log == old(io.log) + SendFanOut(io.adminRoom, socket.id, Projection(newId, m))
  {
    if !IsAuthenticated(socket.data) {
      return SendAck(false, None, Some("Not authenticated"));
    }
    var created := CreateMessage(data.conversationId, socket.data.userId.value, socket.data.userType,
                                 data.content, data.media, now);
    if created.None? {
      return SendAck(false, None, Some("Failed to send message"));
    }
    var message := created.value;
    assert StoredMessage(message);
    store.messages := store.messages[newId := message];
    var cid := data.conversationId;
    if cid in store.conversations {
      assert ValidConversation(store.conversations[cid]);
      var updated := SendUpdate(store.conversations[cid], socket.data.userType, data.content, now);
      ParticipantsUniqueUpdate(store.conversations, cid, updated);
      store.conversations := store.conversations[cid := updated];
    }
    var messageData := Projection(newId, message);
    io.log := io.log + SendFanOut(io.adminRoom, socket.id, messageData);
    ack := SendAck(true, Some(messageData), None);
  }

  /**
   * `message:read`: stamps the other role's unread messages in the conversation, resets
   * the reader's own counter and tells the whole conversation room. No acknowledgement.
   */
  method HandleMessageRead(store: Store, io: Io, socket: Socket, conversationId: string, now: Timestamp)
    requires store.Valid()
    modifies store, io
    ensures store.Valid()
    ensures !IsAuthenticated(socket.data) ==> unchanged(store) && io.log == old(io.log)
    ensures IsAuthenticated(socket.data) ==>
      var reader := socket.data.userType;
      && store.messages == MarkRead(old(store.messages), conversationId, reader, now)
      && store.conversations ==
           (if conversationId in old(store.conversations)
            then old(store.conversations)[conversationId := ReadUpdate(old(store.conversations)[conversationId], reader, now)]
            else old(store.conversations))
      && store.users == old(store.users)
      && io.log == old(io.log) +
           [Emission(ConversationRoom(conversationId), MessageRead,
                     ReadReceipt(conversationId, socket.data.userId.value, reader), None)]
  {
    if !IsAuthenticated(socket.data) {
      return;
    }
    var reader := socket.data.userType;
    MarkReadKeepsStored(store.messages, conversationId, reader, now);
    store.messages := MarkRead(store.messages, conversationId, reader, now);
    if conversationId in store.conversations {
      assert ValidConversation(store.conversations[conversationId]);
      var updated := ReadUpdate(store.conversations[conversationId], reader, now);
      ParticipantsUniqueUpdate(store.conversations, conversationId, updated);
      store.conversations := store.conversations[conversationId := updated];
    }
    io.log := io.log + [Emission(ConversationRoom(conversationId), MessageRead,
                                 ReadReceipt(conversationId, socket.data.userId.value, reader), None)];
  }

  /**
   * `message:react`: toggles the caller under `emoji` on the message and broadcasts the
   * whole resulting list. Saving re-runs the schema, so an empty emoji is refused.
   */
  method HandleMessageReact(store: Store, io: Io, socket: Socket, messageId: string, emoji: string,
                            now: Timestamp) returns (ack: ReactAck)
    requires store.Valid()
    modifies store, io
    ensures store.Valid()
    ensures !IsAuthenticated(socket.data) ==>
      ack == ReactAck(false, None, Some("Not authenticated")) && unchanged(store) && io.log == old(io.log)
    ensures IsAuthenticated(socket.data) && messageId !in old(store.messages) ==>
      ack == ReactAck(false, None, Some("Message not found")) && unchanged(store) && io.log == old(io.log)
    ensures IsAuthenticated(socket.data) && messageId in old(store.messages) && emoji == "" ==>
      ack == ReactAck(false, None, Some("Failed to add reaction")) && unchanged(store) && io.log == old(io.log)
    ensures IsAuthenticated(socket.data) && messageId in old(store.messages) && emoji != "" ==>
      var m := old(store.messages)[messageId];
      var toggled := Toggled(m.reactions, emoji, socket.data.userId.value);
      && store.messages == old(store.messages)[messageId := m.(reactions := toggled, updatedAt := now)]
      && store.conversations == old(store.conversations) && store.users == old(store.users)
      && ack == ReactAck(true, Some(Project(toggled)), None)
      && io.log == old(io.log) +
           [Emission(ConversationRoom(m.conversationId), MessageReaction, ReactionUpdate(messageId, Project(toggled)), None)]
    ensures ack.success ==> (ack.reactions.Some? &&
      forall k :: 0 <= k < |ack.reactions.value| ==> ack.reactions.value[k].usersIds != [])
  {
    if !IsAuthenticated(socket.data) {
      return ReactAck(false, None, Some("Not authenticated"));
    }
    if messageId !in store.messages {
      return ReactAck(false, None, Some("Message not found"));
    }
    var message := store.messages[messageId];
    assert StoredMessage(message);
    var userId := socket.data.userId.value;
    var toggled := ToggleReaction(message.reactions, emoji, userId);
    var saved := message.(reactions := toggled, updatedAt := now);
    ToggleValid(message.reactions, emoji, userId);
    if !ValidMessage(saved) {
      return ReactAck(false, None, Some("Failed to add reaction"));
    }
    TogglePreservesWellFormed(message.reactions, emoji, userId);
    store.messages := store.messages[messageId := saved];
    var reactions := Project(toggled);
    io.log := io.log + [Emission(ConversationRoom(message.conversationId), MessageReaction,
                                 ReactionUpdate(messageId, reactions), None)];
    ack := ReactAck(true, Some(reactions), None);
  }
}
