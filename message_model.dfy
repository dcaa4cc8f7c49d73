/** The Message document of src/models/Message.ts and the constraints its schema enforces. */
module MessageModel {
  import opened Common

  /** `MessageMediaSchema`; `kind` is the schema's `type` path (a reserved word in Dafny). */
  datatype Media = Media(kind: string, url: string, name: string, size: Option<int>)

  /** `MessageReactionSchema`: one emoji and the users who applied it. */
  datatype Reaction = Reaction(emoji: string, userIds: seq<string>)

  /** `MessageSchema`; `createdAt`/`updatedAt` are the automatic timestamps. */
  datatype Message = Message(
    conversationId: string,
    senderId: string,
    senderType: Role,
    content: string,
    media: Option<Media>,
    reactions: seq<Reaction>,
    readAt: Option<Timestamp>,
    deliveredAt: Option<Timestamp>,
    createdAt: Timestamp,
    updatedAt: Timestamp)

  const MaxContentLength: nat := 5000

  /** `type` in {image, file} and the required `url` and `name`; `size` is free. */
  predicate ValidMedia(m: Media)
  {
    && (m.kind == "image" || m.kind == "file")
    && m.url != ""
    && m.name != ""
  }

  /** A reaction's `emoji` is required (a required string path refuses ""). */
  predicate ValidReaction(r: Reaction)
  {
    r.emoji != ""
  }

  predicate ValidReactions(rs: seq<Reaction>)
  {
    forall k :: 0 <= k < |rs| ==> ValidReaction(rs[k])
  }

  /**
   * What the schema's validators accept: required `conversationId`, `senderId` and
   * `content`, `content` of at most 5000 characters, a valid media descriptor if any,
   * valid reactions. (`senderType` is one of the two roles by construction.)
   */
  predicate ValidMessage(m: Message)
  {
    && m.conversationId != ""
    && m.senderId != ""
    && 0 < |m.content| <= MaxContentLength
    && (m.media.Some? ==> ValidMedia(m.media.value))
    && ValidReactions(m.reactions)
  }

  /**
   * `Message.create`: the document the handler builds, with the schema's automatic
   * fields, or `None` when validation rejects it.
   */
  function CreateMessage(conversationId: string, senderId: string, senderType: Role,
                         content: string, media: Option<Media>, now: Timestamp): (r: Option<Message>)
    ensures r.Some? ==> ValidMessage(r.value)
    ensures r.Some? ==> r.value.reactions == [] && r.value.readAt.None? && r.value.deliveredAt.None?
    ensures r.Some? ==> r.value.createdAt == now && r.value.updatedAt == now
    ensures r.Some? ==> (r.value.conversationId == conversationId && r.value.senderId == senderId &&
                         r.value.senderType == senderType && r.value.content == content &&
                         r.value.media == media)
    ensures r.None? <==>
      || conversationId == "" || senderId == ""
      || |content| == 0 || |content| > MaxContentLength
      || (media.Some? && !ValidMedia(media.value))
  {
    var m := Message(conversationId, senderId, senderType, content, media, [], None, None, now, now);
    if ValidMessage(m) then Some(m) else None
  }

  /** The content bound is inclusive: 5000 characters pass, 5001 do not. */
  lemma ContentBound(cid: string, sid: string, r: Role, now: Timestamp)
    requires cid != "" && sid != ""
    ensures CreateMessage(cid, sid, r, seq(5000, _ => 'x'), None, now).Some?
    ensures CreateMessage(cid, sid, r, seq(5001, _ => 'x'), None, now).None?
    ensures CreateMessage(cid, sid, r, "", None, now).None?
  {
  }
}
