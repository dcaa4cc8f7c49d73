/** The ChatUser document of src/models/ChatUser.ts: a guest identity. */
module ChatUserModel {
  import opened Common
  import opened Strings

  datatype ChatUser = ChatUser(
    name: string,
    email: string,
    photo: Option<string>,
    sessionToken: string,
    socketId: Option<string>,
    isOnline: bool,
    lastSeen: Timestamp,
    createdAt: Timestamp,
    updatedAt: Timestamp)

  const MaxNameLength: nat := 100

  /**
   * The language of the pattern `^\S+@\S+\.\S+$`: no whitespace anywhere, an '@' with
   * at least one character before it, a '.' at least two characters after that '@',
   * and at least one character after the '.'.
   */
  ghost predicate EmailShaped(s: string)
  {
    && NoWhitespace(s)
    && exists i, j :: 0 < i && i + 1 < j && j + 1 < |s| && s[i] == '@' && s[j] == '.'
  }

  /** The first '@' at or after `from`, or `|s|` if there is none. */
  function FirstAt(s: string, from: nat): (r: nat)
    requires from <= |s|
    ensures from <= r <= |s|
    ensures r < |s| ==> s[r] == '@'
    ensures forall k :: from <= k < r ==> s[k] != '@'
    decreases |s| - from
  {
    if from == |s| then |s| else if s[from] == '@' then from else FirstAt(s, from + 1)
  }

  /** The last '.' before `upto`, or -1 if there is none. */
  function LastDot(s: string, upto: nat): (r: int)
    requires upto <= |s|
    ensures -1 <= r < upto
    ensures r >= 0 ==> s[r] == '.'
    ensures forall k :: r < k < upto ==> s[k] != '.'
  {
    if upto == 0 then -1 else if s[upto - 1] == '.' then upto - 1 else LastDot(s, upto - 1)
  }

  /**
   * Deciding the email pattern: the earliest usable '@' and the latest usable '.'
   * are far enough apart.
   */
  function MatchesEmail(s: string): bool
  {
    && |s| > 0
    && NoWhitespace(s)
    && FirstAt(s, 1) + 2 <= LastDot(s, |s| - 1)
  }

  /** The decision procedure accepts exactly the strings the pattern describes. */
  lemma MatchesEmailCorrect(s: string)
    ensures MatchesEmail(s) <==> EmailShaped(s)
  {
    if MatchesEmail(s) {
      var i, j := FirstAt(s, 1), LastDot(s, |s| - 1);
      assert 0 < i && i + 1 < j && j + 1 < |s| && s[i] == '@' && s[j] == '.';
    }
    if EmailShaped(s) {
      var i, j :| 0 < i && i + 1 < j && j + 1 < |s| && s[i] == '@' && s[j] == '.';
      assert FirstAt(s, 1) <= i;
      assert j <= LastDot(s, |s| - 1);
    }
  }

  lemma EmailExamples()
    ensures MatchesEmail("a@b.c")
    ensures !MatchesEmail("a@.c")
    ensures !MatchesEmail("@b.c")
    ensures !MatchesEmail("a b@c.d")
  {
    assert !IsWhitespace("a@b.c"[0]) && !IsWhitespace("a@b.c"[1]) && !IsWhitespace("a@b.c"[2]);
    assert !IsWhitespace("a@b.c"[3]) && !IsWhitespace("a@b.c"[4]);
    assert IsWhitespace("a b@c.d"[1]);
  }

  /**
   * What the schema accepts as stored: `name` trimmed, non-empty and at most 100
   * characters; `email` trimmed, lower-case and matching the pattern; the
   * required `sessionToken`; `photo` and `socketId` are free.
   */
  predicate ValidChatUser(u: ChatUser)
  {
    && IsTrimmed(u.name)
    && 0 < |u.name| <= MaxNameLength
    && IsTrimmed(u.email)
    && IsLower(u.email)
    && MatchesEmail(u.email)
    && u.sessionToken != ""
  }

  /**
   * Creating a guest: the `trim` and `lowercase` setters run first, then the
   * validators; `isOnline` defaults to false, `lastSeen` to the creation time and
   * `socketId` is absent. `None` when validation rejects the document.
   */
  function CreateChatUser(name: string, email: string, photo: Option<string>,
                          sessionToken: string, now: Timestamp): (r: Option<ChatUser>)
    ensures r.Some? <==>
      && 0 < |Trim(name)| <= MaxNameLength
      && MatchesEmail(Trim(ToLower(email)))
      && sessionToken != ""
    ensures r.Some? ==> ValidChatUser(r.value)
    ensures r.Some? ==> r.value.name == Trim(name) && r.value.email == Trim(ToLower(email))
    ensures r.Some? ==> !r.value.isOnline && r.value.lastSeen == now && r.value.socketId.None?
    ensures r.Some? ==> r.value.photo == photo && r.value.sessionToken == sessionToken
  {
    var n := Trim(name);
    var e := Trim(ToLower(email));
    TrimShape(name);
    TrimShape(ToLower(email));
    LowerOfTrimmedLower(email);
    var u := ChatUser(n, e, photo, sessionToken, None, false, now, now, now);
    if ValidChatUser(u) then Some(u) else None
  }

  /** Trimming a lower-cased string leaves it lower-case. */
  lemma LowerOfTrimmedLower(email: string)
    ensures IsLower(Trim(ToLower(email)))
  {
    var l := ToLower(email);
    TrimShape(l);
    ToLowerIsLower(email);
    var a := |l| - |TrimStart(l)|;
    SliceOfLower(l, a, a + |Trim(l)|);
  }

  /**
   * The setters are idempotent on what is stored: trimming and lower-casing a stored
   * user's fields gives them back unchanged.
   */
  lemma StoredUserNormalised(u: ChatUser)
    requires ValidChatUser(u)
    ensures Trim(u.name) == u.name && Trim(u.email) == u.email && ToLower(u.email) == u.email
  {
    TrimmedIff(u.name);
    TrimmedIff(u.email);
    LowerIff(u.email);
  }

  /** The unique index on `sessionToken`. */
  ghost predicate TokensUnique(users: map<string, ChatUser>)
  {
    forall a, b :: a in users && b in users && a != b ==> users[a].sessionToken != users[b].sessionToken
  }

  /** `ChatUser.findOne({sessionToken})`: the owner of a token, if any. */
  ghost function TokenOwner(users: map<string, ChatUser>, token: string): (r: Option<string>)
    ensures r.Some? ==> r.value in users && users[r.value].sessionToken == token
    ensures r.None? <==> forall id :: id in users ==> users[id].sessionToken != token
  {
    if exists id :: id in users && users[id].sessionToken == token then
      var id :| id in users && users[id].sessionToken == token; Some(id)
    else None
  }

  /** Under the unique index the owner of a token is the only user holding it. */
  lemma TokenOwnerUnique(users: map<string, ChatUser>, token: string, id: string)
    requires TokensUnique(users)
    requires id in users && users[id].sessionToken == token
    ensures TokenOwner(users, token) == Some(id)
  {
  }

  /** Rewriting one user without touching the token keeps the index satisfied. */
  lemma TokensUniqueUpdate(users: map<string, ChatUser>, id: string, u: ChatUser)
    requires TokensUnique(users)
    requires id in users && u.sessionToken == users[id].sessionToken
    ensures TokensUnique(users[id := u])
  {
  }

  /** The fields no presence change touches: the profile, the token and the creation time. */
  predicate SameProfile(a: ChatUser, b: ChatUser)
  {
    a.name == b.name && a.email == b.email && a.photo == b.photo &&
    a.sessionToken == b.sessionToken && a.createdAt == b.createdAt
  }

  /** `user:join` on the stored document: online, bound to the socket, seen now, then saved. */
  function GoOnline(u: ChatUser, socketId: string, now: Timestamp): (r: ChatUser)
    ensures r.isOnline && r.socketId == Some(socketId) && r.lastSeen == now && r.updatedAt == now
    ensures SameProfile(r, u)
    ensures ValidChatUser(u) ==> ValidChatUser(r)
  {
    u.(isOnline := true, socketId := Some(socketId), lastSeen := now, updatedAt := now)
  }

  /** The disconnect's `findByIdAndUpdate`: offline, socket id cleared, seen now. */
  function GoOffline(u: ChatUser, now: Timestamp): (r: ChatUser)
    ensures !r.isOnline && r.socketId.None? && r.lastSeen == now && r.updatedAt == now
    ensures SameProfile(r, u)
    ensures ValidChatUser(u) ==> ValidChatUser(r)
  {
    u.(isOnline := false, socketId := None, lastSeen := now, updatedAt := now)
  }

  /**
   * A session leaves no trace but its end: joining and then disconnecting is the same
   * as disconnecting, and so is rejoining in between.
   */
  lemma OnlineThenOffline(u: ChatUser, socketId: string, socketId2: string, t1: Timestamp, t2: Timestamp, t3: Timestamp)
    ensures GoOffline(GoOnline(u, socketId, t1), t2) == GoOffline(u, t2)
    ensures GoOffline(GoOnline(GoOnline(u, socketId, t1), socketId2, t2), t3) == GoOffline(u, t3)
  {
  }
}
