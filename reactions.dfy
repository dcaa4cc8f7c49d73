/**
 * The reaction toggle of `handleMessageReact` (src/handlers/message.handler.ts):
 * the specification `Toggled`, its invariants and laws, and the step-by-step
 * method (find, indexOf, splice / push / filter) proved against it.
 */
module Reactions {
  import opened Common
  import opened MessageModel
  import opened SocketTypes

  /** `reactions.find(r => r.emoji === emoji)`, as the position of the first match. */
  function FindEmoji(rs: seq<Reaction>, emoji: string): (r: Option<nat>)
    ensures r.Some? ==> r.value < |rs| && rs[r.value].emoji == emoji
    ensures r.Some? ==> forall k :: 0 <= k < r.value ==> rs[k].emoji != emoji
    ensures r.None? ==> forall k :: 0 <= k < |rs| ==> rs[k].emoji != emoji
  {
    if |rs| == 0 then None
    else if rs[0].emoji == emoji then Some(0)
    else match FindEmoji(rs[1..], emoji)
      case None => None
      case Some(i) => Some(i + 1)
  }

  /** `userIds.indexOf(userId)`: the first position, or -1. */
  function IndexOfUser(us: seq<string>, u: string): (r: int)
    ensures -1 <= r < |us|
    ensures r >= 0 ==> us[r] == u && forall k :: 0 <= k < r ==> us[k] != u
    ensures r == -1 <==> u !in us
  {
    if |us| == 0 then -1
    else if us[0] == u then 0
    else
      var j := IndexOfUser(us[1..], u);
      if j < 0 then -1 else j + 1
  }

  /** `reactions.filter(r => r.emoji !== emoji)` */
  function Without(rs: seq<Reaction>, emoji: string): (r: seq<Reaction>)
    ensures |r| <= |rs|
    ensures forall k :: 0 <= k < |r| ==> r[k].emoji != emoji
    ensures forall x :: x in r ==> x in rs
  {
    if |rs| == 0 then []
    else (if rs[0].emoji == emoji then [] else [rs[0]]) + Without(rs[1..], emoji)
  }

  /**
   * `splice(j, 1)` on the users of entry `i`, followed by the `filter` that drops the
   * entry's emoji when no user is left.
   */
  function RemoveUser(rs: seq<Reaction>, i: nat, j: nat): seq<Reaction>
    requires i < |rs| && j < |rs[i].userIds|
  {
    var us := rs[i].userIds;
    var updated := rs[i := rs[i].(userIds := us[..j] + us[j + 1..])];
    if |us| == 1 then Without(updated, rs[i].emoji) else updated
  }

  /** `push(userId)` on the users of entry `i`. */
  function AddUser(rs: seq<Reaction>, i: nat, userId: string): seq<Reaction>
    requires i < |rs|
  {
    rs[i := rs[i].(userIds := rs[i].userIds + [userId])]
  }

  /**
   * The toggle: when the user is already under the emoji, remove the first occurrence
   * (and drop the entry if it empties); when the emoji is present without the user,
   * append the user; when the emoji is absent, append `{emoji, [userId]}`.
   */
  function Toggled(rs: seq<Reaction>, emoji: string, userId: string): seq<Reaction>
  {
    match FindEmoji(rs, emoji)
    case None => rs + [Reaction(emoji, [userId])]
    case Some(i) =>
      var j := IndexOfUser(rs[i].userIds, userId);
      if j >= 0 then RemoveUser(rs, i, j) else AddUser(rs, i, userId)
  }

  // ---------------------------------------------------------------------------
  // Invariants of a reaction list
  // ---------------------------------------------------------------------------

  predicate NoDuplicates(us: seq<string>)
  {
    forall a, b :: 0 <= a < b < |us| ==> us[a] != us[b]
  }

  predicate UniqueEmojis(rs: seq<Reaction>)
  {
    forall a, b :: 0 <= a < b < |rs| ==> rs[a].emoji != rs[b].emoji
  }

  /** Emoji keys are unique, no entry is empty, and no user appears twice under one emoji. */
  predicate WellFormed(rs: seq<Reaction>)
  {
    && UniqueEmojis(rs)
    && forall k :: 0 <= k < |rs| ==> rs[k].userIds != [] && NoDuplicates(rs[k].userIds)
  }

  /** `userId` has reacted with `emoji`. */
  predicate Reacted(rs: seq<Reaction>, emoji: string, userId: string)
  {
    exists k :: 0 <= k < |rs| && rs[k].emoji == emoji && userId in rs[k].userIds
  }

  // ---------------------------------------------------------------------------
  // Helper facts
  // ---------------------------------------------------------------------------

  lemma FindEmojiAt(rs: seq<Reaction>, i: nat, emoji: string)
    requires i < |rs| && rs[i].emoji == emoji
    requires forall k :: 0 <= k < i ==> rs[k].emoji != emoji
    ensures FindEmoji(rs, emoji) == Some(i)
  {
  }

  lemma IndexOfUserAt(us: seq<string>, j: nat, u: string)
    requires j < |us| && us[j] == u
    requires forall k :: 0 <= k < j ==> us[k] != u
    ensures IndexOfUser(us, u) == j
  {
  }

  lemma {:induction false} WithoutAppend(a: seq<Reaction>, b: seq<Reaction>, emoji: string)
    ensures Without(a + b, emoji) == Without(a, emoji) + Without(b, emoji)
  {
    if |a| > 0 {
      assert (a + b)[1..] == a[1..] + b;
      WithoutAppend(a[1..], b, emoji);
    } else {
      assert a + b == b;
    }
  }

  lemma {:induction false} WithoutNoop(rs: seq<Reaction>, emoji: string)
    requires forall k :: 0 <= k < |rs| ==> rs[k].emoji != emoji
    ensures Without(rs, emoji) == rs
  {
    if |rs| > 0 {
      WithoutNoop(rs[1..], emoji);
    }
  }

  /** Rewriting an entry carrying `emoji` into another carrying it is invisible once those entries are filtered out. */
  lemma WithoutReplace(rs: seq<Reaction>, i: nat, x: Reaction, emoji: string)
    requires i < |rs| && rs[i].emoji == emoji && x.emoji == emoji
    ensures Without(rs[i := x], emoji) == Without(rs, emoji)
  {
    assert rs == rs[..i] + [rs[i]] + rs[i + 1..];
    assert rs[i := x] == rs[..i] + [x] + rs[i + 1..];
    WithoutAppend(rs[..i] + [rs[i]], rs[i + 1..], emoji);
    WithoutAppend(rs[..i], [rs[i]], emoji);
    WithoutAppend(rs[..i] + [x], rs[i + 1..], emoji);
    WithoutAppend(rs[..i], [x], emoji);
  }

  /** With unique keys, filtering an emoji out removes exactly its one entry. */
  lemma WithoutSingle(rs: seq<Reaction>, i: nat, emoji: string)
    requires i < |rs| && rs[i].emoji == emoji
    requires forall k :: 0 <= k < |rs| && k != i ==> rs[k].emoji != emoji
    ensures Without(rs, emoji) == rs[..i] + rs[i + 1..]
  {
    assert rs == rs[..i] + [rs[i]] + rs[i + 1..];
    WithoutAppend(rs[..i] + [rs[i]], rs[i + 1..], emoji);
    WithoutAppend(rs[..i], [rs[i]], emoji);
    WithoutNoop(rs[..i], emoji);
    WithoutNoop(rs[i + 1..], emoji);
  }

  lemma RemoveAtWellFormed(rs: seq<Reaction>, i: nat)
    requires WellFormed(rs) && i < |rs|
    ensures WellFormed(rs[..i] + rs[i + 1..])
  {
    var r := rs[..i] + rs[i + 1..];
    assert forall k :: 0 <= k < |r| ==> r[k] == rs[if k < i then k else k + 1];
  }

  lemma SpliceNoDuplicates(us: seq<string>, j: nat)
    requires NoDuplicates(us) && j < |us|
    ensures NoDuplicates(us[..j] + us[j + 1..])
    ensures us[j] !in us[..j] + us[j + 1..]
    ensures multiset(us[..j] + us[j + 1..]) == multiset(us) - multiset{us[j]}
  {
    var r := us[..j] + us[j + 1..];
    assert forall k :: 0 <= k < |r| ==> r[k] == us[if k < j then k else k + 1];
    assert us == us[..j] + [us[j]] + us[j + 1..];
  }

  lemma ReactedAt(rs: seq<Reaction>, i: nat, emoji: string, userId: string)
    requires UniqueEmojis(rs) && i < |rs| && rs[i].emoji == emoji
    ensures Reacted(rs, emoji, userId) <==> userId in rs[i].userIds
  {
  }

  // ---------------------------------------------------------------------------
  // Laws of the toggle
  // ---------------------------------------------------------------------------

  lemma AppendEntryWellFormed(rs: seq<Reaction>, x: Reaction)
    requires WellFormed(rs) && x.userIds != [] && NoDuplicates(x.userIds)
    requires forall k :: 0 <= k < |rs| ==> rs[k].emoji != x.emoji
    ensures WellFormed(rs + [x])
  {
    var r := rs + [x];
    assert forall k :: 0 <= k < |rs| ==> r[k] == rs[k];
  }

  lemma ReplaceUsersWellFormed(rs: seq<Reaction>, i: nat, us: seq<string>)
    requires WellFormed(rs) && i < |rs| && us != [] && NoDuplicates(us)
    ensures WellFormed(rs[i := rs[i].(userIds := us)])
  {
    var r := rs[i := rs[i].(userIds := us)];
    assert forall k :: 0 <= k < |rs| ==> r[k].emoji == rs[k].emoji;
  }

  /** Removing a user keeps the invariants; an emptied entry leaves and the rest closes up. */
  lemma RemoveUserWellFormed(rs: seq<Reaction>, i: nat, j: nat)
    requires WellFormed(rs) && i < |rs| && j < |rs[i].userIds|
    ensures WellFormed(RemoveUser(rs, i, j))
    ensures |rs[i].userIds| == 1 ==> RemoveUser(rs, i, j) == rs[..i] + rs[i + 1..]
  {
    var us := rs[i].userIds;
    SpliceNoDuplicates(us, j);
    var updated := rs[i := rs[i].(userIds := us[..j] + us[j + 1..])];
    if |us| == 1 {
      assert forall k :: 0 <= k < |updated| && k != i ==> updated[k].emoji != rs[i].emoji by {
        assert forall k :: 0 <= k < |rs| && k != i ==> updated[k] == rs[k];
      }
      WithoutSingle(updated, i, rs[i].emoji);
      assert updated[..i] == rs[..i];
      assert updated[i + 1..] == rs[i + 1..];
      RemoveAtWellFormed(rs, i);
    } else {
      ReplaceUsersWellFormed(rs, i, us[..j] + us[j + 1..]);
    }
  }

  /** Adding a user who is not yet there keeps the invariants. */
  lemma AddUserWellFormed(rs: seq<Reaction>, i: nat, userId: string)
    requires WellFormed(rs) && i < |rs| && userId !in rs[i].userIds
    ensures WellFormed(AddUser(rs, i, userId))
  {
    var us := rs[i].userIds;
    var grown := us + [userId];
    assert NoDuplicates(grown) by {
      assert forall k :: 0 <= k < |us| ==> grown[k] == us[k];
    }
    ReplaceUsersWellFormed(rs, i, grown);
  }

  /** The toggle keeps emoji keys unique, entries non-empty and users unduplicated. */
  lemma TogglePreservesWellFormed(rs: seq<Reaction>, emoji: string, userId: string)
    requires WellFormed(rs)
    ensures WellFormed(Toggled(rs, emoji, userId))
  {
    match FindEmoji(rs, emoji)
    case None =>
      AppendEntryWellFormed(rs, Reaction(emoji, [userId]));
    case Some(i) =>
      var j := IndexOfUser(rs[i].userIds, userId);
      if j >= 0 {
        RemoveUserWellFormed(rs, i, j);
      } else {
        AddUserWellFormed(rs, i, userId);
      }
  }

  /** Each toggle flips whether the user has reacted with the emoji. */
  lemma ToggleFlips(rs: seq<Reaction>, emoji: string, userId: string)
    requires WellFormed(rs)
    ensures Reacted(Toggled(rs, emoji, userId), emoji, userId) <==> !Reacted(rs, emoji, userId)
  {
    var t := Toggled(rs, emoji, userId);
    TogglePreservesWellFormed(rs, emoji, userId);
    match FindEmoji(rs, emoji)
    case None =>
      assert t[|rs|] == Reaction(emoji, [userId]);
    case Some(i) =>
      ReactedAt(rs, i, emoji, userId);
      var us := rs[i].userIds;
      var j := IndexOfUser(us, userId);
      if j >= 0 {
        SpliceNoDuplicates(us, j);
        RemoveUserWellFormed(rs, i, j);
        if |us| == 1 {
          assert forall k :: 0 <= k < |t| ==> t[k].emoji != emoji by {
            assert forall k :: 0 <= k < |t| ==> t[k] == rs[if k < i then k else k + 1];
          }
        } else {
          ReactedAt(t, i, emoji, userId);
        }
      } else {
        ReactedAt(t, i, emoji, userId);
      }
  }

  /** Starting from "not reacted", toggling twice restores the list exactly. */
  lemma ToggleInvolution(rs: seq<Reaction>, emoji: string, userId: string)
    requires WellFormed(rs) && !Reacted(rs, emoji, userId)
    ensures Toggled(Toggled(rs, emoji, userId), emoji, userId) == rs
  {
    match FindEmoji(rs, emoji)
    case None =>
      InvolutionFromAbsent(rs, emoji, userId);
    case Some(i) =>
      assert userId !in rs[i].userIds;
      InvolutionFromPresent(rs, emoji, userId, i);
  }

  lemma InvolutionFromAbsent(rs: seq<Reaction>, emoji: string, userId: string)
    requires FindEmoji(rs, emoji).None?
    ensures Toggled(Toggled(rs, emoji, userId), emoji, userId) == rs
  {
    var t := rs + [Reaction(emoji, [userId])];
    FindEmojiAt(t, |rs|, emoji);
    IndexOfUserAt([userId], 0, userId);
    var us := t[|rs|].userIds;
    assert us == [userId];
    assert us[..0] + us[1..] == [];
    var emptied := t[|rs| := t[|rs|].(userIds := [])];
    assert RemoveUser(t, |rs|, 0) == Without(emptied, emoji);
    assert emptied == rs + [Reaction(emoji, [])];
    WithoutAppend(rs, [Reaction(emoji, [])], emoji);
    WithoutNoop(rs, emoji);
  }

  lemma InvolutionFromPresent(rs: seq<Reaction>, emoji: string, userId: string, i: nat)
    requires FindEmoji(rs, emoji) == Some(i) && rs[i].userIds != [] && userId !in rs[i].userIds
    ensures Toggled(Toggled(rs, emoji, userId), emoji, userId) == rs
  {
    var us := rs[i].userIds;
    var grown := us + [userId];
    var t := AddUser(rs, i, userId);
    FindEmojiAt(t, i, emoji);
    IndexOfUserAt(grown, |us|, userId);
    assert grown[..|us|] + grown[|us| + 1..] == us;
    assert RemoveUser(t, i, |us|) == rs;
  }

  /** Entries for every other emoji, and their order, are untouched. */
  lemma ToggleOthersUntouched(rs: seq<Reaction>, emoji: string, userId: string)
    ensures Without(Toggled(rs, emoji, userId), emoji) == Without(rs, emoji)
  {
    match FindEmoji(rs, emoji)
    case None =>
      WithoutAppend(rs, [Reaction(emoji, [userId])], emoji);
    case Some(i) =>
      var us := rs[i].userIds;
      var j := IndexOfUser(us, userId);
      if j >= 0 {
        var updated := rs[i := rs[i].(userIds := us[..j] + us[j + 1..])];
        WithoutReplace(rs, i, updated[i], emoji);
        if |us| == 1 {
          WithoutNoop(Without(updated, emoji), emoji);
        }
      } else {
        WithoutReplace(rs, i, rs[i].(userIds := us + [userId]), emoji);
      }
  }

  /**
   * A user who has reacted loses exactly one occurrence under the emoji; if that was
   * the entry's last user, the entry itself disappears and the rest closes up.
   */
  lemma ToggleWhenReacted(rs: seq<Reaction>, emoji: string, userId: string, i: nat)
    requires WellFormed(rs) && i < |rs| && rs[i].emoji == emoji && userId in rs[i].userIds
    ensures var t := Toggled(rs, emoji, userId);
      && (|rs[i].userIds| == 1 ==> t == rs[..i] + rs[i + 1..])
      && (|rs[i].userIds| > 1 ==>
            && |t| == |rs| && t[i].emoji == emoji
            && multiset(t[i].userIds) == multiset(rs[i].userIds) - multiset{userId}
            && forall k :: 0 <= k < |rs| && k != i ==> t[k] == rs[k])
  {
    FindEmojiAt(rs, i, emoji);
    var us := rs[i].userIds;
    var j := IndexOfUser(us, userId);
    SpliceNoDuplicates(us, j);
    RemoveUserWellFormed(rs, i, j);
  }

  /** Saving the toggled list passes the schema (every emoji non-empty) exactly when the emoji is non-empty. */
  lemma ToggleValid(rs: seq<Reaction>, emoji: string, userId: string)
    requires ValidReactions(rs)
    ensures ValidReactions(Toggled(rs, emoji, userId)) <==> emoji != ""
  {
    match FindEmoji(rs, emoji)
    case None =>
      var t := rs + [Reaction(emoji, [userId])];
      assert t[|rs|].emoji == emoji;
      assert forall k :: 0 <= k < |rs| ==> t[k] == rs[k];
    case Some(i) =>
      assert ValidReaction(rs[i]);
      var j := IndexOfUser(rs[i].userIds, userId);
      if j >= 0 {
        RemoveUserValid(rs, i, j);
      } else {
        AddUserValid(rs, i, userId);
      }
  }

  lemma RemoveUserValid(rs: seq<Reaction>, i: nat, j: nat)
    requires ValidReactions(rs) && i < |rs| && j < |rs[i].userIds|
    ensures ValidReactions(RemoveUser(rs, i, j))
  {
    var us := rs[i].userIds;
    var updated := rs[i := rs[i].(userIds := us[..j] + us[j + 1..])];
    assert ValidReactions(updated) by {
      assert forall k :: 0 <= k < |rs| ==> updated[k].emoji == rs[k].emoji;
    }
    if |us| == 1 {
      var w := Without(updated, rs[i].emoji);
      forall k | 0 <= k < |w| ensures ValidReaction(w[k]) {
        assert w[k] in updated;
      }
    }
  }

  lemma AddUserValid(rs: seq<Reaction>, i: nat, userId: string)
    requires ValidReactions(rs) && i < |rs|
    ensures ValidReactions(AddUser(rs, i, userId))
  {
    var t := AddUser(rs, i, userId);
    assert forall k :: 0 <= k < |rs| ==> t[k].emoji == rs[k].emoji;
  }

  // ---------------------------------------------------------------------------
  // The step-by-step toggle and the wire projection
  // ---------------------------------------------------------------------------

  /** The `find` loop. */
  method FindReaction(rs: seq<Reaction>, emoji: string) returns (found: Option<nat>)
    ensures found == FindEmoji(rs, emoji)
  {
    var i := 0;
    while i < |rs|
      invariant 0 <= i <= |rs|
      invariant forall k :: 0 <= k < i ==> rs[k].emoji != emoji
    {
      if rs[i].emoji == emoji {
        FindEmojiAt(rs, i, emoji);
        return Some(i);
      }
      i := i + 1;
    }
    return None;
  }

  /** The `indexOf` loop. */
  method IndexOf(us: seq<string>, userId: string) returns (j: int)
    ensures j == IndexOfUser(us, userId)
  {
    var i := 0;
    while i < |us|
      invariant 0 <= i <= |us|
      invariant forall k :: 0 <= k < i ==> us[k] != userId
    {
      if us[i] == userId {
        IndexOfUserAt(us, i, userId);
        return i;
      }
      i := i + 1;
    }
    return -1;
  }

  /** The handler's update of the loaded `message.reactions`: splice, push or filter. */
  method ToggleReaction(reactions: seq<Reaction>, emoji: string, userId: string) returns (result: seq<Reaction>)
    ensures result == Toggled(reactions, emoji, userId)
  {
    result := reactions;
    var existing := FindReaction(result, emoji);
    if existing.Some? {
      var i := existing.value;
      var users := result[i].userIds;
      var userIndex := IndexOf(users, userId);
      if userIndex > -1 {
        users := users[..userIndex] + users[userIndex + 1..];
        result := result[i := result[i].(userIds := users)];
        if |users| == 0 {
          result := Without(result, emoji);
        }
      } else {
        result := result[i := result[i].(userIds := users + [userId])];
      }
    } else {
      result := result + [Reaction(emoji, [userId])];
    }
  }

  /** The projection to the wire shape: `userIds` is renamed `usersIds`, nothing else changes. */
  function Project(rs: seq<Reaction>): (w: seq<WireReaction>)
    ensures |w| == |rs|
    ensures forall k :: 0 <= k < |rs| ==> w[k].emoji == rs[k].emoji && w[k].usersIds == rs[k].userIds
  {
    seq(|rs|, k requires 0 <= k < |rs| => WireReaction(rs[k].emoji, rs[k].userIds))
  }

  /** Reading a wire list back into stored shape. */
  function Unproject(w: seq<WireReaction>): (rs: seq<Reaction>)
    ensures |rs| == |w|
  {
    seq(|w|, k requires 0 <= k < |w| => Reaction(w[k].emoji, w[k].usersIds))
  }

  /** The projection loses nothing. */
  lemma ProjectRoundTrip(rs: seq<Reaction>)
    ensures Unproject(Project(rs)) == rs
  {
  }
}
