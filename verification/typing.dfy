/** The list of users currently typing in a chat
    (apps/web/components/chat/TypingIndicator.tsx). Times are integer
    milliseconds; the interval timer becomes an explicit `Prune(now)`. */
module Typing {
  import opened Wrappers
  import opened Lists
  import opened Users
  import Avatar

  /** `TypingData`: who is typing, and when the notice arrived. */
  datatype TypingData = TypingData(user: UserInfo, timestamp: int)

  /** How long a typing notice stays visible. */
  const InactivityMs: int := 5000

  /** `prev.some((u) => u.user.id === id)` */
  predicate HasUser(s: seq<TypingData>, id: string)
  {
    exists i :: 0 <= i < |s| && s[i].user.id == id
  }

  /** The updater `add` passes to `setTyping`. */
  function Added(prev: seq<TypingData>, data: TypingData): (r: seq<TypingData>)
    ensures prev <= r && |r| <= |prev| + 1
    ensures HasUser(r, data.user.id)
  {
    if HasUser(prev, data.user.id) then prev
    else
      assert (prev + [data])[|prev|] == data;
      prev + [data]
  }

  /** The filter predicate of a timer tick at `now`: stamped no earlier than
      `now - 5000`. */
  function Recent(now: int): TypingData -> bool
  {
    (d: TypingData) => d.timestamp >= now - InactivityMs
  }

  /** The updater a timer tick at `now` passes to `setTyping`. */
  function Pruned(prev: seq<TypingData>, now: int): (r: seq<TypingData>)
    ensures |r| <= |prev|
    ensures forall i :: 0 <= i < |r| ==> r[i] in prev && r[i].timestamp >= now - InactivityMs
  {
    Filter(prev, Recent(now))
  }

  function UserId(d: TypingData): string { d.user.id }

  /** No user appears twice. */
  ghost predicate UniqueUsers(s: seq<TypingData>)
  {
    UniqueBy(s, UserId)
  }

  /** The state `useTypingStatus` holds. */
  class TypingStatus {
    var typing: seq<TypingData>

    ghost predicate Valid()
      reads this
    {
      UniqueUsers(typing)
    }

    constructor ()
      ensures Valid() && typing == []
    {
      typing := [];
    }

    /** `add(user)` at time `now`. */
    method Add(user: UserInfo, now: int)
      requires Valid()
      modifies this
      ensures Valid()
      ensures typing == Added(old(typing), TypingData(user, now))
    {
      AddedKeepsUsersUnique(typing, TypingData(user, now));
      typing := Added(typing, TypingData(user, now));
    }

    /** One tick of the interval timer at time `now`. */
    method Prune(now: int)
      requires Valid()
      modifies this
      ensures Valid()
      ensures typing == Pruned(old(typing), now)
    {
      FilterUnique(typing, Recent(now), UserId);
      typing := Pruned(typing, now);
    }
  }

  /** Adding never duplicates a user. */
  lemma AddedKeepsUsersUnique(prev: seq<TypingData>, data: TypingData)
    requires UniqueUsers(prev)
    ensures UniqueUsers(Added(prev, data))
  {
    if !HasUser(prev, data.user.id) {
      var r := prev + [data];
      forall i, j | 0 <= i < j < |r| ensures UserId(r[i]) != UserId(r[j]) {
        if j == |prev| {
          assert r[i] == prev[i];
        }
      }
    }
  }

  /** A new user is appended, stamped with the current time, after the
      untouched earlier entries; a user already present leaves the list as is,
      with the old timestamp. */
  lemma AddedEffect(prev: seq<TypingData>, user: UserInfo, now: int)
    ensures HasUser(prev, user.id) ==> Added(prev, TypingData(user, now)) == prev
    ensures !HasUser(prev, user.id) ==>
      var r := Added(prev, TypingData(user, now));
      |r| == |prev| + 1 && r[..|prev|] == prev && r[|prev|] == TypingData(user, now)
    ensures HasUser(Added(prev, TypingData(user, now)), user.id)
  {
    if !HasUser(prev, user.id) {
      var r := prev + [TypingData(user, now)];
      assert r[|prev|].user.id == user.id;
    }
  }

  /** A tick keeps exactly the entries stamped at or after `now - 5000`, in
      their order, and adds none. */
  lemma PrunedKeepsExactlyRecent(prev: seq<TypingData>, now: int)
    ensures |Pruned(prev, now)| <= |prev|
    ensures forall d :: d in Pruned(prev, now) <==> d in prev && d.timestamp >= now - InactivityMs
    ensures forall a, b :: Pruned(a + b, now) == Pruned(a, now) + Pruned(b, now)
  {
    var r := Pruned(prev, now);
    forall d | d in r ensures d in prev && d.timestamp >= now - InactivityMs {
      var i :| 0 <= i < |r| && r[i] == d;
    }
    forall d | d in prev && d.timestamp >= now - InactivityMs ensures d in r {
      var i :| 0 <= i < |prev| && prev[i] == d;
    }
    forall a, b ensures Pruned(a + b, now) == Pruned(a, now) + Pruned(b, now) {
      FilterAppend(a, b, Recent(now));
    }
  }

  /** A notice added at time `t` survives every tick up to `t + 5000`
      inclusive. */
  lemma PrunedKeepsFreshAdd(prev: seq<TypingData>, user: UserInfo, t: int, now: int)
    requires !HasUser(prev, user.id)
    requires now <= t + InactivityMs
    ensures TypingData(user, t) in Pruned(Added(prev, TypingData(user, t)), now)
  {
    var r := Added(prev, TypingData(user, t));
    assert r[|prev|] == TypingData(user, t);
  }

  /** Two ticks at the same `now` are one tick. */
  lemma PruneIdempotent(prev: seq<TypingData>, now: int)
    ensures Pruned(Pruned(prev, now), now) == Pruned(prev, now)
  {
    FilterIdempotent(prev, Recent(now));
  }

  /** `TypingIndicator`: nothing for an empty list; otherwise one small
      avatar per entry, showing the user's image and initials. */
  function Indicator(typing: seq<TypingData>): (avatars: Option<seq<Avatar.AvatarView>>)
    ensures avatars.None? <==> typing == []
    ensures avatars.Some? ==> |avatars.value| == |typing|
    ensures avatars.Some? ==> forall i :: 0 <= i < |typing| ==>
      avatars.value[i] == Avatar.Render(typing[i].user.image, Some(typing[i].user.name), None, Some(Avatar.Small))
  {
    if |typing| == 0 then None
    else Some(seq(|typing|, i requires 0 <= i < |typing| =>
      Avatar.Render(typing[i].user.image, Some(typing[i].user.name), None, Some(Avatar.Small))))
  }

  /** The avatar of entry `i` shows that user's image, if any, with the
      user's name as alternative text, and the first initial of the name. */
  lemma IndicatorAvatars(typing: seq<TypingData>, i: int)
    requires 0 <= i < |typing|
    ensures var v := Indicator(typing).value[i];
      var user := typing[i].user;
      var initials := Avatar.WordStarts(user.name, true);
      && (v.image.Some? <==> user.image.Some?)
      && (v.image.Some? ==> v.image.value.src == user.image.value && v.image.value.alt == user.name)
      && v.text == Some(if |initials| > 0 then initials[..1] else "")
  {
    Avatar.FallbackTextSpec(Some(typing[i].user.name), Some(Avatar.Small));
  }
}
