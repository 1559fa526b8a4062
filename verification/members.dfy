/** The member list of a group's settings
    (apps/web/components/chat/settings/members.tsx): who may be kicked, the
    rows shown, and how a kick rewrites the cached member list. */
module Members {
  import opened Wrappers
  import opened Lists
  import opened Users
  import opened QueryCache
  import Avatar

  /** A membership row joined with the member's public profile. */
  datatype Member = Member(group_id: int, user_id: string, user: UserInfo)

  /** `isAdmin && member.user_id !== data?.user.id`: `sessionUser` is the
      signed-in user's id, absent while there is no session data. */
  function CanKick(isAdmin: bool, sessionUser: Option<string>, member: Member): (b: bool)
    ensures b ==> isAdmin
    ensures b && sessionUser.Some? ==> member.user_id != sessionUser.value
  {
    isAdmin && (sessionUser.None? || member.user_id != sessionUser.value)
  }

  /** Only an administrator kicks, and never themself; with no session data
      an administrator may kick everyone. */
  lemma CanKickSpec(isAdmin: bool, sessionUser: Option<string>, member: Member)
    ensures !isAdmin ==> !CanKick(isAdmin, sessionUser, member)
    ensures isAdmin && sessionUser.Some? ==>
      (CanKick(isAdmin, sessionUser, member) <==> member.user_id != sessionUser.value)
    ensures isAdmin && sessionUser.None? ==> CanKick(isAdmin, sessionUser, member)
  {
  }

  /** `member.user_id !== userId` */
  function UserIsNot(userId: string): Member -> bool
  {
    (member: Member) => member.user_id != userId
  }

  /** The kick updater: `prev?.filter((member) => member.user_id !== userId)`. */
  function AfterKick(prev: Option<seq<Member>>, userId: string): (next: Option<seq<Member>>)
    ensures next.Some? <==> prev.Some?
  {
    if prev.Some? then Some(Filter(prev.value, UserIsNot(userId))) else None
  }

  /** A kick removes exactly the entries of the kicked user and keeps the
      others in their order; kicking twice is kicking once. */
  lemma AfterKickSpec(prev: seq<Member>, userId: string)
    ensures var next := AfterKick(Some(prev), userId).value;
      && (forall i :: 0 <= i < |next| ==> next[i].user_id != userId)
      && (forall m :: m in next <==> m in prev && m.user_id != userId)
      && (forall a, b :: prev == a + b ==>
            next == AfterKick(Some(a), userId).value + AfterKick(Some(b), userId).value)
      && AfterKick(Some(next), userId) == Some(next)
  {
    var next := AfterKick(Some(prev), userId).value;
    forall m | m in next ensures m in prev && m.user_id != userId {
      var i :| 0 <= i < |next| && next[i] == m;
    }
    forall m | m in prev && m.user_id != userId ensures m in next {
      var i :| 0 <= i < |prev| && prev[i] == m;
    }
    forall a, b | prev == a + b
      ensures next == AfterKick(Some(a), userId).value + AfterKick(Some(b), userId).value
    {
      FilterAppend(a, b, UserIsNot(userId));
    }
    FilterIdempotent(prev, UserIsNot(userId));
  }

  /** A kick of someone not in the list changes nothing. */
  lemma KickOfNonMember(prev: seq<Member>, userId: string)
    requires forall i :: 0 <= i < |prev| ==> prev[i].user_id != userId
    ensures AfterKick(Some(prev), userId) == Some(prev)
  {
    FilterKeepsAll(prev, UserIsNot(userId));
  }

  /** One member row: the avatar, the name, and whether a Kick button shows. */
  datatype MemberItem = MemberItem(user_id: string, avatar: Avatar.AvatarView, name: string, kick: bool)

  /** What the panel shows: placeholders while loading, else the rows. */
  datatype MembersView = Skeleton | Items(items: seq<MemberItem>)

  function Item(isAdmin: bool, sessionUser: Option<string>, member: Member): MemberItem
  {
    MemberItem(member.user_id,
      Avatar.Render(member.user.image, Some(member.user.name), Some("avatar"), Some(Avatar.TwoSm)),
      member.user.name,
      CanKick(isAdmin, sessionUser, member))
  }

  /** `Members({ group, isAdmin })`, given the query's loading flag and data. */
  function Render(isAdmin: bool, sessionUser: Option<string>, isLoading: bool, data: Option<seq<Member>>): (v: MembersView)
    ensures v.Skeleton? <==> isLoading
    ensures v.Items? ==> |v.items| == (if data.Some? then |data.value| else 0)
    ensures v.Items? ==> forall i :: 0 <= i < |v.items| ==>
      && v.items[i].user_id == data.value[i].user_id
      && v.items[i].name == data.value[i].user.name
      && (v.items[i].kick <==> isAdmin && Some(data.value[i].user_id) != sessionUser)
      && (v.items[i].avatar.image.Some? <==> data.value[i].user.image.Some?)
  {
    if isLoading then Skeleton
    else if data.None? then Items([])
    else Items(seq(|data.value|, i requires 0 <= i < |data.value| => Item(isAdmin, sessionUser, data.value[i])))
  }

  /** An administrator's own row never offers a Kick button, and a
      non-administrator's list offers none at all. */
  lemma KickButtons(isAdmin: bool, sessionUser: Option<string>, data: seq<Member>)
    ensures var v := Render(isAdmin, sessionUser, false, Some(data));
      && (!isAdmin ==> forall i :: 0 <= i < |v.items| ==> !v.items[i].kick)
      && (sessionUser.Some? ==> forall i :: 0 <= i < |v.items| && v.items[i].user_id == sessionUser.value ==> !v.items[i].kick)
  {
  }

  /** The kick mutation's success handler for the group's cache entry. */
  method OnKicked(cache: Cache<Member>, groupId: int, userId: string)
    modifies cache
    ensures groupId in old(cache.entries) ==>
      cache.entries == old(cache.entries)[groupId := AfterKick(Some(old(cache.entries)[groupId]), userId).value]
    ensures groupId !in old(cache.entries) ==> cache.entries == old(cache.entries)
  {
    cache.SetData(groupId, (prev: Option<seq<Member>>) => AfterKick(prev, userId));
  }
}
