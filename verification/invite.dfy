/** The invitation settings of a group
    (apps/web/components/chat/settings/invite.tsx): invitation links, the
    rows the panel shows, and how creating or deleting a private invitation
    rewrites the cached invitation list. */
module Invite {
  import opened Wrappers
  import opened Lists
  import opened QueryCache

  /** Where every invitation link points. */
  const InviteBase: string := "https://disclown.vercel.app/invite/"

  /** `getInviteUrl(code)` */
  function InviteUrl(code: string): (url: string)
    ensures InviteBase <= url
    ensures |url| == |InviteBase| + |code|
  {
    InviteBase + code
  }

  /** Reads the code back out of an invitation link. */
  function CodeOf(url: string): Option<string>
  {
    if InviteBase <= url then Some(url[|InviteBase|..]) else None
  }

  /** Every link gives back its code, so distinct codes give distinct links. */
  lemma InviteUrlRoundTrip(code: string)
    ensures CodeOf(InviteUrl(code)) == Some(code)
    ensures forall other: string :: InviteUrl(other) == InviteUrl(code) ==> other == code
  {
    forall other: string | InviteUrl(other) == InviteUrl(code) ensures other == code {
      assert CodeOf(InviteUrl(other)) == Some(other);
    }
  }

  /** The fields of a group the panel reads. */
  datatype Group = Group(id: int, unique_name: string, public: bool)

  /** A private invitation of a group. */
  datatype GroupInvite = GroupInvite(group_id: int, code: string)

  /** The public link: the group's unique name behind an "@". */
  function PublicInviteUrl(group: Group): (url: string)
    ensures CodeOf(url) == Some("@" + group.unique_name)
  {
    InviteUrlRoundTrip("@" + group.unique_name);
    InviteUrl("@" + group.unique_name)
  }

  /** The link copied for a private invitation: its code. */
  function PrivateInviteUrl(invite: GroupInvite): (url: string)
    ensures CodeOf(url) == Some(invite.code)
  {
    InviteUrlRoundTrip(invite.code);
    InviteUrl(invite.code)
  }

  /** A public link never equals a private link whose code does not start
      with "@". */
  lemma PublicAndPrivateLinksDiffer(group: Group, invite: GroupInvite)
    requires invite.code == "" || invite.code[0] != '@'
    ensures PublicInviteUrl(group) != PrivateInviteUrl(invite)
  {
    var name := "@" + group.unique_name;
    assert name[0] == '@';
    assert name != invite.code;
    InviteUrlRoundTrip(name);
  }

  /** The create updater: `prev != null ? [...prev, data] : prev`. */
  function AfterCreate(prev: Option<seq<GroupInvite>>, created: GroupInvite): (next: Option<seq<GroupInvite>>)
    ensures next.Some? <==> prev.Some?
    ensures next.Some? ==>
      |next.value| == |prev.value| + 1 && next.value[..|prev.value|] == prev.value
      && next.value[|prev.value|] == created
  {
    if prev.Some? then Some(prev.value + [created]) else prev
  }

  /** `invite.code !== code` */
  function CodeIsNot(code: string): GroupInvite -> bool
  {
    (invite: GroupInvite) => invite.code != code
  }

  /** The delete updater: `prev?.filter((invite) => invite.code !== code)`. */
  function AfterDelete(prev: Option<seq<GroupInvite>>, code: string): (next: Option<seq<GroupInvite>>)
    ensures next.Some? <==> prev.Some?
  {
    if prev.Some? then Some(Filter(prev.value, CodeIsNot(code))) else None
  }

  /** Deleting keeps exactly the invitations with another code, in their
      order, and leaves none with the deleted code. */
  lemma AfterDeleteSpec(prev: seq<GroupInvite>, code: string)
    ensures var next := AfterDelete(Some(prev), code).value;
      && (forall i :: 0 <= i < |next| ==> next[i].code != code)
      && (forall x :: x in next <==> x in prev && x.code != code)
      && (forall a, b :: prev == a + b ==>
            next == AfterDelete(Some(a), code).value + AfterDelete(Some(b), code).value)
  {
    var next := AfterDelete(Some(prev), code).value;
    forall x | x in next ensures x in prev && x.code != code {
      var i :| 0 <= i < |next| && next[i] == x;
    }
    forall x | x in prev && x.code != code ensures x in next {
      var i :| 0 <= i < |prev| && prev[i] == x;
    }
    forall a, b | prev == a + b
      ensures next == AfterDelete(Some(a), code).value + AfterDelete(Some(b), code).value
    {
      FilterAppend(a, b, CodeIsNot(code));
    }
  }

  /** Deleting an invitation just created, whose code was not yet in use,
      restores the list that was cached before. */
  lemma {:induction false} DeleteUndoesCreate(prev: seq<GroupInvite>, created: GroupInvite)
    requires forall i :: 0 <= i < |prev| ==> prev[i].code != created.code
    ensures AfterDelete(AfterCreate(Some(prev), created), created.code) == Some(prev)
  {
    var keep := CodeIsNot(created.code);
    assert AfterCreate(Some(prev), created).value == prev + [created];
    FilterAppend(prev, [created], keep);
    FilterKeepsAll(prev, keep);
    assert !keep(created);
    assert [created][1..] == [];
    assert Filter([created], keep) == [];
    assert Filter(prev + [created], keep) == prev;
    assert AfterDelete(Some(prev + [created]), created.code) == Some(Filter(prev + [created], keep));
  }

  /** A row of the panel: the public link, or a private invitation's code
      with its link. */
  datatype InviteRow = PublicRow(url: string) | PrivateRow(code: string, link: string)

  /** The rows of the panel for `group`, given the cached invitations. */
  function Rows(group: Group, invites: Option<seq<GroupInvite>>): (rows: seq<InviteRow>)
    ensures group.public ==> |rows| >= 1 && rows[0] == PublicRow(PublicInviteUrl(group))
    ensures forall i :: 0 <= i < |rows| && rows[i].PublicRow? ==> i == 0 && group.public
    ensures var offset := if group.public then 1 else 0;
      && |rows| == offset + (if invites.Some? then |invites.value| else 0)
      && forall i :: 0 <= i < |rows| - offset ==>
           rows[offset + i] == PrivateRow(invites.value[i].code, PrivateInviteUrl(invites.value[i]))
  {
    var public := if group.public then [PublicRow(PublicInviteUrl(group))] else [];
    var private := if invites.Some? then PrivateRows(invites.value) else [];
    public + private
  }

  function PrivateRows(invites: seq<GroupInvite>): (rows: seq<InviteRow>)
    ensures |rows| == |invites|
    ensures forall i :: 0 <= i < |rows| ==> rows[i] == PrivateRow(invites[i].code, PrivateInviteUrl(invites[i]))
  {
    seq(|invites|, i requires 0 <= i < |invites| => PrivateRow(invites[i].code, PrivateInviteUrl(invites[i])))
  }

  /** The create mutation's success handler for the group's cache entry. */
  method OnCreated(cache: Cache<GroupInvite>, groupId: int, created: GroupInvite)
    modifies cache
    ensures groupId in old(cache.entries) ==>
      cache.entries == old(cache.entries)[groupId := AfterCreate(Some(old(cache.entries)[groupId]), created).value]
    ensures groupId !in old(cache.entries) ==> cache.entries == old(cache.entries)
  {
    cache.SetData(groupId, (prev: Option<seq<GroupInvite>>) => AfterCreate(prev, created));
  }

  /** The delete mutation's success handler for the group's cache entry. */
  method OnDeleted(cache: Cache<GroupInvite>, groupId: int, code: string)
    modifies cache
    ensures groupId in old(cache.entries) ==>
      cache.entries == old(cache.entries)[groupId := AfterDelete(Some(old(cache.entries)[groupId]), code).value]
    ensures groupId !in old(cache.entries) ==> cache.entries == old(cache.entries)
  {
    cache.SetData(groupId, (prev: Option<seq<GroupInvite>>) => AfterDelete(prev, code));
  }
}
