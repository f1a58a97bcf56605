/** The contact-group resource type: mapping a Zoom contact group, the
    paginated List, the single "member" entitlement, and the paginated Grants,
    whose members are users or groups according to a type discriminant. */
module ContactGroups {
  import opened Base
  import opened Models
  import opened Sdk
  import opened Client
  import opened Pagination
  import opened Paging
  import opened ResourceTypes
  import opened Users
  import opened Groups

  /** `contactGroupResource`: keyed by the contact group's id and named by its
      name, with exactly the profile keys group_name and group_id. */
  function ContactGroupResource(g: ContactGroup, parent: Option<ResourceId>): (r: Resource)
    ensures r.id == ResourceId(ContactGroupType.id, g.id)
    ensures r.displayName == g.name
    ensures r.profile.Keys == {"group_name", "group_id"}
    ensures r.profile["group_name"] == g.name && r.profile["group_id"] == g.id
    ensures r.traits == GroupTrait && r.parent == parent
  {
    Resource(ResourceId(ContactGroupType.id, g.id), g.name, map["group_name" := g.name, "group_id" := g.id],
             GroupTrait, parent)
  }

  const ContactGroupFrame: ResourceId := ResourceId(ContactGroupType.id, "")

  /** Contact-group `List`: one page, one resource per contact group in order;
      the cursor is empty exactly when the server reported no further page;
      any failure yields no resources and an empty cursor. */
  function ContactGroupList(codec: CursorCodec, token: string, parent: Option<ResourceId>,
                            up: Upstream<Envelope<ContactGroup>>): (r: Listing<Resource>)
    ensures r.err.None? <==> Served(codec, token, ContactGroupFrame, up)
    ensures r.err.Some? ==> r.items == [] && r.cursor == "" && r.annos == []
    ensures r.err.None? ==>
              var groups := GetPage(up, RequestedPage(codec, token, ContactGroupFrame));
              && |r.items| == |groups.records|
              && (forall i :: 0 <= i < |r.items| ==> r.items[i] == ContactGroupResource(groups.records[i], parent))
              && (NonEmptyCursors(codec) ==> (r.cursor == "" <==> groups.next == ""))
  {
    PagedList(codec, token, ContactGroupFrame, up, (g: ContactGroup) => ContactGroupResource(g, parent))
  }

  /** Contact-group `Entitlements`: a single "member" assignment, grantable to
      users and to groups. */
  function ContactGroupEntitlements(res: Resource): (r: Listing<Entitlement>)
    ensures |r.items| == 1
    ensures r.items[0].resource == res.id && r.items[0].slug == MemberEntitlement
    ensures r.items[0].purpose == Assignment && r.items[0].grantableTo == [UserType.id, GroupType.id]
    ensures r.cursor == "" && r.annos == [] && r.err.None?
  {
    var en := Entitlement(res.id, MemberEntitlement, Assignment, [UserType.id, GroupType.id],
                          res.displayName + " group " + MemberEntitlement, "Zoom " + res.displayName + " group");
    Listing([en], "", [], None)
  }

  /** The kind of principal a member record stands for, decided once. */
  datatype PrincipalKind = UserPrincipal | GroupPrincipal

  /** Type 1 is a user; every other value, not only 2, is taken for a group. */
  function KindOf(m: GroupMember): (k: PrincipalKind)
    ensures k == UserPrincipal <==> m.memberType == 1
  {
    if m.memberType == 1 then UserPrincipal else GroupPrincipal
  }

  /** The principal of a member: the id of the user resource or of the group
      resource the member record is mapped to, scoped under the contact group. */
  function MemberPrincipal(res: Resource, m: GroupMember): (p: ResourceId)
  {
    match KindOf(m)
    case UserPrincipal => UserResource(User(m.id, "", "", "", "", 0, m.name, "", ""), Some(res.id)).id
    case GroupPrincipal => GroupResource(Group(m.id, m.name), Some(res.id)).id
  }

  /** The "member" grant on the contact group for one member record. */
  function MemberGrant(res: Resource, m: GroupMember): (g: Grant)
    ensures g.target == res.id && g.entitlement == MemberEntitlement
    ensures g.principal.resource == m.id
    ensures g.principal.resourceType == UserType.id <==> m.memberType == 1
    ensures g.principal.resourceType == GroupType.id <==> m.memberType != 1
  {
    Grant(res.id, MemberEntitlement, MemberPrincipal(res, m))
  }

  /** Two member records get the same grant exactly when they have the same
      id and the same kind: a user member and a group member that share an id
      are granted separately. */
  lemma MemberGrantKeyed(res: Resource, m: GroupMember, n: GroupMember)
    ensures MemberGrant(res, m) == MemberGrant(res, n) <==> m.id == n.id && KindOf(m) == KindOf(n)
  {
  }

  /** Two contact groups map to the same resource id exactly when their ids agree. */
  lemma ContactGroupResourceKeyed(g: ContactGroup, h: ContactGroup, p: Option<ResourceId>, q: Option<ResourceId>)
    ensures ContactGroupResource(g, p).id == ContactGroupResource(h, q).id <==> g.id == h.id
  {
  }

  /** Contact-group listing keys its resources as the upstream keys its
      contact groups. */
  lemma ContactGroupListKeys(codec: CursorCodec, token: string, parent: Option<ResourceId>,
                             up: Upstream<Envelope<ContactGroup>>)
    ensures var r := ContactGroupList(codec, token, parent, up);
            var groups := GetPage(up, RequestedPage(codec, token, ContactGroupFrame)).records;
            r.err.None? ==>
              forall i, j :: 0 <= i < |r.items| && 0 <= j < |r.items| ==>
                (r.items[i].id == r.items[j].id <==> groups[i].id == groups[j].id)
  {
  }

  /** A "member" grant on the contact group to a user or a group is one the
      contact group's entitlement supports. */
  lemma ContactGroupSupportsMemberGrant(res: Resource, g: Grant)
    requires g.target == res.id && g.entitlement == MemberEntitlement
    requires g.principal.resourceType == UserType.id || g.principal.resourceType == GroupType.id
    ensures Supported(ContactGroupEntitlements(res).items, g)
  {
    assert ContactGroupEntitlements(res).items[0].slug == g.entitlement;
  }

  /** Contact-group `Grants`: one page of members, exactly one "member" grant
      per member record, in order, all on this contact group; the cursor is
      empty exactly when the server reported no further page; any failure
      yields no grants and an empty cursor. */
  function ContactGroupGrants(codec: CursorCodec, token: string, res: Resource, up: Upstream<Envelope<GroupMember>>)
    : (r: Listing<Grant>)
    ensures r.err.None? <==> Served(codec, token, ContactGroupFrame, up)
    ensures r.err.Some? ==> r.items == [] && r.cursor == "" && r.annos == []
    ensures r.err.None? ==>
              var members := GetPage(up, RequestedPage(codec, token, ContactGroupFrame));
              && |r.items| == |members.records|
              && (forall i :: 0 <= i < |r.items| ==> r.items[i] == MemberGrant(res, members.records[i]))
              && (NonEmptyCursors(codec) ==> (r.cursor == "" <==> members.next == ""))
    ensures forall i :: 0 <= i < |r.items| ==> Supported(ContactGroupEntitlements(res).items, r.items[i])
  {
    var r := PagedList(codec, token, ContactGroupFrame, up, (m: GroupMember) => MemberGrant(res, m));
    forall i | 0 <= i < |r.items|
      ensures Supported(ContactGroupEntitlements(res).items, r.items[i])
    {
      ContactGroupSupportsMemberGrant(res, r.items[i]);
    }
    r
  }

  /** A page holding one user member and one group member yields exactly one
      user-principal grant and one group-principal grant. */
  lemma MixedMembersSplit(res: Resource)
    ensures var gs := MapAll([GroupMember("u1", "Ann", 1), GroupMember("g1", "Ops", 2)],
                             (m: GroupMember) => MemberGrant(res, m));
            && |gs| == 2
            && gs[0].principal == ResourceId(UserType.id, "u1")
            && gs[1].principal == ResourceId(GroupType.id, "g1")
  {
  }
}
