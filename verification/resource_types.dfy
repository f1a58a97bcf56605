/** The connector's resource types and entitlement names: four types, each
    with one trait, and the two entitlement slugs the drivers use. */
module ResourceTypes {

  datatype TraitKind = TraitUser | TraitGroup | TraitRole

  datatype ResourceType = ResourceType(id: string, displayName: string, traits: seq<TraitKind>)

  const UserType: ResourceType := ResourceType("user", "User", [TraitUser])
  const GroupType: ResourceType := ResourceType("group", "Group", [TraitGroup])
  const ContactGroupType: ResourceType := ResourceType("contactGroup", "Contact Group", [TraitGroup])
  const RoleType: ResourceType := ResourceType("role", "Role", [TraitRole])

  const MemberEntitlement: string := "member"
  const AdminEntitlement: string := "admin"

  /** The resource types the connector declares: user, group, contact group
      and role, with distinct ids and exactly one trait each. */
  function AllResourceTypes(): (r: seq<ResourceType>)
    ensures |r| == 4
    ensures forall i, j :: 0 <= i < j < |r| ==> r[i].id != r[j].id
    ensures forall i :: 0 <= i < |r| ==> |r[i].traits| == 1
    ensures forall i :: 0 <= i < |r| ==> r[i].id in {"user", "group", "contactGroup", "role"}
    ensures forall i :: 0 <= i < |r| ==>
              (r[i].traits == [TraitUser] <==> r[i].id == "user")
              && (r[i].traits == [TraitRole] <==> r[i].id == "role")
              && (r[i].traits == [TraitGroup] <==> r[i].id in {"group", "contactGroup"})
  {
    [UserType, GroupType, ContactGroupType, RoleType]
  }
}
