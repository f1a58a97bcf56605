/** The connector as the platform sees it: its account-creation schema, the
    credential check `Validate`, and the resource syncers it registers. */
module Connector {
  import opened Base
  import opened Http
  import opened Models
  import opened Client
  import opened ResourceTypes
  import opened Users

  /** One field of the account-creation schema (all of them are string fields). */
  datatype SchemaField = SchemaField(displayName: string, required: bool, description: string,
                                     placeholder: string, order: int)

  /** The account-creation schema of `Metadata`: e-mail, first name, last
      name and display name, all required, in that order; these are exactly
      the fields account creation checks, in the order it checks them. */
  function AccountCreationSchema(): (m: map<string, SchemaField>)
    ensures m.Keys == set i | 0 <= i < |RequiredFields| :: RequiredFields[i]
    ensures forall i :: 0 <= i < |RequiredFields| ==>
              RequiredFields[i] in m && m[RequiredFields[i]].required && m[RequiredFields[i]].order == i + 1
  {
    var m := map[
      "email" := SchemaField("Email", true, "This email will be used as the login for the user.",
                             "john.doe@example.com", 1),
      "first_name" := SchemaField("First Name", true, "First name of the person who will own the user.",
                                  "John", 2),
      "last_name" := SchemaField("Last Name", true, "Last name of the person who will own the user.",
                                 "Doe", 3),
      "display_name" := SchemaField("Display Name", true,
                                    "This is the name that will be displayed on the new account.", "John Doe", 4)];
    assert RequiredFields == ["email", "first_name", "last_name", "display_name"];
    assert m.Keys == set i | 0 <= i < |RequiredFields| :: RequiredFields[i] by {
      forall k | k in m.Keys ensures k in set i | 0 <= i < |RequiredFields| :: RequiredFields[i] {
        if k == "email" { assert RequiredFields[0] == k; }
        else if k == "first_name" { assert RequiredFields[1] == k; }
        else if k == "last_name" { assert RequiredFields[2] == k; }
        else { assert RequiredFields[3] == k; }
      }
    }
    m
  }

  /** A profile passes account-creation validation exactly when it fills
      every field the schema marks required. */
  lemma SchemaMatchesValidation(p: map<string, ProfileValue>)
    ensures CreateNewUserInfo(p).Ok? <==>
            forall k :: k in AccountCreationSchema() && AccountCreationSchema()[k].required ==> Filled(p, k)
  {
  }

  /** `Validate`: the credentials are usable when the "me" user can be fetched
      and its role is not "member" (every scope the connector needs is an
      admin's). */
  function Validate(me: Upstream<User>): (r: Option<Error>)
    ensures r.None? <==> GetUser(me).Ok? && GetUser(me).value.1.roleName != "member"
    ensures GetUser(me).Err? ==> r == Some(CurrentUserUnavailable(GetUser(me).error))
    ensures GetUser(me).Ok? && GetUser(me).value.1.roleName == "member" ==> r == Some(NotAdmin)
  {
    match GetUser(me)
    case Err(e) => Some(CurrentUserUnavailable(e))
    case Ok((_, u)) => if u.roleName == "member" then Some(NotAdmin) else None
  }

  /** An empty 200 answer to the "me" request leaves the user at its zero
      value, whose role is not "member": validation passes. */
  lemma ValidateAcceptsEmptyAnswer()
    ensures Validate(Upstream((q: Query) => Ok(HttpResponse(200, map[], "")), (s: string) => None)) == None
  {
  }

  /** Any answer of 400 or more to the "me" request fails validation with
      that status and body as the cause. */
  lemma ValidateRejectsErrorStatus(me: Upstream<User>)
    requires me.transport([]).Ok? && me.transport([]).value.status >= 400
    ensures Validate(me) == Some(CurrentUserUnavailable(StatusFailure(me.transport([]).value.status,
                                                                      me.transport([]).value.body)))
  {
  }

  /** The syncers the connector registers, one per resource type. */
  datatype Syncer = UserSyncer | GroupSyncer | RoleSyncer | ContactGroupSyncer

  function SyncerType(s: Syncer): ResourceType
  {
    match s
    case UserSyncer => UserType
    case GroupSyncer => GroupType
    case RoleSyncer => RoleType
    case ContactGroupSyncer => ContactGroupType
  }

  /** `ResourceSyncers`: four syncers in the order user, group, role, contact
      group, one for each declared resource type. */
  function ResourceSyncers(): (r: seq<Syncer>)
    ensures |r| == 4
    ensures SyncerType(r[0]).id == "user" && SyncerType(r[1]).id == "group"
    ensures SyncerType(r[2]).id == "role" && SyncerType(r[3]).id == "contactGroup"
    ensures forall t :: t in AllResourceTypes() <==> exists i :: 0 <= i < |r| && SyncerType(r[i]) == t
  {
    var r := [UserSyncer, GroupSyncer, RoleSyncer, ContactGroupSyncer];
    assert SyncerType(r[0]) == UserType && SyncerType(r[1]) == GroupType;
    assert SyncerType(r[2]) == RoleType && SyncerType(r[3]) == ContactGroupType;
    r
  }
}
