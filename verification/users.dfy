/** The user resource type: mapping a Zoom user to a resource, the paginated
    List, account creation with its profile validation, and deletion with its
    post-delete existence check. Users offer no entitlements and carry no
    grants. */
module Users {
  import opened Base
  import opened Http
  import opened Models
  import opened Sdk
  import opened Client
  import opened Pagination
  import opened Paging
  import opened ResourceTypes

  /** The user trait's status for a Zoom status string; anything that is not
      "active" or "inactive" (including "pending") is unspecified. */
  function StatusOf(s: string): (st: UserStatus)
    ensures st == StatusEnabled <==> s == "active"
    ensures st == StatusDisabled <==> s == "inactive"
    ensures st == StatusUnspecified <==> s != "active" && s != "inactive"
  {
    match s
    case "pending" => StatusUnspecified
    case "inactive" => StatusDisabled
    case "active" => StatusEnabled
    case _ => StatusUnspecified
  }

  const UserProfileKeys: set<string> := {"first_name", "last_name", "login", "user_id"}

  /** `userResource`: a user resource named by the display name, keyed by the
      user id, with the fixed four-key profile, the translated status and the
      e-mail as primary login. */
  function UserResource(u: User, parent: Option<ResourceId>): (r: Resource)
    ensures r.id == ResourceId(UserType.id, u.id)
    ensures r.displayName == u.displayName
    ensures r.profile.Keys == UserProfileKeys
    ensures r.profile["first_name"] == u.firstName && r.profile["last_name"] == u.lastName
    ensures r.profile["login"] == u.email && r.profile["user_id"] == u.id
    ensures r.traits.UserTrait? && r.traits.status == StatusOf(u.status)
    ensures r.traits.email == u.email && r.traits.emailPrimary
    ensures r.parent == parent
  {
    var profile := map["first_name" := u.firstName, "last_name" := u.lastName, "login" := u.email, "user_id" := u.id];
    Resource(ResourceId(UserType.id, u.id), u.displayName, profile, UserTrait(StatusOf(u.status), u.email, true), parent)
  }

  /** Two users map to the same resource id exactly when their ids agree. */
  lemma UserResourceKeyed(u: User, v: User, p: Option<ResourceId>, q: Option<ResourceId>)
    ensures UserResource(u, p).id == UserResource(v, q).id <==> u.id == v.id
  {
  }

  /** The frame user listing pushes: as written it is scoped to the group
      resource type, not to users. */
  const UserListFrame: ResourceId := ResourceId(GroupType.id, "")

  /** User `List`: one page of users, one resource per user in order, all
      under `parent`; the cursor is empty exactly when the server reported no
      further page; any failure yields no resources and an empty cursor. */
  function UserList(codec: CursorCodec, token: string, parent: Option<ResourceId>, up: Upstream<Envelope<User>>)
    : (r: Listing<Resource>)
    ensures r.err.None? <==> Served(codec, token, UserListFrame, up)
    ensures r.err.Some? ==> r.items == [] && r.cursor == "" && r.annos == []
    ensures r.err.None? ==>
              var users := GetPage(up, RequestedPage(codec, token, UserListFrame));
              && |r.items| == |users.records|
              && (forall i :: 0 <= i < |r.items| ==> r.items[i] == UserResource(users.records[i], parent))
              && (NonEmptyCursors(codec) ==> (r.cursor == "" <==> users.next == ""))
    ensures forall i :: 0 <= i < |r.items| ==> r.items[i].id.resourceType == UserType.id && r.items[i].parent == parent
  {
    PagedList(codec, token, UserListFrame, up, (u: User) => UserResource(u, parent))
  }

  /** On a fresh cursor user listing starts from the first page and records
      the next page in a frame scoped to "group". */
  lemma UserListFreshCursor(codec: CursorCodec, token: string, parent: Option<ResourceId>, up: Upstream<Envelope<User>>)
    requires codec.unmarshal(token) == Ok([])
    ensures RequestedPage(codec, token, UserListFrame) == ""
    ensures var r := UserList(codec, token, parent, up);
            r.err.None? && r.cursor != "" ==>
              r.cursor == codec.nextToken([Frame("group", "", "")], GetPage(up, "").next).value
  {
  }

  /** User listing keys its resources as the upstream keys its users: two
      listed resources share an id exactly when their users do. */
  lemma UserListKeys(codec: CursorCodec, token: string, parent: Option<ResourceId>, up: Upstream<Envelope<User>>)
    ensures var r := UserList(codec, token, parent, up);
            var users := GetPage(up, RequestedPage(codec, token, UserListFrame)).records;
            r.err.None? ==>
              forall i, j :: 0 <= i < |r.items| && 0 <= j < |r.items| ==>
                (r.items[i].id == r.items[j].id <==> users[i].id == users[j].id)
  {
  }

  /** User `Entitlements`: users offer nothing to grant. */
  function UserEntitlements(res: Resource): (r: Listing<Entitlement>)
    ensures r.items == [] && r.cursor == "" && r.err.None?
  {
    Listing([], "", [], None)
  }

  /** User `Grants`: no grant is ever reported on a user. */
  function UserGrants(res: Resource, token: string): (r: Listing<Grant>)
    ensures r.items == [] && r.cursor == "" && r.err.None?
  {
    Listing([], "", [], None)
  }

  // ---------------------------------------------------------------------------
  // Account creation
  // ---------------------------------------------------------------------------

  /** A value of the platform's free-form account profile: a string, or any
      other JSON value. */
  datatype ProfileValue = Str(s: string) | NonString

  /** The profile fields account creation needs, in the order they are checked. */
  const RequiredFields: seq<string> := ["email", "first_name", "last_name", "display_name"]

  /** `k` is present in the profile as a non-empty string. */
  predicate Filled(p: map<string, ProfileValue>, k: string)
  {
    k in p && p[k].Str? && p[k].s != ""
  }

  function Text(p: map<string, ProfileValue>, k: string): string
    requires Filled(p, k)
  {
    p[k].s
  }

  /** `createNewUserInfo`: check e-mail, first name, last name and display
      name in that order, failing on the first that is missing, not a string
      or empty; otherwise a "create" request for a Basic user with the four
      values copied verbatim. */
  function CreateNewUserInfo(p: map<string, ProfileValue>): (r: Result<UserCreationBody>)
    ensures r.Ok? <==> forall i :: 0 <= i < |RequiredFields| ==> Filled(p, RequiredFields[i])
    ensures r.Err? ==> exists i :: 0 <= i < |RequiredFields| && r.error == MissingField(RequiredFields[i])
                                   && !Filled(p, RequiredFields[i])
                                   && forall j :: 0 <= j < i ==> Filled(p, RequiredFields[j])
    ensures r.Ok? ==> && Filled(p, "email") && Filled(p, "first_name")
                      && Filled(p, "last_name") && Filled(p, "display_name")
                      && r.value.action == CreateAction
                      && r.value.userInfo.userType == BasicUser
                      && r.value.userInfo.email == Text(p, "email")
                      && r.value.userInfo.firstName == Text(p, "first_name")
                      && r.value.userInfo.lastName == Text(p, "last_name")
                      && r.value.userInfo.displayName == Text(p, "display_name")
  {
    assert RequiredFields[0] == "email" && RequiredFields[1] == "first_name";
    assert RequiredFields[2] == "last_name" && RequiredFields[3] == "display_name";
    if !Filled(p, "email") then Err(MissingField("email"))
    else if !Filled(p, "first_name") then Err(MissingField("first_name"))
    else if !Filled(p, "last_name") then Err(MissingField("last_name"))
    else if !Filled(p, "display_name") then Err(MissingField("display_name"))
    else
      Ok(UserCreationBody(CreateAction,
           UserCreationInfo(Text(p, "email"), Text(p, "first_name"), Text(p, "last_name"),
                            Text(p, "display_name"), BasicUser)))
  }

  /** The outcome of `CreateAccount` and the creation requests it sent. */
  datatype AccountCreation = AccountCreation(result: Result<Resource>, requests: seq<UserCreationBody>)

  /** `CreateAccount`: validate, then send exactly one creation request and map
      the created user (id, names, e-mail and type from the server's answer)
      to a user resource without parent. An invalid profile sends nothing. */
  function CreateAccount(p: map<string, ProfileValue>, send: UserCreationBody -> Result<HttpResponse>,
                         decode: string -> Option<UserCreationResponse>): (r: AccountCreation)
    ensures r.requests == [] <==> CreateNewUserInfo(p).Err?
    ensures CreateNewUserInfo(p).Err? ==> r.result == Err(CreateNewUserInfo(p).error)
    ensures CreateNewUserInfo(p).Ok? ==> r.requests == [CreateNewUserInfo(p).value]
    ensures r.result.Ok? ==>
              && |r.requests| == 1
              && CreateUser(send, decode, r.requests[0]).Ok?
              && var created := CreateUser(send, decode, r.requests[0]).value.1;
              && r.result.value.id == ResourceId(UserType.id, created.id)
              && r.result.value.displayName == ""
              && r.result.value.traits == UserTrait(StatusUnspecified, created.email, true)
              && r.result.value.parent.None?
    ensures r.result.Err? && CreateNewUserInfo(p).Ok? ==>
              && CreateUser(send, decode, CreateNewUserInfo(p).value).Err?
              && r.result.error == CreateUser(send, decode, CreateNewUserInfo(p).value).error
  {
    match CreateNewUserInfo(p)
    case Err(e) => AccountCreation(Err(e), [])
    case Ok(body) =>
      match CreateUser(send, decode, body)
      case Err(e) => AccountCreation(Err(e), [body])
      case Ok((_, created)) =>
        var u := User(created.id, created.email, created.firstName, created.lastName, "", created.userType, "", "", "");
        AccountCreation(Ok(UserResource(u, None)), [body])
  }

  /** The account a successful creation reports is keyed as user listing
      keys the user the server created: a later List of that user yields the
      same resource id. */
  lemma CreatedAccountKeyedLikeListing(p: map<string, ProfileValue>, send: UserCreationBody -> Result<HttpResponse>,
                                       decode: string -> Option<UserCreationResponse>, u: User, parent: Option<ResourceId>)
    ensures var r := CreateAccount(p, send, decode);
            r.result.Ok? && u.id == CreateUser(send, decode, r.requests[0]).value.1.id ==>
              r.result.value.id == UserResource(u, parent).id
  {
  }

  // ---------------------------------------------------------------------------
  // Deletion
  // ---------------------------------------------------------------------------

  /** `Delete` as written: after a successful delete, the user is re-fetched
      and the deletion is confirmed only when the fetch error's gRPC code is
      NotFound. No error of this client carries a gRPC status, so the
      deletion is never confirmed. */
  function DeleteAsWritten(userId: string, del: Upstream<()>, get: Upstream<User>): (r: Option<Error>)
    ensures DeleteUser(del).Err? ==> r == Some(DeleteUser(del).error)
    ensures r.Some?
  {
    match DeleteUser(del)
    case Err(e) => Some(e)
    case Ok(_) =>
      var fetched := GetUser(get);
      if fetched.Ok? || StatusCode(fetched.error) != NotFound then Some(StillExists(userId))
      else None
  }

  /** The re-fetch after a delete reports the user as gone: a 404 answer. */
  predicate ReportsNotFound(fetched: Result<(HttpResponse, User)>)
  {
    fetched.Err? && fetched.error.StatusFailure? && fetched.error.code == 404
  }

  /** `Delete` as intended: a delete that succeeded is confirmed exactly when
      the re-fetch answers 404; a user still returned, or any other error,
      means the user still exists. A failed delete reports its own error. */
  function Delete(userId: string, del: Upstream<()>, get: Upstream<User>): (r: Option<Error>)
    ensures DeleteUser(del).Err? ==> r == Some(DeleteUser(del).error)
    ensures DeleteUser(del).Ok? ==> (r.None? <==> ReportsNotFound(GetUser(get)))
    ensures DeleteUser(del).Ok? && r.Some? ==> r.value == StillExists(userId)
  {
    match DeleteUser(del)
    case Err(e) => Some(e)
    case Ok(_) =>
      if ReportsNotFound(GetUser(get)) then None else Some(StillExists(userId))
  }

  /** A delete the server accepted (204, no body) followed by a 404 re-fetch:
      the intended check confirms it, the written check reports the user as
      still existing. */
  lemma DeleteConfirmationDiffers(userId: string)
    ensures var del := Upstream((q: Query) => Ok(HttpResponse(204, map[], "")), (s: string) => None);
            var get := Upstream((q: Query) => Ok(HttpResponse(404, map[], "{\"code\":1001}")),
                                (s: string) => None);
            && Delete(userId, del, get) == None
            && DeleteAsWritten(userId, del, get) == Some(StillExists(userId))
  {
  }
}
