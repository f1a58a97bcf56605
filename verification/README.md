# baton-zoom connector core, modelled in Dafny

This project models the core of the Zoom connector for the Baton access-governance
platform. The connector reads users, groups, roles and contact groups from Zoom's
paginated REST API and turns them into resources, entitlements and grants. The model
covers these parts:

- **Cursor handling.** The pagination bag is a stack of frames. Each frame holds a
  resource type id, a resource id and an upstream page token (`Pagination`).
  `parsePageToken` pushes a frame only when the bag has no current frame.
- **Rate limits.** The three quota headers are parsed with Go's
  `strconv.ParseInt(s, 10, 64)`. `extractRateLimitData` fails as a whole when any one
  header is unreadable. `parseResp` then drops the annotation instead of failing
  (`RateLimit`).
- **The Zoom client** (`Client`):
  - how `doRequest` classifies a response by its status and body;
  - the fixed pagination query;
  - the single-page getters, which pass the upstream next-page token through;
  - the loop that fully drains a group's member and admin lists.
- **Resource mappers and sync drivers** for each resource type (`Users`, `Groups`,
  `ContactGroups`, `Roles`). The paginated List/Grants drivers share one shape
  (`Paging.PagedList`).
- **The connector** (`ResourceTypes`, `Connector`): the resource-type table, the
  account-creation schema, `Validate` and `ResourceSyncers`.

Every HTTP exchange is an `Upstream`, which has two parts. The first is the
transport's answer to a query: a response, or an error when the request cannot be
built, sent or read. The second is a JSON decoder for the body. A fetch is always
`DoRequest(transport(query), decode, zero)`, so the drivers stay tied to the client's
classification. The library's bag encoding cannot be seen, so it is a parameter
(`CursorCodec`: `unmarshal` and `NextToken`).

The drain loop terminates only on a finite chain of page tokens. Its precondition
`EndsWithin(up, "", n)` requires that the chain reaches an error or an empty next
token within `n` requests. `n` is ghost, and `DrainFuelIrrelevant` shows that the
result does not depend on it. `ChainEnds` and `FailingChainEnds` show that every
finite chain meets the precondition. The loops in pkg/zoom/client.go:173-192 and
203-223 trust the server's next-page tokens and have no page cap.
`EndlessChainNeverEnds` shows that an endpoint that always names a further page
meets no such bound, so against it the loop never ends.

Some behaviour of the code is easy to misread, and is modelled as written:

- **Malformed rate-limit header.** One present but unparsable quota header fails the
  whole extraction (pkg/connector/helpers.go:41-62). `parseResp` then attaches no
  annotation at all (pkg/connector/helpers.go:76-80), so the readable headers are
  lost as well.
- **Frame scope.** User `List` and role `Grants` push a frame scoped to the *group*
  resource type, not to their own type (pkg/connector/user.go:72,
  pkg/connector/role.go:100; `UserListFrame`, `RoleGrantsFrame`).
- **Contact-group members.** Only member type 1 is a user. Every other type, not
  only 2, is treated as a group (pkg/connector/contactGroup.go:134-157).

## Model

| member | source | states |
|---|---|---|
| Client.PaginationQuery | pkg/zoom/client.go:45-50 | the query carries exactly next_page_token = the given token and page_size = "50" |
| Client.DoRequest | pkg/zoom/client.go:472-484 | transport errors propagate; status >= 400 is an error carrying status and body; an empty body with 200 <= status < 400 succeeds without decoding; otherwise success iff the body is non-empty and decodes; a success always has status < 400 |
| Client.GetPage | pkg/zoom/client.go:90-108 | the single-page getters (users, groups, contact groups, contact-group members, role members) return the server's next token unchanged; a failed request yields no records, an empty token and no response |
| Client.GetRoles | pkg/zoom/client.go:153-165 | the role list is requested without a query; success only on a status below 400, with that response; an empty success is no roles; a status of 400 or more fails with that status and body; a transport error propagates |
| Client.GetUser | pkg/zoom/client.go:270-280 | the user is requested without a query; success only on a status below 400; an empty success leaves the zero user; a status of 400 or more (such as 404) fails with that status and body |
| Client.CreateUser | pkg/zoom/client.go:412-430 | the creation body is posted; success only on a status below 400 with the decoded answer; a status of 400 or more fails with that status and body |
| Client.DeleteUser | pkg/zoom/client.go:432-444 | the delete succeeds on an empty answer with 200 <= status < 400 and fails with the status and body on 400 or more |
| Client.Drain | pkg/zoom/client.go:168-195 | the member/admin loop, which starts at the empty token, returns exactly what the recursive drain returns: all records, or only the error |
| Client.ChainDrains | pkg/zoom/client.go:173-192 | over a complete chain of pages (each fetched with the previous next token, stopping at the first empty one) the drain is the in-order concatenation of every page's records |
| Client.FailingChainDrains | pkg/zoom/client.go:180-183 | a failed page after any number of good pages discards everything gathered; the drain is exactly that page's error |
| Client.ChainEnds | pkg/zoom/client.go:187-191 | every finite chain satisfies the drain's termination precondition |
| Client.EndlessChainNeverEnds | pkg/zoom/client.go:173-192 | an endpoint whose every page names a further page meets no bound on the chain, so the drain loop never ends against it |
| Pagination.ParsePageToken | pkg/connector/helpers.go:14-29 | an undecodable token is an error and never a reset; an empty bag gets exactly one frame for the given resource type and id with no page; a non-empty bag is unchanged; the page returned is the current frame's token |
| Pagination.NextCursor | pkg/connector/user.go:83-88 | no next page gives the empty cursor, otherwise the bag's NextToken; with a codec that never encodes a pending page as "", the cursor is empty iff the upstream next token is empty |
| RateLimit.ParseInt64 | pkg/connector/helpers.go:41 | a successful parse lies in the int64 range, and its text is at least one digit with an optional leading '+' or '-'; every other string, including "", "+" and "-", is rejected |
| RateLimit.ParseInt64Value | pkg/connector/helpers.go:41 | for a sign "", "+" or "-" followed by digits (leading zeros allowed), the result is the signed value of the digits when it fits in int64, and an error otherwise |
| RateLimit.ParseFormatRoundTrip | pkg/connector/helpers.go:41-44 | every int64 written in decimal is read back exactly |
| RateLimit.FormatOutOfRangeRejected | pkg/connector/helpers.go:41 | the decimal text of a value outside the int64 range is rejected, so with the round trip the text of n reads back iff n fits |
| RateLimit.ReadHeader | pkg/connector/helpers.go:38-45 | one header: absent reads as no value; present is ok iff it parses, and an unparsable one is an error naming the header |
| RateLimit.ExtractRateLimitData | pkg/connector/helpers.go:32-71 | a nil response is an error; success iff all three headers are absent or readable; Remaining, Limit and ResetAt.Seconds equal the parsed values, and absent ones give 0, 0 and no reset time; the first unreadable header, in source order, is reported |
| RateLimit.ParseResp | pkg/connector/helpers.go:73-83 | never an error; one annotation iff the response is present and extraction succeeded, and then it is the extracted description |
| RateLimit.NoHeadersReadAsZero | pkg/connector/helpers.go:38-70 | a response without quota headers gives the zero description and one annotation |
| RateLimit.OneBadHeaderDropsAll | pkg/connector/helpers.go:41-62 | one unreadable quota header fails the extraction and leaves no annotation, even if the other headers are readable |
| RateLimit.HeadersRoundTrip | pkg/connector/helpers.go:32-70 | quota headers holding the decimal text of in-range values extract to exactly those remaining, limit and reset values, and parseResp attaches that description |
| Paging.PagedList | pkg/connector/contactGroup.go:104-130 | the shared shape of paginated List/Grants: error iff the cursor, page fetch or next cursor fails, and then no items, empty cursor, no annotations; otherwise one mapped item per record in order, annotations from parseResp, and, with a codec that never encodes a pending page as "", the cursor is empty iff the upstream next token is empty |
| Paging.PagedListErrorStatus | pkg/connector/contactGroup.go:113-116 | a decodable cursor whose page is answered with a status of 400 or more gives a failed listing carrying that status and body |
| Users.StatusOf | pkg/connector/user.go:35-46 | "active" maps to enabled and "inactive" to disabled, in both directions; everything else, "pending" included, maps to unspecified |
| Users.UserResource | pkg/connector/user.go:27-66 | id = ("user", ID), display name = DisplayName, profile keys exactly first_name, last_name, login (= email), user_id (= ID), translated status, e-mail as primary, given parent |
| Users.UserResourceKeyed | pkg/connector/user.go:54-60 | two users map to the same resource id iff their ids are equal |
| Users.UserList | pkg/connector/user.go:68-105 | one user resource per upstream user, in order, under the parent; any error gives no resources and an empty cursor; with a codec that never encodes a pending page as "", the cursor is empty iff the upstream next token is empty |
| Users.UserListKeys | pkg/connector/user.go:95-102 | two listed resources share an id iff their upstream users do |
| Users.UserListFreshCursor | pkg/connector/user.go:72 | on a fresh cursor the first page is requested and the next page is recorded in a frame scoped to "group" |
| Users.UserEntitlements | pkg/connector/user.go:107-109 | a user offers no entitlements |
| Users.UserGrants | pkg/connector/user.go:111-113 | no grants are reported on a user |
| Users.CreateNewUserInfo | pkg/connector/user.go:157-192 | success iff email, first_name, last_name and display_name are all non-empty strings; otherwise it fails naming the first field, in that order, that is missing, non-string or empty; on success the body is a "create" action for a Basic (1) user with the four values copied verbatim |
| Users.CreateAccount | pkg/connector/user.go:124-155 | no creation request is sent iff validation fails; otherwise exactly the validated body is sent; the created resource has the server's id and e-mail, no parent, unspecified status and an empty display name |
| Users.CreatedAccountKeyedLikeListing | pkg/connector/user.go:139-151 | the created account's resource id is the one user listing gives the user the server created |
| Users.DeleteAsWritten | pkg/connector/user.go:194-209 | a failed delete reports its error; after a successful delete the written check never confirms it |
| Users.Delete | pkg/connector/user.go:194-209 | a successful delete is confirmed iff the re-fetch answers 404; a returned user or any other error reports "still exists" |
| Users.DeleteConfirmationDiffers | pkg/connector/user.go:202-205 | a delete answered 204 followed by a 404 re-fetch is confirmed by Delete but reported as still existing by DeleteAsWritten |
| Groups.GroupResource | pkg/connector/group.go:31-53 | id = ("group", ID), display name = Name, profile keys exactly group_name and group_id |
| Groups.GroupResourceKeyed | pkg/connector/group.go:41-47 | two groups map to the same resource id iff their ids are equal |
| Groups.GroupList | pkg/connector/group.go:55-92 | one group resource per upstream group, in order; any error gives no resources and an empty cursor; with a codec that never encodes a pending page as "", the cursor is empty iff the upstream next token is empty |
| Groups.GroupListKeys | pkg/connector/group.go:82-89 | two listed resources share an id iff their upstream groups do |
| Groups.GroupEntitlements | pkg/connector/group.go:94-107 | exactly two assignment entitlements on the group, "member" then "admin", each grantable only to users |
| Groups.GroupGrants | pkg/connector/group.go:109-145 | one member grant per drained member, then one admin grant per drained admin (count = members + admins), exactly the GroupGrantList of the two drains; cursor always empty and no annotations; a failed member drain gives its error, and a failed admin drain after a good member drain gives the admin drain's error, with no grants; every grant is supported by the group's entitlements |
| Groups.UserGrantKeyed | pkg/connector/group.go:117-142 | two user grants on a group coincide iff they name the same entitlement and users with the same id |
| Groups.GroupGrantList | pkg/connector/group.go:117-144 | member grants in drain order followed by admin grants in drain order, each supported by the group's entitlements |
| Groups.MemberAdminGrantsKeyed | pkg/connector/group.go:117-144 | in any member-then-admin grant list, no member grant equals an admin grant, and two grants of the same kind are equal iff their users' ids are |
| Groups.GroupGrantListKeyed | pkg/connector/group.go:117-144 | a group's grants are pairwise distinct iff neither drain repeats a user id; member and admin grants never coincide |
| ContactGroups.ContactGroupResource | pkg/connector/contactGroup.go:26-48 | id = ("contactGroup", ID), display name = Name, profile keys exactly group_name and group_id |
| ContactGroups.ContactGroupResourceKeyed | pkg/connector/contactGroup.go:36-42 | two contact groups map to the same resource id iff their ids are equal |
| ContactGroups.ContactGroupList | pkg/connector/contactGroup.go:50-87 | one resource per contact group, in order; any error gives no resources and an empty cursor; with a codec that never encodes a pending page as "", the cursor is empty iff the upstream next token is empty |
| ContactGroups.ContactGroupListKeys | pkg/connector/contactGroup.go:77-84 | two listed resources share an id iff their upstream contact groups do |
| ContactGroups.ContactGroupEntitlements | pkg/connector/contactGroup.go:89-102 | exactly one "member" assignment entitlement, grantable to users and groups |
| ContactGroups.KindOf | pkg/connector/contactGroup.go:134-135 | a member is a user principal iff its type is 1 |
| ContactGroups.MemberGrant | pkg/connector/contactGroup.go:134-157 | a "member" grant on the contact group whose principal has the member's id, with type "user" iff the member's type is 1 and "group" for every other type |
| ContactGroups.MemberGrantKeyed | pkg/connector/contactGroup.go:134-157 | two member records get the same grant iff they have the same id and kind, so a user member and a group member that share an id get distinct grants |
| ContactGroups.ContactGroupGrants | pkg/connector/contactGroup.go:104-161 | exactly one grant per member record, in order, all on this contact group; an error gives no grants and an empty cursor; every grant is supported by the contact group's entitlement; with a codec that never encodes a pending page as "", the cursor is empty iff the upstream next token is empty |
| ContactGroups.MixedMembersSplit | pkg/connector/contactGroup.go:132-158 | members [u1 type 1, g1 type 2] yield exactly one user-principal grant and one group-principal grant |
| Roles.RoleResource | pkg/connector/role.go:31-53 | id = ("role", ID), display name = Name, profile keys exactly role_name and role_id |
| Roles.RoleResourceKeyed | pkg/connector/role.go:41-47 | two roles map to the same resource id iff their ids are equal |
| Roles.RoleList | pkg/connector/role.go:55-79 | one unpaginated fetch, one resource per role in order; the next cursor is always empty; a failed fetch gives no resources |
| Roles.RoleListKeys | pkg/connector/role.go:69-76 | two listed resources share an id iff their roles do |
| Roles.RoleEntitlements | pkg/connector/role.go:81-94 | exactly one "member" permission entitlement, grantable to users |
| Roles.RoleGrants | pkg/connector/role.go:96-135 | one user-principal "member" grant per role member, in order; any error gives no grants and an empty cursor; every grant is supported by the role's entitlement; with a codec that never encodes a pending page as "", the cursor is empty iff the upstream next token is empty |
| ResourceTypes.AllResourceTypes | pkg/connector/connector.go:15-45 | four resource types with distinct ids user, group, contactGroup and role, one trait each: user, group, group and role |
| Connector.AccountCreationSchema | pkg/connector/connector.go:72-121 | the schema's fields are exactly the four that account creation checks, all required, with orders 1-4 in the order they are checked |
| Connector.SchemaMatchesValidation | pkg/connector/connector.go:76-118 | a profile passes account-creation validation iff it fills every field the schema marks required |
| Connector.Validate | pkg/connector/connector.go:123-136 | passes iff fetching "me" succeeds and its role_name is not "member"; a failed fetch and a "member" role are distinct errors |
| Connector.ValidateRejectsErrorStatus | pkg/connector/connector.go:124-127 | any answer of 400 or more to the "me" request fails validation, with that status and body as the cause |
| Connector.ValidateAcceptsEmptyAnswer | pkg/connector/connector.go:124-135 | an empty 200 answer to "me" leaves a zero-valued user, which passes validation |
| Connector.ResourceSyncers | pkg/connector/connector.go:138-145 | four syncers in the order user, group, role, contactGroup, exactly one for each declared resource type |
| Base.StatusCode | pkg/connector/user.go:203 | no error of the client reads as gRPC NotFound |

## Left out

- HTTP transport, bearer-token acquisition (`RequestAccessToken`) and JSON encoding
  and decoding are left out. They are external collaborators: the transport's answer
  and the body decoder are parameters of each `Upstream`. URLs, the request headers
  sent, and closing of response bodies are not modelled.
- The pagination library's `Bag` serialisation and `NextToken` are parameters
  (`CursorCodec`), because their code is not part of this model. For the same reason
  there is no cursor round-trip and no terminal-convergence property across List calls.
- The write endpoints (`AddGroupMembers`, `AddGroupAdmins`, `DeleteGroupMember`,
  `DeleteGroupAdmin`, `AssignRole`, `UnassignRole`) are left out. No syncer in the
  connector implements Grant or Revoke, so these endpoints have no caller.
- The JSON decoder of an `Upstream` is an arbitrary function. The model assumes
  nothing about it beyond what `doRequest` itself does: an empty body that reaches
  decoding always fails, as `json.Unmarshal` does on empty input.
- The SDK constructors (`NewUserResource`, `NewGroupResource`, `NewRoleResource`) can
  fail when a profile value is invalid UTF-8. Dafny strings are always valid Unicode,
  so the mappers never fail. The driver error branches that follow a mapper call are
  therefore not modelled.
- The user resource type's annotations (`annotationsForUserResourceType`) are left out.
  So is the account-creation capability description
  (`CreateAccountCapabilityDetails`), which is a constant.
- `Delete` defers `resp.Body.Close()` on a response that is nil when the re-fetch
  fails. Only the confirmation decision is modelled.
- The connector's `New` constructor and `Metadata`'s display name and description are
  bootstrap and presentation, and are left out.
- The command-line entry point, its configuration, and the live-API integration test
  are left out.

## Findings

| source | as written | input that shows it | evidently intended | confidence | as-written member | corrected member |
|---|---|---|---|---|---|---|
| pkg/connector/user.go:203 | the deletion is confirmed only when `status.Code(err)` of the re-fetch error is NotFound. The re-fetch's errors come from `doRequest` (`fmt.Errorf` without `%w`) or from the HTTP client, and none carries a gRPC status, so the code is always Unknown | delete answered 204 with no body, re-fetch answered 404: the deletion is reported as "user still exists" | a 404 answer to the re-fetch confirms the deletion | medium, not executed | Users.DeleteAsWritten | Users.Delete |
