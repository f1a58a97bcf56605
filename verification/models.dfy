/** The upstream Zoom records the connector reads and writes. Only the fields
    the connector uses or copies are kept; JSON tags are not modelled. */
module Models {

  /** The account-creation action sent with a new user (`ActionType`). */
  datatype Action = CreateAction | AutoCreateAction | CustCreateAction | SsoCreateAction

  /** The wire spelling of each action. */
  function ActionName(a: Action): (s: string)
  {
    match a
    case CreateAction => "create"
    case AutoCreateAction => "autoCreate"
    case CustCreateAction => "custCreate"
    case SsoCreateAction => "ssoCreate"
  }

  /** Zoom user types (`UserType`). */
  const BasicUser: int := 1
  const LicensedUser: int := 2
  const UnassignedUser: int := 3
  const NoneUser: int := 99

  datatype Group = Group(id: string, name: string)

  datatype Role = Role(description: string, id: string, name: string, roleType: string)

  datatype User = User(
    id: string,
    email: string,
    firstName: string,
    lastName: string,
    roleName: string,
    userType: int,
    displayName: string,
    roleId: string,
    status: string)

  /** The value a `User` has before any field is filled in. */
  const EmptyUser: User := User("", "", "", "", "", 0, "", "", "")

  datatype UserCreationInfo = UserCreationInfo(
    email: string,
    firstName: string,
    lastName: string,
    displayName: string,
    userType: int)

  datatype UserCreationBody = UserCreationBody(action: Action, userInfo: UserCreationInfo)

  datatype UserCreationResponse = UserCreationResponse(
    email: string,
    firstName: string,
    id: string,
    lastName: string,
    userType: int)

  datatype ContactGroup = ContactGroup(id: string, name: string, privacy: int, description: string)

  /** A member of a contact group; `memberType` 1 is a user, 2 a user group. */
  datatype GroupMember = GroupMember(id: string, name: string, memberType: int)
}
