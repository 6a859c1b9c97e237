/**
 * The values that cross the boundary of the copy-roles service: request bodies,
 * the records the identity platform returns, the JSON responses the two
 * handlers send, and a trace of the remote calls a handler makes.
 *
 * JavaScript values are modelled only as far as the handlers look at them:
 * a field that may be absent (undefined or null) is an `Option`, and a
 * numeric field whose truthiness and `=== undefined` test both matter is a
 * `NumField`.
 */
module Api {

  datatype Option<+T> = None | Some(value: T)

  /** Outcome of one remote call: the promise resolves with a value or rejects with an error message. */
  datatype Outcome<+T> = Succeeded(value: T) | Failed(message: string)

  /** `credentials` of a request body; each field may be missing. */
  datatype Credentials = Credentials(clientId: Option<string>, clientSecret: Option<string>, region: Option<string>)

  /** Body of POST /api/copy-roles. */
  datatype CopyRequest = CopyRequest(sourceUserID: Option<string>, targetUserID: Option<string>, credentials: Option<Credentials>)

  /** Body of POST /api/users. */
  datatype UsersRequest = UsersRequest(credentials: Option<Credentials>)

  /** A reference to a named platform object (a role or a division). */
  datatype Ref = Ref(id: string, name: string)

  /** One grant as the platform returns it, with nested role and division objects. */
  datatype RemoteGrant = RemoteGrant(role: Ref, division: Ref)

  /** The authorization subject of a user; `grants` may be absent. */
  datatype Subject = Subject(grants: Option<seq<RemoteGrant>>)

  /** The flat grant shape the service sends to bulk-replace and returns to its caller. */
  datatype Grant = Grant(roleId: string, divisionId: string)

  /** A user record as the platform returns it: the four projected fields and everything else. */
  datatype RemoteUser = RemoteUser(id: Option<string>, name: Option<string>, email: Option<string>,
                                   state: Option<string>, otherFields: map<string, string>)

  /** The reduced user projection the listing endpoint returns. */
  datatype User = User(id: Option<string>, name: Option<string>, email: Option<string>, state: Option<string>)

  /** A numeric page-metadata field: absent (undefined), JSON null, or a number. */
  datatype NumField = Missing | Null | Num(n: nat)

  /** One page of the user listing, as the platform returns it. */
  datatype Page = Page(entities: Option<seq<RemoteUser>>, pageCount: NumField, pageSize: NumField, total: NumField)

  /** The options object of one user-listing request. */
  datatype UsersQuery = UsersQuery(pageSize: nat, pageNumber: nat, state: string)

  /** A call from a handler to the identity platform, recorded with its arguments. */
  datatype RemoteCall =
    | Login(clientId: string, clientSecret: string)
    | GetSubject(userId: string, includeDuplicates: bool)
    | BulkReplace(userId: string, grants: seq<Grant>, subjectType: string)
    | GetUsers(query: UsersQuery)

  /** JSON bodies the handlers send. */
  datatype Body =
    | Error(error: string)
    | ErrorDetail(error: string, detail: string)
    | Message(message: string)
    | RolesCopied(message: string, assignedRoles: seq<Grant>)
    | Users(users: seq<User>)

  datatype Response = Response(status: nat, body: Body)

  /** What a handler did: the response it sent and the remote calls it made, in order. */
  datatype Handled = Handled(response: Response, calls: seq<RemoteCall>)

  const InvalidUuid := Response(400, Error("Invalid UUID format"))
  const MissingCredentials := Response(400, Error("Missing credentials"))
  const NoRolesFound := Response(200, Message("No roles found for source user"))
  const AuthenticationFailed := "Authentication failed"
  const SubjectTypeUser := "PC_USER"
  const UsersPageSize := 100
  const ActiveState := "active"

  function ServerError(detail: string): Response {
    Response(500, ErrorDetail("Internal Server Error", detail))
  }

  function RolesCopiedResponse(grants: seq<Grant>): Response {
    Response(200, RolesCopied("Roles copied successfully", grants))
  }

  function UsersResponse(users: seq<User>): Response {
    Response(200, Users(users))
  }

  /** The options of the request for page `n` of the active users. */
  function ActiveUsersQuery(n: nat): UsersQuery {
    UsersQuery(UsersPageSize, n, ActiveState)
  }
}
