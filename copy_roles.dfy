/**
 * POST /api/copy-roles: check the request, log in with the caller's
 * credentials, read the source user's grants, flatten them, and bulk-replace
 * the target user's grants with them.
 *
 * The handler is a pure function of the request, the UUID format test and the
 * outcomes of the three remote calls; it returns the response it sends and the
 * remote calls it makes, in order.
 */
module CopyRoles {
  import opened Api
  import opened Validation

  /** What the platform answers to each of the handler's remote calls. */
  datatype CopyRemote = CopyRemote(loginOk: bool, subject: Outcome<Subject>, replace: Outcome<()>)

  /** `.map((grant) => ({roleId: grant.role.id, divisionId: grant.division.id}))` */
  function FlattenGrants(grants: seq<RemoteGrant>): (r: seq<Grant>)
    ensures |r| == |grants|
    ensures forall i :: 0 <= i < |grants| ==> r[i] == Grant(grants[i].role.id, grants[i].division.id)
  {
    if grants == [] then []
    else [Grant(grants[0].role.id, grants[0].division.id)] + FlattenGrants(grants[1..])
  }

  /** `(sourceData.grants || []).map(...)`: a subject without grants has none to copy. */
  function SubjectGrants(s: Subject): (r: seq<Grant>)
    ensures s.grants.None? ==> r == []
    ensures s.grants.Some? ==> |r| == |s.grants.value|
    ensures s.grants.Some? ==>
      forall i :: 0 <= i < |r| ==> r[i] == Grant(s.grants.value[i].role.id, s.grants.value[i].division.id)
  {
    match s.grants
    case None => []
    case Some(grants) => FlattenGrants(grants)
  }

  /** The handler once both local checks have passed: login, fetch, then replace unless empty. */
  function CopyValidated(v: ValidCopy, remote: CopyRemote): (r: Handled)
    ensures 1 <= |r.calls| <= 3
    ensures r.calls[0] == Login(v.credentials.clientId, v.credentials.clientSecret)
    ensures !remote.loginOk ==> r == Handled(ServerError(AuthenticationFailed), r.calls) && |r.calls| == 1
    ensures remote.loginOk ==> |r.calls| >= 2 && r.calls[1] == GetSubject(v.sourceUserID, false)
    ensures remote.loginOk && remote.subject.Failed? ==>
      r.response == ServerError(remote.subject.message) && |r.calls| == 2
    ensures remote.loginOk && remote.subject.Succeeded? && SubjectGrants(remote.subject.value) == [] ==>
      r.response == NoRolesFound && |r.calls| == 2
    ensures |r.calls| == 3 <==>
      remote.loginOk && remote.subject.Succeeded? && SubjectGrants(remote.subject.value) != []
    ensures |r.calls| == 3 ==>
      && r.calls[2] == BulkReplace(v.targetUserID, SubjectGrants(remote.subject.value), SubjectTypeUser)
      && r.response == match remote.replace
                       case Succeeded(_) => RolesCopiedResponse(SubjectGrants(remote.subject.value))
                       case Failed(message) => ServerError(message)
  {
    var login := Login(v.credentials.clientId, v.credentials.clientSecret);
    if !remote.loginOk then
      Handled(ServerError(AuthenticationFailed), [login])
    else
      var fetch := GetSubject(v.sourceUserID, false);
      match remote.subject
      case Failed(message) => Handled(ServerError(message), [login, fetch])
      case Succeeded(subject) =>
        var grants := SubjectGrants(subject);
        if |grants| == 0 then
          Handled(NoRolesFound, [login, fetch])
        else
          var replace := BulkReplace(v.targetUserID, grants, SubjectTypeUser);
          match remote.replace
          case Failed(message) => Handled(ServerError(message), [login, fetch, replace])
          case Succeeded(_) => Handled(RolesCopiedResponse(grants), [login, fetch, replace])
  }

  /** The whole copy-roles handler. */
  function CopyRolesHandler(req: CopyRequest, isUUID: string -> bool, remote: CopyRemote): (r: Handled)
    ensures !(IsUuid(isUUID, req.sourceUserID) && IsUuid(isUUID, req.targetUserID)) ==>
      r == Handled(InvalidUuid, [])
    ensures IsUuid(isUUID, req.sourceUserID) && IsUuid(isUUID, req.targetUserID) && !CredentialsPresent(req.credentials) ==>
      r == Handled(MissingCredentials, [])
    ensures ValidateCopy(req, isUUID).Accepted? ==> r == CopyValidated(ValidateCopy(req, isUUID).value, remote)
    ensures r.response.status == 400 <==> r.calls == []
    ensures r.response.status in {200, 400, 500}
  {
    match ValidateCopy(req, isUUID)
    case Rejected(response) => Handled(response, [])
    case Accepted(v) => CopyValidated(v, remote)
  }

  /** Grants each user holds on the platform, as far as bulk-replace changes them. */
  type GrantStore = map<string, seq<Grant>>

  /** The effect of one successful remote call: bulk-replace overwrites, it does not merge. */
  function ApplyCall(store: GrantStore, call: RemoteCall): GrantStore {
    match call
    case BulkReplace(userId, grants, _) => store[userId := grants]
    case _ => store
  }

  /** The effect of a trace of successful remote calls, in order. */
  function ApplyCalls(store: GrantStore, calls: seq<RemoteCall>): GrantStore
    decreases |calls|
  {
    if calls == [] then store else ApplyCalls(ApplyCall(store, calls[0]), calls[1..])
  }

  /** The last grant list each user is given by a trace. */
  function FinalWrites(calls: seq<RemoteCall>): GrantStore
    decreases |calls|
  {
    if calls == [] then map[]
    else
      match calls[0]
      case BulkReplace(userId, grants, _) => map[userId := grants] + FinalWrites(calls[1..])
      case _ => FinalWrites(calls[1..])
  }

  /** A trace overwrites the grants of the users it writes and leaves every other user alone. */
  lemma {:induction false} ApplyCallsOverwrites(store: GrantStore, calls: seq<RemoteCall>)
    ensures ApplyCalls(store, calls) == store + FinalWrites(calls)
    decreases |calls|
  {
    if calls != [] {
      ApplyCallsOverwrites(ApplyCall(store, calls[0]), calls[1..]);
      match calls[0]
      case BulkReplace(userId, grants, _) =>
        assert store[userId := grants] + FinalWrites(calls[1..])
            == store + (map[userId := grants] + FinalWrites(calls[1..]));
      case _ =>
    }
  }

  /**
   * A successful copy leaves the target holding exactly the copied grants and
   * every other user unchanged.
   */
  lemma CopyOverwritesTarget(req: CopyRequest, isUUID: string -> bool, remote: CopyRemote, store: GrantStore)
    requires CopyRolesHandler(req, isUUID, remote).response.body.RolesCopied?
    ensures var r := CopyRolesHandler(req, isUUID, remote);
      ApplyCalls(store, r.calls) == store[req.targetUserID.value := r.response.body.assignedRoles]
  {
    var r := CopyRolesHandler(req, isUUID, remote);
    ApplyCallsOverwrites(store, r.calls);
    var v := ValidateCopy(req, isUUID).value;
    var grants := r.response.body.assignedRoles;
    assert r.calls[2] == BulkReplace(v.targetUserID, grants, SubjectTypeUser);
    assert r.calls[1..][1..] == r.calls[2..] && r.calls[2..][1..] == [];
    assert FinalWrites(r.calls[2..]) == map[v.targetUserID := grants] + map[];
    assert FinalWrites(r.calls) == FinalWrites(r.calls[2..]);
  }

  /**
   * Running the same successful copy twice with unchanged source grants
   * leaves the platform as running it once.
   */
  lemma {:induction false} CopyIsIdempotent(req: CopyRequest, isUUID: string -> bool, remote: CopyRemote, store: GrantStore)
    requires CopyRolesHandler(req, isUUID, remote).response.status == 200
    ensures var calls := CopyRolesHandler(req, isUUID, remote).calls;
      ApplyCalls(ApplyCalls(store, calls), calls) == ApplyCalls(store, calls)
  {
    var calls := CopyRolesHandler(req, isUUID, remote).calls;
    ApplyCallsOverwrites(store, calls);
    ApplyCallsOverwrites(ApplyCalls(store, calls), calls);
    assert store + FinalWrites(calls) + FinalWrites(calls) == store + FinalWrites(calls);
  }
}
