/** The user-update command handler. It validates the request in a fixed order, applies the
    Admin/SuperAdmin permission rules, renames the user (refusing a name another user holds),
    replaces the user's whole role set, merges the profile fields and saves. The identity
    stores and the profile repository are modelled as in-memory state. */
module UserUpdate {
  import opened Common

  const SuperAdminRole: string := "SuperAdmin"
  const AdminRole: string := "Admin"

  /** An identity user as the user store keeps it; `roles` holds the stored names of its roles. */
  datatype AppUser = AppUser(userName: string, normalizedUserName: string, roles: set<string>)

  /** The profile fields the handler can change. */
  datatype Profile = Profile(fullName: string, position: Option<string>, officeId: int, governorateId: int)

  /** The persisted state the handler reads and writes: the users by id, the roles that exist
      (each stored name under its normalized name, the key the identity stores look roles up
      by), and the profiles by the id of the user they belong to. */
  datatype Store = Store(users: map<Guid, AppUser>, roles: map<string, string>, profiles: map<Guid, Profile>)

  /** The command; `currentUser` is the id of the caller, every other optional field is a
      nullable field of the request. */
  datatype UpdateUserCommand = UpdateUserCommand(
    userId: Guid,
    currentUser: Option<Guid>,
    userName: Option<string>,
    roles: Option<seq<string>>,
    fullName: Option<string>,
    position: Option<string>,
    officeId: Option<int>,
    governorateId: Option<int>)

  /** The error responses, one per message the handler can return. */
  datatype UpdateError =
    | InvalidRequest
    | InvalidUserId
    | MissingCurrentUser
    | UserNotFound
    | AdminCannotModifyPrivilegedUser
    | UserNameTaken
    | UserNameUpdateFailed
    | RoleDoesNotExist(role: string)
    | OnlySuperAdminAssignsSuperAdmin
    | OnlySuperAdminAssignsAdmin
    | AdminCannotAssignPrivilegedRole
    | RoleUpdateFailed
    | SaveFailed
    | UnexpectedError

  /** The handler's answer: the (possibly new) user name on success, an error otherwise. */
  datatype Response = Ok(userName: string) | Error(error: UpdateError)

  /** Whether each call into a service the model cannot see succeeds: the identity store's
      rename, role removal and role addition, the unit of work's save, and the token service
      (whose exception lands in the handler's catch-all). */
  datatype StoreOutcomes = StoreOutcomes(
    setUserNameSucceeds: bool,
    removeFromRolesSucceeds: bool,
    addToRolesSucceeds: bool,
    saveSucceeds: bool,
    createTokenSucceeds: bool)

  /** The response together with the state the stores are left in. */
  datatype Outcome = Outcome(response: Response, store: Store)

  /** The HTTP status code of a response. */
  function StatusCode(r: Response): (code: int)
    ensures code in {200, 400, 401, 403, 404, 409, 500}
    ensures code == 200 <==> r.Ok?
  {
    match r
    case Ok(_) => 200
    case Error(e) =>
      match e
      case InvalidRequest => 400
      case InvalidUserId => 400
      case MissingCurrentUser => 401
      case UserNotFound => 404
      case AdminCannotModifyPrivilegedUser => 403
      case UserNameTaken => 409
      case UserNameUpdateFailed => 400
      case RoleDoesNotExist(_) => 400
      case OnlySuperAdminAssignsSuperAdmin => 403
      case OnlySuperAdminAssignsAdmin => 403
      case AdminCannotAssignPrivilegedRole => 403
      case RoleUpdateFailed => 400
      case SaveFailed => 500
      case UnexpectedError => 500
  }

  /** `char.IsWhiteSpace`: the Unicode space separators, the line and paragraph separators and
      the control characters U+0009 to U+000D and U+0085. */
  predicate IsWhiteSpace(c: char)
  {
    var n := c as int;
    (0x09 <= n <= 0x0D) || n == 0x20 || n == 0x85 || n == 0xA0 || n == 0x1680 ||
    (0x2000 <= n <= 0x200A) || n == 0x2028 || n == 0x2029 || n == 0x202F || n == 0x205F || n == 0x3000
  }

  /** `string.IsNullOrWhiteSpace`. */
  predicate IsNullOrWhiteSpace(s: Option<string>)
  {
    s.None? || forall i :: 0 <= i < |s.value| ==> IsWhiteSpace(s.value[i])
  }

  function UpperChar(c: char): char
  {
    if 'a' <= c <= 'z' then (c as int - 32) as char else c
  }

  /** `string.ToUpper`, also the identity store's name normaliser (ASCII letters only). */
  function ToUpper(s: string): string
  {
    seq(|s|, i requires 0 <= i < |s| => UpperChar(s[i]))
  }

  /** The roles the user store reports for a user id; an id without a user has none. */
  function RolesOf(users: map<Guid, AppUser>, id: Guid): set<string>
  {
    if id in users then users[id].roles else {}
  }

  /** The roles an Admin may neither touch nor hand out. */
  predicate IsPrivileged(roles: set<string>)
  {
    SuperAdminRole in roles || AdminRole in roles
  }

  /** An Admin who is not also SuperAdmin may not modify a user holding Admin or SuperAdmin. */
  predicate AdminBlockedFrom(callerRoles: set<string>, targetRoles: set<string>)
    ensures AdminBlockedFrom(callerRoles, targetRoles) ==> IsPrivileged(targetRoles)
    ensures SuperAdminRole in callerRoles || AdminRole !in callerRoles ==> !AdminBlockedFrom(callerRoles, targetRoles)
  {
    AdminRole in callerRoles && SuperAdminRole !in callerRoles && IsPrivileged(targetRoles)
  }

  /** The identity stores' lookup key for a role name. */
  function NormalizedRoleName(name: string): string
  {
    ToUpper(name)
  }

  /** Each role is stored under its own normalized name. */
  predicate RolesWellFormed(roles: map<string, string>)
  {
    forall key :: key in roles ==> NormalizedRoleName(roles[key]) == key
  }

  /** `RoleExistsAsync`: some role has the name's normalized form, so every case variant of a
      role's name finds it. */
  predicate RoleExists(roles: map<string, string>, name: string)
  {
    NormalizedRoleName(name) in roles
  }

  /** How the permission tests compare a requested role name with "Admin" and "SuperAdmin":
      `Ordinal` is the exact string comparison the handler performs; `Normalized` compares
      the normalized names, as the role lookup does. */
  datatype NameComparison = Ordinal | Normalized

  predicate SameRoleName(cmp: NameComparison, requested: string, name: string)
  {
    match cmp
    case Ordinal => requested == name
    case Normalized => NormalizedRoleName(requested) == NormalizedRoleName(name)
  }

  /** The requested name counts, under the comparison, as Admin or SuperAdmin. */
  predicate NamesPrivilegedRole(cmp: NameComparison, requested: string)
  {
    SameRoleName(cmp, requested, SuperAdminRole) || SameRoleName(cmp, requested, AdminRole)
  }

  /** The checks the handler runs on one requested role, in their order: existence, then the
      three permission rules. A role passes exactly when it exists and, if it counts as Admin
      or SuperAdmin, the caller is SuperAdmin without also being Admin. */
  function RoleRejection(role: string, existing: map<string, string>, isSuperAdmin: bool, isAdmin: bool, cmp: NameComparison)
    : (r: Option<UpdateError>)
    ensures r.None? <==> RoleExists(existing, role) && (NamesPrivilegedRole(cmp, role) ==> isSuperAdmin && !isAdmin)
    ensures !RoleExists(existing, role) ==> r == Some(RoleDoesNotExist(role))
    ensures r.Some? && RoleExists(existing, role) ==> StatusCode(Error(r.value)) == 403
  {
    if !RoleExists(existing, role) then Some(RoleDoesNotExist(role))
    else if SameRoleName(cmp, role, SuperAdminRole) && !isSuperAdmin then Some(OnlySuperAdminAssignsSuperAdmin)
    else if SameRoleName(cmp, role, AdminRole) && !isSuperAdmin then Some(OnlySuperAdminAssignsAdmin)
    else if isAdmin && (SameRoleName(cmp, role, AdminRole) || SameRoleName(cmp, role, SuperAdminRole)) then
      Some(AdminCannotAssignPrivilegedRole)
    else None
  }

  /** The rejection of the first requested role that fails its checks, if any. */
  function FirstRoleRejection(requested: seq<string>, existing: map<string, string>, isSuperAdmin: bool, isAdmin: bool,
                              cmp: NameComparison): (r: Option<UpdateError>)
    ensures r.None? <==> forall i :: 0 <= i < |requested| ==> RoleRejection(requested[i], existing, isSuperAdmin, isAdmin, cmp).None?
    ensures r.Some? ==> exists i :: 0 <= i < |requested| && r == RoleRejection(requested[i], existing, isSuperAdmin, isAdmin, cmp)
    decreases |requested|
  {
    if |requested| == 0 then None
    else
      var head := RoleRejection(requested[0], existing, isSuperAdmin, isAdmin, cmp);
      if head.Some? then head
      else
        var rest := FirstRoleRejection(requested[1..], existing, isSuperAdmin, isAdmin, cmp);
        assert forall i :: 1 <= i < |requested| ==> requested[i] == requested[1..][i - 1];
        rest
  }

  /** If role `i` fails and every role before it passes, the first rejection is the one of
      role `i`: the roles are checked in request order. */
  lemma {:induction false} FirstRejectionAt(requested: seq<string>, i: nat, existing: map<string, string>, isSuperAdmin: bool,
                                            isAdmin: bool, cmp: NameComparison)
    requires i < |requested| && RoleRejection(requested[i], existing, isSuperAdmin, isAdmin, cmp).Some?
    requires forall j :: 0 <= j < i ==> RoleRejection(requested[j], existing, isSuperAdmin, isAdmin, cmp).None?
    ensures FirstRoleRejection(requested, existing, isSuperAdmin, isAdmin, cmp)
         == RoleRejection(requested[i], existing, isSuperAdmin, isAdmin, cmp)
    decreases i
  {
    if i > 0 {
      assert RoleRejection(requested[0], existing, isSuperAdmin, isAdmin, cmp).None?;
      var rest := requested[1..];
      forall j | 0 <= j < i - 1
        ensures RoleRejection(rest[j], existing, isSuperAdmin, isAdmin, cmp).None?
      {
        assert rest[j] == requested[j + 1];
      }
      FirstRejectionAt(rest, i - 1, existing, isSuperAdmin, isAdmin, cmp);
      assert rest[i - 1] == requested[i];
      assert FirstRoleRejection(requested, existing, isSuperAdmin, isAdmin, cmp)
          == FirstRoleRejection(rest, existing, isSuperAdmin, isAdmin, cmp);
    }
  }

  /** The first requested role that does not exist is reported with a 400, provided every role
      before it passed. */
  lemma FirstMissingRoleReported(requested: seq<string>, i: nat, existing: map<string, string>, isSuperAdmin: bool,
                                 isAdmin: bool, cmp: NameComparison)
    requires i < |requested| && !RoleExists(existing, requested[i])
    requires forall j :: 0 <= j < i ==> RoleRejection(requested[j], existing, isSuperAdmin, isAdmin, cmp).None?
    ensures FirstRoleRejection(requested, existing, isSuperAdmin, isAdmin, cmp) == Some(RoleDoesNotExist(requested[i]))
    ensures StatusCode(Error(RoleDoesNotExist(requested[i]))) == 400
  {
    FirstRejectionAt(requested, i, existing, isSuperAdmin, isAdmin, cmp);
  }

  /** Another user (a different id) already has `normalized` as its normalized name. */
  predicate NameTakenByOther(users: map<Guid, AppUser>, id: Guid, normalized: string)
  {
    exists other :: other in users && other != id && users[other].normalizedUserName == normalized
  }

  /** The request asks for a non-blank user name different from the current one. */
  predicate WantsRename(user: AppUser, userName: Option<string>)
  {
    !IsNullOrWhiteSpace(userName) && user.userName != userName.value
  }

  /** The identity store's `SetUserNameAsync`: the new name and its normalized form. */
  function WithUserName(user: AppUser, name: string): AppUser
  {
    user.(userName := name, normalizedUserName := ToUpper(name))
  }

  /** The username step: nothing to do for a blank or unchanged name; a name whose upper-cased
      form another user holds is refused with 409; otherwise the store renames the user, or
      fails and changes nothing. */
  function Rename(users: map<Guid, AppUser>, id: Guid, userName: Option<string>, setUserNameSucceeds: bool)
    : (r: Result<map<Guid, AppUser>, UpdateError>)
    requires id in users
    ensures !WantsRename(users[id], userName) ==> r == Success(users)
    ensures WantsRename(users[id], userName) ==>
      (r == Failure(UserNameTaken) <==> NameTakenByOther(users, id, ToUpper(userName.value)))
    ensures r.Failure? ==> r.error == UserNameTaken || r.error == UserNameUpdateFailed
    ensures r.Success? ==> r.value.Keys == users.Keys && r.value[id].roles == users[id].roles
    ensures r.Success? ==> forall other :: other in users && other != id ==> r.value[other] == users[other]
    ensures r.Success? && WantsRename(users[id], userName) ==>
      r.value[id].userName == userName.value && !NameTakenByOther(r.value, id, r.value[id].normalizedUserName)
    ensures WantsRename(users[id], userName) && !NameTakenByOther(users, id, ToUpper(userName.value)) ==>
      (r.Success? <==> setUserNameSucceeds)
    ensures r.Success? && WantsRename(users[id], userName) ==> r.value[id] == WithUserName(users[id], userName.value)
  {
    if !WantsRename(users[id], userName) then Success(users)
    else if NameTakenByOther(users, id, ToUpper(userName.value)) then Failure(UserNameTaken)
    else if !setUserNameSucceeds then Failure(UserNameUpdateFailed)
    else Success(users[id := WithUserName(users[id], userName.value)])
  }

  /** The error of the role step (if any) and the users it leaves. */
  datatype RoleStep = RoleStep(error: Option<UpdateError>, users: map<Guid, AppUser>)

  /** `AddToRolesAsync`'s effect: the stored names of the roles the requested names find. */
  function GrantedRoles(requested: seq<string>, existing: map<string, string>): set<string>
  {
    set r | r in requested && RoleExists(existing, r) :: existing[NormalizedRoleName(r)]
  }

  /** The role step: with no roles requested nothing happens; otherwise every requested role is
      validated before anything changes, then the roles the user held are removed and the
      roles the requested names find are added. A failed removal changes nothing; a failed
      addition leaves the user with the removal done. */
  function ReplaceRoles(users: map<Guid, AppUser>, id: Guid, currentRoles: set<string>, requested: Option<seq<string>>,
                        existing: map<string, string>, isSuperAdmin: bool, isAdmin: bool, outcomes: StoreOutcomes,
                        cmp: NameComparison): (r: RoleStep)
    requires id in users
    ensures r.users.Keys == users.Keys
    ensures forall other :: other in users && other != id ==> r.users[other] == users[other]
    ensures r.users[id].userName == users[id].userName
    ensures r.users[id].normalizedUserName == users[id].normalizedUserName
    ensures requested.None? || requested.value == [] ==> r == RoleStep(None, users)
    ensures requested.Some? && requested.value != [] ==>
      var rejection := FirstRoleRejection(requested.value, existing, isSuperAdmin, isAdmin, cmp);
      rejection.Some? ==> r == RoleStep(rejection, users)
    ensures r.error.None? && requested.Some? && requested.value != [] && currentRoles == users[id].roles ==>
      r.users[id].roles == GrantedRoles(requested.value, existing) &&
      forall k :: 0 <= k < |requested.value| ==> RoleExists(existing, requested.value[k])
    // The two identity-store calls, once every requested role passed: a failed removal
    // changes nothing, a failed addition keeps the removal, and both succeeding is success.
    ensures requested.Some? && requested.value != [] &&
            FirstRoleRejection(requested.value, existing, isSuperAdmin, isAdmin, cmp).None? ==>
      (currentRoles != {} && !outcomes.removeFromRolesSucceeds ==> r == RoleStep(Some(RoleUpdateFailed), users)) &&
      ((currentRoles == {} || outcomes.removeFromRolesSucceeds) && !outcomes.addToRolesSucceeds ==>
         r.error == Some(RoleUpdateFailed) && r.users[id].roles == users[id].roles - currentRoles) &&
      ((currentRoles == {} || outcomes.removeFromRolesSucceeds) && outcomes.addToRolesSucceeds ==> r.error.None?)
    ensures r.error.None? && requested.Some? && requested.value != [] ==>
      outcomes.addToRolesSucceeds && (currentRoles != {} ==> outcomes.removeFromRolesSucceeds)
  {
    if requested.None? || |requested.value| == 0 then RoleStep(None, users)
    else
      var rejection := FirstRoleRejection(requested.value, existing, isSuperAdmin, isAdmin, cmp);
      if rejection.Some? then RoleStep(rejection, users)
      else if currentRoles != {} && !outcomes.removeFromRolesSucceeds then RoleStep(Some(RoleUpdateFailed), users)
      else
        var cleared := users[id := users[id].(roles := users[id].roles - currentRoles)];
        if !outcomes.addToRolesSucceeds then RoleStep(Some(RoleUpdateFailed), cleared)
        else RoleStep(None, cleared[id := cleared[id].(roles := cleared[id].roles + GrantedRoles(requested.value, existing))])
  }

  /** The profile merge: a null full name, office or governorate keeps the stored value; the
      position is always taken from the request, null included. */
  function MergeProfile(p: Profile, req: UpdateUserCommand): (r: Profile)
    ensures req.fullName.None? ==> r.fullName == p.fullName
    ensures req.fullName.Some? ==> r.fullName == req.fullName.value
    ensures r.position == req.position
    ensures req.officeId.None? ==> r.officeId == p.officeId
    ensures req.officeId.Some? ==> r.officeId == req.officeId.value
    ensures req.governorateId.None? ==> r.governorateId == p.governorateId
    ensures req.governorateId.Some? ==> r.governorateId == req.governorateId.value
  {
    Profile(req.fullName.GetOr(p.fullName), req.position, req.officeId.GetOr(p.officeId),
            req.governorateId.GetOr(p.governorateId))
  }

  /** The profiles after the merge: only the target user's profile, if it has one, changes. */
  function MergedProfiles(profiles: map<Guid, Profile>, req: UpdateUserCommand): (r: map<Guid, Profile>)
    ensures r.Keys == profiles.Keys
    ensures forall id :: id in profiles && id != req.userId ==> r[id] == profiles[id]
    ensures req.userId in profiles ==> r[req.userId] == MergeProfile(profiles[req.userId], req)
  {
    if req.userId in profiles then profiles[req.userId := MergeProfile(profiles[req.userId], req)] else profiles
  }

  /** The handler as a function of the state before the request, with the permission tests
      comparing role names as `cmp` says (`Ordinal` is the handler as written): its response
      and the state left behind. Identity-store calls persist as they happen; the profile is
      written only by the final save. A success names the target's user name as it now is. */
  function UpdateUser(s: Store, request: Option<UpdateUserCommand>, outcomes: StoreOutcomes, cmp: NameComparison): (o: Outcome)
    ensures o.store.roles == s.roles && o.store.users.Keys == s.users.Keys && o.store.profiles.Keys == s.profiles.Keys
    ensures o.response.Ok? ==>
      request.Some? && request.value.userId in o.store.users && o.response.userName == o.store.users[request.value.userId].userName
  {
    if request.None? then Outcome(Error(InvalidRequest), s)
    else if request.value.userId == EmptyGuid then Outcome(Error(InvalidUserId), s)
    else if request.value.currentUser.None? then Outcome(Error(MissingCurrentUser), s)
    else if request.value.userId !in s.users then Outcome(Error(UserNotFound), s)
    else UpdateExistingUser(s, request.value, outcomes, cmp)
  }

  /** The part of the handler after the target user was found. The profiles change only through
      a successful save, and a 200 needs both the save and the token service to succeed. */
  function UpdateExistingUser(s: Store, req: UpdateUserCommand, outcomes: StoreOutcomes, cmp: NameComparison): (o: Outcome)
    requires req.currentUser.Some? && req.userId in s.users
    ensures o.store.roles == s.roles && o.store.users.Keys == s.users.Keys
    ensures o.store.profiles == s.profiles || (outcomes.saveSucceeds && o.store.profiles == MergedProfiles(s.profiles, req))
    ensures o.response.Ok? ==> outcomes.saveSucceeds && outcomes.createTokenSucceeds
    ensures o.response.Ok? ==> o.response.userName == o.store.users[req.userId].userName
    ensures o.response.Ok? && WantsRename(s.users[req.userId], req.userName) ==> outcomes.setUserNameSucceeds
    ensures o.response.Ok? && req.roles.Some? && req.roles.value != [] ==>
      outcomes.addToRolesSucceeds && (s.users[req.userId].roles != {} ==> outcomes.removeFromRolesSucceeds)
  {
    var callerRoles := RolesOf(s.users, req.currentUser.value);
    if AdminBlockedFrom(callerRoles, s.users[req.userId].roles) then Outcome(Error(AdminCannotModifyPrivilegedUser), s)
    else
      match Rename(s.users, req.userId, req.userName, outcomes.setUserNameSucceeds)
      case Failure(e) => Outcome(Error(e), s)
      case Success(renamed) => UpdateRenamedUser(s, renamed, req, outcomes, cmp)
  }

  /** The steps after the username step, given the users it left: the role step, the profile
      save and the token. The permission tests use the roles read before the rename. */
  function UpdateRenamedUser(s: Store, renamed: map<Guid, AppUser>, req: UpdateUserCommand, outcomes: StoreOutcomes,
                             cmp: NameComparison): (o: Outcome)
    requires req.currentUser.Some? && req.userId in s.users && renamed.Keys == s.users.Keys
    ensures o.store.roles == s.roles && o.store.users.Keys == s.users.Keys
    ensures o.store.profiles == s.profiles || (outcomes.saveSucceeds && o.store.profiles == MergedProfiles(s.profiles, req))
    ensures o.response.Ok? ==> outcomes.saveSucceeds && outcomes.createTokenSucceeds
    ensures o.response.Ok? ==> o.response.userName == o.store.users[req.userId].userName
    ensures o.response.Ok? && req.roles.Some? && req.roles.value != [] ==>
      outcomes.addToRolesSucceeds && (s.users[req.userId].roles != {} ==> outcomes.removeFromRolesSucceeds)
  {
    var callerRoles := RolesOf(s.users, req.currentUser.value);
    var step := ReplaceRoles(renamed, req.userId, s.users[req.userId].roles, req.roles, s.roles,
                             SuperAdminRole in callerRoles, AdminRole in callerRoles, outcomes, cmp);
    var afterRoles := s.(users := step.users);
    if step.error.Some? then Outcome(Error(step.error.value), afterRoles)
    else if !outcomes.saveSucceeds then Outcome(Error(SaveFailed), afterRoles)
    else
      var saved := afterRoles.(profiles := MergedProfiles(s.profiles, req));
      if !outcomes.createTokenSucceeds then Outcome(Error(UnexpectedError), saved)
      else Outcome(Ok(saved.users[req.userId].userName), saved)
  }

  /** After the username step the users are those the role step leaves, and a role-step error
      is the response. */
  lemma RenamedUserRoleStep(s: Store, renamed: map<Guid, AppUser>, req: UpdateUserCommand, outcomes: StoreOutcomes,
                            cmp: NameComparison)
    requires req.currentUser.Some? && req.userId in s.users && renamed.Keys == s.users.Keys
    ensures var callerRoles := RolesOf(s.users, req.currentUser.value);
      var step := ReplaceRoles(renamed, req.userId, s.users[req.userId].roles, req.roles, s.roles,
                               SuperAdminRole in callerRoles, AdminRole in callerRoles, outcomes, cmp);
      var o := UpdateRenamedUser(s, renamed, req, outcomes, cmp);
      o.store.users == step.users && (step.error.Some? ==> o.response == Error(step.error.value))
  {
  }

  /** The user the request targets (none without a request). */
  function Target(request: Option<UpdateUserCommand>): Guid
  {
    if request.Some? then request.value.userId else EmptyGuid
  }

  /** The request passes the checks before the permission test: it is present, names a user
      id, has a caller, and the target user exists. */
  predicate Admitted(s: Store, req: UpdateUserCommand)
  {
    req.userId != EmptyGuid && req.currentUser.Some? && req.userId in s.users
  }

  /** The roles of the caller as the handler reads them. */
  function CallerRoles(s: Store, req: UpdateUserCommand): set<string>
    requires req.currentUser.Some?
  {
    RolesOf(s.users, req.currentUser.value)
  }

  /** The caller is SuperAdmin without also being Admin: the only caller the permission tests
      let hand out Admin or SuperAdmin. */
  predicate PureSuperAdmin(s: Store, req: UpdateUserCommand)
    requires req.currentUser.Some?
  {
    SuperAdminRole in CallerRoles(s, req) && AdminRole !in CallerRoles(s, req)
  }

  /** The early checks run in order (no request, empty id: 400; no caller: 401; unknown
      target: 404) and none of them changes anything. */
  lemma EarlyChecksChangeNothing(s: Store, request: Option<UpdateUserCommand>, outcomes: StoreOutcomes, cmp: NameComparison)
    ensures request.None? ==> UpdateUser(s, request, outcomes, cmp) == Outcome(Error(InvalidRequest), s)
    ensures request.Some? && request.value.userId == EmptyGuid ==>
      UpdateUser(s, request, outcomes, cmp) == Outcome(Error(InvalidUserId), s)
    ensures request.Some? && request.value.userId != EmptyGuid && request.value.currentUser.None? ==>
      UpdateUser(s, request, outcomes, cmp) == Outcome(Error(MissingCurrentUser), s)
    ensures request.Some? && request.value.userId != EmptyGuid && request.value.currentUser.Some? &&
            request.value.userId !in s.users ==>
      UpdateUser(s, request, outcomes, cmp) == Outcome(Error(UserNotFound), s)
  {
  }

  /** An Admin who is not SuperAdmin gets 403 for a target holding Admin or SuperAdmin, and
      nothing changes. */
  lemma AdminCannotModifyPrivileged(s: Store, req: UpdateUserCommand, outcomes: StoreOutcomes, cmp: NameComparison)
    requires Admitted(s, req)
    requires AdminRole in CallerRoles(s, req) && SuperAdminRole !in CallerRoles(s, req)
    requires IsPrivileged(s.users[req.userId].roles)
    ensures UpdateUser(s, Some(req), outcomes, cmp) == Outcome(Error(AdminCannotModifyPrivilegedUser), s)
    ensures StatusCode(UpdateUser(s, Some(req), outcomes, cmp).response) == 403
  {
  }

  /** A non-blank new user name whose upper-cased form another user already has as its
      normalized name gets 409, and nothing changes. */
  lemma UserNameConflict(s: Store, req: UpdateUserCommand, outcomes: StoreOutcomes, cmp: NameComparison)
    requires Admitted(s, req) && !AdminBlockedFrom(CallerRoles(s, req), s.users[req.userId].roles)
    requires WantsRename(s.users[req.userId], req.userName)
    requires NameTakenByOther(s.users, req.userId, ToUpper(req.userName.value))
    ensures UpdateUser(s, Some(req), outcomes, cmp) == Outcome(Error(UserNameTaken), s)
    ensures StatusCode(UpdateUser(s, Some(req), outcomes, cmp).response) == 409
  {
  }

  /** Asking for a role name the permission tests read as Admin or SuperAdmin (under the
      handler's exact comparison: the strings "Admin" and "SuperAdmin") when the caller is
      not SuperAdmin, or is also Admin, never succeeds and leaves every user's roles as they
      were. When that role exists, every role before it passes and the username step went
      through, the answer is a 403. */
  lemma PrivilegedRoleNeedsPureSuperAdmin(s: Store, req: UpdateUserCommand, outcomes: StoreOutcomes, cmp: NameComparison, k: nat)
    requires Admitted(s, req) && req.roles.Some? && k < |req.roles.value|
    requires NamesPrivilegedRole(cmp, req.roles.value[k])
    requires !PureSuperAdmin(s, req)
    ensures UpdateUser(s, Some(req), outcomes, cmp).response.Error?
    ensures forall id :: id in s.users ==> UpdateUser(s, Some(req), outcomes, cmp).store.users[id].roles == s.users[id].roles
    ensures RoleExists(s.roles, req.roles.value[k]) &&
            (forall j :: 0 <= j < k ==> RoleRejection(req.roles.value[j], s.roles, SuperAdminRole in CallerRoles(s, req),
                                                      AdminRole in CallerRoles(s, req), cmp).None?) &&
            !AdminBlockedFrom(CallerRoles(s, req), s.users[req.userId].roles) &&
            Rename(s.users, req.userId, req.userName, outcomes.setUserNameSucceeds).Success? ==>
      StatusCode(UpdateUser(s, Some(req), outcomes, cmp).response) == 403
  {
    var callerRoles := CallerRoles(s, req);
    var isSuperAdmin, isAdmin := SuperAdminRole in callerRoles, AdminRole in callerRoles;
    var requested := req.roles.value;
    assert RoleRejection(requested[k], s.roles, isSuperAdmin, isAdmin, cmp).Some?;
    var rejection := FirstRoleRejection(requested, s.roles, isSuperAdmin, isAdmin, cmp);
    RejectedRolesChangeNoRoles(s, req, outcomes, cmp);
    if RoleExists(s.roles, requested[k]) &&
       (forall j :: 0 <= j < k ==> RoleRejection(requested[j], s.roles, isSuperAdmin, isAdmin, cmp).None?) {
      FirstRejectionAt(requested, k, s.roles, isSuperAdmin, isAdmin, cmp);
    }
  }

  /** A request with a rejected role is answered with an error and leaves every user's roles
      as they were; past the permission test on the target and the username step, the error
      is the rejection of the first failing role. */
  lemma RejectedRolesChangeNoRoles(s: Store, req: UpdateUserCommand, outcomes: StoreOutcomes, cmp: NameComparison)
    requires Admitted(s, req) && req.roles.Some?
    requires FirstRoleRejection(req.roles.value, s.roles, SuperAdminRole in CallerRoles(s, req),
                                AdminRole in CallerRoles(s, req), cmp).Some?
    ensures UpdateUser(s, Some(req), outcomes, cmp).response.Error?
    ensures forall id :: id in s.users ==> UpdateUser(s, Some(req), outcomes, cmp).store.users[id].roles == s.users[id].roles
    ensures !AdminBlockedFrom(CallerRoles(s, req), s.users[req.userId].roles) &&
            Rename(s.users, req.userId, req.userName, outcomes.setUserNameSucceeds).Success? ==>
      UpdateUser(s, Some(req), outcomes, cmp).response ==
      Error(FirstRoleRejection(req.roles.value, s.roles, SuperAdminRole in CallerRoles(s, req),
                               AdminRole in CallerRoles(s, req), cmp).value)
  {
    var callerRoles := CallerRoles(s, req);
    var isSuperAdmin, isAdmin := SuperAdminRole in callerRoles, AdminRole in callerRoles;
    var rejection := FirstRoleRejection(req.roles.value, s.roles, isSuperAdmin, isAdmin, cmp);
    if !AdminBlockedFrom(callerRoles, s.users[req.userId].roles) {
      var renamed := Rename(s.users, req.userId, req.userName, outcomes.setUserNameSucceeds);
      if renamed.Success? {
        var step := ReplaceRoles(renamed.value, req.userId, s.users[req.userId].roles, req.roles, s.roles,
                                 isSuperAdmin, isAdmin, outcomes, cmp);
        assert step == RoleStep(rejection, renamed.value);
        RenamedUserRoleStep(s, renamed.value, req, outcomes, cmp);
      }
    }
  }

  /** A rename done before the role check is kept when a requested role is then rejected,
      and the roles stay as they were. */
  lemma RenameSurvivesRoleRejection(s: Store, req: UpdateUserCommand, outcomes: StoreOutcomes, cmp: NameComparison)
    requires Admitted(s, req) && !AdminBlockedFrom(CallerRoles(s, req), s.users[req.userId].roles)
    requires WantsRename(s.users[req.userId], req.userName)
    requires !NameTakenByOther(s.users, req.userId, ToUpper(req.userName.value))
    requires outcomes.setUserNameSucceeds && req.roles.Some?
    requires FirstRoleRejection(req.roles.value, s.roles, SuperAdminRole in CallerRoles(s, req),
                                AdminRole in CallerRoles(s, req), cmp).Some?
    ensures var o := UpdateUser(s, Some(req), outcomes, cmp);
      o.response.Error? && o.store.users[req.userId].userName == req.userName.value &&
      o.store.users[req.userId].roles == s.users[req.userId].roles && o.store.profiles == s.profiles
  {
  }

  /** A wanted, free user name that the store then fails to set: 400, and nothing changes. */
  lemma FailedRenameChangesNothing(s: Store, req: UpdateUserCommand, outcomes: StoreOutcomes, cmp: NameComparison)
    requires Admitted(s, req) && !AdminBlockedFrom(CallerRoles(s, req), s.users[req.userId].roles)
    requires WantsRename(s.users[req.userId], req.userName)
    requires !NameTakenByOther(s.users, req.userId, ToUpper(req.userName.value))
    requires !outcomes.setUserNameSucceeds
    ensures UpdateUser(s, Some(req), outcomes, cmp) == Outcome(Error(UserNameUpdateFailed), s)
    ensures StatusCode(UpdateUser(s, Some(req), outcomes, cmp).response) == 400
  {
  }

  /** The role step as the handler runs it, once the username step went through. */
  function RoleStepOf(s: Store, req: UpdateUserCommand, outcomes: StoreOutcomes, cmp: NameComparison): RoleStep
    requires Admitted(s, req) && Rename(s.users, req.userId, req.userName, outcomes.setUserNameSucceeds).Success?
  {
    ReplaceRoles(Rename(s.users, req.userId, req.userName, outcomes.setUserNameSucceeds).value, req.userId,
                 s.users[req.userId].roles, req.roles, s.roles,
                 SuperAdminRole in CallerRoles(s, req), AdminRole in CallerRoles(s, req), outcomes, cmp)
  }

  /** Everything up to the save went through, but the save fails: 500. The rename and the role
      change are already persisted; no profile is written. */
  lemma FailedSaveKeepsIdentityChanges(s: Store, req: UpdateUserCommand, outcomes: StoreOutcomes, cmp: NameComparison)
    requires Admitted(s, req) && !AdminBlockedFrom(CallerRoles(s, req), s.users[req.userId].roles)
    requires Rename(s.users, req.userId, req.userName, outcomes.setUserNameSucceeds).Success?
    requires RoleStepOf(s, req, outcomes, cmp).error.None? && !outcomes.saveSucceeds
    ensures UpdateUser(s, Some(req), outcomes, cmp) ==
            Outcome(Error(SaveFailed), s.(users := RoleStepOf(s, req, outcomes, cmp).users))
    ensures StatusCode(UpdateUser(s, Some(req), outcomes, cmp).response) == 500
    ensures UpdateUser(s, Some(req), outcomes, cmp).store.users[req.userId].userName ==
            (if WantsRename(s.users[req.userId], req.userName) then req.userName.value else s.users[req.userId].userName)
  {
    RenamedUserRoleStep(s, Rename(s.users, req.userId, req.userName, outcomes.setUserNameSucceeds).value, req, outcomes, cmp);
  }

  /** The save went through but the token service throws: the catch-all answers 500 after the
      rename, the role change and the merged profile were all persisted. */
  lemma TokenFailureAfterSave(s: Store, req: UpdateUserCommand, outcomes: StoreOutcomes, cmp: NameComparison)
    requires Admitted(s, req) && !AdminBlockedFrom(CallerRoles(s, req), s.users[req.userId].roles)
    requires Rename(s.users, req.userId, req.userName, outcomes.setUserNameSucceeds).Success?
    requires RoleStepOf(s, req, outcomes, cmp).error.None?
    requires outcomes.saveSucceeds && !outcomes.createTokenSucceeds
    ensures UpdateUser(s, Some(req), outcomes, cmp) ==
            Outcome(Error(UnexpectedError),
                    s.(users := RoleStepOf(s, req, outcomes, cmp).users, profiles := MergedProfiles(s.profiles, req)))
    ensures StatusCode(UpdateUser(s, Some(req), outcomes, cmp).response) == 500
  {
    RenamedUserRoleStep(s, Rename(s.users, req.userId, req.userName, outcomes.setUserNameSucceeds).value, req, outcomes, cmp);
  }

  /** Every requested role passes, but the store fails to remove the roles the target held:
      400, and the roles stay as they were (a rename done before is kept). */
  lemma FailedRoleRemovalKeepsRoles(s: Store, req: UpdateUserCommand, outcomes: StoreOutcomes, cmp: NameComparison)
    requires Admitted(s, req) && !AdminBlockedFrom(CallerRoles(s, req), s.users[req.userId].roles)
    requires Rename(s.users, req.userId, req.userName, outcomes.setUserNameSucceeds).Success?
    requires req.roles.Some? && req.roles.value != []
    requires FirstRoleRejection(req.roles.value, s.roles, SuperAdminRole in CallerRoles(s, req),
                                AdminRole in CallerRoles(s, req), cmp).None?
    requires s.users[req.userId].roles != {} && !outcomes.removeFromRolesSucceeds
    ensures var o := UpdateUser(s, Some(req), outcomes, cmp);
      o.response == Error(RoleUpdateFailed) && StatusCode(o.response) == 400 &&
      o.store.users == Rename(s.users, req.userId, req.userName, outcomes.setUserNameSucceeds).value &&
      o.store.users[req.userId].roles == s.users[req.userId].roles && o.store.profiles == s.profiles
  {
    RenamedUserRoleStep(s, Rename(s.users, req.userId, req.userName, outcomes.setUserNameSucceeds).value, req, outcomes, cmp);
  }

  /** Every requested role passes and the old roles are removed, but the store fails to add
      the new ones: 400, and the target is left with no role at all. A rename done before is
      kept, and no profile changes. */
  lemma FailedRoleAdditionStripsRoles(s: Store, req: UpdateUserCommand, outcomes: StoreOutcomes, cmp: NameComparison)
    requires Admitted(s, req) && !AdminBlockedFrom(CallerRoles(s, req), s.users[req.userId].roles)
    requires Rename(s.users, req.userId, req.userName, outcomes.setUserNameSucceeds).Success?
    requires req.roles.Some? && req.roles.value != []
    requires FirstRoleRejection(req.roles.value, s.roles, SuperAdminRole in CallerRoles(s, req),
                                AdminRole in CallerRoles(s, req), cmp).None?
    requires (s.users[req.userId].roles == {} || outcomes.removeFromRolesSucceeds) && !outcomes.addToRolesSucceeds
    ensures var o := UpdateUser(s, Some(req), outcomes, cmp);
      o.response == Error(RoleUpdateFailed) && StatusCode(o.response) == 400 &&
      o.store.users[req.userId].roles == {} &&
      o.store.users[req.userId].userName ==
        (if WantsRename(s.users[req.userId], req.userName) then req.userName.value else s.users[req.userId].userName) &&
      o.store.profiles == s.profiles
  {
    RenamedUserRoleStep(s, Rename(s.users, req.userId, req.userName, outcomes.setUserNameSucceeds).value, req, outcomes, cmp);
  }

  /** Conversely, a request that passes every check, with every store call succeeding, gets
      200 with the target's user name as it now stands. */
  lemma AllowedUpdateSucceeds(s: Store, req: UpdateUserCommand, outcomes: StoreOutcomes, cmp: NameComparison)
    requires Admitted(s, req) && !AdminBlockedFrom(CallerRoles(s, req), s.users[req.userId].roles)
    requires WantsRename(s.users[req.userId], req.userName) ==>
      !NameTakenByOther(s.users, req.userId, ToUpper(req.userName.value))
    requires req.roles.Some? ==>
      FirstRoleRejection(req.roles.value, s.roles, SuperAdminRole in CallerRoles(s, req), AdminRole in CallerRoles(s, req), cmp).None?
    requires outcomes == StoreOutcomes(true, true, true, true, true)
    ensures var o := UpdateUser(s, Some(req), outcomes, cmp);
      o.response.Ok? && StatusCode(o.response) == 200 && o.response.userName == o.store.users[req.userId].userName
    ensures WantsRename(s.users[req.userId], req.userName) ==>
      UpdateUser(s, Some(req), outcomes, cmp).response == Ok(req.userName.value)
  {
  }

  /** On success with a non-empty role list the target holds exactly the roles the requested
      names find (their stored names), and every requested name found a role; with no list,
      or an empty one, nobody's roles change whatever the outcome. */
  lemma RolesReplaced(s: Store, req: UpdateUserCommand, outcomes: StoreOutcomes, cmp: NameComparison)
    requires Admitted(s, req)
    ensures var o := UpdateUser(s, Some(req), outcomes, cmp);
      o.response.Ok? && req.roles.Some? && req.roles.value != [] ==>
        o.store.users[req.userId].roles == GrantedRoles(req.roles.value, s.roles) &&
        forall k :: 0 <= k < |req.roles.value| ==> RoleExists(s.roles, req.roles.value[k])
    ensures var o := UpdateUser(s, Some(req), outcomes, cmp);
      req.roles.None? || req.roles.value == [] ==>
        forall id :: id in s.users ==> o.store.users[id].roles == s.users[id].roles
  {
  }

  /** When the requested names are the roles' stored names, the roles granted are exactly the
      requested names. */
  lemma GrantedRolesOfStoredNames(requested: seq<string>, existing: map<string, string>)
    requires forall k :: 0 <= k < |requested| ==>
      RoleExists(existing, requested[k]) && existing[NormalizedRoleName(requested[k])] == requested[k]
    ensures GrantedRoles(requested, existing) == set r | r in requested
  {
  }

  /** On success the target's profile, if it has one, is the merge of the stored profile and
      the request; a failure before the save leaves every profile as it was. */
  lemma ProfileMergedOnSuccess(s: Store, req: UpdateUserCommand, outcomes: StoreOutcomes, cmp: NameComparison)
    requires Admitted(s, req)
    ensures var o := UpdateUser(s, Some(req), outcomes, cmp);
      o.response.Ok? && req.userId in s.profiles ==> o.store.profiles[req.userId] == MergeProfile(s.profiles[req.userId], req)
    ensures var o := UpdateUser(s, Some(req), outcomes, cmp);
      o.response.Error? && o.response.error != UnexpectedError ==> o.store.profiles == s.profiles
  {
  }

  /** Whatever happens, the role table stays as it was, no user or profile appears or
      disappears, and only the target's user record and profile can change. */
  lemma OnlyTargetChanges(s: Store, request: Option<UpdateUserCommand>, outcomes: StoreOutcomes, cmp: NameComparison)
    ensures var o := UpdateUser(s, request, outcomes, cmp);
      o.store.roles == s.roles && o.store.users.Keys == s.users.Keys && o.store.profiles.Keys == s.profiles.Keys
    ensures var o := UpdateUser(s, request, outcomes, cmp);
      forall id :: id in s.users && id != Target(request) ==> o.store.users[id] == s.users[id]
    ensures var o := UpdateUser(s, request, outcomes, cmp);
      forall id :: id in s.profiles && id != Target(request) ==> o.store.profiles[id] == s.profiles[id]
  {
  }

  /** No two users share a normalized user name. */
  predicate UniqueNormalizedNames(users: map<Guid, AppUser>)
  {
    forall a, b :: a in users && b in users && a != b ==> users[a].normalizedUserName != users[b].normalizedUserName
  }

  /** The handler keeps normalized user names unique: the conflict check refuses a name another
      user holds, and nothing else touches names. */
  lemma UpdatePreservesUniqueNames(s: Store, request: Option<UpdateUserCommand>, outcomes: StoreOutcomes, cmp: NameComparison)
    requires UniqueNormalizedNames(s.users)
    ensures UniqueNormalizedNames(UpdateUser(s, request, outcomes, cmp).store.users)
  {
    if request.Some? && Admitted(s, request.value) {
      UpdateExistingUserKeepsUniqueNames(s, request.value, outcomes, cmp);
    }
  }

  /** The same, past the early checks: the rename refuses a taken name and the role step
      touches no name. */
  lemma UpdateExistingUserKeepsUniqueNames(s: Store, req: UpdateUserCommand, outcomes: StoreOutcomes, cmp: NameComparison)
    requires Admitted(s, req) && UniqueNormalizedNames(s.users)
    ensures UniqueNormalizedNames(UpdateExistingUser(s, req, outcomes, cmp).store.users)
  {
    var callerRoles := CallerRoles(s, req);
    if !AdminBlockedFrom(callerRoles, s.users[req.userId].roles) {
      var renamed := Rename(s.users, req.userId, req.userName, outcomes.setUserNameSucceeds);
      if renamed.Success? {
        RenameKeepsUniqueNames(s.users, req.userId, req.userName, outcomes.setUserNameSucceeds);
        RenamedUserRoleStep(s, renamed.value, req, outcomes, cmp);
      }
    }
  }

  /** The username step keeps normalized user names unique. */
  lemma RenameKeepsUniqueNames(users: map<Guid, AppUser>, id: Guid, userName: Option<string>, setUserNameSucceeds: bool)
    requires id in users && UniqueNormalizedNames(users)
    ensures var r := Rename(users, id, userName, setUserNameSucceeds);
      r.Success? ==> UniqueNormalizedNames(r.value)
  {
  }

  /** Every user's normalized name is the upper-cased form of its user name, as the identity
      store keeps it; the conflict check relies on this. */
  predicate NormalizedNamesConsistent(users: map<Guid, AppUser>)
  {
    forall u :: u in users ==> users[u].normalizedUserName == ToUpper(users[u].userName)
  }

  /** The handler keeps every normalized name in step with its user name. */
  lemma UpdateKeepsNormalizedNamesConsistent(s: Store, request: Option<UpdateUserCommand>, outcomes: StoreOutcomes,
                                             cmp: NameComparison)
    requires NormalizedNamesConsistent(s.users)
    ensures NormalizedNamesConsistent(UpdateUser(s, request, outcomes, cmp).store.users)
  {
    if request.Some? && Admitted(s, request.value) {
      UpdateExistingUserKeepsNamesConsistent(s, request.value, outcomes, cmp);
    }
  }

  /** The same, past the early checks. */
  lemma UpdateExistingUserKeepsNamesConsistent(s: Store, req: UpdateUserCommand, outcomes: StoreOutcomes, cmp: NameComparison)
    requires Admitted(s, req) && NormalizedNamesConsistent(s.users)
    ensures NormalizedNamesConsistent(UpdateExistingUser(s, req, outcomes, cmp).store.users)
  {
    if !AdminBlockedFrom(CallerRoles(s, req), s.users[req.userId].roles) {
      var renamed := Rename(s.users, req.userId, req.userName, outcomes.setUserNameSucceeds);
      if renamed.Success? {
        RenameKeepsNamesConsistent(s.users, req.userId, req.userName, outcomes.setUserNameSucceeds);
        RenamedUserRoleStep(s, renamed.value, req, outcomes, cmp);
      }
    }
  }

  /** A successful username step stores the upper-cased name as the normalized name. */
  lemma RenameKeepsNamesConsistent(users: map<Guid, AppUser>, id: Guid, userName: Option<string>, setUserNameSucceeds: bool)
    requires id in users && NormalizedNamesConsistent(users)
    ensures var r := Rename(users, id, userName, setUserNameSucceeds);
      r.Success? ==> NormalizedNamesConsistent(r.value)
  {
  }

  // The permission tests compare the requested name with "Admin" and "SuperAdmin" exactly,
  // while the role lookup and the role assignment go by normalized name. A case variant of a
  // privileged role's name therefore passes the tests and still grants that role.

  /** A store with the roles Admin, SuperAdmin and User; user 1 is an Admin, user 2 a User. */
  function EscalationStore(): (s: Store)
    ensures RolesWellFormed(s.roles)
  {
    Store(map[1 := AppUser("admin1", "ADMIN1", {AdminRole}), 2 := AppUser("user2", "USER2", {"User"})],
          map["ADMIN" := AdminRole, "SUPERADMIN" := SuperAdminRole, "USER" := "User"],
          map[])
  }

  /** The Admin (user 1) asks for the role "superadmin" to be given to user 2. */
  function EscalationRequest(): UpdateUserCommand
  {
    UpdateUserCommand(2, Some(1), None, Some(["superadmin"]), None, None, None, None)
  }

  const AllSucceed := StoreOutcomes(true, true, true, true, true)

  /** As written, the Admin's request succeeds and makes user 2 a SuperAdmin. */
  lemma OrdinalChecksLetAdminGrantSuperAdmin()
    ensures var o := UpdateUser(EscalationStore(), Some(EscalationRequest()), AllSucceed, Ordinal);
      o.response == Ok("user2") && o.store.users[2].roles == {SuperAdminRole}
  {
    var s := EscalationStore();
    assert NormalizedRoleName("superadmin") == "SUPERADMIN";
    assert GrantedRoles(["superadmin"], s.roles) == {SuperAdminRole};
  }

  /** With the tests on normalized names, the same request gets a 403 and changes nothing. */
  lemma NormalizedChecksRefuseEscalationRequest()
    ensures UpdateUser(EscalationStore(), Some(EscalationRequest()), AllSucceed, Normalized)
         == Outcome(Error(OnlySuperAdminAssignsSuperAdmin), EscalationStore())
  {
    assert NormalizedRoleName("superadmin") == NormalizedRoleName(SuperAdminRole) == "SUPERADMIN";
  }

  /** With the tests on normalized names, a caller who is not SuperAdmin-and-not-Admin can make
      nobody Admin or SuperAdmin: no user holds either role after the request unless it held
      it before. */
  lemma NormalizedChecksPreventEscalation(s: Store, request: Option<UpdateUserCommand>, outcomes: StoreOutcomes)
    requires RolesWellFormed(s.roles)
    requires request.Some? && request.value.currentUser.Some? && !PureSuperAdmin(s, request.value)
    ensures var o := UpdateUser(s, request, outcomes, Normalized);
      forall id :: id in s.users && IsPrivileged(o.store.users[id].roles) ==>
        (SuperAdminRole in o.store.users[id].roles ==> SuperAdminRole in s.users[id].roles) &&
        (AdminRole in o.store.users[id].roles ==> AdminRole in s.users[id].roles)
  {
    var req := request.value;
    if Admitted(s, req) {
      var callerRoles := CallerRoles(s, req);
      var isSuperAdmin, isAdmin := SuperAdminRole in callerRoles, AdminRole in callerRoles;
      if !AdminBlockedFrom(callerRoles, s.users[req.userId].roles) {
        var renamed := Rename(s.users, req.userId, req.userName, outcomes.setUserNameSucceeds);
        if renamed.Success? {
          RoleStepGrantsNoPrivilegedRole(renamed.value, req.userId, s.users[req.userId].roles, req.roles, s.roles,
                                         isSuperAdmin, isAdmin, outcomes);
          RenamedUserRoleStep(s, renamed.value, req, outcomes, Normalized);
        }
      }
    }
  }

  /** The role step with the tests on normalized names, for a caller who is not a SuperAdmin
      without Admin, gives nobody Admin or SuperAdmin. */
  lemma RoleStepGrantsNoPrivilegedRole(users: map<Guid, AppUser>, id: Guid, currentRoles: set<string>,
                                       requested: Option<seq<string>>, existing: map<string, string>,
                                       isSuperAdmin: bool, isAdmin: bool, outcomes: StoreOutcomes)
    requires id in users && RolesWellFormed(existing) && !(isSuperAdmin && !isAdmin)
    ensures var step := ReplaceRoles(users, id, currentRoles, requested, existing, isSuperAdmin, isAdmin, outcomes, Normalized);
      forall u :: u in users ==>
        (SuperAdminRole in step.users[u].roles ==> SuperAdminRole in users[u].roles) &&
        (AdminRole in step.users[u].roles ==> AdminRole in users[u].roles)
  {
    if requested.Some? && requested.value != [] &&
       FirstRoleRejection(requested.value, existing, isSuperAdmin, isAdmin, Normalized).None? {
      GrantsNoPrivilegedRole(requested.value, existing, isSuperAdmin, isAdmin);
    }
  }

  /** When every requested name passes the tests on normalized names and the caller is not a
      SuperAdmin without Admin, none of the roles the names find is Admin or SuperAdmin. */
  lemma GrantsNoPrivilegedRole(requested: seq<string>, existing: map<string, string>, isSuperAdmin: bool, isAdmin: bool)
    requires RolesWellFormed(existing) && !(isSuperAdmin && !isAdmin)
    requires FirstRoleRejection(requested, existing, isSuperAdmin, isAdmin, Normalized).None?
    ensures SuperAdminRole !in GrantedRoles(requested, existing) && AdminRole !in GrantedRoles(requested, existing)
  {
    forall name | name in GrantedRoles(requested, existing)
      ensures name != SuperAdminRole && name != AdminRole
    {
      var r :| r in requested && RoleExists(existing, r) && name == existing[NormalizedRoleName(r)];
      assert NormalizedRoleName(name) == NormalizedRoleName(r);
      var i :| 0 <= i < |requested| && requested[i] == r;
      assert RoleRejection(requested[i], existing, isSuperAdmin, isAdmin, Normalized).None?;
    }
  }
}
