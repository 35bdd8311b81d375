/** The user-update handler as the step-by-step method it is, over in-memory stand-ins for the
    identity user manager, the role manager, the profile repository and the unit of work. Its
    contract ties the response and the stores' new state to the reference function
    `UserUpdate.UpdateUser`. */
module UpdateUserHandler {
  import opened Common
  import opened UserUpdate

  /** The identity user manager over an in-memory user table. Each call that changes a user
      persists at once, or fails and changes nothing. */
  class UserManager {
    var users: map<Guid, AppUser>

    /** `FindByIdAsync`: the user with that id, or null. */
    method FindById(id: Guid) returns (user: Option<AppUser>)
      ensures user.Some? <==> id in users
      ensures user.Some? ==> user.value == users[id]
    {
      user := if id in users then Some(users[id]) else None;
    }

    /** `GetRolesAsync`: the roles held by the user with that id. */
    method GetRoles(id: Guid) returns (roles: set<string>)
      ensures id in users ==> roles == users[id].roles
      ensures id !in users ==> roles == {}
    {
      roles := if id in users then users[id].roles else {};
    }

    /** The query for a user with another id whose normalized name is `normalized`. */
    method AnyOtherWithNormalizedName(normalized: string, id: Guid) returns (found: bool)
      ensures found <==> exists other :: other in users && other != id && users[other].normalizedUserName == normalized
    {
      found := NameTakenByOther(users, id, normalized);
    }

    /** `SetUserNameAsync`: stores the name and its normalized form, unless the store fails. */
    method SetUserName(id: Guid, name: string, succeeds: bool) returns (ok: bool)
      requires id in users
      modifies this
      ensures ok == succeeds
      ensures users == if ok then old(users)[id := WithUserName(old(users)[id], name)] else old(users)
    {
      ok := succeeds;
      if ok {
        users := users[id := WithUserName(users[id], name)];
      }
    }

    /** `RemoveFromRolesAsync`: takes the given roles away from the user, unless the store fails. */
    method RemoveFromRoles(id: Guid, roles: set<string>, succeeds: bool) returns (ok: bool)
      requires id in users
      modifies this
      ensures ok == succeeds
      ensures users == if ok then old(users)[id := old(users)[id].(roles := old(users)[id].roles - roles)] else old(users)
    {
      ok := succeeds;
      if ok {
        users := users[id := users[id].(roles := users[id].roles - roles)];
      }
    }

    /** `AddToRolesAsync`: looks each requested name up by its normalized form in the role
        table and gives the user the role found, under the role's stored name, unless the
        store fails. */
    method AddToRoles(id: Guid, roles: seq<string>, roleTable: map<string, string>, succeeds: bool) returns (ok: bool)
      requires id in users
      modifies this
      ensures ok == succeeds
      ensures users == if ok then old(users)[id := old(users)[id].(roles := old(users)[id].roles + GrantedRoles(roles, roleTable))]
                       else old(users)
    {
      ok := succeeds;
      if ok {
        users := users[id := users[id].(roles := users[id].roles + GrantedRoles(roles, roleTable))];
      }
    }
  }

  /** The identity role manager over the role table: each role's stored name under its
      normalized name. */
  class RoleManager {
    var roles: map<string, string>

    /** `RoleExistsAsync`: looks the name up by its normalized form, so any case variant of a
        role's name finds it. */
    method RoleExists(name: string) returns (exists_: bool)
      ensures exists_ <==> NormalizedRoleName(name) in roles
    {
      exists_ := NormalizedRoleName(name) in roles;
    }
  }

  /** The profile repository: persisted profiles by user id, and the changes tracked since the
      last save. */
  class ProfileRepository {
    var profiles: map<Guid, Profile>
    var tracked: map<Guid, Profile>

    /** `SingleOrDefaultAsync` with the profile-by-user-id specification. */
    method SingleOrDefault(userId: Guid) returns (profile: Option<Profile>)
      ensures profile.Some? <==> userId in profiles
      ensures profile.Some? ==> profile.value == profiles[userId]
    {
      profile := if userId in profiles then Some(profiles[userId]) else None;
    }

    /** `UpdateAsync`: tracks the changed profile until the next save. */
    method Update(userId: Guid, profile: Profile)
      modifies this`tracked
      ensures tracked == old(tracked)[userId := profile]
    {
      tracked := tracked[userId := profile];
    }
  }

  /** The unit of work: its save writes the tracked profile changes, or fails and writes none. */
  class UnitOfWork {
    const repository: ProfileRepository

    constructor (repository: ProfileRepository)
      ensures this.repository == repository
    {
      this.repository := repository;
    }

    /** `SaveAsync`. */
    method Save(succeeds: bool) returns (saved: bool)
      modifies repository
      ensures saved == succeeds
      ensures repository.profiles == if saved then old(repository.profiles) + old(repository.tracked) else old(repository.profiles)
      ensures repository.tracked == if saved then map[] else old(repository.tracked)
    {
      saved := succeeds;
      if saved {
        repository.profiles := repository.profiles + repository.tracked;
        repository.tracked := map[];
      }
    }
  }

  class UpdateUserCommandHandler {
    const userManager: UserManager
    const roleManager: RoleManager
    const profileRepository: ProfileRepository
    const unitOfWork: UnitOfWork

    /** The unit of work saves the repository the handler writes to. */
    ghost predicate Valid()
      reads this, unitOfWork
    {
      unitOfWork.repository == profileRepository
    }

    constructor (userManager: UserManager, roleManager: RoleManager, profileRepository: ProfileRepository, unitOfWork: UnitOfWork)
      requires unitOfWork.repository == profileRepository
      ensures Valid()
      ensures this.userManager == userManager && this.roleManager == roleManager
      ensures this.profileRepository == profileRepository && this.unitOfWork == unitOfWork
    {
      this.userManager := userManager;
      this.roleManager := roleManager;
      this.profileRepository := profileRepository;
      this.unitOfWork := unitOfWork;
    }

    /** The persisted state of the stores. */
    function Snapshot(): Store
      reads this, userManager, roleManager, profileRepository
    {
      Store(userManager.users, roleManager.roles, profileRepository.profiles)
    }

    /** The `foreach` over the requested roles: the first role that does not exist, or that
        the caller may not assign, is rejected; nothing is changed either way. */
    method ValidateRoles(roles: seq<string>, isSuperAdmin: bool, isAdmin: bool) returns (rejection: Option<UpdateError>)
      ensures rejection == FirstRoleRejection(roles, roleManager.roles, isSuperAdmin, isAdmin, Ordinal)
    {
      var i := 0;
      while i < |roles|
        invariant 0 <= i <= |roles|
        invariant forall j :: 0 <= j < i ==> RoleRejection(roles[j], roleManager.roles, isSuperAdmin, isAdmin, Ordinal).None?
      {
        var roleName := roles[i];
        if RoleRejection(roleName, roleManager.roles, isSuperAdmin, isAdmin, Ordinal).Some? {
          FirstRejectionAt(roles, i, roleManager.roles, isSuperAdmin, isAdmin, Ordinal);
        }
        var roleExists := roleManager.RoleExists(roleName);
        if !roleExists {
          return Some(RoleDoesNotExist(roleName));
        }
        if roleName == SuperAdminRole && !isSuperAdmin {
          return Some(OnlySuperAdminAssignsSuperAdmin);
        }
        if roleName == AdminRole && !isSuperAdmin {
          return Some(OnlySuperAdminAssignsAdmin);
        }
        if isAdmin && (roleName == AdminRole || roleName == SuperAdminRole) {
          return Some(AdminCannotAssignPrivilegedRole);
        }
        i := i + 1;
      }
      return None;
    }

    /** The username step of `Handle`. */
    method ChangeUserName(id: Guid, user: AppUser, userName: Option<string>, setUserNameSucceeds: bool)
      returns (error: Option<UpdateError>)
      requires id in userManager.users && user == userManager.users[id]
      modifies userManager
      ensures var r := Rename(old(userManager.users), id, userName, setUserNameSucceeds);
        if r.Success? then error.None? && userManager.users == r.value
        else error == Some(r.error) && userManager.users == old(userManager.users)
    {
      if !IsNullOrWhiteSpace(userName) && user.userName != userName.value {
        var normalizedUserName := ToUpper(userName.value);
        var taken := userManager.AnyOtherWithNormalizedName(normalizedUserName, id);
        if taken {
          return Some(UserNameTaken);
        }
        var renamed := userManager.SetUserName(id, userName.value, setUserNameSucceeds);
        if !renamed {
          return Some(UserNameUpdateFailed);
        }
      }
      return None;
    }

    /** The role step of `Handle`: validate every requested role, then remove the roles the
        user held and add the requested ones. */
    method ChangeRoles(id: Guid, currentRoles: set<string>, requested: Option<seq<string>>, isSuperAdmin: bool, isAdmin: bool,
                       outcomes: StoreOutcomes) returns (error: Option<UpdateError>)
      requires id in userManager.users
      modifies userManager
      ensures var r := ReplaceRoles(old(userManager.users), id, currentRoles, requested, roleManager.roles, isSuperAdmin, isAdmin,
                               outcomes, Ordinal);
        error == r.error && userManager.users == r.users
    {
      ghost var before := userManager.users;
      if requested.Some? && |requested.value| > 0 {
        var roles := requested.value;
        var rejection := ValidateRoles(roles, isSuperAdmin, isAdmin);
        if rejection.Some? {
          return rejection;
        }
        if currentRoles != {} {
          var removed := userManager.RemoveFromRoles(id, currentRoles, outcomes.removeFromRolesSucceeds);
          if !removed {
            return Some(RoleUpdateFailed);
          }
        }
        assert currentRoles == {} ==> before[id].roles - currentRoles == before[id].roles;
        assert userManager.users == before[id := before[id].(roles := before[id].roles - currentRoles)];
        var added := userManager.AddToRoles(id, roles, roleManager.roles, outcomes.addToRolesSucceeds);
        if !added {
          return Some(RoleUpdateFailed);
        }
      }
      return None;
    }

    /** `Handle`: validates, authorises, renames, replaces the roles, merges the profile and
        saves, returning at the first failure. Each request starts with no tracked changes. */
    method Handle(request: Option<UpdateUserCommand>, outcomes: StoreOutcomes) returns (response: Response)
      requires Valid() && profileRepository.tracked == map[]
      modifies userManager, profileRepository
      ensures Outcome(response, Snapshot()) == UpdateUser(old(Snapshot()), request, outcomes, Ordinal)
      ensures roleManager.roles == old(roleManager.roles)
    {
      ghost var s := Snapshot();
      if request.None? {
        return Error(InvalidRequest);
      }
      var req := request.value;
      if req.userId == EmptyGuid {
        return Error(InvalidUserId);
      }
      if req.currentUser.None? {
        return Error(MissingCurrentUser);
      }
      var user := userManager.FindById(req.userId);
      if user.None? {
        return Error(UserNotFound);
      }

      assert UpdateUser(s, request, outcomes, Ordinal) == UpdateExistingUser(s, req, outcomes, Ordinal);
      response := UpdateFoundUser(req, user.value, outcomes);
    }

    /** The part of `Handle` after the target user was found. */
    method UpdateFoundUser(req: UpdateUserCommand, user: AppUser, outcomes: StoreOutcomes) returns (response: Response)
      requires Valid() && profileRepository.tracked == map[]
      requires req.currentUser.Some? && req.userId in userManager.users && user == userManager.users[req.userId]
      modifies userManager, profileRepository
      ensures Outcome(response, Snapshot()) == UpdateExistingUser(old(Snapshot()), req, outcomes, Ordinal)
      ensures roleManager.roles == old(roleManager.roles)
    {
      ghost var s := Snapshot();
      ghost var spec := UpdateExistingUser(s, req, outcomes, Ordinal);

      var currentUserRoles := userManager.GetRoles(req.currentUser.value);
      var isSuperAdmin := SuperAdminRole in currentUserRoles;
      var isAdmin := AdminRole in currentUserRoles;
      var userCurrentRoles := userManager.GetRoles(req.userId);

      if isAdmin && !isSuperAdmin && (SuperAdminRole in userCurrentRoles || AdminRole in userCurrentRoles) {
        return Error(AdminCannotModifyPrivilegedUser);
      }
      assert !AdminBlockedFrom(currentUserRoles, userCurrentRoles);

      ghost var renaming := Rename(s.users, req.userId, req.userName, outcomes.setUserNameSucceeds);
      var nameError := ChangeUserName(req.userId, user, req.userName, outcomes.setUserNameSucceeds);
      if nameError.Some? {
        assert spec == Outcome(Error(renaming.error), s);
        return Error(nameError.value);
      }
      assert spec == UpdateRenamedUser(s, userManager.users, req, outcomes, Ordinal);
      response := ChangeRolesAndSave(req, isSuperAdmin, isAdmin, userCurrentRoles, outcomes, s);
    }

    /** The part of `Handle` after the username step: the role step, the profile save and the
        token. `before` is the state the request found, whose roles the permission tests read. */
    method ChangeRolesAndSave(req: UpdateUserCommand, isSuperAdmin: bool, isAdmin: bool, userCurrentRoles: set<string>,
                              outcomes: StoreOutcomes, ghost before: Store) returns (response: Response)
      requires Valid() && profileRepository.tracked == map[]
      requires req.currentUser.Some? && req.userId in before.users && userManager.users.Keys == before.users.Keys
      requires before.roles == roleManager.roles && before.profiles == profileRepository.profiles
      requires isSuperAdmin == (SuperAdminRole in RolesOf(before.users, req.currentUser.value))
      requires isAdmin == (AdminRole in RolesOf(before.users, req.currentUser.value))
      requires userCurrentRoles == before.users[req.userId].roles
      modifies userManager, profileRepository
      ensures Outcome(response, Snapshot()) == UpdateRenamedUser(before, old(userManager.users), req, outcomes, Ordinal)
      ensures roleManager.roles == old(roleManager.roles)
    {
      ghost var spec := UpdateRenamedUser(before, userManager.users, req, outcomes, Ordinal);
      var userName := userManager.users[req.userId].userName;

      ghost var step := ReplaceRoles(userManager.users, req.userId, userCurrentRoles, req.roles, before.roles, isSuperAdmin,
                                     isAdmin, outcomes, Ordinal);
      ghost var afterRoles := before.(users := step.users);
      var roleError := ChangeRoles(req.userId, userCurrentRoles, req.roles, isSuperAdmin, isAdmin, outcomes);
      if roleError.Some? {
        assert spec == Outcome(Error(step.error.value), afterRoles);
        return Error(roleError.value);
      }

      var saved := MergeAndSaveProfile(req, outcomes.saveSucceeds);
      if !saved {
        assert spec == Outcome(Error(SaveFailed), afterRoles);
        return Error(SaveFailed);
      }
      ghost var final := afterRoles.(profiles := MergedProfiles(before.profiles, req));
      if !outcomes.createTokenSucceeds {
        assert spec == Outcome(Error(UnexpectedError), final);
        return Error(UnexpectedError);
      }
      assert spec == Outcome(Ok(final.users[req.userId].userName), final);
      response := Ok(userName);
    }

    /** The profile step of `Handle`: merges the request into the target's profile, if it has
        one, and saves; a failed save writes nothing. */
    method MergeAndSaveProfile(req: UpdateUserCommand, saveSucceeds: bool) returns (saved: bool)
      requires Valid() && profileRepository.tracked == map[]
      modifies profileRepository
      ensures saved == saveSucceeds
      ensures profileRepository.profiles ==
        if saved then MergedProfiles(old(profileRepository.profiles), req) else old(profileRepository.profiles)
    {
      var profile := profileRepository.SingleOrDefault(req.userId);
      if profile.Some? {
        profileRepository.Update(req.userId, MergeProfile(profile.value, req));
      }
      assert old(profileRepository.profiles) + profileRepository.tracked == MergedProfiles(old(profileRepository.profiles), req);
      saved := unitOfWork.Save(saveSucceeds);
    }
  }
}
