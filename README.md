# OMSV back office: verified model of its sequential core

The OMSV back office is an ASP.NET Core service. Controllers pass requests to MediatR
handlers, and the handlers read and write an EF Core database and the ASP.NET Core
Identity stores. Most of it is framework glue. This Dafny project models the four parts
that hold logic of their own:

- **Paging settings** (`pagination.dfy`, module `Pagination`). `PaginationParams` is a
  class with a page number (default 1) and a page size (default 10). Its setter caps the
  size at 100000 and has no lower bound. C#'s `int` is modelled as the `Int32` newtype.
- **Attendance search specification** (`attendance_filter.dfy`, module `AttendanceFilter`).
  - The filter is a pure function over an attendance row.
  - It requires the working hours to be equal, then applies five optional filters: an
    inclusive date range, office, governorate and profile.
  - Without working hours the evaluation raises, because `.Value` is read unconditionally.
  - The specification class builds its include list `[Governorate, Office, Profile]` by
    three `AddInclude` calls.
- **Attachment entity** (`attachment.dfy`, module `Attachments`). The class `AttachmentCU`
  has a constructor that stores its four arguments. `Update` rewrites only the file name
  and path. Entity type and entity id have private setters written only by the
  constructor, so they are `const`.
- **User update handler**.
  - `update_user.dfy`, module `UserUpdate`, holds the reference function `UpdateUser`. It
    maps the stores' state and a request to the response and the new state. It is built
    from:
    - the ordered role checks (`RoleRejection`, `FirstRoleRejection`);
    - the username step (`Rename`);
    - the role replacement (`ReplaceRoles`);
    - the profile merge (`MergeProfile`).

    The lemmas about the handler's behaviour are stated over `UpdateUser`.
  - `update_user_handler.dfy`, module `UpdateUserHandler`, holds in-memory classes for the
    user manager, role manager, profile repository and unit of work. `Handle` is written
    step by step over them with early returns and the `foreach` over requested roles. Its
    contract equates the response and the stores' new state with `UpdateUser`.

Calls into services the model cannot see are parameters of type `StoreOutcomes`, one flag
per call saying whether it succeeds: `SetUserNameAsync`, `RemoveFromRolesAsync`,
`AddToRolesAsync`, `SaveAsync`, and the token service, whose exception ends in the generic
500. Identity calls persist when they are made. The profile change is written only by the
final save.

With every filter null, the attendance specification does not select every row. It reads
`workingHours.Value` unconditionally, so evaluation raises (`Evaluate` returns
`Failure(NullableHasNoValue)`).

Identity is configured with `AddIdentityCore` and `AddRoles`
(OMSV1.Infrastructure/Extensions/IdentityServiceExtensions.cs:17-27), so the role manager and
the user manager look roles up by normalized (upper-cased) name. `RoleExistsAsync` therefore
finds a role under any case variant of its name, and `AddToRolesAsync` grants the role found,
under its stored name. The model keeps a role table that maps each normalized name to the
stored name. The handler's own permission tests compare the requested name with `"Admin"` and
`"SuperAdmin"` exactly. The reference function and its lemmas take the comparison as a
parameter: `Ordinal` is the handler as written, and `Normalized` compares normalized names.
`Handle` is proved against `Ordinal`. The general lemmas hold for both comparisons, and the
no-escalation theorem holds for `Normalized` (see Findings).

## Model

| member | source | states |
|---|---|---|
| `Pagination.ClampPageSize` | OMSV1.Infrastructure/Helpers/PaginationParams.cs:7-14 | The stored size is the smaller of the requested size and 100000: it never exceeds either, and it is one of them |
| `Pagination.ClampKeepsSmallSizes` | OMSV1.Infrastructure/Helpers/PaginationParams.cs:14 | Sizes at or below the maximum, including zero and negative sizes, are stored unchanged |
| `Pagination.ClampCapsLargeSizes` | OMSV1.Infrastructure/Helpers/PaginationParams.cs:7-14 | Sizes above the maximum are stored as 100000 |
| `Pagination.ClampIdempotent` | OMSV1.Infrastructure/Helpers/PaginationParams.cs:14 | Storing an already stored size changes nothing |
| `Pagination.PaginationParams.constructor` | OMSV1.Infrastructure/Helpers/PaginationParams.cs:8-9 | A fresh object has page number 1 and page size 10, and satisfies the size invariant |
| `Pagination.PaginationParams.PageSize` | OMSV1.Infrastructure/Helpers/PaginationParams.cs:11-13 | The getter returns a size no larger than the maximum |
| `Pagination.PaginationParams.SetPageSize` | OMSV1.Infrastructure/Helpers/PaginationParams.cs:11-15 | The setter stores the clamped value, re-establishes the invariant and leaves the page number unchanged |
| `Pagination.PaginationParams.SetPageNumber` | OMSV1.Infrastructure/Helpers/PaginationParams.cs:8 | The page number is stored as given, with no clamp, and the page size is unchanged |
| `Pagination.SetPageSizeTwice` | OMSV1.Infrastructure/Helpers/PaginationParams.cs:14 | Setting the same size twice leaves the state that a single set leaves |
| `AttendanceFilter.Evaluate` | OMSV1.Domain/Specifications/Attendances/FilterAttendanceSpecification.cs:16-23 | Evaluation raises exactly when working hours are absent. A matching row has the requested working hours, lies within each present date bound and carries each present id |
| `AttendanceFilter.AbsentFiltersLeaveWorkingHours` | OMSV1.Domain/Specifications/Attendances/FilterAttendanceSpecification.cs:18-23 | With every optional filter absent, a row matches if and only if its working hours are the requested ones |
| `AttendanceFilter.DateRangeIsInclusive` | OMSV1.Domain/Specifications/Attendances/FilterAttendanceSpecification.cs:19-20 | For an otherwise matching row, matching is equivalent to lying in the range. A date equal to a bound is inside |
| `AttendanceFilter.EmptyRangeMatchesNothing` | OMSV1.Domain/Specifications/Attendances/FilterAttendanceSpecification.cs:19-20 | A start date after the end date selects no row |
| `AttendanceFilter.NarrowingShrinksSelection` | OMSV1.Domain/Specifications/Attendances/FilterAttendanceSpecification.cs:18-23 | Adding optional filters never enlarges the set of selected rows |
| `AttendanceFilter.FilterAttendanceSpecification.constructor` | OMSV1.Domain/Specifications/Attendances/FilterAttendanceSpecification.cs:9-29 | The criteria hold the arguments as given, with no check, and the include list is exactly Governorate, Office, Profile, in that order |
| `AttendanceFilter.FilterAttendanceSpecification.AddInclude` | OMSV1.Domain/Specifications/Attendances/FilterAttendanceSpecification.cs:25-28 | Each call appends one navigation to the include list |
| `AttendanceFilter.FilterAttendanceSpecification.IsSatisfiedBy` | OMSV1.Domain/Specifications/Attendances/FilterAttendanceSpecification.cs:16-23 | Applying the specification to a row raises exactly when it was built without working hours |
| `Attachments.Updated` | OMSV1.Domain/Entities/Attachments/AttachmentCU.cs:22-27 | An update sets the file name and path and keeps the id, entity type and entity id |
| `Attachments.UpdateIdempotent` | OMSV1.Domain/Entities/Attachments/AttachmentCU.cs:24-25 | Repeating an update with the same arguments changes nothing further |
| `Attachments.UpdateLastWins` | OMSV1.Domain/Entities/Attachments/AttachmentCU.cs:24-25 | Of two successive updates, only the second one's name and path remain |
| `Attachments.AttachmentCU.constructor` | OMSV1.Domain/Entities/Attachments/AttachmentCU.cs:14-20 | File name, file path, entity type and entity id are stored exactly as given, and the id is empty |
| `Attachments.AttachmentCU.Update` | OMSV1.Domain/Entities/Attachments/AttachmentCU.cs:22-27 | Only the file name and path are written. The entity type and entity id are constants and cannot change |
| `Attachments.UpdateTwice` | OMSV1.Domain/Entities/Attachments/AttachmentCU.cs:22-27 | On an object, two successive updates leave the second update's state |
| `UserUpdate.RoleRejection` | OMSV1.Application/CQRS/Users/Handlers/UpdateUserHandler.cs:99-122 | A requested role passes if and only if it exists and, when it is Admin or SuperAdmin, the caller is SuperAdmin and not Admin. A missing role gives 400 and a permission failure gives 403 |
| `UserUpdate.FirstRoleRejection` | OMSV1.Application/CQRS/Users/Handlers/UpdateUserHandler.cs:97-123 | The request's roles are accepted if and only if every one passes. A rejection is the rejection of one of the requested roles |
| `UserUpdate.FirstRejectionAt` | OMSV1.Application/CQRS/Users/Handlers/UpdateUserHandler.cs:97-123 | Roles are checked in request order: the reported rejection is that of the first failing role |
| `UserUpdate.FirstMissingRoleReported` | OMSV1.Application/CQRS/Users/Handlers/UpdateUserHandler.cs:97-101 | The first failing role, if it does not exist, is reported as a 400 naming that role |
| `UserUpdate.Rename` | OMSV1.Application/CQRS/Users/Handlers/UpdateUserHandler.cs:74-91 | A blank or unchanged name changes nothing. A name whose upper-cased form another user holds gives 409. For a wanted, free name the step succeeds exactly when the store's rename succeeds; a failure is 409 or the store's failure. A successful rename stores the new name with its upper-cased form as the normalized name, keeps every other user and the target's roles, and leaves the new normalized name unique |
| `UserUpdate.GrantedRolesOfStoredNames` | OMSV1.Application/CQRS/Users/Handlers/UpdateUserHandler.cs:138 | When every requested name is a role's stored name, the roles granted are exactly the requested names |
| `UserUpdate.ReplaceRoles` | OMSV1.Application/CQRS/Users/Handlers/UpdateUserHandler.cs:94-145 | No list or an empty list changes nothing. A rejected role changes nothing. Once every role passes: a failed removal answers 400 and changes nothing; a failed addition answers 400 and leaves the target without the removed roles; success needs both calls to succeed, and then every requested name found a role and the target holds exactly the roles those names find, under their stored names. Names and other users are untouched |
| `UserUpdate.MergeProfile` | OMSV1.Application/CQRS/Users/Handlers/UpdateUserHandler.cs:151-158 | A null full name, office or governorate keeps the stored value. The position is always overwritten, null included |
| `UserUpdate.MergedProfiles` | OMSV1.Application/CQRS/Users/Handlers/UpdateUserHandler.cs:147-161 | Only the target's profile, if it has one, changes, and it becomes the merge. No profile appears or disappears |
| `UserUpdate.StatusCode` | OMSV1.Application/CQRS/Users/Handlers/UpdateUserHandler.cs:42-189 | Every response has one of the codes 200, 400, 401, 403, 404, 409 or 500, and the code is 200 exactly for a success |
| `UserUpdate.AdminBlockedFrom` | OMSV1.Application/CQRS/Users/Handlers/UpdateUserHandler.cs:65-67 | Only a target holding Admin or SuperAdmin can be blocked, and only for a caller who is Admin without SuperAdmin |
| `UserUpdate.UpdateUser` | OMSV1.Application/CQRS/Users/Handlers/UpdateUserHandler.cs:38-191 | The role table and the sets of users and profiles never change. A success names the target, with its user name as the stores now hold it |
| `UserUpdate.UpdateExistingUser` | OMSV1.Application/CQRS/Users/Handlers/UpdateUserHandler.cs:55-191 | Profiles change only through a successful save, and then to the merge. A 200 needs the save and the token service to succeed, the rename to succeed when one is wanted, and the role removal and addition to succeed when roles are requested. It names the target's current user name |
| `UserUpdate.UpdateRenamedUser` | OMSV1.Application/CQRS/Users/Handlers/UpdateUserHandler.cs:93-184 | After the username step, the same guarantees hold for the role step, the save and the token, including that a 200 with requested roles needs the role calls to succeed |
| `UserUpdate.EarlyChecksChangeNothing` | OMSV1.Application/CQRS/Users/Handlers/UpdateUserHandler.cs:41-53 | The early checks run in this order: missing request or empty id gives 400, missing caller gives 401, unknown target gives 404. None of them changes the state |
| `UserUpdate.AdminCannotModifyPrivileged` | OMSV1.Application/CQRS/Users/Handlers/UpdateUserHandler.cs:58-71 | An Admin who is not SuperAdmin gets 403 for a target holding Admin or SuperAdmin, and nothing changes |
| `UserUpdate.UserNameConflict` | OMSV1.Application/CQRS/Users/Handlers/UpdateUserHandler.cs:74-82 | A new name already held by another user as its normalized name gives 409, and nothing changes |
| `UserUpdate.PrivilegedRoleNeedsPureSuperAdmin` | OMSV1.Application/CQRS/Users/Handlers/UpdateUserHandler.cs:97-122 | Requesting a name the tests read as Admin or SuperAdmin never succeeds unless the caller is SuperAdmin and not Admin, and every user's roles stay as they were. The answer is 403 when that role exists, every earlier role passes and the username step went through |
| `UserUpdate.RejectedRolesChangeNoRoles` | OMSV1.Application/CQRS/Users/Handlers/UpdateUserHandler.cs:97-123 | A rejected requested role means an error and unchanged roles for every user. Past the target check and the username step, the error is the first failing role's rejection |
| `UserUpdate.RenameSurvivesRoleRejection` | OMSV1.Application/CQRS/Users/Handlers/UpdateUserHandler.cs:84-128 | The username change is made before the roles are validated. A later role rejection keeps the new name, leaves the roles as they were and leaves the profiles unchanged |
| `UserUpdate.FailedRenameChangesNothing` | OMSV1.Application/CQRS/Users/Handlers/UpdateUserHandler.cs:84-90 | A wanted, free user name that the store fails to set gives 400, and nothing changes |
| `UserUpdate.FailedSaveKeepsIdentityChanges` | OMSV1.Application/CQRS/Users/Handlers/UpdateUserHandler.cs:163-167 | When everything up to the save went through but the save fails, the answer is 500; the rename and the role change stay persisted and no profile is written |
| `UserUpdate.TokenFailureAfterSave` | OMSV1.Application/CQRS/Users/Handlers/UpdateUserHandler.cs:164-190 | When the save went through but the token service throws, the catch-all answers 500 with the rename, the role change and the merged profile all persisted |
| `UserUpdate.FailedRoleRemovalKeepsRoles` | OMSV1.Application/CQRS/Users/Handlers/UpdateUserHandler.cs:125-134 | When every role passes but removing the held roles fails, the answer is 400, the roles are as they were, an earlier rename is kept and no profile changes |
| `UserUpdate.FailedRoleAdditionStripsRoles` | OMSV1.Application/CQRS/Users/Handlers/UpdateUserHandler.cs:125-144 | When the removal succeeds (or is not needed) but adding the roles fails, the answer is 400 and the target is left with no role at all; an earlier rename is kept and no profile changes |
| `UserUpdate.AllowedUpdateSucceeds` | OMSV1.Application/CQRS/Users/Handlers/UpdateUserHandler.cs:38-184 | A request that passes every check, with every store call succeeding, gets 200 and the target's current (renamed) user name |
| `UserUpdate.RolesReplaced` | OMSV1.Application/CQRS/Users/Handlers/UpdateUserHandler.cs:94-144 | On success with a non-empty list, every requested name found a role, and the target's roles are exactly the roles those names find, under their stored names. With no list or an empty one, no user's roles change in any outcome |
| `UserUpdate.ProfileMergedOnSuccess` | OMSV1.Application/CQRS/Users/Handlers/UpdateUserHandler.cs:147-167 | On success, the target's existing profile becomes the merge. Every failure before the save leaves all profiles unchanged |
| `UserUpdate.OnlyTargetChanges` | OMSV1.Application/CQRS/Users/Handlers/UpdateUserHandler.cs:38-191 | The role table never changes. No user or profile is added or removed. Only the target's user record and profile can change |
| `UserUpdate.UpdatePreservesUniqueNames` | OMSV1.Application/CQRS/Users/Handlers/UpdateUserHandler.cs:74-91 | If normalized user names are unique before the request, they are unique after it |
| `UserUpdate.UpdateExistingUserKeepsUniqueNames` | OMSV1.Application/CQRS/Users/Handlers/UpdateUserHandler.cs:55-191 | The same, for a request whose target exists |
| `UserUpdate.UpdateKeepsNormalizedNamesConsistent` | OMSV1.Application/CQRS/Users/Handlers/UpdateUserHandler.cs:74-91 | If every normalized user name is the upper-cased user name before the request, that still holds after it |
| `UserUpdate.UpdateExistingUserKeepsNamesConsistent` | OMSV1.Application/CQRS/Users/Handlers/UpdateUserHandler.cs:55-191 | The same, for a request whose target exists |
| `UserUpdate.RenameKeepsNamesConsistent` | OMSV1.Application/CQRS/Users/Handlers/UpdateUserHandler.cs:84 | A successful username step keeps every normalized name the upper-cased user name |
| `UserUpdate.RenameKeepsUniqueNames` | OMSV1.Application/CQRS/Users/Handlers/UpdateUserHandler.cs:74-91 | A successful username step keeps normalized user names unique |
| `UserUpdate.OrdinalChecksLetAdminGrantSuperAdmin` | OMSV1.Application/CQRS/Users/Handlers/UpdateUserHandler.cs:104-138 | As written: an Admin requesting "superadmin" for a plain user gets 200, and the user becomes SuperAdmin |
| `UserUpdate.NormalizedChecksRefuseEscalationRequest` | OMSV1.Application/CQRS/Users/Handlers/UpdateUserHandler.cs:104-122 | Corrected: the same request gets 403 and changes nothing |
| `UserUpdate.GrantsNoPrivilegedRole` | OMSV1.Application/CQRS/Users/Handlers/UpdateUserHandler.cs:97-138 | Corrected: when every requested name passes the tests on normalized names and the caller is not SuperAdmin without Admin, none of the roles found is Admin or SuperAdmin |
| `UserUpdate.RoleStepGrantsNoPrivilegedRole` | OMSV1.Application/CQRS/Users/Handlers/UpdateUserHandler.cs:93-145 | Corrected: for such a caller, the role step gives nobody Admin or SuperAdmin |
| `UserUpdate.NormalizedChecksPreventEscalation` | OMSV1.Application/CQRS/Users/Handlers/UpdateUserHandler.cs:38-191 | Corrected: with a well-formed role table, a caller who is not SuperAdmin without Admin leaves no user holding Admin or SuperAdmin who did not hold it before |
| `UpdateUserHandler.UserManager.FindById` | OMSV1.Application/CQRS/Users/Handlers/UpdateUserHandler.cs:51 | Returns the user with the id, or null when there is none |
| `UpdateUserHandler.UserManager.GetRoles` | OMSV1.Application/CQRS/Users/Handlers/UpdateUserHandler.cs:58-63 | Returns the roles held by the user with the id, and none for an unknown id |
| `UpdateUserHandler.UserManager.AnyOtherWithNormalizedName` | OMSV1.Application/CQRS/Users/Handlers/UpdateUserHandler.cs:77-78 | Finds a user with a different id whose normalized name is the given one |
| `UpdateUserHandler.UserManager.SetUserName` | OMSV1.Application/CQRS/Users/Handlers/UpdateUserHandler.cs:84 | Stores the name and its normalized form if the call succeeds, and changes nothing otherwise |
| `UpdateUserHandler.UserManager.RemoveFromRoles` | OMSV1.Application/CQRS/Users/Handlers/UpdateUserHandler.cs:128 | Removes the given roles if the call succeeds, and changes nothing otherwise |
| `UpdateUserHandler.UserManager.AddToRoles` | OMSV1.Application/CQRS/Users/Handlers/UpdateUserHandler.cs:138 | If the call succeeds, adds the roles the requested names find by normalized name, under their stored names. Otherwise changes nothing |
| `UpdateUserHandler.RoleManager.RoleExists` | OMSV1.Application/CQRS/Users/Handlers/UpdateUserHandler.cs:99 | True exactly when some role's normalized name is the name's upper-cased form, so any case variant of a role's name finds it |
| `UpdateUserHandler.ProfileRepository.SingleOrDefault` | OMSV1.Application/CQRS/Users/Handlers/UpdateUserHandler.cs:148-149 | Returns the profile of the user, or null |
| `UpdateUserHandler.ProfileRepository.Update` | OMSV1.Application/CQRS/Users/Handlers/UpdateUserHandler.cs:160 | Tracks the changed profile until the next save |
| `UpdateUserHandler.UnitOfWork.Save` | OMSV1.Application/CQRS/Users/Handlers/UpdateUserHandler.cs:164-167 | A successful save writes every tracked change. A failed save writes none |
| `UpdateUserHandler.UpdateUserCommandHandler.constructor` | OMSV1.Application/CQRS/Users/Handlers/UpdateUserHandler.cs:24-36 | Keeps the injected stores, with the unit of work saving the handler's profile repository |
| `UpdateUserHandler.UpdateUserCommandHandler.ValidateRoles` | OMSV1.Application/CQRS/Users/Handlers/UpdateUserHandler.cs:97-123 | The loop over requested roles returns the rejection of the first failing role, or none, and changes nothing |
| `UpdateUserHandler.UpdateUserCommandHandler.ChangeUserName` | OMSV1.Application/CQRS/Users/Handlers/UpdateUserHandler.cs:73-91 | The username step leaves the error and the users that `Rename` specifies |
| `UpdateUserHandler.UpdateUserCommandHandler.ChangeRoles` | OMSV1.Application/CQRS/Users/Handlers/UpdateUserHandler.cs:93-145 | The role step leaves the error and the users that `ReplaceRoles` specifies |
| `UpdateUserHandler.UpdateUserCommandHandler.UpdateFoundUser` | OMSV1.Application/CQRS/Users/Handlers/UpdateUserHandler.cs:55-191 | Once the target is found, the response and the new state are those `UpdateExistingUser` specifies |
| `UpdateUserHandler.UpdateUserCommandHandler.ChangeRolesAndSave` | OMSV1.Application/CQRS/Users/Handlers/UpdateUserHandler.cs:93-184 | After the username step, the response and the new state are those `UpdateRenamedUser` specifies |
| `UpdateUserHandler.UpdateUserCommandHandler.MergeAndSaveProfile` | OMSV1.Application/CQRS/Users/Handlers/UpdateUserHandler.cs:147-167 | A successful save writes the merged profile, and a failed one writes nothing |
| `UpdateUserHandler.UpdateUserCommandHandler.Handle` | OMSV1.Application/CQRS/Users/Handlers/UpdateUserHandler.cs:38-191 | The response and the new state of the stores are those of `UpdateUser` applied to the old state. The existing roles are not touched |

## Left out

- Token creation and the response DTO (UpdateUserHandler.cs:170-184) are left out. A
  success returns only the user name. A throwing token service is the `createTokenSucceeds`
  flag, which gives the generic 500 after the save.
- Exceptions from other store calls, caught by the catch-all, are not modelled separately.
  Failures of the rename, role removal, role addition and save are flags with the
  handler's own error responses.
- The outcome of each store call is a free flag. The model does not derive it from its
  causes, such as Identity's name validator or the duplicate role names that make
  `AddToRolesAsync` fail.
- Error messages and the `IdentityError` descriptions are reduced to one constructor per
  message.
- `PrivilegedRoleNeedsPureSuperAdmin`: under the handler's exact comparison (`Ordinal`) it
  covers only the names exactly "Admin" and "SuperAdmin". A case variant such as
  "superadmin" passes the tests and still grants the role (see Findings).
- Role names in the role table are assumed to be stored under their own normalized names
  (`RolesWellFormed`), as Identity's role store does. The no-escalation theorem needs this.
- Upper-casing (`ToUpper` and the Identity normaliser) is modelled for ASCII letters only.
  Culture-specific case mapping is not modelled.
- The caller is modelled by its user id. Its roles are read from the same user store as
  the target's.
- `Profile.UpdateProfile` and `ApplicationUser` are not part of this model. The merge
  assigns the four fields directly.
- `BaseSpecification` is not part of this model. Its include list is assumed to start
  empty, with `AddInclude` appending.
- The `EntityType` enum declaration is not part of this model. Its members are the three
  the attachment endpoints switch on.
- `Guid` is its 128-bit value read as a number, with `Guid.Empty` as 0. `DateTime` is a tick count. The
  `WorkingHours` enum is its underlying integer.
- async/await, cancellation tokens, database transactions and isolation are not modelled.
  Each handler call is one sequential step.
- Controllers, Identity/JWT configuration, EF Core mappings and migrations, the query and
  command handlers built on the ORM and mapper, and the data-only request and DTO classes
  are not modelled. They are framework glue with no logic of their own.

## Findings

| source | as written | input that shows it | evidently intended | confidence | as-written member | corrected member |
|---|---|---|---|---|---|---|
| OMSV1.Application/CQRS/Users/Handlers/UpdateUserHandler.cs:104-122 | The permission tests compare the requested role name with "Admin" and "SuperAdmin" exactly. The role lookup (line 99) and the role assignment (line 138) go by normalized name | Caller holds only Admin, target holds only User, Roles = ["superadmin"], every store call succeeds: the response is 200 and the target becomes SuperAdmin | Compare normalized names, so that only a SuperAdmin who is not Admin can hand out Admin or SuperAdmin under any spelling | not executed | `UserUpdate.OrdinalChecksLetAdminGrantSuperAdmin` | `UserUpdate.NormalizedChecksPreventEscalation` |
