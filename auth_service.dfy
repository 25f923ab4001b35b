/** Registration, login and password management over the user repository
    (`src/auth/auth_service.py`). Every operation answers `success` and a
    message; the clock reading `datetime.now()` is a parameter. */
module AuthServices {
  import opened Wrappers
  import opened Values
  import opened Validators
  import opened AuthUsers
  import opened UserRepositories

  const InvalidLogin := "Invalid username or password"
  const UserNotFound := "User not found"
  const WrongPassword := "Current password is incorrect"
  const PasswordChanged := "Password changed successfully"
  const AdminNotFound := "Admin user not found"
  const AdminReset := "Admin password reset successfully"
  const AdminPermission := "Admin permission required"
  const RootUndeletable := "Cannot delete the root admin user"
  const SelfUndeletable := "Cannot delete your own account"
  const LoginWarning := "Logged in (warning: could not update last login time)"

  function Taken(username: string): string {
    "Username '" + username + "' is already taken"
  }

  function Registered(username: string): string {
    "User '" + username + "' registered successfully"
  }

  function LoggedIn(username: string): string {
    "Successfully logged in as '" + username + "'"
  }

  function Missing(username: string): string {
    "User '" + username + "' not found"
  }

  function Deleted(username: string): string {
    "User '" + username + "' deleted successfully"
  }

  function DeleteFailed(username: string): string {
    "Failed to delete user '" + username + "'"
  }

  /** The account `register` creates: a non-administrator with the given
      name, created now, holding the hash of the password. */
  function NewAccount(username: string, password: string, now: Datetime, hash: string -> string): (u: User)
    ensures u.id.None? && u.username == username && !u.isAdmin
    ensures u.createdAt == Some(now) && u.lastLogin.None?
    ensures VerifyPassword(u, password, hash)
  {
    SetPassword(User(None, username, "", false, Some(now), None), password, hash)
  }

  /** The checks `delete_user` makes before deleting: the requester is a
      stored administrator, the target exists, is not `rootusr` and is not
      the requester. */
  predicate DeleteAllowed(users: map<int, User>, adminId: int, target: string) {
    && adminId in users && users[adminId].isAdmin
    && NameTaken(users, target)
    && target != RootName
    && users[adminId].username != target
  }

  /** Being an administrator does not protect an account: any other
      administrator may delete it unless it is `rootusr`. */
  lemma AdminsMayDeleteAdmins(users: map<int, User>, adminId: int, otherId: int)
    requires adminId in users && users[adminId].isAdmin
    requires otherId in users && users[otherId].isAdmin
    requires users[otherId].username != RootName
    requires users[adminId].username != users[otherId].username
    ensures DeleteAllowed(users, adminId, users[otherId].username)
  {
  }

  class AuthService {
    const repo: UserRepository

    ghost predicate Valid()
      reads this, repo
    {
      repo.Valid()
    }

    /** `AuthService(user_repository)` */
    constructor (repo: UserRepository)
      requires repo.Valid()
      ensures this.repo == repo && Valid()
    {
      this.repo := repo;
    }

    /** `is_username_taken` */
    function IsUsernameTaken(username: string): (r: bool)
      reads this, repo
      requires Valid()
      ensures r <==> NameTaken(repo.users, username)
    {
      repo.FindByUsername(username).Some?
    }

    /** `register`: validation first, then the name check, then the
        insert. */
    method Register(username: string, password: string, confirm: Option<string>, now: Datetime)
      returns (ok: bool, user: Option<User>, msg: string)
      requires Valid()
      modifies repo
      ensures Valid()
      ensures var v := ValidateRegistrationData(username, password, confirm);
              && (ok <==> v.0 && !NameTaken(old(repo.users), username))
              && (!v.0 ==> msg == v.1)
              && (v.0 && NameTaken(old(repo.users), username) ==> msg == Taken(username))
      ensures !ok ==> user.None? && unchanged(repo)
      ensures ok ==>
                && user == Some(NewAccount(username, password, now, repo.hash).(id := Some(old(repo.nextId))))
                && repo.users == old(repo.users)[old(repo.nextId) := user.value]
                && repo.nextId == old(repo.nextId) + 1
                && msg == Registered(username)
    {
      var v := ValidateRegistrationData(username, password, confirm);
      if !v.0 {
        return false, None, v.1;
      }
      if IsUsernameTaken(username) {
        return false, None, Taken(username);
      }
      var saved := repo.Save(NewAccount(username, password, now, repo.hash));
      if saved.Ok? {
        ok, user, msg := true, Some(saved.value), Registered(username);
      } else {
        ok, user, msg := false, None, Taken(username);
      }
    }

    /** `login`: the named user, if the password verifies, with
        `last_login` set to now and saved. */
    method Login(username: string, password: string, now: Datetime)
      returns (ok: bool, user: Option<User>, msg: string)
      requires Valid()
      modifies repo
      ensures Valid()
      ensures var found := old(repo.FindByUsername(username));
              && (ok <==> found.Some? && VerifyPassword(found.value, password, repo.hash))
              && (ok ==> && user == Some(found.value.(lastLogin := Some(now)))
                         && repo.users == old(repo.users)[found.value.id.value := user.value]
                         && repo.nextId == old(repo.nextId)
                         && msg == LoggedIn(username))
      ensures !ok ==> user.None? && msg == InvalidLogin && unchanged(repo)
    {
      var found := repo.FindByUsername(username);
      if found.None? || !VerifyPassword(found.value, password, repo.hash) {
        return false, None, InvalidLogin;
      }
      var updated := found.value.(lastLogin := Some(now));
      var saved := repo.Save(updated);
      ok, user := true, Some(updated);
      msg := if saved.Ok? then LoggedIn(username) else LoginWarning;
    }

    /** `change_password`: the user must exist, the current password must
        verify and the new one must pass the password rule. */
    method ChangePassword(userId: int, current: string, newPassword: string) returns (ok: bool, msg: string)
      requires Valid()
      modifies repo
      ensures Valid()
      ensures var users := old(repo.users);
              && (ok <==> userId in users && VerifyPassword(users[userId], current, repo.hash)
                          && ValidatePassword(newPassword).0)
              && (userId !in users ==> msg == UserNotFound)
              && (userId in users && !VerifyPassword(users[userId], current, repo.hash) ==> msg == WrongPassword)
              && ((userId in users && VerifyPassword(users[userId], current, repo.hash) && !ValidatePassword(newPassword).0)
                    ==> msg == ValidatePassword(newPassword).1)
              && (ok ==> && repo.users == users[userId := SetPassword(users[userId], newPassword, repo.hash)]
                         && VerifyPassword(repo.users[userId], newPassword, repo.hash)
                         && msg == PasswordChanged)
      ensures ok ==> repo.nextId == old(repo.nextId)
      ensures !ok ==> unchanged(repo)
    {
      var found := repo.FindById(userId);
      if found.None? {
        return false, UserNotFound;
      }
      if !VerifyPassword(found.value, current, repo.hash) {
        return false, WrongPassword;
      }
      var v := ValidatePassword(newPassword);
      if !v.0 {
        return false, v.1;
      }
      var saved := repo.Save(SetPassword(found.value, newPassword, repo.hash));
      ok, msg := true, PasswordChanged;
    }

    /** `reset_admin_password`: the same steps for the `rootusr` account. */
    method ResetAdminPassword(current: string, newPassword: string) returns (ok: bool, msg: string)
      requires Valid()
      modifies repo
      ensures Valid()
      ensures var root := old(repo.FindByUsername(RootName));
              && (ok <==> root.Some? && VerifyPassword(root.value, current, repo.hash) && ValidatePassword(newPassword).0)
              && (root.None? ==> msg == AdminNotFound)
              && (root.Some? && !VerifyPassword(root.value, current, repo.hash) ==> msg == WrongPassword)
              && ((root.Some? && VerifyPassword(root.value, current, repo.hash) && !ValidatePassword(newPassword).0)
                    ==> msg == ValidatePassword(newPassword).1)
              && (ok ==> && repo.users == old(repo.users)[root.value.id.value := SetPassword(root.value, newPassword, repo.hash)]
                         && msg == AdminReset)
      ensures ok ==> repo.nextId == old(repo.nextId)
      ensures !ok ==> unchanged(repo)
    {
      var root := repo.FindByUsername(RootName);
      if root.None? {
        return false, AdminNotFound;
      }
      if !VerifyPassword(root.value, current, repo.hash) {
        return false, WrongPassword;
      }
      var v := ValidatePassword(newPassword);
      if !v.0 {
        return false, v.1;
      }
      var saved := repo.Save(SetPassword(root.value, newPassword, repo.hash));
      ok, msg := true, AdminReset;
    }

    /** `delete_user`: an administrator deletes another account by name;
        `rootusr` and the requester's own account are refused. */
    method DeleteUser(adminId: int, target: string) returns (ok: bool, msg: string)
      requires Valid()
      modifies repo
      ensures Valid()
      ensures var users := old(repo.users);
              && (ok <==> DeleteAllowed(users, adminId, target))
              && (!(adminId in users && users[adminId].isAdmin) ==> msg == AdminPermission)
              && (adminId in users && users[adminId].isAdmin && !NameTaken(users, target) ==> msg == Missing(target))
              && (ok ==> && repo.users == users - {old(repo.FindByUsername(target)).value.id.value}
                         && msg == Deleted(target))
      ensures !ok ==> unchanged(repo)
      ensures forall id :: id in old(repo.users) && old(repo.users)[id].username == RootName ==> id in repo.users
      ensures adminId in old(repo.users) ==> adminId in repo.users
    {
      var admin := repo.FindById(adminId);
      if admin.None? || !admin.value.isAdmin {
        return false, AdminPermission;
      }
      var found := repo.FindByUsername(target);
      if found.None? {
        return false, Missing(target);
      }
      if target == RootName {
        return false, RootUndeletable;
      }
      if found.value.id == Some(adminId) {
        return false, SelfUndeletable;
      }
      var deleted := repo.Delete(found.value.id.value);
      if deleted {
        ok, msg := true, Deleted(target);
      } else {
        ok, msg := false, DeleteFailed(target);
      }
    }
  }
}
