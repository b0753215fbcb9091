/** The user routes (controllers/users.js). `caller` is `request.user` as
    the user extractor set it; a thrown error is returned as `Err`. */
module UsersController {
  import opened Base
  import opened Strings
  import opened Roles
  import opened Errors
  import opened Utils
  import opened Models
  import opened Store
  import opened Query

  /** One clause of the `$or` list of the user search. */
  datatype UserClause = UsernameMatches(regex: string) | NameMatches(regex: string) | EmailMatches(regex: string)

  /** The arguments of `User.paginate`: the filter (`$or` or nothing), the
      page size and the offset; the sort is by `roleSort`, descending. */
  datatype UserListQuery = UserListQuery(or: Option<seq<UserClause>>, limit: nat, offset: int)

  /** A stored user is an administrator when its role reaches ADMIN, that
      is, when it is ADMIN or SUPERADMIN. */
  lemma AdminRoles(db: Db, id: Id)
    requires db.Valid() && id in db.users
    ensures HasPermission(db.users[id].role, "ADMIN") <==>
              db.users[id].role == "ADMIN" || db.users[id].role == "SUPERADMIN"
  {
    StoredUser(db, id);
    var role := db.users[id].role;
    ListedRoleIndex(role);
    AdminIndex();
    RankTable(role);
  }

  /** The listing gate: the caller is stored with role ADMIN or SUPERADMIN. */
  ghost predicate MayListUsers(db: Db, caller: Id)
    reads db
  {
    caller in db.users && (db.users[caller].role == "ADMIN" || db.users[caller].role == "SUPERADMIN")
  }

  /** GET /: only a caller at ADMIN level or above may list users; a caller
      the store does not have is refused the same way. A non-blank search
      matches username, name or email; its pattern is compiled after the
      gate, and one that does not compile throws a SyntaxError. */
  method ListUsers(db: Db, caller: Id, search: Option<string>, page: Option<int>, regexError: RegexCompiler,
                   t: Translator) returns (r: Result<UserListQuery, AppError>)
    requires db.Valid()
    ensures !MayListUsers(db, caller) ==> r == Err(PermissionError(t("users-error-list", map[])))
    ensures MayListUsers(db, caller) && TrimmedParam(search) != "" && regexError(Anywhere(TrimmedParam(search))).Some? ==>
              r == Err(SyntaxError(regexError(Anywhere(TrimmedParam(search))).value))
    ensures r.Ok? <==>
              MayListUsers(db, caller) && (TrimmedParam(search) == "" || regexError(Anywhere(TrimmedParam(search))).None?)
    ensures r.Ok? ==> r.value.limit == PaginationLimit && r.value.offset == Offset(page)
    ensures r.Ok? ==> (r.value.or.Some? <==> TrimmedParam(search) != "")
    ensures r.Ok? && r.value.or.Some? ==>
              var p := Anywhere(TrimmedParam(search));
              r.value.or.value == [UsernameMatches(p), NameMatches(p), EmailMatches(p)]
  {
    if caller in db.users {
      AdminRoles(db, caller);
    }
    if caller !in db.users || !HasPermission(db.users[caller].role, "ADMIN") {
      return Err(PermissionError(t("users-error-list", map[])));
    }
    var userFind: Option<seq<UserClause>> := None;
    var userSearch := TrimmedParam(search);
    if userSearch != "" {
      var p := Anywhere(userSearch);
      var compiled := regexError(p);
      if compiled.Some? {
        return Err(SyntaxError(compiled.value));
      }
      userFind := Some([UsernameMatches(p), NameMatches(p), EmailMatches(p)]);
    }
    r := Ok(UserListQuery(userFind, PaginationLimit, Offset(page)));
  }

  /** The fields `select('username name role email')` keeps. */
  datatype PublicUser = PublicUser(id: Id, username: string, name: string, role: string, email: string)

  /** GET /me: the caller's public fields, or `null` when the store does not
      have the caller. */
  method Me(db: Db, caller: Id) returns (r: Option<PublicUser>)
    ensures r.Some? <==> caller in db.users
    ensures r.Some? ==>
              var u := db.users[caller];
              r.value.id == caller && r.value.username == u.username && r.value.name == u.name &&
              r.value.role == u.role && r.value.email == u.email
  {
    if caller !in db.users {
      return None;
    }
    var u := db.users[caller];
    r := Some(PublicUser(caller, u.username, u.name, u.role, u.email));
  }

  /** GET /isadmin: whether the caller's stored role is ADMIN or SUPERADMIN;
      a missing caller makes the role read throw. */
  method IsAdmin(db: Db, caller: Id) returns (r: Result<bool, AppError>)
    requires db.Valid()
    ensures caller !in db.users <==> r == Err(TypeError(NullRead))
    ensures caller in db.users ==> r == Ok(HasPermission(db.users[caller].role, "ADMIN"))
    ensures r.Ok? ==> (r.value <==> db.users[caller].role == "ADMIN" || db.users[caller].role == "SUPERADMIN")
  {
    if caller !in db.users {
      return Err(TypeError(NullRead));
    }
    AdminRoles(db, caller);
    r := Ok(HasPermission(db.users[caller].role, "ADMIN"));
  }

  /** POST /: a missing password is refused before hashing, a short one by
      the hashing guard; the new user always has role USER, and the store
      keeps the hash, never the password. */
  method CreateUser(db: Db, username: string, name: string, email: string, password: Option<string>,
                    newId: Id, hash: Hasher, t: Translator) returns (r: Result<User, AppError>)
    requires db.Valid() && newId !in db.users
    modifies db
    ensures db.Valid()
    ensures db.blogs == old(db.blogs) && db.comments == old(db.comments) && db.resetTokens == old(db.resetTokens)
    ensures password.None? || password == Some("") ==>
              r == Err(AuthenticationError(t("users-error-form-password-required", map[]), None))
    ensures password.Some? && password.value != "" && Utf16Length(password.value) < PassMinLength ==>
              r == Err(AuthenticationError(t("users-error-form-password-minlength", map["minlength" := PNum(PassMinLength)]), Some("password")))
    ensures password.Some? && Utf16Length(password.value) >= PassMinLength &&
            ValidateUser(NewUser(newId, username, name, hash(password.value, SaltRounds), email), db.isEmail) != [] ==>
              r == Err(ValidationError(UserValidationMessage,
                                       ValidateUser(NewUser(newId, username, name, hash(password.value, SaltRounds), email), db.isEmail)))
    ensures r.Err? ==> db.users == old(db.users)
    ensures r.Ok? <==>
              password.Some? && Utf16Length(password.value) >= PassMinLength &&
              ValidateUser(NewUser(newId, username, name, hash(password.value, SaltRounds), email), db.isEmail) == []
    ensures r.Ok? ==>
              r.value == NewUser(newId, username, name, hash(password.value, SaltRounds), email) &&
              r.value.role == "USER" && r.value.roleSort == 0 &&
              db.users == old(db.users)[newId := r.value]
  {
    if password.None? || password.value == "" {
      return Err(AuthenticationError(t("users-error-form-password-required", map[]), None));
    }
    var passwordHash := PasswordToHash(password.value, Some(t), hash);
    if passwordHash.Err? {
      return Err(passwordHash.error);
    }
    var user := NewUser(newId, username, name, passwordHash.value, email);
    var savedUser := db.SaveUser(user);
    if savedUser.Err? {
      return Err(savedUser.error);
    }
    r := Ok(savedUser.value);
  }

  /** An account after an edit: each non-empty field replaces the stored
      one, a password by its hash. */
  function EditedUser(before: User, username: string, name: string, password: string, email: string,
                      hash: Hasher): User
  {
    before.(username := if username != "" then username else before.username,
            name := if name != "" then name else before.name,
            password := if password != "" then hash(password, SaltRounds) else before.password,
            email := if email != "" then email else before.email)
  }

  /** PUT /:id: a user edits only their own account; non-empty fields
      replace the stored ones, a new password is stored hashed, and the
      role is never touched. */
  method EditUser(db: Db, caller: Id, id: Id, username: string, name: string, password: string, email: string,
                  hash: Hasher, t: Translator) returns (r: Result<User, AppError>)
    requires db.Valid()
    modifies db
    ensures db.Valid()
    ensures db.blogs == old(db.blogs) && db.comments == old(db.comments) && db.resetTokens == old(db.resetTokens)
    ensures id !in old(db.users) ==> r == Err(UnknownResourceError(t("error-unknownresource", map[])))
    ensures id in old(db.users) && caller !in old(db.users) ==> r == Err(TypeError(NullRead))
    ensures id in old(db.users) && caller in old(db.users) && id != caller ==>
              r == Err(PermissionError(t("users-error-edit", map[])))
    ensures id in old(db.users) && id == caller && password != "" && Utf16Length(password) < PassMinLength ==>
              r == Err(AuthenticationError(t("users-error-form-password-minlength", map["minlength" := PNum(PassMinLength)]), Some("password")))
    ensures id in old(db.users) && id == caller && (password == "" || Utf16Length(password) >= PassMinLength) &&
            ValidateUser(EditedUser(old(db.users[id]), username, name, password, email, hash), db.isEmail) != [] ==>
              r == Err(ValidationError(UserValidationMessage,
                                       ValidateUser(EditedUser(old(db.users[id]), username, name, password, email, hash), db.isEmail)))
    ensures r.Err? ==> db.users == old(db.users)
    ensures r.Ok? <==>
              id in old(db.users) && id == caller &&
              (password == "" || Utf16Length(password) >= PassMinLength) &&
              ValidateUser(EditedUser(old(db.users[id]), username, name, password, email, hash), db.isEmail) == []
    ensures r.Ok? ==>
              id == caller && id in old(db.users) &&
              r.value == EditedUser(old(db.users[id]), username, name, password, email, hash) &&
              r.value.role == old(db.users[id].role) &&
              db.users == old(db.users)[id := r.value]
  {
    if id !in db.users {
      return Err(UnknownResourceError(t("error-unknownresource", map[])));
    }
    if caller !in db.users {
      return Err(TypeError(NullRead));
    }
    if id != caller {
      return Err(PermissionError(t("users-error-edit", map[])));
    }
    StoredUser(db, id);
    var userToModify := db.users[id];
    if username != "" {
      userToModify := userToModify.(username := username);
    }
    if name != "" {
      userToModify := userToModify.(name := name);
    }
    if password != "" {
      var passwordHash := PasswordToHash(password, Some(t), hash);
      if passwordHash.Err? {
        return Err(passwordHash.error);
      }
      userToModify := userToModify.(password := passwordHash.value);
    }
    if email != "" {
      userToModify := userToModify.(email := email);
    }
    var saved := db.SaveUser(userToModify);
    if saved.Err? {
      return Err(saved.error);
    }
    r := Ok(saved.value);
  }

  /** The guards of PUT /:id/role, in the order the route checks them: the
      target and a non-empty new role must be there, the modifier must be
      there and at ADMIN level, and the role rule must allow the change.
      None means every guard passed. */
  function RoleChangeRefusal(db: Db, caller: Id, id: Id, newRole: Option<string>, t: Translator): (e: Option<AppError>)
    reads db
    ensures id !in db.users || newRole.None? || newRole == Some("") ==>
              e == Some(UnknownResourceError(t("error-unknownresource", map[])))
    ensures id in db.users && newRole.Some? && newRole.value != "" && caller !in db.users ==>
              e == Some(TypeError(NullRead))
    ensures id in db.users && newRole.Some? && newRole.value != "" && caller in db.users &&
            !HasPermission(db.users[caller].role, "ADMIN") ==>
              e == Some(PermissionError(t("users-error-role", map[])))
    ensures id in db.users && newRole.Some? && newRole.value != "" && caller in db.users &&
            HasPermission(db.users[caller].role, "ADMIN") &&
            !CanModifyTargetUserRole(db.users[caller].role, db.users[id].role, newRole.value) ==>
              e == Some(PermissionError(t("users-error-edit-role", map[])))
    ensures e.None? <==>
              id in db.users && newRole.Some? && newRole.value != "" && caller in db.users &&
              CanModifyTargetUserRole(db.users[caller].role, db.users[id].role, newRole.value)
  {
    if id !in db.users || newRole.None? || newRole.value == "" then
      Some(UnknownResourceError(t("error-unknownresource", map[])))
    else if caller !in db.users then
      Some(TypeError(NullRead))
    else
      var modifierRole := db.users[caller].role;
      ModifierAtAdminLevel(modifierRole, db.users[id].role, newRole.value);
      if !HasPermission(modifierRole, "ADMIN") then
        Some(PermissionError(t("users-error-role", map[])))
      else if !CanModifyTargetUserRole(modifierRole, db.users[id].role, newRole.value) then
        Some(PermissionError(t("users-error-edit-role", map[])))
      else
        None
  }

  /** Only a modifier at ADMIN level passes the role rule. */
  lemma ModifierAtAdminLevel(modifierRole: string, targetRole: string, newRole: string)
    ensures CanModifyTargetUserRole(modifierRole, targetRole, newRole) ==> HasPermission(modifierRole, "ADMIN")
  {
    AdminIndex();
    if RoleIndex(modifierRole) < 2 {
      LowModifierRefused(modifierRole, targetRole, newRole);
    }
  }

  /** PUT /:id/role: a refused change leaves the store as it was; an allowed
      one stores the upper-cased name, which then has to pass validation. A
      successful change never yields SUPERADMIN, and an ADMIN only moves
      USER and AUTHOR accounts between those two roles. */
  method ChangeRole(db: Db, caller: Id, id: Id, newRole: Option<string>, t: Translator)
    returns (r: Result<User, AppError>)
    requires db.Valid()
    modifies db
    ensures db.Valid()
    ensures db.blogs == old(db.blogs) && db.comments == old(db.comments) && db.resetTokens == old(db.resetTokens)
    ensures old(RoleChangeRefusal(db, caller, id, newRole, t)).Some? ==>
              r == Err(old(RoleChangeRefusal(db, caller, id, newRole, t)).value)
    ensures old(RoleChangeRefusal(db, caller, id, newRole, t)).None? && !KnownRole(newRole.value) ==>
              r == Err(ValidationError(UserValidationMessage,
                                       ValidateUser(old(db.users[id]).(role := RoleSetter(newRole.value)), db.isEmail)))
    ensures r.Err? ==> db.users == old(db.users)
    ensures r.Ok? <==> old(RoleChangeRefusal(db, caller, id, newRole, t)).None? && KnownRole(newRole.value)
    ensures r.Ok? ==>
              r.value == old(db.users[id]).(role := ToUpper(newRole.value), roleSort := RoleIndex(newRole.value)) &&
              db.users == old(db.users)[id := r.value] &&
              r.value.role != "SUPERADMIN" &&
              (old(db.users[caller].role) == "ADMIN" ==>
                 (r.value.role == "USER" || r.value.role == "AUTHOR") &&
                 (old(db.users[id].role) == "USER" || old(db.users[id].role) == "AUTHOR"))
  {
    var refusal := RoleChangeRefusal(db, caller, id, newRole, t);
    if refusal.Some? {
      return Err(refusal.value);
    }
    StoredUser(db, caller);
    StoredUser(db, id);
    var userToModify := db.users[id];
    RoleChangeFacts(db.users[caller].role, userToModify.role, newRole.value);
    ValidateUserRoleChange(userToModify, RoleSetter(newRole.value), db.isEmail);
    userToModify := userToModify.(role := RoleSetter(newRole.value));
    var saved := db.SaveUser(userToModify);
    if saved.Err? {
      return Err(saved.error);
    }
    r := Ok(saved.value);
  }

  /** What the role rule implies for stored role names: the new name is
      never SUPERADMIN once upper-cased, and an ADMIN passes the rule only
      for a USER or AUTHOR target and a USER or AUTHOR new role. */
  lemma RoleChangeFacts(modifierRole: string, targetRole: string, newRole: string)
    requires modifierRole in RoleList && targetRole in RoleList
    ensures CanModifyTargetUserRole(modifierRole, targetRole, newRole) && KnownRole(newRole) ==>
              ToUpper(newRole) != "SUPERADMIN" && Rank(ToUpper(newRole)) == RoleIndex(newRole)
    ensures CanModifyTargetUserRole(modifierRole, targetRole, newRole) && KnownRole(newRole) && modifierRole == "ADMIN" ==>
              (ToUpper(newRole) == "USER" || ToUpper(newRole) == "AUTHOR") && (targetRole == "USER" || targetRole == "AUTHOR")
  {
    ListedRoleIndex(modifierRole);
    ListedRoleIndex(targetRole);
    AdminIndex();
    RankTable(targetRole);
    RankTable(ToUpper(newRole));
    if CanModifyTargetUserRole(modifierRole, targetRole, newRole) {
      NeverGrantsSuperadmin(modifierRole, targetRole, newRole);
      if modifierRole == "ADMIN" {
        AdminModifier(modifierRole, targetRole, newRole);
      }
    }
  }

  /** DELETE /:id: a SUPERADMIN account is never deleted; anyone else is
      deleted by themselves or by a caller at ADMIN level. Only the user
      document goes. */
  method DeleteUser(db: Db, caller: Id, id: Id, t: Translator) returns (r: Result<(), AppError>)
    requires db.Valid()
    modifies db
    ensures db.Valid()
    ensures db.blogs == old(db.blogs) && db.comments == old(db.comments) && db.resetTokens == old(db.resetTokens)
    ensures id !in old(db.users) ==> r == Err(UnknownResourceError(t("error-unknownresource", map[])))
    ensures id in old(db.users) && old(db.users[id].role) == "SUPERADMIN" ==>
              r == Err(PermissionError(t("users-error-delete-superadmin", map[])))
    ensures id in old(db.users) && old(db.users[id].role) != "SUPERADMIN" && caller !in old(db.users) ==>
              r == Err(TypeError(NullRead))
    ensures id in old(db.users) && old(db.users[id].role) != "SUPERADMIN" && caller in old(db.users) &&
            id != caller && !HasPermission(old(db.users[caller].role), "ADMIN") ==>
              r == Err(PermissionError(t("users-error-delete-user", map[])))
    ensures r.Ok? <==>
              id in old(db.users) && old(db.users[id].role) != "SUPERADMIN" && caller in old(db.users) &&
              (id == caller || HasPermission(old(db.users[caller].role), "ADMIN"))
    ensures r.Ok? ==> db.users == old(db.users) - {id}
    ensures r.Err? ==> db.users == old(db.users)
  {
    if id !in db.users {
      return Err(UnknownResourceError(t("error-unknownresource", map[])));
    }
    if db.users[id].role == "SUPERADMIN" {
      return Err(PermissionError(t("users-error-delete-superadmin", map[])));
    }
    if caller !in db.users {
      return Err(TypeError(NullRead));
    }
    if id != caller && !HasPermission(db.users[caller].role, "ADMIN") {
      return Err(PermissionError(t("users-error-delete-user", map[])));
    }
    db.RemoveUser(id);
    r := Ok(());
  }
}
