/** The login and password-reset routes (controllers/login.js). Signing,
    password comparison, hashing and the random reset token are parameters. */
module LoginController {
  import opened Base
  import opened Strings
  import opened Errors
  import opened Utils
  import opened Models
  import opened Store
  import opened Middleware

  /** `jwt.sign(payload, SECRET)` */
  type Signer = Claims -> string

  /** `bcrypt.compare(password, hash)` */
  type PasswordChecker = (string, string) -> bool

  /** The message bcrypt raises when it is given no password to compare. */
  const MissingData: string := "data and hash arguments required"

  /** The body of a successful login. */
  datatype LoginReply = LoginReply(token: string, username: string, name: string)

  /** Stored usernames are pairwise distinct (the schema's `unique`). */
  ghost predicate UsernamesUnique(db: Db)
    reads db
  {
    forall a, b :: a in db.users && b in db.users && db.users[a].username == db.users[b].username ==> a == b
  }

  /** POST /: the user with the given username, if any, and its stored hash
      compared with the password; any failure is the same authentication
      error, with no field. The token carries the username and the id. */
  method Login(db: Db, username: string, password: Option<string>, sign: Signer, compare: PasswordChecker,
               t: Translator) returns (r: Result<LoginReply, AppError>)
    ensures (forall u :: u in db.users ==> db.users[u].username != username) ==>
              r == Err(AuthenticationError(t("login-error-authentication", map[]), None))
    ensures r.Err? ==>
              r.error == AuthenticationError(t("login-error-authentication", map[]), None) ||
              (password.None? && r.error == OtherError("Error", MissingData))
    ensures r.Ok? ==>
              password.Some? &&
              exists u :: u in db.users && db.users[u].username == username &&
                compare(password.value, db.users[u].password) &&
                r.value == LoginReply(sign(Claims(username, u)), username, db.users[u].name)
    ensures password.None? && (exists u :: u in db.users && db.users[u].username == username) ==>
              r == Err(OtherError("Error", MissingData))
    ensures UsernamesUnique(db) && password.Some? ==>
              (r.Ok? <==> exists u :: u in db.users && db.users[u].username == username &&
                                      compare(password.value, db.users[u].password))
  {
    if u :| u in db.users && db.users[u].username == username {
      var user := db.users[u];
      if password.None? {
        return Err(OtherError("Error", MissingData));
      }
      var correctPassword := compare(password.value, user.password);
      if !correctPassword {
        return Err(AuthenticationError(t("login-error-authentication", map[]), None));
      }
      var userForToken := Claims(user.username, u);
      r := Ok(LoginReply(sign(userForToken), user.username, user.name));
    } else {
      r := Err(AuthenticationError(t("login-error-authentication", map[]), None));
    }
  }

  /** POST /passwordreset: the user with the given email must exist; a reset
      token already issued to them is reused, otherwise `freshToken` is
      stored. The result is the id and token the emailed link carries. */
  method RequestReset(db: Db, email: string, freshToken: string, t: Translator)
    returns (r: Result<(Id, string), AppError>)
    requires db.Valid()
    modifies db
    ensures db.Valid()
    ensures db.users == old(db.users) && db.blogs == old(db.blogs) && db.comments == old(db.comments)
    ensures r.Err? <==> forall u :: u in db.users ==> db.users[u].email != email
    ensures r.Err? ==> r.error == UnknownResourceError(t("login-error-email", map[])) && db.resetTokens == old(db.resetTokens)
    ensures r.Ok? ==>
              var (u, token) := r.value;
              u in db.users && db.users[u].email == email &&
              u in db.resetTokens && db.resetTokens[u] == token &&
              (u in old(db.resetTokens) ==> token == old(db.resetTokens[u]) && db.resetTokens == old(db.resetTokens)) &&
              (u !in old(db.resetTokens) ==> token == freshToken && db.resetTokens == old(db.resetTokens)[u := freshToken])
  {
    if u :| u in db.users && db.users[u].email == email {
      if u in db.resetTokens {
        r := Ok((u, db.resetTokens[u]));
      } else {
        db.SaveResetToken(u, freshToken);
        r := Ok((u, freshToken));
      }
    } else {
      r := Err(UnknownResourceError(t("login-error-email", map[])));
    }
  }

  /** POST /passwordreset/:id/:token: the user and a matching token must
      exist and a new password be given. The route calls the hashing guard
      without a translator, so a short password ends in a TypeError. On
      success the hash is stored and the token is spent. */
  method ConfirmReset(db: Db, userId: Id, token: string, newPassword: Option<string>, hash: Hasher, t: Translator)
    returns (r: Result<(), AppError>)
    requires db.Valid()
    modifies db
    ensures db.Valid()
    ensures db.blogs == old(db.blogs) && db.comments == old(db.comments)
    ensures userId !in old(db.users) ==> r == Err(UnknownResourceError(t("login-error-passwordreset-id", map[])))
    ensures userId in old(db.users) && (userId !in old(db.resetTokens) || old(db.resetTokens[userId]) != token) ==>
              r == Err(UnknownResourceError(t("login-error-passwordreset-token", map[])))
    ensures userId in old(db.users) && userId in old(db.resetTokens) && old(db.resetTokens[userId]) == token &&
            (newPassword.None? || newPassword == Some("")) ==>
              r == Err(AuthenticationError(t("login-error-passwordreset-password", map[]), None))
    ensures userId in old(db.users) && userId in old(db.resetTokens) && old(db.resetTokens[userId]) == token &&
            newPassword.Some? && newPassword.value != "" && Utf16Length(newPassword.value) < PassMinLength ==>
              r == Err(TypeError(NotAFunction))
    ensures r.Err? ==> db.users == old(db.users) && db.resetTokens == old(db.resetTokens)
    ensures r.Ok? <==>
              userId in old(db.users) && userId in old(db.resetTokens) && old(db.resetTokens[userId]) == token &&
              newPassword.Some? && Utf16Length(newPassword.value) >= PassMinLength &&
              hash(newPassword.value, SaltRounds) != ""
    ensures r.Ok? ==>
              db.users == old(db.users)[userId := old(db.users[userId]).(password := hash(newPassword.value, SaltRounds))] &&
              db.resetTokens == old(db.resetTokens) - {userId}
  {
    if userId !in db.users {
      return Err(UnknownResourceError(t("login-error-passwordreset-id", map[])));
    }
    if userId !in db.resetTokens || db.resetTokens[userId] != token {
      return Err(UnknownResourceError(t("login-error-passwordreset-token", map[])));
    }
    if newPassword.None? || newPassword.value == "" {
      return Err(AuthenticationError(t("login-error-passwordreset-password", map[]), None));
    }
    var passwordHash := PasswordToHash(newPassword.value, None, hash);
    if passwordHash.Err? {
      return Err(passwordHash.error);
    }
    StoredUser(db, userId);
    var user := db.users[userId].(password := passwordHash.value);
    var saved := db.SaveUser(user);
    if saved.Err? {
      return Err(saved.error);
    }
    db.RemoveResetToken(userId);
    r := Ok(());
  }

  /** A reset link works once: after a successful confirmation the same
      link is refused as an unknown token. */
  method ResetLinkWorksOnce(db: Db, userId: Id, token: string, password: string, hash: Hasher, t: Translator)
    returns (first: Result<(), AppError>, second: Result<(), AppError>)
    requires db.Valid()
    modifies db
    ensures first.Ok? ==> second == Err(UnknownResourceError(t("login-error-passwordreset-token", map[])))
  {
    first := ConfirmReset(db, userId, token, Some(password), hash, t);
    second := ConfirmReset(db, userId, token, Some(password), hash, t);
  }
}
