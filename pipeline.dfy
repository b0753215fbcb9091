/** Requests end to end, in the stage order the application mounts them:
    the token extractor, then the route (with the user extractor where the
    route asks for it), then the error handler for anything thrown. */
module Pipeline {
  import opened Base
  import opened Strings
  import opened Roles
  import opened Errors
  import opened Models
  import opened Store
  import opened Middleware
  import opened BlogsController
  import opened LoginController

  /** What a request ends in: the route's own answer, or the error handler's. */
  datatype Outcome<+T> = Answered(value: T) | Handled(reply: Reply)

  /** The reply for a request that carried no usable token. */
  function Unlogged(t: Translator): Reply
  {
    Respond(401, ErrorBody(t("error-jsonwebtoken-unlogged", map[])))
  }

  /** The library's message is already in lower case. */
  lemma JwtMissingIsLower()
    ensures ToLower(JwtMissing) == JwtMissing
  {
    var m := JwtMissing;
    assert forall i :: 0 <= i < |m| ==> !('A' <= m[i] <= 'Z');
    ToLowerOfLower(m);
  }

  /** A missing token ends in the "unlogged" 401 reply. */
  lemma MissingTokenReply(t: Translator)
    ensures ErrorHandler(JsonWebTokenError(JwtMissing), t) == Unlogged(t)
  {
    JwtMissingIsLower();
  }

  /** A header "Bearer <token>", in any case of the word, carries <token>. */
  lemma {:induction false} BearerHeader(scheme: string, token: string)
    requires ToLower(scheme) == "bearer "
    ensures StartsWith(ToLower(scheme + token), "bearer ")
    ensures (scheme + token)[7..] == token
  {
    ToLowerAppend(scheme, token);
    assert |scheme| == 7;
    assert ToLower(scheme + token)[..7] == ToLower(scheme);
  }

  /** The two extractors in sequence on a request that has just arrived:
      the id of the verified token, or the error the user extractor throws. */
  method Authenticate(request: Request, verify: TokenVerifier) returns (r: Result<Id, AppError>)
    requires request.token == None && request.user == None
    modifies request
    ensures request.authorization.None? ==> r == Err(JsonWebTokenError(JwtMissing))
    ensures r.Ok? <==> request.token.Some? && request.token.value != "" && verify(request.token.value).Ok?
    ensures r.Ok? ==> request.user == Some(r.value) && r.value == verify(request.token.value).value.id
    ensures r.Err? ==> request.user == None && r.error.JsonWebTokenError?
    ensures request.authorization.Some? && StartsWith(ToLower(request.authorization.value), "bearer ") ==>
              request.token == Some(request.authorization.value[7..])
    ensures !(request.authorization.Some? && StartsWith(ToLower(request.authorization.value), "bearer ")) ==>
              request.token == None
  {
    var step := TokenExtractor(request);
    step := UserExtractor(request, verify);
    if step.Throw? {
      return Err(step.error);
    }
    r := Ok(request.user.value);
  }

  /** A token signed at login and presented as "Bearer <token>" identifies
      the user who logged in, provided verification undoes signing. */
  method LoginThenAuthenticate(db: Db, username: string, password: string, sign: Signer, compare: PasswordChecker,
                               verify: TokenVerifier, t: Translator) returns (r: Result<Id, AppError>)
    requires forall c :: sign(c) != "" && verify(sign(c)) == Ok(c)
    ensures r.Ok? ==> r.value in db.users && db.users[r.value].username == username &&
                      compare(password, db.users[r.value].password)
    ensures UsernamesUnique(db) ==>
              (r.Ok? <==> exists u :: u in db.users && db.users[u].username == username &&
                                      compare(password, db.users[u].password))
  {
    var login := Login(db, username, Some(password), sign, compare, t);
    if login.Err? {
      return Err(login.error);
    }
    var request := new Request(Some("Bearer " + login.value.token));
    assert ToLower("Bearer ") == "bearer " by {
      var s := "Bearer ";
      assert ToLower(s)[0] == 'b';
      assert forall i :: 1 <= i < 7 ==> ToLower(s)[i] == s[i];
    }
    BearerHeader("Bearer ", login.value.token);
    r := Authenticate(request, verify);
  }

  /** A PermissionError is answered with 401 and its own message. */
  lemma PermissionReply(message: string, t: Translator)
    ensures ErrorHandler(PermissionError(message), t) == Respond(401, ErrorBody(message))
  {
  }

  /** A USER does not reach AUTHOR level. */
  lemma UserBelowAuthor()
    ensures !HasPermission("USER", "AUTHOR")
  {
    UserIndex();
    AuthorIndex();
  }

  /** The blog-creation route after authentication, with anything it throws
      passed to the error handler: a USER-role caller gets the permission
      401. */
  method CreateBlogReply(db: Db, caller: Id, title: string, content: string, tags: Option<seq<string>>,
                         newId: Id, t: Translator) returns (o: Outcome<Blog>)
    requires db.Valid() && newId !in db.blogs
    modifies db
    ensures db.Valid()
    ensures caller in old(db.users) && old(db.users)[caller].role == "USER" ==>
              o == Handled(Respond(401, ErrorBody(t("blogs-error-permission-create", map[]))))
    ensures o.Answered? ==> o.value.id == newId && newId in db.blogs
  {
    UserBelowAuthor();
    var created := CreateBlog(db, caller, title, content, tags, newId, t);
    if created.Err? {
      PermissionReply(created.error.message, t);
      return Handled(ErrorHandler(created.error, t));
    }
    o := Answered(created.value);
  }

  /** POST /api/blogs as a whole: without a token the reply is the
      "unlogged" 401; a USER-role caller gets the permission 401. */
  method PostBlog(db: Db, request: Request, verify: TokenVerifier, title: string, content: string,
                  tags: Option<seq<string>>, newId: Id, t: Translator) returns (o: Outcome<Blog>)
    requires db.Valid() && newId !in db.blogs
    requires request.token == None && request.user == None
    modifies db, request
    ensures db.Valid()
    ensures request.authorization.None? ==> o == Handled(Unlogged(t))
    ensures request.user.Some? && request.user.value in old(db.users) && old(db.users)[request.user.value].role == "USER" ==>
              o == Handled(Respond(401, ErrorBody(t("blogs-error-permission-create", map[]))))
  {
    var caller := Authenticate(request, verify);
    if caller.Err? {
      MissingTokenReply(t);
      return Handled(ErrorHandler(caller.error, t));
    }
    o := CreateBlogReply(db, caller.value, title, content, tags, newId, t);
  }

  /** POST /api/blogs/:id/comments without a token: the user extractor
      throws before the route body runs, so the reply is the "unlogged" 401
      and no comment is stored. */
  method PostCommentAnonymously(db: Db, request: Request, verify: TokenVerifier, t: Translator)
    returns (o: Outcome<Comment>)
    requires db.Valid()
    requires request.token == None && request.user == None && request.authorization.None?
    modifies db, request
    ensures db.Valid()
    ensures o == Handled(Unlogged(t)) && db.comments == old(db.comments)
  {
    var caller := Authenticate(request, verify);
    MissingTokenReply(t);
    o := Handled(ErrorHandler(caller.error, t));
  }

  /** POST /api/login as a whole: an unknown username is a 400 carrying the
      authentication message and no field. */
  method PostLogin(db: Db, username: string, password: Option<string>, sign: Signer, compare: PasswordChecker,
                   t: Translator) returns (o: Outcome<LoginReply>)
    ensures (forall u :: u in db.users ==> db.users[u].username != username) ==>
              o == Handled(Respond(400, ErrorFieldBody(t("login-error-authentication", map[]), None)))
    ensures o.Handled? && password.Some? ==> o.reply.Respond? && o.reply.status == 400
  {
    var login := Login(db, username, password, sign, compare, t);
    if login.Err? {
      return Handled(ErrorHandler(login.error, t));
    }
    o := Answered(login.value);
  }
}
