# Bitácora Futura backend: roles, errors and route decisions in Dafny

This project models the core of the Bitácora Futura blog backend, an
Express and Mongoose REST service:

- the role hierarchy USER < AUTHOR < ADMIN < SUPERADMIN and the two checks
  built on it, `hasPermission` and `canModifyTargetUserRole`;
- the three error classes of the backend, with the status codes their
  constructors fix;
- the request middleware: the bearer-token extractor, the user extractor
  and the error handler that turns a thrown error into a response;
- the password-length guard and the localisation of validation errors;
- the user and blog schemas: required fields, the role validator, the
  `roleSort` and tag pre-save hooks and the `toJSON` transforms;
- the route handlers of the blog, user and login routers, each working on a
  document store with one map per collection.

## Layout

- `base.dfy` (Base): `Option`, `Result`, the translator type `request.t`.
- `strings.dfy` (Strings): ASCII case mapping, UTF-16 length, `indexOf`, `startsWith`, `trim`, first word, global replace.
- `roles.dfy` (Roles): the role list, `HasPermission`, `CanModifyTargetUserRole` as written, and their lemmas.
- `errors.dfy` (Errors): `AppError`, one constructor per error name, with `Name()` and `Code()`.
- `utils.dfy` (Utils): `PasswordToHash`, `LocalizeValidationErrors`.
- `middleware.dfy` (Middleware): the `Request` class, the two extractors, `ErrorHandler`, `UnknownEndpoint`.
- `models.dfy` (Models): user, blog and comment records, validators, tag de-duplication, `toJSON`.
- `store.dfy` (Store): class `Db`: the collections, `Valid()`, and `save`/`delete` with the hooks.
- `query.dfy` (Query): the page offset, the page window `Page`, the pattern compiler `RegexCompiler` and the trimmed search parameters.
- `blogs.dfy` (BlogsController): the blog routes.
- `users.dfy` (UsersController): the user routes.
- `login.dfy` (LoginController): login and the password-reset routes.
- `pipeline.dfy` (Pipeline): whole requests: extractors, route, error handler.

Each handler is a method on the store `db: Db`. It keeps `db.Valid()`,
the invariant that every stored document passed its schema's validation
and pre-save hook. It returns `Err(e)` where the route throws `e`. The
caller id `request.user`, the translator `request.t`, the hash, compare,
sign and verify functions, the e-mail validator and the fresh ids and
tokens are parameters.

The role rule `canModifyTargetUserRole` is modelled as the code groups it:
the SUPERADMIN alternative stands outside the conjunction "all three roles
known and modifier outranks target". A reading in which all conditions
hold at once would refuse a SUPERADMIN acting on another SUPERADMIN and a
new role that is not a role at all. The model follows the code, and
`Roles.SuperadminBranchIgnoresTarget` shows those two decisions.

JavaScript measures strings in UTF-16 code units, while a Dafny string is a
sequence of code points. `Strings.Utf16Length` gives the JavaScript
length; the password guard and the username minimum length use it.

## Model

| member | source | states |
|---|---|---|
| Roles.RankTable | utils/roles.js:1 | USER, AUTHOR, ADMIN and SUPERADMIN sit at positions 0 to 3, and every other name at -1 |
| Roles.NamedRoleIndices | utils/roles.js:1-6 | after upper-casing, the four names have positions 0 to 3, and the sample name EDITOR has -1 (the general case is `Roles.RoleIndexRange`) |
| Roles.RoleIndexRange | utils/roles.js:5-6 | a role's position is between -1 and 3, and it is -1 exactly when the upper-cased name is not a role |
| Roles.RoleIndexCaseInsensitive | utils/roles.js:5-6 | the position does not depend on the case the role is written in |
| Roles.HasPermission | utils/roles.js:3-10 | permission holds exactly when both names are known roles and the current one is at least the minimum one |
| Roles.HasPermissionFailsClosed | utils/roles.js:8-9 | an unknown name on either side never has permission |
| Roles.HasPermissionReflexive | utils/roles.js:8-9 | every known role reaches its own level |
| Roles.HasPermissionCaseInsensitive | utils/roles.js:5-6 | lower-casing or upper-casing either argument does not change the answer |
| Roles.HasPermissionMonotone | utils/roles.js:8-9 | a role at least as high as one that has permission has it too |
| Roles.HasPermissionTransitive | utils/roles.js:8-9 | permission composes along the role order |
| Roles.AdminModifier | utils/roles.js:26-28 | for an ADMIN modifier, a change is allowed exactly when the target and the new role are both USER or AUTHOR |
| Roles.SuperadminModifier | utils/roles.js:26-29 | for a SUPERADMIN modifier, a change is allowed exactly when the new role's position is at most ADMIN's, whatever the target |
| Roles.LowModifierRefused | utils/roles.js:26-29 | USER, AUTHOR and unknown modifiers are always refused |
| Roles.NeverGrantsSuperadmin | utils/roles.js:26-29 | no allowed change has SUPERADMIN as the new role, and an ADMIN never grants ADMIN |
| Roles.ListedRoleIndex | utils/roles.js:1-6 | for a name on the list, both ways of looking it up agree and the position is between 0 and 3 |
| Roles.SuperadminBranchIgnoresTarget | utils/roles.js:26-29 | a SUPERADMIN may change another SUPERADMIN's role and may set an unknown role, as the grouping of the operators makes it |
| Roles.SampleRoleDecisions | utils/roles.js:26-29 | ADMIN cannot make a USER an ADMIN but can make them an AUTHOR; SUPERADMIN cannot grant SUPERADMIN; USER cannot change roles |
| Errors.AppError.Code | utils/errors/AuthenticationError.js:7 | an AuthenticationError has code 400, a PermissionError 401, an UnknownResourceError 400 with a message and 404 without |
| Errors.CodesOfClasses | utils/errors/UnknownResourceError.js:6 | the code of an AuthenticationError or PermissionError ignores its message and field; an UnknownResourceError with a message is a 400 |
| Errors.NamesOfKinds | utils/errors/PermissionError.js:5 | each constructor carries its own name, and only the catch-all constructor has a name outside the recognised ones |
| Utils.PasswordToHash | utils/utils.js:4-15 | hashing with 10 rounds happens exactly when the password has at least 8 UTF-16 code units; otherwise an AuthenticationError on field `password` with the minimum-length message, or a TypeError when no translator was passed |
| Utils.ErrorModel | utils/utils.js:19 | the model name is the lower-cased text of the error message up to its first space or its end |
| Utils.MessageKey | utils/utils.js:25-41 | `unique`, `required` and `minlength` build `<model>s-error-form-<field>-<kind>`; `user defined` gives `users-error-form-email-valid` for `email` only; any other kind gives no key |
| Utils.LocalizeValidationErrors | utils/utils.js:18-48 | one entry per field error, in the same order and with the same field; `unique` and `required` translate their key, `minlength` translates its key with the minimum length as parameter, `user defined` on `email` translates `users-error-form-email-valid`, and the message is "" when the kind has no key |
| Utils.UserModelPrefix | utils/utils.js:19-35 | a user validation error localises its keys under `users-error-form-` |
| Strings.IndexOf | utils/roles.js:5-6 | the first position of the name in the list, or -1 exactly when it is absent |
| Strings.TrimEmptyIff | controllers/blogs.js:31-32 | a parameter trims to "" exactly when it is all white space |
| Strings.ReplaceAllAbsent | controllers/blogs.js:122 | a global replace leaves a text without the pattern unchanged |
| Strings.ReplaceAllGrows | controllers/blogs.js:122 | a global replace by a text at least as long as the pattern never shortens the text |
| Strings.ReplaceAllFirstMatch | controllers/blogs.js:122 | a global replace keeps the text before the first occurrence, writes the replacement there and carries on after it |
| Strings.ReplaceAllAvoids | controllers/blogs.js:122 | after a global replace the pattern no longer occurs, nor does any text that was absent before and overlaps the replacement nowhere |
| Strings.Utf16Length | utils/utils.js:7 | the JavaScript length: between the number of characters and twice that, and equal to it for text inside the Basic Multilingual Plane |
| Strings.FourEmojiAreEightUnits | utils/utils.js:7 | four emoji are four characters but eight UTF-16 code units |
| Utils.FourEmojiPasswordHashed | utils/utils.js:7-14 | a password of four emoji passes the length guard and is hashed |
| Middleware.TokenExtractor | utils/middleware.js:6-13 | the token is set to the header without its first seven characters exactly when the lower-cased header starts with "bearer "; otherwise it is left unset; `next()` always follows |
| Middleware.UserExtractor | utils/middleware.js:15-21 | a missing or empty token throws the "jwt must be provided" error, a refused one throws the library's error, and a verified one sets `request.user` to the decoded id |
| Middleware.ErrorHandler | utils/middleware.js:35-68 | the eight recognised names get a response (the three backend classes with their own code, CastError, ValidationError, TypeError and SyntaxError with 400, JsonWebTokenError with 401 and the unlogged or session message); any other error is passed on unchanged |
| Middleware.UnknownEndpoint | utils/middleware.js:31-33 | every unanswered request gets a 404 |
| Models.RoleSetter | models/user.js:23-31 | the upper-cased role passes the role validator exactly when the name is a role in any case |
| Models.NewUser | models/user.js:27-35 | a new user has role USER, `roleSort` 0 (the position of USER) and no blogs or comments |
| Models.ValidateUser | models/user.js:7-44 | a user is valid exactly when username has at least 3 UTF-16 code units, name, password and email are set, the role is one of the four names and the email validator accepts the email |
| Models.ValidateBlog | models/blog.js:4-12 | a blog is valid exactly when title and content are set |
| Models.Dedup | models/blog.js:34-35 | the de-duplicated tags hold the same values, each once, and never more than before |
| Models.UniqueLowerTagsSpec | models/blog.js:32-38 | the stored tags are lower case and pairwise distinct, a value is stored exactly when it is the lower-cased form of an original tag, and there are never more than before |
| Models.DedupFirstOccurrenceOrder | models/blog.js:34-35 | de-duplication keeps the order of first occurrence |
| Models.UniqueLowerTagsIdempotent | models/blog.js:32-38 | running the tag hook again changes nothing |
| Models.DedupOfDistinct | models/blog.js:34-35 | tags without repetitions come back unchanged |
| Models.ValidateUserRoleChange | models/user.js:23-31 | changing only the role of a valid user keeps it valid exactly when the new role passes the validator |
| Models.UserToJSON | models/user.js:70-77 | the serialised user gains `id` as the string form of `_id`, loses `_id`, `__v` and `password`, and keeps every other key and value |
| Models.BlogToJSON | models/blog.js:40-46 | the serialised blog gains `id`, loses `_id` and `__v`, and keeps every other key and value |
| Store.Db.SaveUser | models/user.js:62-68 | an invalid user raises a ValidationError and nothing is written; otherwise the hook sets `roleSort` to the role's position and the user is stored |
| Store.Db.SaveBlog | models/blog.js:32-38 | an invalid blog raises a ValidationError; otherwise it is stored with its tags lower-cased and de-duplicated |
| Store.RoleSortOrdersByRank | models/user.js:62-65 | for stored users `roleSort` is the role's position, so sorting by `roleSort` sorts by rank |
| Query.Page | controllers/blogs.js:13-18 | a page holds the matching documents from the offset on, in order, at most the page limit of them, and is short only when it reaches the last one |
| Query.OffsetsTile | controllers/users.js:21-26 | the first page starts at 0 and each page starts where the previous one ended |
| Query.SixDocumentsPaginate | controllers/blogs.js:13-18 | of six documents, page 1 holds the first five, page 2 the sixth and page 3 none |
| Query.TrimmedParam | controllers/blogs.js:31-32 | a search parameter is "" exactly when it is absent or all white space |
| BlogsController.BuildBlogFilter | controllers/blogs.js:27-42 | a search (checked first) or tag whose pattern does not compile throws the SyntaxError; otherwise a title clause exactly when the trimmed search is non-empty, a tags clause exactly when the trimmed tag is, title first; no `$and` when both are empty |
| BlogsController.ShortenedContent | controllers/blogs.js:51-60 | the stripped content itself when shorter than 400, else its first 400 characters and "..."; never longer than 403 |
| BlogsController.ShortenDocSpec | controllers/blogs.js:52-66 | a listed document loses `content`, gains a `shortenedContent` of at most 403 characters, and keeps every other key |
| BlogsController.ShortenDocs | controllers/blogs.js:52-67 | every listed document is shortened in place |
| BlogsController.GetBlog | controllers/blogs.js:72-82 | the stored blog, or an UnknownResourceError when there is none |
| BlogsController.CreateBlog | controllers/blogs.js:84-105 | a caller whose role is set and below AUTHOR is refused; creation succeeds exactly when the caller is stored at AUTHOR level or above and title and content are set; a missing title or content gives the blog ValidationError listing exactly the failed fields; on success the blog is stored with normalised tags and appended to the caller's `blogs` |
| BlogsController.ImgRefRewriteSpec | controllers/blogs.js:122 | after the rewrite no `[IMGREF` and no `/]` is left; it never shortens the content and leaves marker-free content unchanged |
| BlogsController.ImgRefRewriteExample | controllers/blogs.js:122 | `[IMGREF/]` becomes `<p><img/></p>` |
| BlogsController.EditBlog | controllers/blogs.js:107-128 | a missing blog fails first; the edit succeeds exactly when the caller owns the blog or is at least ADMIN; only non-empty fields and supplied tags change |
| BlogsController.DeleteBlog | controllers/blogs.js:130-144 | a missing blog fails first; the blog is removed exactly when the caller owns it or is at least ADMIN; nothing else is removed |
| BlogsController.CommentsOf | controllers/blogs.js:148-172 | the listed comments of a blog are exactly the stored comments that name it |
| BlogsController.CommentsOfAfterAdd | controllers/blogs.js:190 | a stored comment appears under its own blog only |
| BlogsController.CommentsOfAfterRemove | controllers/blogs.js:213 | a deleted comment disappears from its blog's listing and nothing else does |
| BlogsController.AddComment | controllers/blogs.js:174-197 | the blog must exist; an empty text gives the comment ValidationError with the comment's field errors; the comment is stored, appended to both the blog's and the caller's `comments`, and joins the blog's comment listing |
| BlogsController.DeleteComment | controllers/blogs.js:199-215 | blog and comment must exist and the caller must be at least ADMIN; only the comment document is removed, and it leaves the blog's comment listing |
| UsersController.AdminRoles | controllers/users.js:17 | a stored user has ADMIN permission exactly when its role is ADMIN or SUPERADMIN |
| UsersController.ListUsers | controllers/users.js:14-52 | only an existing caller at ADMIN level lists users; after that gate a search whose pattern does not compile throws the SyntaxError; page size 5 at offset 5·(page−1); a non-blank search matches username, name or email |
| UsersController.Me | controllers/users.js:54-58 | the caller's username, name, role and email, or null |
| UsersController.IsAdmin | controllers/users.js:60-64 | a stored caller always gets the answer `hasPermission(role, 'ADMIN')`, true exactly when the caller's role is ADMIN or SUPERADMIN; a missing caller throws |
| UsersController.CreateUser | controllers/users.js:66-96 | a missing password fails before hashing, a short one at the guard with the translated minlength message on field `password`; an account that fails validation gives the user ValidationError with exactly its field errors, which the error handler answers with 400; a created user always has role USER and stores the hash |
| UsersController.EditUser | controllers/users.js:98-126 | a missing target fails first; only the account owner edits; a short new password gives the translated minlength AuthenticationError on field `password`, and an edited account that fails validation gives the user ValidationError with exactly its field errors; the edit succeeds exactly when the owner edits, a new password has at least 8 UTF-16 code units and the edited account passes validation; non-empty fields change, the password is stored hashed, the role never changes |
| UsersController.RoleChangeRefusal | controllers/users.js:135-143 | the guards in order: missing target or new role, missing modifier, modifier below ADMIN, role rule refusing; all pass exactly when the role rule allows the change |
| UsersController.ChangeRole | controllers/users.js:128-150 | a refused change writes nothing; an allowed one stores the upper-cased role when it is valid, and for an unknown role gives the user ValidationError of the account with that role; the result is never SUPERADMIN, and an ADMIN only moves USER and AUTHOR accounts between those roles |
| UsersController.RoleChangeFacts | controllers/users.js:141-145 | for stored role names, an allowed change never stores SUPERADMIN, and an ADMIN's allowed change involves only USER and AUTHOR |
| UsersController.DeleteUser | controllers/users.js:152-168 | a missing target fails first; a SUPERADMIN is never deleted; otherwise deletion happens exactly when the caller is the target or at least ADMIN |
| LoginController.Login | controllers/login.js:14-33 | an unknown username or a wrong password gives the same AuthenticationError; a known username without a password ends in the comparison library's error; on success the token signs the user's username and id and the reply carries the username and name |
| LoginController.RequestReset | controllers/login.js:35-57 | an unknown email is an UnknownResourceError; a token already issued is reused, otherwise the fresh one is stored |
| LoginController.ResetLinkWorksOnce | controllers/login.js:70-85 | after a successful confirmation the same link is refused as an unknown token |
| LoginController.ConfirmReset | controllers/login.js:59-88 | the checks run user, token, password; a short password after a valid user and token is the TypeError of the guard called without a translator; nothing changes unless all pass and the password is long enough; on success the hash is stored and the token is spent |
| Pipeline.Authenticate | app.js:29 | token extractor then user extractor: no header means the "jwt must be provided" error; a verified token sets `request.user` |
| Pipeline.BearerHeader | utils/middleware.js:8-9 | a header "Bearer <token>", in any case, carries exactly <token> |
| Pipeline.LoginThenAuthenticate | controllers/login.js:25-30 | the token of a successful login identifies the user who logged in; with unique usernames, the right username and password always end in an identified request |
| Pipeline.CreateBlogReply | controllers/blogs.js:89-91 | a USER-role caller creating a blog ends in a 401 with the permission message |
| Pipeline.PostBlog | tests/blogs_api.test.js:147-160 | a blog post without a token gets the unlogged 401; a USER-role caller gets the permission 401 |
| Pipeline.PostCommentAnonymously | controllers/blogs.js:174 | a comment post without a token gets the unlogged 401 and stores nothing |
| Pipeline.PostLogin | controllers/login.js:22-23 | an unknown username ends in a 400 with the authentication message and no field |

## Left out

- Case mapping and trimming follow ASCII only. JavaScript's `toUpperCase`, `toLowerCase` and `trim` also cover the rest of Unicode.
- Mongoose internals are not modelled: the pagination library's internals, population, regular-expression matching, sorting and the `unique` validator. The listing routes are modelled by the filter, page limit and offset they pass, and the page the library returns is the slice `Query.Page`; the `unique` error kind still has its message key.
- Sending e-mail (utils/email.js) is I/O and is left out. The reset route returns the id and token its link would carry.
- Token signing and verification, bcrypt hashing and comparison, and the random reset token are parameters. The bcrypt salt is not modelled.
- The 20-minute expiry of reset tokens is enforced by the database and is not modelled.
- The page parameter is taken as a number when present. A non-numeric page string is not modelled.
- A page number of 0 or below (`?page=0` is truthy, so it is kept) gives a negative offset; what the pagination library does with it is not modelled, and `Query.Page` is stated for non-negative offsets only.
- BlogsController.ShortenedContent: measures and cuts the text in characters (code points), not in UTF-16 code units. For text with characters outside the Basic Multilingual Plane JavaScript cuts earlier, and its cut can split a surrogate pair, which a Dafny string cannot hold. For text inside that plane the two agree (`Strings.Utf16Length`).
- The HTML-stripping regular expression of the blog listing is an abstract `strip` function.
- Request bodies are modelled with string fields. A body field of another JSON type is not modelled.
- Ids are plain strings. A malformed id, which the database rejects with a CastError, is only modelled in `ErrorHandler`.
- The catch-all error constructor is assumed to carry a name other than the eight recognised ones.
- The request logger, the language middleware, server start-up and configuration are I/O plumbing and are left out.
- The comment and reset-token schemas, models/comment.js and models/usertoken.js, are not part of this model beyond their required `comment` field and one token per user.
- LoginController.Login: when two stored users share a username, the result depends on which one the database returns. The contract states the outcome exactly only under `UsernamesUnique`, because the unique validator is not modelled.
- LoginController.Login and LoginController.RequestReset take the username and email as strings. A missing body field, which the database query would treat differently, is not modelled.
