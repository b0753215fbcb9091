/** The document store the route handlers work on: one map per
    collection, and `save` as the schemas define it (validation first,
    then the pre-save hook, then the write). */
module Store {
  import opened Base
  import opened Strings
  import opened Roles
  import opened Errors
  import opened Models

  class Db {
    /** The email validator of the user schema (`validator.isEmail`). */
    const isEmail: string -> bool
    var users: map<Id, User>
    var blogs: map<Id, Blog>
    var comments: map<Id, Comment>
    /** The password-reset tokens, by user id. */
    var resetTokens: map<Id, string>

    /** Every stored document passed its schema's validation and hook:
        users have a valid role and `roleSort` equal to its position,
        blogs have lower-case, distinct tags. */
    ghost predicate Valid()
      reads this
    {
      (forall id :: id in users ==>
         users[id].id == id && ValidateUser(users[id], isEmail) == [] &&
         users[id].roleSort == Rank(users[id].role)) &&
      (forall id :: id in blogs ==>
         blogs[id].id == id && ValidateBlog(blogs[id]) == [] && TagsNormal(blogs[id].tags)) &&
      (forall id :: id in comments ==>
         comments[id].id == id && ValidateComment(comments[id]) == [])
    }

    constructor(isEmail: string -> bool)
      ensures Valid() && this.isEmail == isEmail
      ensures users == map[] && blogs == map[] && comments == map[] && resetTokens == map[]
    {
      this.isEmail := isEmail;
      users, blogs, comments, resetTokens := map[], map[], map[], map[];
    }

    /** `user.save()`: a document that fails validation raises a
        ValidationError and nothing is written; otherwise the pre-save hook
        sets `roleSort` to the role's position and the document is stored. */
    method SaveUser(doc: User) returns (r: Result<User, AppError>)
      requires Valid()
      modifies this
      ensures Valid()
      ensures blogs == old(blogs) && comments == old(comments) && resetTokens == old(resetTokens)
      ensures r.Ok? <==> ValidateUser(doc, isEmail) == []
      ensures r.Err? ==> r.error == ValidationError(UserValidationMessage, ValidateUser(doc, isEmail)) && users == old(users)
      ensures r.Ok? ==> r.value == doc.(roleSort := Rank(doc.role)) && users == old(users)[doc.id := r.value]
    {
      var errs := ValidateUser(doc, isEmail);
      if errs != [] {
        return Err(ValidationError(UserValidationMessage, errs));
      }
      var saved := doc;
      if saved.roleSort != Rank(saved.role) {
        saved := saved.(roleSort := Rank(saved.role));
      }
      users := users[saved.id := saved];
      r := Ok(saved);
    }

    /** `blog.save()`: title and content are required; the pre-save hook
        replaces the tags by their lower-cased, de-duplicated form. */
    method SaveBlog(doc: Blog) returns (r: Result<Blog, AppError>)
      requires Valid()
      modifies this
      ensures Valid()
      ensures users == old(users) && comments == old(comments) && resetTokens == old(resetTokens)
      ensures r.Ok? <==> ValidateBlog(doc) == []
      ensures r.Err? ==> r.error == ValidationError(BlogValidationMessage, ValidateBlog(doc)) && blogs == old(blogs)
      ensures r.Ok? ==> r.value == doc.(tags := UniqueLowerTags(doc.tags)) && blogs == old(blogs)[doc.id := r.value]
    {
      var errs := ValidateBlog(doc);
      if errs != [] {
        return Err(ValidationError(BlogValidationMessage, errs));
      }
      var saved := doc;
      var tagsSet := UniqueLowerTags(saved.tags);
      UniqueLowerTagsSpec(saved.tags);
      saved := saved.(tags := tagsSet);
      blogs := blogs[saved.id := saved];
      r := Ok(saved);
    }

    /** `comment.save()`: the comment text is required. */
    method SaveComment(doc: Comment) returns (r: Result<Comment, AppError>)
      requires Valid()
      modifies this
      ensures Valid()
      ensures users == old(users) && blogs == old(blogs) && resetTokens == old(resetTokens)
      ensures r.Ok? <==> doc.comment != ""
      ensures r.Err? ==> r.error == ValidationError(CommentValidationMessage, ValidateComment(doc)) && comments == old(comments)
      ensures r.Ok? ==> r.value == doc && comments == old(comments)[doc.id := doc]
    {
      var errs := ValidateComment(doc);
      if errs != [] {
        return Err(ValidationError(CommentValidationMessage, errs));
      }
      comments := comments[doc.id := doc];
      r := Ok(doc);
    }

    /** `blog.delete()`: only the blog document goes. */
    method RemoveBlog(id: Id)
      requires Valid()
      modifies this
      ensures Valid()
      ensures blogs == old(blogs) - {id}
      ensures users == old(users) && comments == old(comments) && resetTokens == old(resetTokens)
    {
      blogs := blogs - {id};
    }

    /** `user.delete()`: only the user document goes; the user's blogs and
        comments stay. */
    method RemoveUser(id: Id)
      requires Valid()
      modifies this
      ensures Valid()
      ensures users == old(users) - {id}
      ensures blogs == old(blogs) && comments == old(comments) && resetTokens == old(resetTokens)
    {
      users := users - {id};
    }

    /** `new UserToken({ userId, token }).save()` */
    method SaveResetToken(userId: Id, token: string)
      requires Valid()
      modifies this
      ensures Valid()
      ensures resetTokens == old(resetTokens)[userId := token]
      ensures users == old(users) && blogs == old(blogs) && comments == old(comments)
    {
      resetTokens := resetTokens[userId := token];
    }

    /** `userToken.delete()` */
    method RemoveResetToken(userId: Id)
      requires Valid()
      modifies this
      ensures Valid()
      ensures resetTokens == old(resetTokens) - {userId}
      ensures users == old(users) && blogs == old(blogs) && comments == old(comments)
    {
      resetTokens := resetTokens - {userId};
    }

    /** `comment.delete()` */
    method RemoveComment(id: Id)
      requires Valid()
      modifies this
      ensures Valid()
      ensures comments == old(comments) - {id}
      ensures users == old(users) && blogs == old(blogs) && resetTokens == old(resetTokens)
    {
      comments := comments - {id};
    }
  }

  /** What validation and the hooks guarantee of a stored blog. */
  lemma StoredBlog(db: Db, id: Id)
    requires db.Valid() && id in db.blogs
    ensures db.blogs[id].id == id && ValidateBlog(db.blogs[id]) == [] && TagsNormal(db.blogs[id].tags)
  {
  }

  /** What validation and the hook guarantee of a stored user. */
  lemma StoredUser(db: Db, id: Id)
    requires db.Valid() && id in db.users
    ensures db.users[id].id == id && ValidateUser(db.users[id], db.isEmail) == []
    ensures db.users[id].roleSort == Rank(db.users[id].role)
  {
  }

  /** Sorting stored users by `roleSort` is sorting them by role rank:
      every stored role is one of the four names and `roleSort` is its
      position. */
  lemma RoleSortOrdersByRank(db: Db, a: Id, b: Id)
    requires db.Valid() && a in db.users && b in db.users
    ensures 0 <= db.users[a].roleSort <= 3
    ensures db.users[a].roleSort == RoleIndex(db.users[a].role)
    ensures db.users[a].roleSort <= db.users[b].roleSort <==>
              RoleIndex(db.users[a].role) <= RoleIndex(db.users[b].role)
  {
    ListedRoleIndex(db.users[a].role);
    ListedRoleIndex(db.users[b].role);
  }
}
