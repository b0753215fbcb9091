/** The blog routes (controllers/blogs.js). Each handler runs after the
    user extractor where the source mounts it, so `caller` is
    `request.user`; a thrown error is returned as `Err`. */
module BlogsController {
  import opened Base
  import opened Strings
  import opened Roles
  import opened Errors
  import opened Models
  import opened Store
  import opened Query

  // ---------------------------------------------------------------------
  // GET /: filter construction and content shortening

  /** One clause of the `$and` list: a case-insensitive regular expression
      on the title or on the tags. */
  datatype Clause = TitleMatches(regex: string) | TagsMatch(regex: string)

  /** `blogFind`: `{}` (None) or `{ $and: clauses }`. */
  datatype BlogFilter = BlogFilter(and: Option<seq<Clause>>)

  /** The listing filter: a title clause exactly when the trimmed `search`
      is non-empty, a tags clause exactly when the trimmed `tag` is, in that
      order; no `$and` at all when both are empty. Building a clause
      compiles its pattern, so a search (first) or tag that is not a valid
      pattern throws the compiler's SyntaxError. */
  method BuildBlogFilter(search: Option<string>, tag: Option<string>, regexError: RegexCompiler)
    returns (r: Result<BlogFilter, AppError>)
    ensures TrimmedParam(search) != "" && regexError(Anywhere(TrimmedParam(search))).Some? ==>
              r == Err(SyntaxError(regexError(Anywhere(TrimmedParam(search))).value))
    ensures (TrimmedParam(search) == "" || regexError(Anywhere(TrimmedParam(search))).None?) &&
            TrimmedParam(tag) != "" && regexError(Anywhere(TrimmedParam(tag))).Some? ==>
              r == Err(SyntaxError(regexError(Anywhere(TrimmedParam(tag))).value))
    ensures r.Ok? <==>
              (TrimmedParam(search) == "" || regexError(Anywhere(TrimmedParam(search))).None?) &&
              (TrimmedParam(tag) == "" || regexError(Anywhere(TrimmedParam(tag))).None?)
    ensures r.Ok? ==> (r.value.and.None? <==> TrimmedParam(search) == "" && TrimmedParam(tag) == "")
    ensures r.Ok? && r.value.and.Some? ==>
              (TitleMatches(Anywhere(TrimmedParam(search))) in r.value.and.value <==> TrimmedParam(search) != "") &&
              (TagsMatch(Anywhere(TrimmedParam(tag))) in r.value.and.value <==> TrimmedParam(tag) != "") &&
              |r.value.and.value| == (if TrimmedParam(search) != "" then 1 else 0) + (if TrimmedParam(tag) != "" then 1 else 0)
    ensures r.Ok? && r.value.and.Some? && TrimmedParam(search) != "" ==> r.value.and.value[0].TitleMatches?
  {
    var blogFind := BlogFilter(None);
    var blogSearch := TrimmedParam(search);
    var blogTag := TrimmedParam(tag);
    if blogSearch != "" || blogTag != "" {
      var and: seq<Clause> := [];
      if blogSearch != "" {
        var compiled := regexError(Anywhere(blogSearch));
        if compiled.Some? {
          return Err(SyntaxError(compiled.value));
        }
        and := and + [TitleMatches(Anywhere(blogSearch))];
      }
      if blogTag != "" {
        var compiled := regexError(Anywhere(blogTag));
        if compiled.Some? {
          return Err(SyntaxError(compiled.value));
        }
        and := and + [TagsMatch(Anywhere(blogTag))];
      }
      blogFind := BlogFilter(Some(and));
    }
    r := Ok(blogFind);
  }

  const MaxLengthContent: nat := 400

  /** The listing's `shortenedContent`: the HTML-stripped content itself
      when shorter than 400 characters, otherwise its first 400 characters
      followed by "...". */
  function ShortenedContent(stripped: string): (r: string)
    ensures |r| <= MaxLengthContent + 3
    ensures |stripped| < MaxLengthContent ==> r == stripped
    ensures |stripped| >= MaxLengthContent ==>
              |r| == MaxLengthContent + 3 &&
              r[..MaxLengthContent] == stripped[..MaxLengthContent] && r[MaxLengthContent..] == "..."
  {
    if |stripped| < MaxLengthContent then stripped
    else stripped[..MaxLengthContent] + "..."
  }

  /** One listed document after the map step: `shortenedContent` set from
      the stripped content and `content` deleted. */
  function ShortenDoc(fields: map<string, JsonValue>, strip: string -> string): map<string, JsonValue>
    requires "content" in fields && fields["content"].JString?
  {
    fields["shortenedContent" := JString(ShortenedContent(strip(fields["content"].s)))] - {"content"}
  }

  /** A shortened document has no `content`, a `shortenedContent` of at
      most 403 characters, and every other key as before. */
  lemma ShortenDocSpec(fields: map<string, JsonValue>, strip: string -> string)
    requires "content" in fields && fields["content"].JString?
    ensures "content" !in ShortenDoc(fields, strip)
    ensures "shortenedContent" in ShortenDoc(fields, strip)
    ensures ShortenDoc(fields, strip)["shortenedContent"].JString?
    ensures |ShortenDoc(fields, strip)["shortenedContent"].s| <= MaxLengthContent + 3
    ensures forall k :: k != "content" && k != "shortenedContent" ==>
              (k in ShortenDoc(fields, strip) <==> k in fields) &&
              (k in fields ==> ShortenDoc(fields, strip)[k] == fields[k])
  {
  }

  /** The map over `blogsJson.docs`: each parsed document is changed in
      place. `strip` is the HTML-removing regular expression replace. */
  method ShortenDocs(docs: seq<JsonObject>, strip: string -> string)
    requires forall i, j :: 0 <= i < j < |docs| ==> docs[i] != docs[j]
    requires forall i :: 0 <= i < |docs| ==> "content" in docs[i].fields && docs[i].fields["content"].JString?
    modifies set i | 0 <= i < |docs| :: docs[i]
    ensures forall i :: 0 <= i < |docs| ==> docs[i].fields == ShortenDoc(old(docs[i].fields), strip)
  {
    var n := 0;
    while n < |docs|
      invariant 0 <= n <= |docs|
      invariant forall i :: 0 <= i < n ==> docs[i].fields == ShortenDoc(old(docs[i].fields), strip)
      invariant forall i :: n <= i < |docs| ==> docs[i].fields == old(docs[i].fields)
    {
      var blog := docs[n];
      var shortenedContentNoHtml := strip(blog.fields["content"].s);
      var shortenedContent := ShortenedContent(shortenedContentNoHtml);
      blog.fields := blog.fields["shortenedContent" := JString(shortenedContent)];
      blog.fields := blog.fields - {"content"};
      n := n + 1;
    }
  }

  // ---------------------------------------------------------------------
  // The single-blog routes

  /** Owners act on their own blog; anyone else needs ADMIN or higher. */
  ghost predicate MayActOnBlog(db: Db, caller: Id, blog: Blog)
    reads db
  {
    blog.user == caller || (caller in db.users && HasPermission(db.users[caller].role, "ADMIN"))
  }

  /** GET /:id */
  method GetBlog(db: Db, id: Id, t: Translator) returns (r: Result<Blog, AppError>)
    ensures r.Ok? <==> id in db.blogs
    ensures r.Ok? ==> r.value == db.blogs[id]
    ensures r.Err? ==> r.error == UnknownResourceError(t("error-unknownresource", map[]))
  {
    if id !in db.blogs {
      return Err(UnknownResourceError(t("error-unknownresource", map[])));
    }
    r := Ok(db.blogs[id]);
  }

  /** POST /: a caller whose role is set and below AUTHOR is refused; the
      new blog is saved (tags default to none) and appended to the
      caller's `blogs`. A caller the store no longer has makes the role
      read throw. */
  method CreateBlog(db: Db, caller: Id, title: string, content: string, tags: Option<seq<string>>,
                    newId: Id, t: Translator) returns (r: Result<Blog, AppError>)
    requires db.Valid() && newId !in db.blogs
    modifies db
    ensures db.Valid()
    ensures db.comments == old(db.comments) && db.resetTokens == old(db.resetTokens)
    ensures caller !in old(db.users) ==> r == Err(TypeError(NullRead))
    ensures caller in old(db.users) && old(db.users[caller].role) != "" && !HasPermission(old(db.users[caller].role), "AUTHOR") ==>
              r == Err(PermissionError(t("blogs-error-permission-create", map[])))
    ensures caller in old(db.users) && HasPermission(old(db.users[caller].role), "AUTHOR") && (title == "" || content == "") ==>
              r == Err(ValidationError(BlogValidationMessage,
                                       ValidateBlog(Blog(newId, title, content, if tags.Some? then tags.value else [], caller, []))))
    ensures r.Err? ==> db.blogs == old(db.blogs) && db.users == old(db.users)
    ensures r.Ok? <==>
              caller in old(db.users) && HasPermission(old(db.users[caller].role), "AUTHOR") && title != "" && content != ""
    ensures r.Ok? ==>
              r.value == Blog(newId, title, content, UniqueLowerTags(if tags.Some? then tags.value else []), caller, []) &&
              db.blogs == old(db.blogs)[newId := r.value] &&
              db.users == old(db.users)[caller := old(db.users[caller]).(blogs := old(db.users[caller]).blogs + [newId])]
  {
    if caller !in db.users {
      return Err(TypeError(NullRead));
    }
    StoredUser(db, caller);
    var user := db.users[caller];
    if user.role != "" && !HasPermission(user.role, "AUTHOR") {
      return Err(PermissionError(t("blogs-error-permission-create", map[])));
    }
    var blog := Blog(newId, title, content, if tags.Some? then tags.value else [], user.id, []);
    var savedBlog := db.SaveBlog(blog);
    if savedBlog.Err? {
      return Err(savedBlog.error);
    }
    user := user.(blogs := user.blogs + [savedBlog.value.id]);
    var savedUser := db.SaveUser(user);
    assert savedUser.Ok?;
    r := Ok(savedBlog.value);
  }

  /** The content rewrite of an edit: `[IMGREF` becomes `<p><img` and `/]`
      becomes `/></p>`. */
  function ImgRefRewrite(content: string): string
  {
    ReplaceAll(ReplaceAll(content, "[IMGREF", "<p><img"), "/]", "/></p>")
  }

  /** The closing marker overlaps its replacement nowhere. */
  lemma CloseMarkerNoOverlap()
    ensures NoOverlap("/]", "/></p>")
  {
    var p, r := "/]", "/></p>";
    forall d | -|p| < d < |r|
      ensures !AgreesAt(p, r, d)
    {
      var j := if d == -1 || d == 0 || d == 3 then 1 else 0;
      assert p[j] != r[d + j];
    }
  }

  /** The rewrite leaves no `[IMGREF` and no `/]` behind; it never
      shortens the text, so non-empty content stays non-empty; text
      without either marker is left as it is. */
  lemma ImgRefRewriteSpec(content: string)
    ensures !Occurs(ImgRefRewrite(content), "[IMGREF") && !Occurs(ImgRefRewrite(content), "/]")
    ensures |ImgRefRewrite(content)| >= |content|
    ensures !Occurs(content, "[IMGREF") && !Occurs(content, "/]") ==> ImgRefRewrite(content) == content
  {
    var once := ReplaceAll(content, "[IMGREF", "<p><img");
    DisjointNoOverlap("[IMGREF", "<p><img");
    DisjointNoOverlap("[IMGREF", "/></p>");
    CloseMarkerNoOverlap();
    ReplaceAllAvoids(content, "[IMGREF", "<p><img", "[IMGREF");
    ReplaceAllAvoids(once, "/]", "/></p>", "[IMGREF");
    ReplaceAllAvoids(once, "/]", "/></p>", "/]");
    ReplaceAllSameLength(content, "[IMGREF", "<p><img");
    ReplaceAllGrows(once, "/]", "/></p>");
    if !Occurs(content, "[IMGREF") && !Occurs(content, "/]") {
      ReplaceAllAbsent(content, "[IMGREF", "<p><img");
      ReplaceAllAbsent(content, "/]", "/></p>");
    }
  }

  /** An image marker of the editor becomes an HTML paragraph with an image. */
  lemma ImgRefRewriteExample()
    ensures ImgRefRewrite("[IMGREF/]") == "<p><img/></p>"
  {
    var imgOpened := ReplaceAll("[IMGREF/]", "[IMGREF", "<p><img");
    assert "[IMGREF/]"[..7] == "[IMGREF" && "[IMGREF/]"[7..] == "/]";
    LastCharAbsent("/]", "[IMGREF");
    ReplaceAllAbsent("/]", "[IMGREF", "<p><img");
    assert imgOpened == "<p><img" + "/]";
    LastCharAbsent("<p><img" + "/]"[..1], "/]");
    ReplaceAllFirstMatch("<p><img", "/]", [], "/></p>");
    assert imgOpened == "<p><img" + "/]" + [];
    assert ReplaceAll([], "/]", "/></p>") == [];
  }

  /** PUT /:id: a missing blog fails first; then the caller must own the
      blog or be at least ADMIN. Only non-empty fields (and supplied tags)
      change, and the content goes through the image-marker rewrite. */
  method EditBlog(db: Db, caller: Id, id: Id, title: string, content: string, tags: Option<seq<string>>,
                  t: Translator) returns (r: Result<Blog, AppError>)
    requires db.Valid()
    modifies db
    ensures db.Valid()
    ensures db.users == old(db.users) && db.comments == old(db.comments) && db.resetTokens == old(db.resetTokens)
    ensures id !in old(db.blogs) ==> r == Err(UnknownResourceError(t("error-unknownresource", map[])))
    ensures id in old(db.blogs) && old(db.blogs[id].user) != caller && caller !in old(db.users) ==>
              r == Err(TypeError(NullRead))
    ensures id in old(db.blogs) && old(db.blogs[id].user) != caller && caller in old(db.users) &&
            !HasPermission(old(db.users[caller].role), "ADMIN") ==>
              r == Err(PermissionError(t("blogs-error-author-action-edit", map[])))
    ensures r.Err? ==> db.blogs == old(db.blogs)
    ensures r.Ok? <==> id in old(db.blogs) && old(MayActOnBlog(db, caller, db.blogs[id]))
    ensures r.Ok? ==>
              var before := old(db.blogs[id]);
              r.value.id == id && r.value.user == before.user && r.value.comments == before.comments &&
              r.value.title == (if title != "" then title else before.title) &&
              r.value.content == (if content != "" then ImgRefRewrite(content) else before.content) &&
              r.value.tags == (if tags.Some? then UniqueLowerTags(tags.value) else before.tags) &&
              db.blogs == old(db.blogs)[id := r.value]
  {
    if id !in db.blogs {
      return Err(UnknownResourceError(t("error-unknownresource", map[])));
    }
    StoredBlog(db, id);
    var blog := db.blogs[id];
    if blog.user != caller {
      if caller !in db.users {
        return Err(TypeError(NullRead));
      }
      if !HasPermission(db.users[caller].role, "ADMIN") {
        return Err(PermissionError(t("blogs-error-author-action-edit", map[])));
      }
    }
    if title != "" {
      blog := blog.(title := title);
    }
    if content != "" {
      ImgRefRewriteSpec(content);
      blog := blog.(content := ImgRefRewrite(content));
    }
    if tags.Some? {
      blog := blog.(tags := tags.value);
    } else {
      UniqueLowerTagsOfNormal(blog.tags);
    }
    var saved := db.SaveBlog(blog);
    assert saved.Ok?;
    r := Ok(saved.value);
  }

  /** DELETE /:id: the same checks as an edit; only the blog document is
      removed (its comments and the author's `blogs` entry stay). */
  method DeleteBlog(db: Db, caller: Id, id: Id, t: Translator) returns (r: Result<(), AppError>)
    requires db.Valid()
    modifies db
    ensures db.Valid()
    ensures db.users == old(db.users) && db.comments == old(db.comments) && db.resetTokens == old(db.resetTokens)
    ensures id !in old(db.blogs) ==> r == Err(UnknownResourceError(t("error-unknownresource", map[])))
    ensures id in old(db.blogs) && old(db.blogs[id].user) != caller && caller !in old(db.users) ==>
              r == Err(TypeError(NullRead))
    ensures id in old(db.blogs) && old(db.blogs[id].user) != caller && caller in old(db.users) &&
            !HasPermission(old(db.users[caller].role), "ADMIN") ==>
              r == Err(PermissionError(t("blogs-error-author-action-delete", map[])))
    ensures r.Ok? <==> id in old(db.blogs) && old(MayActOnBlog(db, caller, db.blogs[id]))
    ensures r.Ok? ==> db.blogs == old(db.blogs) - {id}
    ensures r.Err? ==> db.blogs == old(db.blogs)
  {
    if id !in db.blogs {
      return Err(UnknownResourceError(t("error-unknownresource", map[])));
    }
    var blog := db.blogs[id];
    if blog.user != caller {
      if caller !in db.users {
        return Err(TypeError(NullRead));
      }
      if !HasPermission(db.users[caller].role, "ADMIN") {
        return Err(PermissionError(t("blogs-error-author-action-delete", map[])));
      }
    }
    db.RemoveBlog(id);
    r := Ok(());
  }

  // ---------------------------------------------------------------------
  // Comments

  /** GET /:id/comments: the filter `{ blog: id }` over the comments. */
  function CommentsOf(comments: map<Id, Comment>, blogId: Id): (r: set<Id>)
    ensures forall c :: c in r <==> c in comments && comments[c].blog == blogId
  {
    set c | c in comments && comments[c].blog == blogId
  }

  /** A comment stored by `AddComment` is listed under its blog and no other. */
  lemma CommentsOfAfterAdd(comments: map<Id, Comment>, c: Comment, blogId: Id)
    requires c.id !in comments
    ensures CommentsOf(comments[c.id := c], blogId) ==
              if c.blog == blogId then CommentsOf(comments, blogId) + {c.id} else CommentsOf(comments, blogId)
  {
  }

  /** A deleted comment disappears from its listing; nothing else does. */
  lemma CommentsOfAfterRemove(comments: map<Id, Comment>, id: Id, blogId: Id)
    ensures CommentsOf(comments - {id}, blogId) == CommentsOf(comments, blogId) - {id}
  {
  }

  /** POST /:id/comments: the blog must exist; the comment is saved and
      appended to both the blog's and the caller's `comments`. */
  method AddComment(db: Db, caller: Id, blogId: Id, text: string, newId: Id, t: Translator)
    returns (r: Result<Comment, AppError>)
    requires db.Valid() && newId !in db.comments
    modifies db
    ensures db.Valid()
    ensures db.resetTokens == old(db.resetTokens)
    ensures blogId !in old(db.blogs) ==> r == Err(UnknownResourceError(t("error-unknownresource", map[])))
    ensures blogId in old(db.blogs) && caller !in old(db.users) ==> r == Err(TypeError(NullRead))
    ensures blogId in old(db.blogs) && caller in old(db.users) && text == "" ==>
              r == Err(ValidationError(CommentValidationMessage, ValidateComment(Comment(newId, text, caller, blogId))))
    ensures r.Err? ==> db.blogs == old(db.blogs) && db.users == old(db.users) && db.comments == old(db.comments)
    ensures r.Ok? <==> blogId in old(db.blogs) && caller in old(db.users) && text != ""
    ensures r.Ok? ==>
              r.value == Comment(newId, text, caller, blogId) &&
              db.comments == old(db.comments)[newId := r.value] &&
              db.blogs == old(db.blogs)[blogId := old(db.blogs[blogId]).(comments := old(db.blogs[blogId]).comments + [newId])] &&
              db.users == old(db.users)[caller := old(db.users[caller]).(comments := old(db.users[caller]).comments + [newId])]
    ensures r.Ok? ==> CommentsOf(db.comments, blogId) == CommentsOf(old(db.comments), blogId) + {newId}
  {
    if blogId !in db.blogs {
      return Err(UnknownResourceError(t("error-unknownresource", map[])));
    }
    StoredBlog(db, blogId);
    var blog := db.blogs[blogId];
    if caller !in db.users {
      return Err(TypeError(NullRead));
    }
    StoredUser(db, caller);
    var user := db.users[caller];
    var comment := Comment(newId, text, user.id, blog.id);
    var savedComment := db.SaveComment(comment);
    if savedComment.Err? {
      return Err(savedComment.error);
    }
    blog := blog.(comments := blog.comments + [comment.id]);
    UniqueLowerTagsOfNormal(blog.tags);
    var savedBlog := db.SaveBlog(blog);
    assert savedBlog.Ok?;
    user := user.(comments := user.comments + [comment.id]);
    var savedUser := db.SaveUser(user);
    assert savedUser.Ok?;
    CommentsOfAfterAdd(old(db.comments), comment, blogId);
    r := Ok(savedComment.value);
  }

  /** DELETE /:id/comments/:commentid: blog and comment must both exist and
      the caller must be at least ADMIN (an AUTHOR is refused, even for a
      comment of their own). Only the comment document is removed; the
      comment need not belong to that blog. */
  method DeleteComment(db: Db, caller: Id, blogId: Id, commentId: Id, t: Translator)
    returns (r: Result<(), AppError>)
    requires db.Valid()
    modifies db
    ensures db.Valid()
    ensures db.users == old(db.users) && db.blogs == old(db.blogs) && db.resetTokens == old(db.resetTokens)
    ensures blogId !in old(db.blogs) || commentId !in old(db.comments) ==>
              r == Err(UnknownResourceError(t("error-unknownresource", map[])))
    ensures blogId in old(db.blogs) && commentId in old(db.comments) && caller !in old(db.users) ==>
              r == Err(TypeError(NullRead))
    ensures blogId in old(db.blogs) && commentId in old(db.comments) && caller in old(db.users) &&
            !HasPermission(old(db.users[caller].role), "ADMIN") ==>
              r == Err(PermissionError(t("blogs-error-comment-delete", map[])))
    ensures r.Ok? <==> blogId in old(db.blogs) && commentId in old(db.comments) && caller in old(db.users) &&
                       HasPermission(old(db.users[caller].role), "ADMIN")
    ensures r.Ok? ==> db.comments == old(db.comments) - {commentId}
    ensures r.Ok? ==> CommentsOf(db.comments, blogId) == CommentsOf(old(db.comments), blogId) - {commentId}
    ensures r.Err? ==> db.comments == old(db.comments)
  {
    if blogId !in db.blogs || commentId !in db.comments {
      return Err(UnknownResourceError(t("error-unknownresource", map[])));
    }
    if caller !in db.users {
      return Err(TypeError(NullRead));
    }
    if !HasPermission(db.users[caller].role, "ADMIN") {
      return Err(PermissionError(t("blogs-error-comment-delete", map[])));
    }
    db.RemoveComment(commentId);
    CommentsOfAfterRemove(old(db.comments), commentId, blogId);
    r := Ok(());
  }
}
