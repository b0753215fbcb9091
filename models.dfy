/** The user and blog schemas: required fields, validators, the pre-save
    hooks and the JSON transforms (models/user.js, models/blog.js). */
module Models {
  import opened Base
  import opened Strings
  import opened Roles
  import opened Errors

  /** A stored user document. `password` holds the hash. */
  datatype User = User(
    id: Id, username: string, name: string, password: string,
    role: string, roleSort: int, email: string,
    blogs: seq<Id>, comments: seq<Id>)

  /** A stored blog document; `user` is the author's id. */
  datatype Blog = Blog(
    id: Id, title: string, content: string, tags: seq<string>,
    user: Id, comments: seq<Id>)

  /** A stored comment document. */
  datatype Comment = Comment(id: Id, comment: string, user: Id, blog: Id)

  const UsernameMinLength: nat := 3
  const UserValidationMessage: string := "User validation failed"
  const BlogValidationMessage: string := "Blog validation failed"
  const CommentValidationMessage: string := "Comment validation failed"

  /** The `kind` of a failed `required` check; a string field fails it when empty. */
  const Required: FieldError := FieldError("required", None)

  /** The role validator: the value, already upper-cased by the schema's
      setter, must be one of the four names. */
  predicate RoleValidator(r: string)
  {
    r in RoleList
  }

  /** The schema's `uppercase: true` setter, applied on assignment. */
  function RoleSetter(r: string): (u: string)
    ensures RoleValidator(u) <==> KnownRole(r)
  {
    ToUpper(r)
  }

  /** A new user takes the schema defaults: role "USER" and roleSort 0. */
  function NewUser(id: Id, username: string, name: string, password: string, email: string): (u: User)
    ensures u.role == "USER" && u.roleSort == 0 && Rank(u.role) == u.roleSort
    ensures u.blogs == [] && u.comments == []
  {
    RankTable("");
    ToUpperOfUpper("USER");
    User(id, username, name, password, RoleSetter("USER"), 0, email, [], [])
  }

  /** The validation errors of a user document, keyed by path in schema
      order: `username` (required, at least 3 UTF-16 code units), `name`, `password`,
      `role` (required, one of the four names) and `email` (required,
      well-formed by the email validator `isEmail`). */
  function ValidateUser(u: User, isEmail: string -> bool): (errs: seq<(string, FieldError)>)
    ensures errs == [] <==>
              Utf16Length(u.username) >= UsernameMinLength && u.name != "" && u.password != "" &&
              RoleValidator(u.role) && u.email != "" && isEmail(u.email)
    ensures forall i :: 0 <= i < |errs| ==> errs[i].0 in {"username", "name", "password", "role", "email"}
  {
    (if u.username == "" then [("username", Required)]
     else if Utf16Length(u.username) < UsernameMinLength then [("username", FieldError("minlength", Some(UsernameMinLength)))]
     else [])
    + (if u.name == "" then [("name", Required)] else [])
    + (if u.password == "" then [("password", Required)] else [])
    + (if u.role == "" then [("role", Required)]
       else if !RoleValidator(u.role) then [("role", FieldError("user defined", None))]
       else [])
    + (if u.email == "" then [("email", Required)]
       else if !isEmail(u.email) then [("email", FieldError("user defined", None))]
       else [])
  }

  /** Changing only the role of a valid user leaves it valid exactly when
      the new role passes the role validator. */
  lemma ValidateUserRoleChange(u: User, role: string, isEmail: string -> bool)
    requires ValidateUser(u, isEmail) == []
    ensures ValidateUser(u.(role := role), isEmail) == [] <==> RoleValidator(role)
  {
  }

  /** The validation errors of a blog document: `title` and `content` are required. */
  function ValidateBlog(b: Blog): (errs: seq<(string, FieldError)>)
    ensures errs == [] <==> b.title != "" && b.content != ""
    ensures forall i :: 0 <= i < |errs| ==> errs[i].1 == Required
  {
    (if b.title == "" then [("title", Required)] else [])
    + (if b.content == "" then [("content", Required)] else [])
  }

  /** The validation errors of a comment document: `comment` is required. */
  function ValidateComment(c: Comment): (errs: seq<(string, FieldError)>)
    ensures errs == [] <==> c.comment != ""
  {
    if c.comment == "" then [("comment", Required)] else []
  }

  /** No value occurs twice. */
  predicate Distinct(s: seq<string>)
  {
    forall i, j :: 0 <= i < j < |s| ==> s[i] != s[j]
  }

  /** `Array.from(new Set(s))`: each value once, at its first occurrence. */
  function Dedup(s: seq<string>): (r: seq<string>)
    ensures forall x :: x in r <==> x in s
    ensures Distinct(r)
    ensures |r| <= |s|
  {
    if |s| == 0 then []
    else
      var d := Dedup(s[..|s| - 1]);
      assert forall x :: x in s <==> x in s[..|s| - 1] || x == s[|s| - 1];
      if s[|s| - 1] in d then d else d + [s[|s| - 1]]
  }

  /** `tags.map(tag => tag.toLowerCase())` */
  function LowerAll(tags: seq<string>): (r: seq<string>)
    ensures |r| == |tags|
    ensures forall i :: 0 <= i < |tags| ==> r[i] == ToLower(tags[i])
  {
    seq(|tags|, i requires 0 <= i < |tags| => ToLower(tags[i]))
  }

  /** The tags the blog pre-save hook stores. */
  function UniqueLowerTags(tags: seq<string>): seq<string>
  {
    Dedup(LowerAll(tags))
  }

  /** Every tag is in lower case and no tag occurs twice. */
  predicate TagsNormal(tags: seq<string>)
  {
    Distinct(tags) && forall i :: 0 <= i < |tags| ==> ToLower(tags[i]) == tags[i]
  }

  /** The stored tags are lower case and pairwise distinct, a value is
      among them exactly when it is the lower-cased form of an original tag,
      and there are never more of them than before. */
  lemma UniqueLowerTagsSpec(tags: seq<string>)
    ensures TagsNormal(UniqueLowerTags(tags))
    ensures forall x :: x in UniqueLowerTags(tags) <==> exists i :: 0 <= i < |tags| && ToLower(tags[i]) == x
    ensures |UniqueLowerTags(tags)| <= |tags|
  {
    var l := LowerAll(tags);
    var r := Dedup(l);
    forall i | 0 <= i < |r|
      ensures ToLower(r[i]) == r[i]
    {
      assert r[i] in l;
      var k :| 0 <= k < |l| && l[k] == r[i];
      ToLowerIdempotent(tags[k]);
    }
    forall x
      ensures x in r <==> exists i :: 0 <= i < |tags| && ToLower(tags[i]) == x
    {
      if x in r {
        var k :| 0 <= k < |l| && l[k] == x;
      }
      if exists i :: 0 <= i < |tags| && ToLower(tags[i]) == x {
        var i :| 0 <= i < |tags| && ToLower(tags[i]) == x;
        assert l[i] == x;
      }
    }
  }

  /** A sequence without repetitions is its own deduplication. */
  lemma {:induction false} DedupOfDistinct(s: seq<string>)
    requires Distinct(s)
    ensures Dedup(s) == s
  {
    if |s| > 0 {
      var p := s[..|s| - 1];
      DedupOfDistinct(p);
      assert s[|s| - 1] !in p;
      assert p + [s[|s| - 1]] == s;
    }
  }

  /** A value that occurs in `p` has the same position in `p + q`. */
  lemma {:induction false} IndexOfAppend(p: seq<string>, q: seq<string>, x: string)
    requires x in p
    ensures IndexOf(p + q, x) == IndexOf(p, x)
  {
    if p[0] != x {
      assert (p + q)[1..] == p[1..] + q;
      IndexOfAppend(p[1..], q, x);
    }
  }

  /** A value absent from `p` and appended to it sits at position `|p|`. */
  lemma {:induction false} IndexOfAppendNew(p: seq<string>, x: string)
    requires x !in p
    ensures IndexOf(p + [x], x) == |p|
  {
    if |p| > 0 {
      assert (p + [x])[1..] == p[1..] + [x];
      IndexOfAppendNew(p[1..], x);
    }
  }

  /** Deduplication keeps the order of first occurrences. */
  lemma {:induction false} DedupFirstOccurrenceOrder(s: seq<string>)
    ensures forall i, j :: 0 <= i < j < |Dedup(s)| ==> IndexOf(s, Dedup(s)[i]) < IndexOf(s, Dedup(s)[j])
  {
    if |s| > 0 {
      var n := |s| - 1;
      var p := s[..n];
      assert s == p + [s[n]];
      var d := Dedup(p);
      DedupFirstOccurrenceOrder(p);
      forall x | x in d
        ensures IndexOf(s, x) == IndexOf(p, x) < n
      {
        IndexOfAppend(p, [s[n]], x);
      }
      if s[n] !in d {
        IndexOfAppendNew(p, s[n]);
        var r := d + [s[n]];
        forall i, j | 0 <= i < j < |r|
          ensures IndexOf(s, r[i]) < IndexOf(s, r[j])
        {
          assert r[i] == d[i];
          if j < |d| {
            assert r[j] == d[j];
          }
        }
      }
    }
  }

  /** Running the blog hook a second time changes nothing. */
  lemma UniqueLowerTagsIdempotent(tags: seq<string>)
    ensures UniqueLowerTags(UniqueLowerTags(tags)) == UniqueLowerTags(tags)
  {
    var r := UniqueLowerTags(tags);
    UniqueLowerTagsSpec(tags);
    assert LowerAll(r) == r;
    DedupOfDistinct(r);
  }

  /** Normal tags are left alone by the hook. */
  lemma UniqueLowerTagsOfNormal(tags: seq<string>)
    requires TagsNormal(tags)
    ensures UniqueLowerTags(tags) == tags
  {
    assert LowerAll(tags) == tags;
    DedupOfDistinct(tags);
  }

  /** A value of a serialised document. */
  datatype JsonValue =
    | JString(s: string)
    | JNumber(n: int)
    | JBool(b: bool)
    | JObjectId(hex: string)
    | JArray(items: seq<JsonValue>)
    | JNull

  /** The plain object a document is serialised from; the transforms
      change it in place. */
  class JsonObject {
    var fields: map<string, JsonValue>

    constructor(fields: map<string, JsonValue>)
      ensures this.fields == fields
    {
      this.fields := fields;
    }
  }

  /** The user schema's `toJSON` transform: adds `id` as the string form of
      `_id` and deletes `_id`, `__v` and `password`; no other key changes. */
  method UserToJSON(returnedObject: JsonObject)
    requires "_id" in returnedObject.fields && returnedObject.fields["_id"].JObjectId?
    modifies returnedObject
    ensures "id" in returnedObject.fields && returnedObject.fields["id"] == JString(old(returnedObject.fields["_id"].hex))
    ensures "_id" !in returnedObject.fields && "__v" !in returnedObject.fields
    ensures "password" !in returnedObject.fields
    ensures forall k :: k !in {"id", "_id", "__v", "password"} ==>
              (k in returnedObject.fields <==> k in old(returnedObject.fields))
    ensures forall k :: k in returnedObject.fields && k !in {"id", "_id", "__v", "password"} ==>
              returnedObject.fields[k] == old(returnedObject.fields[k])
  {
    returnedObject.fields := returnedObject.fields["id" := JString(returnedObject.fields["_id"].hex)];
    returnedObject.fields := returnedObject.fields - {"_id"};
    returnedObject.fields := returnedObject.fields - {"__v"};
    returnedObject.fields := returnedObject.fields - {"password"};
  }

  /** The blog schema's `toJSON` transform: adds `id`, deletes `_id` and
      `__v`; no other key changes. */
  method BlogToJSON(returnedObject: JsonObject)
    requires "_id" in returnedObject.fields && returnedObject.fields["_id"].JObjectId?
    modifies returnedObject
    ensures "id" in returnedObject.fields && returnedObject.fields["id"] == JString(old(returnedObject.fields["_id"].hex))
    ensures "_id" !in returnedObject.fields && "__v" !in returnedObject.fields
    ensures forall k :: k !in {"id", "_id", "__v"} ==>
              (k in returnedObject.fields <==> k in old(returnedObject.fields))
    ensures forall k :: k in returnedObject.fields && k !in {"id", "_id", "__v"} ==>
              returnedObject.fields[k] == old(returnedObject.fields[k])
  {
    returnedObject.fields := returnedObject.fields["id" := JString(returnedObject.fields["_id"].hex)];
    returnedObject.fields := returnedObject.fields - {"_id"};
    returnedObject.fields := returnedObject.fields - {"__v"};
  }
}
