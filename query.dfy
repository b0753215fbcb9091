/** Pagination options shared by the three listing routes
    (controllers/blogs.js, controllers/users.js). */
module Query {
  import opened Base
  import opened Strings

  const PaginationLimit: nat := 5

  /** `request.query.page || 1`: an absent or empty page parameter is page 1.
      A present page is given by its numeric value. */
  function PageNumber(page: Option<int>): int
  {
    match page
    case None => 1
    case Some(p) => p
  }

  /** `paginationLimit * (paginationPage - 1)` */
  function Offset(page: Option<int>): int
  {
    PaginationLimit * (PageNumber(page) - 1)
  }

  /** The page `paginate` returns at a non-negative offset: the matching
      documents from `offset` on, in order, at most `limit` of them. */
  function Page<T>(docs: seq<T>, offset: nat, limit: nat): (r: seq<T>)
    ensures |r| <= limit
    ensures forall i :: 0 <= i < |r| ==> offset + i < |docs| && r[i] == docs[offset + i]
    ensures |r| < limit ==> offset + |r| >= |docs|
  {
    if offset >= |docs| then []
    else if |docs| - offset < limit then docs[offset..]
    else docs[offset..offset + limit]
  }

  /** The first page starts at the first document; each page starts where
      the previous one ended, so consecutive pages neither overlap nor
      leave a gap. */
  lemma OffsetsTile(p: int)
    ensures Offset(None) == 0 && Offset(Some(1)) == 0
    ensures Offset(Some(p + 1)) == Offset(Some(p)) + PaginationLimit
    ensures p >= 1 ==> Offset(Some(p)) >= 0 && Offset(Some(p)) % PaginationLimit == 0
  {
  }

  /** Six matching documents: the first five on page 1, the sixth on
      page 2, none on page 3. */
  lemma SixDocumentsPaginate<T>(docs: seq<T>)
    requires |docs| == 6
    ensures Page(docs, Offset(None), PaginationLimit) == docs[..5]
    ensures Page(docs, Offset(Some(2)), PaginationLimit) == docs[5..]
    ensures Page(docs, Offset(Some(3)), PaginationLimit) == []
  {
  }

  /** `new RegExp(source, 'i')` throws a SyntaxError for a source that is
      not a valid pattern (an unclosed `(` or `[`, a leading `*`). Which
      sources are valid is the JavaScript engine's grammar, so this is a
      parameter: the message of the SyntaxError, or None when the source
      compiles. */
  type RegexCompiler = string -> Option<string>

  /** `.*${text}.*` */
  function Anywhere(text: string): string
  {
    ".*" + text + ".*"
  }

  /** `request.query.x ? request.query.x.trim() : ''` */
  function TrimmedParam(param: Option<string>): (r: string)
    ensures r == "" <==> param.None? || forall i :: 0 <= i < |param.value| ==> IsSpace(param.value[i])
  {
    if param.Some? then TrimEmptyIff(param.value); Trim(param.value) else ""
  }
}
