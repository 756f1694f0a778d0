/**
 * The public browse endpoint (backend/app/routers/browse_claims.py): one
 * page of claims, each with its comments and its analysis, ordered by the
 * column the `sort` parameter names. Unlike the claims router it validates
 * loosely: every field has a default for a missing key, comments that are
 * not dicts are skipped, and an analysis that cannot be built is dropped.
 */
module BrowseClaims {
  import opened Json
  import opened Http
  import Claims

  datatype UserPreview = UserPreview(id: Option<string>, fullName: Option<string>, avatarUrl: Option<string>)

  datatype CommentOut = CommentOut(
    id: string,
    content: string,
    upvotes: int,
    downvotes: int,
    isExpertResponse: bool,
    createdAt: string,
    updatedAt: Option<string>,
    user: Option<UserPreview>)

  datatype AnalysisOut = AnalysisOut(
    id: Option<string>,
    verdict: Option<string>,
    confidenceScore: Option<real>,
    summary: Option<string>,
    evidence: seq<Json>,
    sources: seq<Json>,
    aiReasoning: Option<string>,
    createdAt: Option<string>)

  datatype ClaimOut = ClaimOut(
    id: string,
    content: string,
    contentType: string,
    status: string,
    createdAt: string,
    commentCount: int,
    upvoteCount: int,
    comments: seq<CommentOut>,
    analysis: Option<AnalysisOut>)

  // ---------------------------------------------------------------------
  // The query
  // ---------------------------------------------------------------------

  /**
   * The column the page is ordered by, always descending. The three listed
   * sort values only document the parameter: any value other than
   * "popular" and "relevant" orders by creation time.
   */
  function OrderColumn(sort: string): (r: string)
    ensures r == "comment_count" <==> sort == "popular"
    ensures r == "upvote_count" <==> sort == "relevant"
    ensures r == "created_at" <==> sort != "popular" && sort != "relevant"
  {
    if sort == "popular" then "comment_count"
    else if sort == "relevant" then "upvote_count"
    else "created_at"
  }

  datatype BrowseQuery = BrowseQuery(orderColumn: string, rangeFrom: int, rangeTo: int)

  /** The inclusive row range `[skip, skip + limit - 1]`: `limit` rows starting at row `skip`. */
  function BrowseQueryFor(sort: string, skip: int, limit: int): (r: BrowseQuery)
    ensures r.orderColumn == OrderColumn(sort)
    ensures r.rangeFrom == skip && r.rangeTo - r.rangeFrom + 1 == limit
  {
    BrowseQuery(OrderColumn(sort), skip, skip + limit - 1)
  }

  /** Browsing with `skip + limit` continues exactly where the previous page ended. */
  lemma NextPageAdjacent(sort: string, skip: int, limit: int)
    ensures BrowseQueryFor(sort, skip + limit, limit).rangeFrom == BrowseQueryFor(sort, skip, limit).rangeTo + 1
  {
  }

  /** The bounds FastAPI enforces on the query parameters before the handler runs. */
  predicate ParamsValid(skip: int, limit: int)
  {
    skip >= 0 && 1 <= limit <= 100
  }

  // ---------------------------------------------------------------------
  // One claim row
  // ---------------------------------------------------------------------

  /** The comment author: built only from a dict payload, every field optional. */
  function UserPreviewOf(payload: Json): (r: Option<Option<UserPreview>>)
    ensures !payload.JObj? ==> r == Some(None)
    ensures r.Some? && r.value.Some? ==> payload.JObj?
    ensures payload.JObj? && r.Some? ==> r.value.Some?
  {
    if payload.JObj? then
      var id :- AsOptStr(Get(payload.fields, "id"));
      var name :- AsOptStr(Get(payload.fields, "full_name"));
      var avatar :- AsOptStr(Get(payload.fields, "avatar_url"));
      Some(Some(UserPreview(id, name, avatar)))
    else Some(None)
  }

  /** One comment dict, with "" / 0 / `False` for a missing id, content, vote count, expert flag or date. */
  function CommentOutOf(c: map<string, Json>): (r: Option<CommentOut>)
    ensures r.Some? && "id" !in c ==> r.value.id == ""
    ensures r.Some? && "upvotes" !in c ==> r.value.upvotes == 0
    ensures r.Some? && "downvotes" !in c ==> r.value.downvotes == 0
    ensures r.Some? && "is_expert_response" !in c ==> !r.value.isExpertResponse
    ensures r.Some? ==> (r.value.user.Some? <==> Get(c, "user").JObj?)
  {
    var id :- AsStr(GetOr(c, "id", JStr("")));
    var content :- AsStr(GetOr(c, "content", JStr("")));
    var up :- AsInt(GetOr(c, "upvotes", JNum(0.0)));
    var down :- AsInt(GetOr(c, "downvotes", JNum(0.0)));
    var expert :- AsBool(GetOr(c, "is_expert_response", JBool(false)));
    var created :- AsStr(GetOr(c, "created_at", JStr("")));
    var updated :- AsOptStr(Get(c, "updated_at"));
    var user :- UserPreviewOf(Get(c, "user"));
    Some(CommentOut(id, content, up, down, expert, created, updated, user))
  }

  /** `item.get("comments") or []`, and nothing when that is not a list. */
  function CommentRows(item: map<string, Json>): (r: seq<Json>)
    ensures !Get(item, "comments").JArr? ==> r == []
    ensures Get(item, "comments").JArr? ==> r == Get(item, "comments").items
  {
    var rows := Or(Get(item, "comments"), JArr([]));
    if rows.JArr? then rows.items else []
  }

  /**
   * The list handed to `AnalysisOut` for `evidence` or `sources`: a string
   * is decoded (`[]` when it does not decode), a list is kept, and any
   * other value, `null` included, becomes `[]`.
   */
  function ListField(raw: Json, decode: Decoder): (r: Json)
    ensures raw.JArr? ==> r == raw
    ensures raw.JStr? && decode(raw.s).Some? ==> r == decode(raw.s).value
    ensures raw.JStr? && decode(raw.s).None? ==> r == JArr([])
    ensures !raw.JStr? && !raw.JArr? ==> r == JArr([])
  {
    match raw
    case JStr(s) => (match decode(s) case None => JArr([]) case Some(v) => v)
    case JArr(_) => raw
    case _ => JArr([])
  }

  /**
   * `AnalysisOut` from the analysis dict: every field optional, the lists
   * required to be lists. `None` when construction raises, which drops the
   * analysis without failing the request.
   */
  function AnalysisOutOf(a: map<string, Json>, decode: Decoder): (r: Option<AnalysisOut>)
    ensures r.Some? <==>
      && AsOptStr(Get(a, "id")).Some? && AsOptStr(Get(a, "verdict")).Some?
      && AsOptFloat(Get(a, "confidence_score")).Some? && AsOptStr(Get(a, "summary")).Some?
      && ListField(Get(a, "evidence"), decode).JArr? && ListField(Get(a, "sources"), decode).JArr?
      && AsOptStr(Get(a, "ai_reasoning")).Some? && AsOptStr(Get(a, "created_at")).Some?
    ensures r.Some? ==>
      && Some(r.value.id) == AsOptStr(Get(a, "id"))
      && Some(r.value.confidenceScore) == AsOptFloat(Get(a, "confidence_score"))
      && Some(r.value.summary) == AsOptStr(Get(a, "summary"))
      && Some(r.value.aiReasoning) == AsOptStr(Get(a, "ai_reasoning"))
      && Some(r.value.createdAt) == AsOptStr(Get(a, "created_at"))
    ensures r.Some? ==> JArr(r.value.evidence) == ListField(Get(a, "evidence"), decode)
    ensures r.Some? ==> JArr(r.value.sources) == ListField(Get(a, "sources"), decode)
    ensures !ListField(Get(a, "evidence"), decode).JArr? || !ListField(Get(a, "sources"), decode).JArr? ==> r.None?
    ensures r.Some? && "verdict" !in a ==> r.value.verdict == None
    ensures r.Some? ==> Get(a, "verdict") == (if r.value.verdict.Some? then JStr(r.value.verdict.value) else JNull)
  {
    var id :- AsOptStr(Get(a, "id"));
    var verdict :- AsOptStr(Get(a, "verdict"));
    var confidence :- AsOptFloat(Get(a, "confidence_score"));
    var summary :- AsOptStr(Get(a, "summary"));
    var evidence :- AsList(ListField(Get(a, "evidence"), decode));
    var sources :- AsList(ListField(Get(a, "sources"), decode));
    var reasoning :- AsOptStr(Get(a, "ai_reasoning"));
    var created :- AsOptStr(Get(a, "created_at"));
    Some(AnalysisOut(id, verdict, confidence, summary, evidence, sources, reasoning, created))
  }

  /** The analysis of a claim row, using the same dict-or-first-of-list rule as the claims router. */
  function AnalysisOfRow(item: map<string, Json>, decode: Decoder): (r: Option<AnalysisOut>)
    ensures Claims.AnalysisSource(Get(item, "analysis")).None? ==> r.None?
    ensures Claims.AnalysisSource(Get(item, "analysis")).Some? ==>
      r == AnalysisOutOf(Claims.AnalysisSource(Get(item, "analysis")).value, decode)
  {
    match Claims.AnalysisSource(Get(item, "analysis"))
    case None => None
    case Some(a) => AnalysisOutOf(a, decode)
  }

  /**
   * The `ClaimOut` of one row, `None` meaning the request fails: the row
   * must be a dict, every dict comment must convert, and the claim fields
   * must validate once their defaults are applied.
   */
  function ClaimOutOf(item: Json, decode: Decoder): (r: Option<ClaimOut>)
    ensures r.Some? <==>
      && item.JObj?
      && MapAll(Objects(CommentRows(item.fields)), CommentOutOf).Some?
      && GetOr(item.fields, "id", JStr("")).JStr?
      && GetOr(item.fields, "content", JStr("")).JStr?
      && GetOr(item.fields, "content_type", JStr("text")).JStr?
      && GetOr(item.fields, "status", JStr("")).JStr?
      && GetOr(item.fields, "created_at", JStr("")).JStr?
      && AsInt(GetOr(item.fields, "comment_count", JNum(0.0))).Some?
      && AsInt(GetOr(item.fields, "upvote_count", JNum(0.0))).Some?
    ensures r.Some? ==>
      && JStr(r.value.id) == GetOr(item.fields, "id", JStr(""))
      && JStr(r.value.content) == GetOr(item.fields, "content", JStr(""))
      && JStr(r.value.contentType) == GetOr(item.fields, "content_type", JStr("text"))
      && JStr(r.value.status) == GetOr(item.fields, "status", JStr(""))
      && JStr(r.value.createdAt) == GetOr(item.fields, "created_at", JStr(""))
      && JNum(r.value.commentCount as real) == GetOr(item.fields, "comment_count", JNum(0.0))
      && JNum(r.value.upvoteCount as real) == GetOr(item.fields, "upvote_count", JNum(0.0))
    ensures r.Some? ==> Some(r.value.comments) == MapAll(Objects(CommentRows(item.fields)), CommentOutOf)
    ensures r.Some? ==> r.value.analysis == AnalysisOfRow(item.fields, decode)
    ensures r.Some? && "content_type" !in item.fields ==> r.value.contentType == "text"
    ensures r.Some? && "comment_count" !in item.fields ==> r.value.commentCount == 0
    ensures r.Some? && "upvote_count" !in item.fields ==> r.value.upvoteCount == 0
    ensures r.Some? && "status" !in item.fields ==> r.value.status == ""
  {
    if !item.JObj? then None
    else
      var f := item.fields;
      var comments :- MapAll(Objects(CommentRows(f)), CommentOutOf);
      var analysis := AnalysisOfRow(f, decode);
      var id :- AsStr(GetOr(f, "id", JStr("")));
      var content :- AsStr(GetOr(f, "content", JStr("")));
      var contentType :- AsStr(GetOr(f, "content_type", JStr("text")));
      var status :- AsStr(GetOr(f, "status", JStr("")));
      var created :- AsStr(GetOr(f, "created_at", JStr("")));
      var commentCount :- AsInt(GetOr(f, "comment_count", JNum(0.0)));
      var upvoteCount :- AsInt(GetOr(f, "upvote_count", JNum(0.0)));
      Some(ClaimOut(id, content, contentType, status, created, commentCount, upvoteCount, comments, analysis))
  }

  /** Comments that are not dicts are skipped; when every dict comment converts, there is one output comment per dict, in order. */
  lemma {:induction false} CommentsKeepDictsInOrder(rows: seq<Json>)
    requires forall k :: 0 <= k < |rows| ==> rows[k].JObj? ==> CommentOutOf(rows[k].fields).Some?
    ensures MapAll(Objects(rows), CommentOutOf).Some?
    ensures |MapAll(Objects(rows), CommentOutOf).value| == CountObjects(rows)
  {
    ObjectsLength(rows);
    ObjectsMembers(rows);
    MapAllAt(Objects(rows), CommentOutOf);
  }

  /** Every kept object was an element of the list. */
  lemma {:induction false} ObjectsMembers(rows: seq<Json>)
    ensures forall k :: 0 <= k < |Objects(rows)| ==> JObj(Objects(rows)[k]) in rows
  {
    if rows != [] {
      var rest := Objects(rows[1..]);
      ObjectsMembers(rows[1..]);
      assert forall x :: x in rows[1..] ==> x in rows;
      if rows[0].JObj? {
        assert Objects(rows) == [rows[0].fields] + rest;
        forall k | 1 <= k < |Objects(rows)|
          ensures JObj(Objects(rows)[k]) in rows
        {
          assert Objects(rows)[k] == rest[k - 1];
        }
      } else {
        assert Objects(rows) == rest;
      }
    }
  }

  /** A claim whose `comments` is missing, `null` or not a list is shown without comments. */
  lemma NoCommentListNoComments(item: map<string, Json>, decode: Decoder)
    requires !Get(item, "comments").JArr?
    ensures ClaimOutOf(JObj(item), decode).Some? ==> ClaimOutOf(JObj(item), decode).value.comments == []
  {
  }

  /** Evidence stored as text that does not decode is shown as an empty list, not as a missing analysis. */
  lemma UndecodableEvidenceIsEmpty(a: map<string, Json>, decode: Decoder)
    requires Get(a, "evidence").JStr? && decode(Get(a, "evidence").s).None?
    ensures AnalysisOutOf(a, decode).Some? ==> AnalysisOutOf(a, decode).value.evidence == []
  {
  }

  /** Evidence text that decodes to something other than a list drops the whole analysis. */
  lemma DecodedNonListDropsAnalysis(a: map<string, Json>, decode: Decoder)
    requires Get(a, "evidence").JStr? && decode(Get(a, "evidence").s).Some?
    requires !decode(Get(a, "evidence").s).value.JArr?
    ensures AnalysisOutOf(a, decode).None?
  {
  }

  /** `ClaimOutOf` as a value, for the list-level statements. */
  function ClaimOutConverter(decode: Decoder): Json -> Option<ClaimOut>
  {
    item => ClaimOutOf(item, decode)
  }

  // ---------------------------------------------------------------------
  // The endpoint
  // ---------------------------------------------------------------------

  /** The outcome of the select: it raises, it reports an error, or it returns rows (possibly `null`). */
  datatype BrowseFetch = BrowseRaised(message: string) | BrowseQueryError | BrowseRows(data: Option<seq<Json>>)

  const InternalErrorPrefix := "Internal Server Error: "

  /**
   * The statements of the browse loop for one row: its comments are
   * collected, its analysis built, and the `ClaimOut` constructed.
   */
  method BuildClaimOut(item: Json, decode: Decoder) returns (r: Option<ClaimOut>)
    ensures r == ClaimOutOf(item, decode)
  {
    if !item.JObj? {
      return None;
    }
    var f := item.fields;
    var comments := CollectObjects(CommentRows(f), CommentOutOf);
    if comments.None? {
      return None;
    }
    var analysis := AnalysisOfRow(f, decode);
    var id := AsStr(GetOr(f, "id", JStr("")));
    var content := AsStr(GetOr(f, "content", JStr("")));
    var contentType := AsStr(GetOr(f, "content_type", JStr("text")));
    var status := AsStr(GetOr(f, "status", JStr("")));
    var created := AsStr(GetOr(f, "created_at", JStr("")));
    var commentCount := AsInt(GetOr(f, "comment_count", JNum(0.0)));
    var upvoteCount := AsInt(GetOr(f, "upvote_count", JNum(0.0)));
    if id.None? || content.None? || contentType.None? || status.None? || created.None? || commentCount.None? || upvoteCount.None? {
      return None;
    }
    r := Some(ClaimOut(id.value, content.value, contentType.value, status.value, created.value,
                       commentCount.value, upvoteCount.value, comments.value, analysis));
  }

  /**
   * `browse_claims`: out-of-range parameters are a 422 before any query;
   * a failing select is a 500; otherwise one `ClaimOut` per row, in the
   * order the rows came back, or a 500 when one row cannot be converted.
   */
  method Browse(sort: string, skip: int, limit: int, fetch: BrowseFetch, decode: Decoder)
    returns (query: Option<BrowseQuery>, r: Response<seq<ClaimOut>>)
    ensures !ParamsValid(skip, limit) ==> query.None? && r.Fail? && r.error.status == UnprocessableEntity
    ensures ParamsValid(skip, limit) ==> query == Some(BrowseQueryFor(sort, skip, limit))
    ensures ParamsValid(skip, limit) && fetch.BrowseRaised? ==> r == Fail(HttpError(InternalServerError, InternalErrorPrefix + fetch.message))
    ensures ParamsValid(skip, limit) && fetch.BrowseQueryError? ==> r == Fail(HttpError(InternalServerError, "Database query failed"))
    ensures ParamsValid(skip, limit) && fetch.BrowseRows? ==>
      var rows := if fetch.data.Some? then fetch.data.value else [];
      && (r.Ok? <==> MapAll(rows, ClaimOutConverter(decode)).Some?)
      && (r.Ok? ==> Some(r.value) == MapAll(rows, ClaimOutConverter(decode)))
      && (r.Fail? ==> r.error.status == InternalServerError)
  {
    if !ParamsValid(skip, limit) {
      return None, Fail(HttpError(UnprocessableEntity, "Query parameter out of range"));
    }
    query := Some(BrowseQueryFor(sort, skip, limit));
    r := BrowseResponse(fetch, decode);
  }

  /** What browse_claims makes of the select's outcome. */
  method BrowseResponse(fetch: BrowseFetch, decode: Decoder) returns (r: Response<seq<ClaimOut>>)
    ensures fetch.BrowseRaised? ==> r == Fail(HttpError(InternalServerError, InternalErrorPrefix + fetch.message))
    ensures fetch.BrowseQueryError? ==> r == Fail(HttpError(InternalServerError, "Database query failed"))
    ensures fetch.BrowseRows? ==>
      var rows := if fetch.data.Some? then fetch.data.value else [];
      && (r.Ok? <==> MapAll(rows, ClaimOutConverter(decode)).Some?)
      && (r.Ok? ==> Some(r.value) == MapAll(rows, ClaimOutConverter(decode)))
      && (r.Fail? ==> r.error.status == InternalServerError)
  {
    match fetch
    case BrowseRaised(message) =>
      return Fail(HttpError(InternalServerError, InternalErrorPrefix + message));
    case BrowseQueryError =>
      return Fail(HttpError(InternalServerError, "Database query failed"));
    case BrowseRows(data) =>
      var rows := if data.Some? then data.value else [];
      var out: seq<ClaimOut> := [];
      var i := 0;
      while i < |rows|
        invariant 0 <= i <= |rows|
        invariant MapAll(rows[..i], ClaimOutConverter(decode)) == Some(out)
      {
        var claim := BuildClaimOut(rows[i], decode);
        MapAllStep(rows, i, ClaimOutConverter(decode), out);
        if claim.None? {
          return Fail(HttpError(InternalServerError, InternalErrorPrefix));
        }
        out := out + [claim.value];
        i := i + 1;
      }
      assert rows[..i] == rows;
      r := Ok(out);
  }

  /** Row k of the page is the `ClaimOut` of row k of the select. */
  lemma BrowsePageRows(rows: seq<Json>, decode: Decoder, page: seq<ClaimOut>)
    requires Some(page) == MapAll(rows, ClaimOutConverter(decode))
    ensures |page| == |rows|
    ensures forall k :: 0 <= k < |rows| ==> rows[k].JObj? && ClaimOutOf(rows[k], decode) == Some(page[k])
  {
    MapAllAt(rows, ClaimOutConverter(decode));
  }
}
