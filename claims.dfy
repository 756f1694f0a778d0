/**
 * The claims router (backend/app/routers/claims.py): claim submission, the
 * claim-detail and search endpoints with their defensive normalisation of
 * the joined analysis row, the status endpoint and the up-only claim vote.
 * Every Supabase call is an outcome passed in; endpoints that write return
 * the writes they issue, in order.
 */
module Claims {
  import opened Json
  import opened Text
  import opened Http
  import opened Schemas

  // ---------------------------------------------------------------------
  // submit_claim: bearer token, storage path, claim record
  // ---------------------------------------------------------------------

  /**
   * The token of an `Authorization` header: it must start with the
   * case-sensitive `"Bearer "`, and the token is the second piece of the
   * header split on single spaces (a simplified form of section 2.1 of
   * RFC 6750). An empty piece counts as no token.
   */
  function BearerToken(header: Option<string>): (r: Option<string>)
    ensures r.Some? ==> header.Some? && StartsWith(header.value, "Bearer " + r.value)
    ensures r.Some? ==> r.value != "" && ' ' !in r.value
    ensures r.Some? ==> |header.value| == 7 + |r.value| || header.value[7 + |r.value|] == ' '
    ensures header.None? || !StartsWith(header.value, "Bearer ") ==> r.None?
  {
    if header.Some? && StartsWith(header.value, "Bearer ") then
      var token := UntilChar(header.value[7..], ' ');
      assert header.value == "Bearer " + header.value[7..];
      if token == "" then None else Some(token)
    else None
  }

  lemma {:induction false} UntilCharOfPrefix(tok: string, rest: string, c: char)
    requires c !in tok
    requires rest == [] || rest[0] == c
    ensures UntilChar(tok + rest, c) == tok
  {
    if tok == [] {
      assert tok + rest == rest;
    } else {
      assert (tok + rest)[0] == tok[0];
      assert (tok + rest)[1..] == tok[1..] + rest;
      UntilCharOfPrefix(tok[1..], rest, c);
    }
  }

  /** Every non-empty, space-free token sent as `Bearer <token>` (optionally followed by more space-separated text) is recovered. */
  lemma BearerTokenRecovered(token: string, rest: string)
    requires token != "" && ' ' !in token
    requires rest == [] || rest[0] == ' '
    ensures BearerToken(Some("Bearer " + token + rest)) == Some(token)
  {
    var h := "Bearer " + token + rest;
    assert h[7..] == token + rest;
    assert StartsWith(h, "Bearer ");
    UntilCharOfPrefix(token, rest, ' ');
  }

  /** The text after the last '.' of a name, or all of it when it has no '.'. */
  function AfterLastDot(s: string): (r: string)
    ensures '.' !in r
    ensures |r| <= |s| && s[|s| - |r|..] == r
    ensures |r| < |s| ==> s[|s| - |r| - 1] == '.'
    ensures '.' !in s ==> r == s
  {
    if s == [] || s[|s| - 1] == '.' then []
    else
      var init := s[..|s| - 1];
      assert s == init + [s[|s| - 1]];
      AfterLastDot(init) + [s[|s| - 1]]
  }

  /** `filename.split(".")[-1] if '.' in filename else 'bin'`. */
  function FileExtension(filename: string): (r: string)
    ensures '.' !in filename ==> r == "bin"
    ensures '.' in filename ==> '.' !in r && |r| < |filename|
    ensures '.' in filename ==> filename == filename[..|filename| - |r| - 1] + "." + r
  {
    if '.' in filename then
      var ext := AfterLastDot(filename);
      assert |ext| < |filename|;
      assert filename == filename[..|filename| - |ext| - 1] + [filename[|filename| - |ext| - 1]] + filename[|filename| - |ext|..];
      ext
    else "bin"
  }

  /** The storage object name `<user_id>/<uuid>.<ext>`; the uuid is a fresh random value, taken as a parameter. */
  function StoragePath(userId: string, fileUuid: string, filename: string): (r: string)
    ensures StartsWith(r, userId + "/" + fileUuid + ".")
    ensures r == userId + "/" + fileUuid + "." + FileExtension(filename)
  {
    userId + "/" + fileUuid + "." + FileExtension(filename)
  }

  /** The row `submit_claim` inserts into `claims`. */
  datatype ClaimRecord = ClaimRecord(
    userId: string,
    content: string,
    contentType: ContentType,
    originalUrl: Option<string>,
    filePath: Option<string>,
    status: ClaimStatus)

  /** The uploaded file as the endpoint sees it, with the outcome of the storage upload. */
  datatype UploadedFile = UploadedFile(filename: string, uploadError: Option<string>)

  /** The outcome of the `claims` insert. */
  datatype InsertOutcome = InsertRaised | Inserted(rows: seq<Json>)

  /** The calls `submit_claim` makes, in order. */
  datatype SubmitEffect =
    | UploadObject(path: string)
    | InsertClaim(record: ClaimRecord)
    | MarkClaimFailed(claimId: Json)
    | ScheduleProcessing(claimId: Json)

  /**
   * `submit_claim`: 401 before anything else when no token can be taken from
   * the header; the file (if any) is uploaded first; the record always
   * starts `pending` and belongs to the caller; with the processing
   * environment missing the claim is marked failed instead of scheduled.
   */
  method SubmitClaim(
    header: Option<string>, caller: User, content: string, contentType: ContentType,
    originalUrl: Option<string>, file: Option<UploadedFile>, fileUuid: string,
    insert: InsertOutcome, processingEnvReady: bool)
    returns (r: Response<ClaimResponse>, effects: seq<SubmitEffect>)
    ensures BearerToken(header).None? ==>
      r == Fail(HttpError(Unauthorized, "Missing authentication token.")) && effects == []
    ensures BearerToken(header).Some? && file.Some? ==>
      |effects| >= 1 && effects[0] == UploadObject(StoragePath(caller.id, fileUuid, file.value.filename))
    ensures BearerToken(header).Some? && file.Some? && file.value.uploadError.Some? ==>
      r == Fail(HttpError(InternalServerError, "Failed to upload file: " + file.value.uploadError.value)) && |effects| == 1
    ensures forall e :: e in effects && e.InsertClaim? ==>
      e.record == ClaimRecord(caller.id, content, contentType, originalUrl,
                              if file.Some? then Some(StoragePath(caller.id, fileUuid, file.value.filename)) else None,
                              Pending)
    ensures BearerToken(header).Some? && (file.None? || file.value.uploadError.None?) ==>
      |effects| > (if file.Some? then 1 else 0) &&
      effects[if file.Some? then 1 else 0] ==
        InsertClaim(ClaimRecord(caller.id, content, contentType, originalUrl,
                                if file.Some? then Some(StoragePath(caller.id, fileUuid, file.value.filename)) else None,
                                Pending))
    ensures (exists e :: e in effects && e.MarkClaimFailed?) ==> !processingEnvReady
    ensures (exists e :: e in effects && e.ScheduleProcessing?) ==> processingEnvReady
    ensures insert.InsertRaised? || (insert.Inserted? && insert.rows == []) ==>
      r.Fail? && (BearerToken(header).Some? && (file.None? || file.value.uploadError.None?) ==>
                  r.error == HttpError(InternalServerError, "Database error during claim creation."))
    ensures r.Ok? ==> insert.Inserted? && insert.rows != [] && insert.rows[0].JObj?
                      && ValidateClaimResponse(insert.rows[0].fields) == Some(r.value)
    ensures BearerToken(header).Some? && (file.None? || file.value.uploadError.None?) &&
            insert.Inserted? && insert.rows != [] && insert.rows[0].JObj? && "id" in insert.rows[0].fields ==>
      var id := insert.rows[0].fields["id"];
      && (processingEnvReady <==> ScheduleProcessing(id) in effects)
      && (!processingEnvReady <==> MarkClaimFailed(id) in effects)
      && effects[|effects| - 1] in {ScheduleProcessing(id), MarkClaimFailed(id)}
      && (ValidateClaimResponse(insert.rows[0].fields).Some? ==> r == Ok(ValidateClaimResponse(insert.rows[0].fields).value))
  {
    effects := [];
    var token := BearerToken(header);
    if token.None? {
      return Fail(HttpError(Unauthorized, "Missing authentication token.")), effects;
    }
    var storagePath: Option<string> := None;
    if file.Some? {
      var path := StoragePath(caller.id, fileUuid, file.value.filename);
      effects := effects + [UploadObject(path)];
      if file.value.uploadError.Some? {
        return Fail(HttpError(InternalServerError, "Failed to upload file: " + file.value.uploadError.value)), effects;
      }
      storagePath := Some(path);
    }
    var record := ClaimRecord(caller.id, content, contentType, originalUrl, storagePath, Pending);
    effects := effects + [InsertClaim(record)];
    // A missing record raises inside the try block, whose handler turns every error into the same 500.
    if insert.InsertRaised? || insert.rows == [] {
      return Fail(HttpError(InternalServerError, "Database error during claim creation.")), effects;
    }
    var claim := insert.rows[0];
    if !claim.JObj? || "id" !in claim.fields {
      return Fail(HttpError(InternalServerError, "Internal Server Error")), effects;
    }
    if processingEnvReady {
      effects := effects + [ScheduleProcessing(claim.fields["id"])];
    } else {
      effects := effects + [MarkClaimFailed(claim.fields["id"])];
    }
    var response := ValidateClaimResponse(claim.fields);
    if response.None? {
      return Fail(HttpError(InternalServerError, "Internal Server Error")), effects;
    }
    r := Ok(response.value);
  }

  // ---------------------------------------------------------------------
  // get_claim / search_claims: normalising the joined analysis
  // ---------------------------------------------------------------------

  /**
   * The analysis row joined onto a claim: Supabase returns it as a dict or
   * as a list of dicts. A non-empty dict, or the first element of a
   * non-empty list when that is a non-empty dict, is used; anything else
   * means there is no analysis.
   */
  function AnalysisSource(joined: Json): (r: Option<map<string, Json>>)
    ensures r.Some? ==> r.value != map[]
    ensures r.Some? ==> joined == JObj(r.value) || (joined.JArr? && joined.items != [] && joined.items[0] == JObj(r.value))
    ensures joined.JObj? && joined.fields != map[] ==> r == Some(joined.fields)
    ensures joined.JArr? && joined.items != [] && joined.items[0].JObj? && joined.items[0].fields != map[] ==>
      r == Some(joined.items[0].fields)
    ensures !joined.JObj? && !joined.JArr? ==> r.None?
  {
    match joined
    case JObj(o) => if o != map[] then Some(o) else None
    case JArr(items) =>
      if items != [] && items[0].JObj? && items[0].fields != map[] then Some(items[0].fields) else None
    case _ => None
  }

  /** The two endpoints normalise the analysis in slightly different ways. */
  datatype Route = DetailRoute | SearchRoute

  /**
   * The `evidence` or `sources` field after its string-decoding step: a
   * string is decoded, an undecodable string or `None` becomes `[]`, any
   * other value is kept. `None` here means the step raised: get_claim logs
   * `len()` of the decoded value, which fails on a number, a boolean or `null`.
   */
  function DecodedField(raw: Json, route: Route, decode: Decoder): (r: Option<Json>)
    ensures raw == JNull ==> r == Some(JArr([]))
    ensures raw.JStr? && decode(raw.s).None? ==> r == Some(JArr([]))
    ensures raw.JStr? && decode(raw.s).Some? && decode(raw.s).value.JArr? ==> r == decode(raw.s)
    ensures !raw.JStr? && raw != JNull ==> r == Some(raw)
    ensures r.None? ==> route == DetailRoute
  {
    match raw
    case JStr(s) =>
      (match decode(s)
       case None => Some(JArr([]))
       case Some(v) =>
         if route == DetailRoute && !(v.JStr? || v.JArr? || v.JObj?) then None else Some(v))
    case JNull => Some(JArr([]))
    case _ => Some(raw)
  }

  /** One evidence dict becomes an `EvidenceItem`, with a missing source or excerpt read as "". */
  function EvidenceFromDict(o: map<string, Json>): Option<EvidenceItem>
  {
    ValidateEvidenceItem(GetOr(o, "source", JStr("")), GetOr(o, "excerpt", JStr("")), Get(o, "credibility_score"), Get(o, "url"))
  }

  /** The evidence an analysis ends up with: `None` when building it raises. */
  function EvidenceSpec(analysis: map<string, Json>, route: Route, decode: Decoder): Option<seq<EvidenceItem>>
  {
    match DecodedField(Get(analysis, "evidence"), route, decode)
    case None => None
    case Some(JArr(items)) => MapAll(Objects(items), EvidenceFromDict)
    case Some(_) => Some([])
  }

  /** Missing, `null`, undecodable or non-list evidence gives no evidence items, without an error. */
  lemma EvidenceDefaultsToEmpty(analysis: map<string, Json>, route: Route, decode: Decoder)
    ensures Get(analysis, "evidence") == JNull ==> EvidenceSpec(analysis, route, decode) == Some([])
    ensures Get(analysis, "evidence").JStr? && decode(Get(analysis, "evidence").s).None? ==>
      EvidenceSpec(analysis, route, decode) == Some([])
    ensures var ev := Get(analysis, "evidence"); ev.JNum? || ev.JBool? || ev.JObj? ==>
      EvidenceSpec(analysis, route, decode) == Some([])
  {
  }

  /** Evidence stored as a list of well-formed dicts comes back one item per dict, in order. */
  lemma {:induction false} EvidenceOfDictList(analysis: map<string, Json>, route: Route, decode: Decoder)
    requires Get(analysis, "evidence").JArr?
    requires var items := Get(analysis, "evidence").items;
      forall k :: 0 <= k < |items| ==> items[k].JObj? && EvidenceFromDict(items[k].fields).Some?
    ensures var items := Get(analysis, "evidence").items;
      EvidenceSpec(analysis, route, decode).Some? && |EvidenceSpec(analysis, route, decode).value| == |items| &&
      forall k :: 0 <= k < |items| ==> EvidenceSpec(analysis, route, decode).value[k] == EvidenceFromDict(items[k].fields).value
  {
    var items := Get(analysis, "evidence").items;
    ObjectsOfAllObjects(items);
    MapAllAt(Objects(items), EvidenceFromDict);
  }

  /** The `sources` value handed to the model: a decoded or stored list is kept; anything else is `[]`. */
  function SourcesSpec(analysis: map<string, Json>, route: Route, decode: Decoder): (r: Option<Json>)
    ensures r.Some? ==> r.value.JArr?
    ensures var s := Get(analysis, "sources"); s.JArr? ==> r == Some(s)
    ensures var s := Get(analysis, "sources"); s.JNum? || s.JBool? || s.JObj? || s.JNull? ==> r == Some(JArr([]))
  {
    match DecodedField(Get(analysis, "sources"), route, decode)
    case None => None
    case Some(v) => if v.JArr? then Some(v) else Some(JArr([]))
  }

  /** The reasoning text: get_claim replaces any falsy value, search_claims only a missing key. */
  function ReasoningField(analysis: map<string, Json>, route: Route): (r: Json)
    ensures route == DetailRoute && !Truthy(Get(analysis, "ai_reasoning")) ==> r == JStr("N/A")
    ensures route == SearchRoute && "ai_reasoning" !in analysis ==> r == JStr("N/A")
    ensures route == SearchRoute && "ai_reasoning" in analysis ==> r == analysis["ai_reasoning"]
  {
    match route
    case DetailRoute => Or(Get(analysis, "ai_reasoning"), JStr("N/A"))
    case SearchRoute => GetOr(analysis, "ai_reasoning", JStr("N/A"))
  }

  /**
   * The `ClaimAnalysis` a claim ends up with, given its joined analysis dict.
   * A falsy verdict, confidence or summary gets its default; `None` means
   * something along the way raised, which the endpoints turn into "no
   * analysis", never into an error response.
   */
  function AnalysisOf(analysis: map<string, Json>, route: Route, decode: Decoder): (r: Option<ClaimAnalysis>)
    ensures r.Some? ==> EvidenceSpec(analysis, route, decode) == Some(r.value.evidence)
    ensures r.Some? ==> SourcesSpec(analysis, route, decode).Some?
    ensures r.Some? ==> |SourcesSpec(analysis, route, decode).value.items| == |r.value.sources|
    ensures r.Some? ==> forall k :: 0 <= k < |r.value.sources| ==>
      SourcesSpec(analysis, route, decode).value.items[k] == JObj(r.value.sources[k])
    ensures r.Some? && !Truthy(Get(analysis, "verdict")) ==> r.value.verdict == Uncertain
    ensures r.Some? && Truthy(Get(analysis, "verdict")) ==> Get(analysis, "verdict") == JStr(VerdictValue(r.value.verdict))
    ensures r.Some? && !Truthy(Get(analysis, "confidence_score")) ==> r.value.confidenceScore == 0.0
    ensures r.Some? && !Truthy(Get(analysis, "summary")) ==> r.value.summary == "Analysis incomplete."
    ensures r.Some? ==> ReasoningField(analysis, route) == JStr(r.value.aiReasoning)
    ensures EvidenceSpec(analysis, route, decode).None? || SourcesSpec(analysis, route, decode).None? ==> r.None?
    ensures !Get(analysis, "id").JStr? || !Get(analysis, "claim_id").JStr? || !Get(analysis, "created_at").JStr? ==> r.None?
  {
    var evidence :- EvidenceSpec(analysis, route, decode);
    var sources :- SourcesSpec(analysis, route, decode);
    ValidateClaimAnalysis(
      Get(analysis, "id"), Get(analysis, "claim_id"),
      Or(Get(analysis, "verdict"), JStr("uncertain")),
      Or(Get(analysis, "confidence_score"), JNum(0.0)),
      Or(Get(analysis, "summary"), JStr("Analysis incomplete.")),
      evidence, sources, ReasoningField(analysis, route), Get(analysis, "created_at"))
  }

  /** search_claims keeps a stored `None` reasoning, which the `str` field then rejects. */
  lemma SearchRejectsNullReasoning(analysis: map<string, Json>, decode: Decoder)
    requires "ai_reasoning" in analysis && analysis["ai_reasoning"] == JNull
    ensures AnalysisOf(analysis, SearchRoute, decode) == None
    ensures AnalysisOf(analysis, DetailRoute, decode).Some? ==> AnalysisOf(analysis, DetailRoute, decode).value.aiReasoning == "N/A"
  {
  }

  /**
   * The statements of get_claim and search_claims that build the analysis:
   * decode the evidence, walk it, settle the sources and construct the model.
   */
  method BuildClaimAnalysis(analysis: map<string, Json>, route: Route, decode: Decoder)
    returns (r: Option<ClaimAnalysis>)
    ensures r == AnalysisOf(analysis, route, decode)
  {
    var evidenceField := DecodedField(Get(analysis, "evidence"), route, decode);
    if evidenceField.None? {
      return None;
    }
    var evidence: seq<EvidenceItem> := [];
    if evidenceField.value.JArr? {
      var collected := CollectObjects(evidenceField.value.items, EvidenceFromDict);
      if collected.None? {
        return None;
      }
      evidence := collected.value;
    }
    var sources := SourcesSpec(analysis, route, decode);
    if sources.None? {
      return None;
    }
    r := ValidateClaimAnalysis(
      Get(analysis, "id"), Get(analysis, "claim_id"),
      Or(Get(analysis, "verdict"), JStr("uncertain")),
      Or(Get(analysis, "confidence_score"), JNum(0.0)),
      Or(Get(analysis, "summary"), JStr("Analysis incomplete.")),
      evidence, sources.value, ReasoningField(analysis, route), Get(analysis, "created_at"));
  }

  /** `comment_count` from the `claim_comments(count)` join: the count of its first dict, else 0. */
  function CommentCountField(joined: Json): (r: Json)
    ensures !joined.JArr? || joined.items == [] || !joined.items[0].JObj? ==> r == JNum(0.0)
    ensures joined.JArr? && joined.items != [] && joined.items[0].JObj? && "count" in joined.items[0].fields ==>
      r == joined.items[0].fields["count"]
  {
    if joined.JArr? && joined.items != [] && joined.items[0].JObj? then
      GetOr(joined.items[0].fields, "count", JNum(0.0))
    else JNum(0.0)
  }

  /** The outcome of a `.single()` select. */
  datatype SingleFetch = FetchRaised | Fetched(data: Json)

  /** The outcome of the caller's `claim_votes` lookup. */
  datatype VoteLookup = LookupRaised | LookedUp(data: Json)

  /** The `user_vote` value: looked up only for a signed-in caller; a failed lookup leaves it `None`. */
  function VoteField(caller: Option<User>, lookup: VoteLookup): (r: Json)
    ensures caller.None? || lookup.LookupRaised? ==> r == JNull
    ensures caller.Some? && lookup.LookedUp? && lookup.data.JObj? && lookup.data.fields != map[] ==>
      r == Get(lookup.data.fields, "vote_type")
  {
    if caller.None? then JNull
    else
      match lookup
      case LookupRaised => JNull
      case LookedUp(data) => if Truthy(data) && data.JObj? then Get(data.fields, "vote_type") else JNull
  }

  /**
   * `get_claim`: 404 when no row comes back, 500 when the select raises or
   * the claim row itself is malformed. The analysis never causes an error:
   * whether the request succeeds depends only on the claim row, its
   * comment count and the caller's vote.
   */
  method GetClaim(fetch: SingleFetch, caller: Option<User>, voteLookup: VoteLookup, decode: Decoder)
    returns (r: Response<ClaimDetail>)
    ensures fetch.FetchRaised? ==> r == Fail(HttpError(InternalServerError, "Internal server error fetching claim details."))
    ensures fetch.Fetched? && !Truthy(fetch.data) ==> r == Fail(HttpError(NotFound, "Claim not found"))
    ensures r.Fail? && fetch.Fetched? && Truthy(fetch.data) ==> r.error.status == InternalServerError
    ensures r.Ok? <==>
      && fetch.Fetched? && fetch.data.JObj? && fetch.data.fields != map[]
      && ValidateClaimResponse(fetch.data.fields).Some?
      && ValidateClaimDetail(ValidateClaimResponse(fetch.data.fields).value, None,
                             CommentCountField(Get(fetch.data.fields, "claim_comments")),
                             VoteField(caller, voteLookup)).Some?
    ensures r.Ok? ==> Some(r.value.claim) == ValidateClaimResponse(fetch.data.fields)
    ensures r.Ok? && AnalysisSource(Get(fetch.data.fields, "claim_analyses")).None? ==> r.value.analysis == None
    ensures r.Ok? && r.value.analysis.Some? ==>
      var src := AnalysisSource(Get(fetch.data.fields, "claim_analyses"));
      src.Some? && EvidenceSpec(src.value, DetailRoute, decode) == Some(r.value.analysis.value.evidence)
    ensures r.Ok? && (caller.None? || voteLookup.LookupRaised?) ==> r.value.userVote == None
    ensures r.Ok? ==>
      var src := AnalysisSource(Get(fetch.data.fields, "claim_analyses"));
      r.value.analysis == (if src.Some? then AnalysisOf(src.value, DetailRoute, decode) else None)
    ensures r.Ok? ==> AsOptVote(VoteField(caller, voteLookup)) == Some(r.value.userVote)
    ensures r.Ok? ==> CommentCountField(Get(fetch.data.fields, "claim_comments")) == JNum(r.value.commentCount as real)
  {
    if fetch.FetchRaised? {
      return Fail(HttpError(InternalServerError, "Internal server error fetching claim details."));
    }
    var data := fetch.data;
    if !Truthy(data) {
      return Fail(HttpError(NotFound, "Claim not found"));
    }
    if !data.JObj? {
      return Fail(HttpError(InternalServerError, "Internal server error fetching claim details."));
    }
    var row := data.fields;
    var analysis: Option<ClaimAnalysis> := None;
    var source := AnalysisSource(Get(row, "claim_analyses"));
    if source.Some? {
      analysis := BuildClaimAnalysis(source.value, DetailRoute, decode);
    }
    var commentCount := CommentCountField(Get(row, "claim_comments"));
    var userVote := VoteField(caller, voteLookup);
    var claim := ValidateClaimResponse(row);
    if claim.None? {
      return Fail(HttpError(InternalServerError, "Internal server error fetching claim details."));
    }
    var detail := ValidateClaimDetail(claim.value, analysis, commentCount, userVote);
    if detail.None? {
      return Fail(HttpError(InternalServerError, "Internal server error fetching claim details."));
    }
    r := Ok(detail.value);
  }

  // ---------------------------------------------------------------------
  // search_claims
  // ---------------------------------------------------------------------

  /** The select `search_claims` issues. */
  datatype SearchQuery = SearchQuery(
    contentPattern: Option<string>,
    statusFilter: Option<ClaimStatus>,
    orderColumn: string,
    descending: bool,
    rangeFrom: int,
    rangeTo: int)

  /**
   * Page `page` of `per_page` rows, newest first: the inclusive row range
   * starts at `(page - 1) * per_page` and holds `per_page` rows. An empty
   * or absent search text adds no filter.
   */
  function SearchQueryFor(q: Option<string>, status: Option<ClaimStatus>, page: int, perPage: int): (r: SearchQuery)
    ensures r.rangeFrom == (page - 1) * perPage
    ensures r.rangeTo - r.rangeFrom + 1 == perPage
    ensures r.contentPattern.Some? <==> q.Some? && q.value != ""
    ensures r.contentPattern.Some? ==> r.contentPattern.value == "%" + q.value + "%"
    ensures r.statusFilter == status && r.orderColumn == "created_at" && r.descending
  {
    var offset := (page - 1) * perPage;
    SearchQuery(
      if q.Some? && q.value != "" then Some("%" + q.value + "%") else None,
      status, "created_at", true, offset, offset + perPage - 1)
  }

  /** Consecutive pages cover adjacent, non-overlapping row ranges. */
  lemma ConsecutivePagesAdjacent(q: Option<string>, status: Option<ClaimStatus>, page: int, perPage: int)
    ensures SearchQueryFor(q, status, page + 1, perPage).rangeFrom == SearchQueryFor(q, status, page, perPage).rangeTo + 1
  {
    assert page * perPage == (page - 1) * perPage + perPage;
  }

  datatype SearchFetch = SearchRaised | SearchRows(data: Option<seq<Json>>, count: Option<int>)

  datatype SearchResult = SearchResult(claims: seq<ClaimDetail>, totalCount: int, page: int, perPage: int)

  const SearchFailed := HttpError(InternalServerError, "Internal server error during claim search.")

  /** The rows of a search, `null` data reading as no rows. */
  function RowsOf(fetch: SearchFetch): seq<Json>
    requires fetch.SearchRows?
  {
    if fetch.data.Some? then fetch.data.value else []
  }

  /**
   * The `ClaimDetail` one search row turns into: it needs a dict with a
   * valid claim and an integral comment count; its analysis cannot stop
   * it, and it never carries a user vote.
   */
  function SearchRowDetailOf(item: Json, decode: Decoder): (r: Option<ClaimDetail>)
    ensures r.Some? <==>
      item.JObj? && ValidateClaimResponse(item.fields).Some? && AsInt(CommentCountField(Get(item.fields, "claim_comments"))).Some?
    ensures r.Some? ==> Some(r.value.claim) == ValidateClaimResponse(item.fields) && r.value.userVote == None
    ensures r.Some? && AnalysisSource(Get(item.fields, "claim_analyses")).None? ==> r.value.analysis == None
  {
    if !item.JObj? then None
    else
      var source := AnalysisSource(Get(item.fields, "claim_analyses"));
      var analysis := if source.Some? then AnalysisOf(source.value, SearchRoute, decode) else None;
      var claim :- ValidateClaimResponse(item.fields);
      ValidateClaimDetail(claim, analysis, CommentCountField(Get(item.fields, "claim_comments")))
  }

  /**
   * `search_claims`: one `ClaimDetail` per row, in the order the rows came
   * back; a `null` count reads as 0; any error becomes a 500.
   */
  method SearchClaims(q: Option<string>, status: Option<ClaimStatus>, page: int, perPage: int,
                      fetch: SearchFetch, decode: Decoder)
    returns (query: SearchQuery, r: Response<SearchResult>)
    ensures query == SearchQueryFor(q, status, page, perPage)
    ensures r.Fail? ==> r.error == SearchFailed
    ensures fetch.SearchRaised? ==> r.Fail?
    ensures fetch.SearchRows? ==> (r.Ok? <==> MapAll(RowsOf(fetch), SearchRowConverter(decode)).Some?)
    ensures r.Ok? ==> fetch.SearchRows? && Some(r.value.claims) == MapAll(RowsOf(fetch), SearchRowConverter(decode))
    ensures r.Ok? ==> r.value.totalCount == (if fetch.count.Some? then fetch.count.value else 0)
    ensures r.Ok? ==> r.value.page == page && r.value.perPage == perPage
  {
    query := SearchQueryFor(q, status, page, perPage);
    r := SearchResponse(page, perPage, fetch, decode);
  }

  /** What search_claims makes of the rows the select returned. */
  method SearchResponse(page: int, perPage: int, fetch: SearchFetch, decode: Decoder) returns (r: Response<SearchResult>)
    ensures r.Fail? ==> r.error == SearchFailed
    ensures fetch.SearchRaised? ==> r.Fail?
    ensures fetch.SearchRows? ==> (r.Ok? <==> MapAll(RowsOf(fetch), SearchRowConverter(decode)).Some?)
    ensures r.Ok? ==> fetch.SearchRows? && Some(r.value.claims) == MapAll(RowsOf(fetch), SearchRowConverter(decode))
    ensures r.Ok? ==> r.value.totalCount == (if fetch.count.Some? then fetch.count.value else 0)
    ensures r.Ok? ==> r.value.page == page && r.value.perPage == perPage
  {
    if fetch.SearchRaised? {
      return Fail(SearchFailed);
    }
    var rows := RowsOf(fetch);
    var total := if fetch.count.Some? then fetch.count.value else 0;
    var details: seq<ClaimDetail> := [];
    var i := 0;
    while i < |rows|
      invariant 0 <= i <= |rows|
      invariant MapAll(rows[..i], SearchRowConverter(decode)) == Some(details)
    {
      var detail := SearchRowDetail(rows[i], decode);
      MapAllStep(rows, i, SearchRowConverter(decode), details);
      if detail.None? {
        return Fail(SearchFailed);
      }
      details := details + [detail.value];
      i := i + 1;
    }
    assert rows[..i] == rows;
    r := Ok(SearchResult(details, total, page, perPage));
  }

  /** `SearchRowDetailOf` as a value, for the list-level statements. */
  function SearchRowConverter(decode: Decoder): Json -> Option<ClaimDetail>
  {
    item => SearchRowDetailOf(item, decode)
  }

  /** The search answers row k with the detail of row k, each without a user vote. */
  lemma SearchResultRows(fetch: SearchFetch, decode: Decoder, claims: seq<ClaimDetail>)
    requires fetch.SearchRows? && Some(claims) == MapAll(RowsOf(fetch), SearchRowConverter(decode))
    ensures |claims| == |RowsOf(fetch)|
    ensures forall k :: 0 <= k < |claims| ==>
      RowsOf(fetch)[k].JObj? && Some(claims[k].claim) == ValidateClaimResponse(RowsOf(fetch)[k].fields) && claims[k].userVote == None
  {
    MapAllAt(RowsOf(fetch), SearchRowConverter(decode));
  }

  /** The body of search_claims' loop for one row. */
  method SearchRowDetail(item: Json, decode: Decoder) returns (r: Option<ClaimDetail>)
    ensures r == SearchRowDetailOf(item, decode)
  {
    if !item.JObj? {
      return None;
    }
    var analysis: Option<ClaimAnalysis> := None;
    var source := AnalysisSource(Get(item.fields, "claim_analyses"));
    if source.Some? {
      analysis := BuildClaimAnalysis(source.value, SearchRoute, decode);
    }
    var claim := ValidateClaimResponse(item.fields);
    if claim.None? {
      return None;
    }
    r := ValidateClaimDetail(claim.value, analysis, CommentCountField(Get(item.fields, "claim_comments")));
  }

  // ---------------------------------------------------------------------
  // get_claim_status and vote_on_claim
  // ---------------------------------------------------------------------

  /** `get_claim_status`: the stored status value, 404 without a row, 500 on any other failure. */
  function GetClaimStatus(fetch: SingleFetch): (r: Response<Json>)
    ensures fetch.Fetched? && !Truthy(fetch.data) ==> r == Fail(HttpError(NotFound, "Claim not found"))
    ensures fetch.Fetched? && fetch.data.JObj? && "status" in fetch.data.fields ==> r == Ok(fetch.data.fields["status"])
    ensures r.Fail? && r.error.status != NotFound ==> r.error == HttpError(InternalServerError, "Failed to fetch claim status")
  {
    match fetch
    case FetchRaised => Fail(HttpError(InternalServerError, "Failed to fetch claim status"))
    case Fetched(data) =>
      if !Truthy(data) then Fail(HttpError(NotFound, "Claim not found"))
      else if data.JObj? && "status" in data.fields then Ok(data.fields["status"])
      else Fail(HttpError(InternalServerError, "Failed to fetch claim status"))
  }

  /** The writes `vote_on_claim` issues. */
  datatype VoteEffect =
    | UpsertClaimVote(claimId: string, userId: string, voteType: VoteType)
    | RecountClaimVotes(claimId: string)

  /**
   * `vote_on_claim`: anything but an up-vote is a 400 before any write; an
   * up-vote is upserted for the caller, then the count is recalculated, and
   * a failed recalculation still answers success.
   */
  method VoteOnClaim(claimId: string, vote: VoteType, caller: User, upsertRaises: bool, recountRaises: bool)
    returns (r: Response<string>, effects: seq<VoteEffect>)
    ensures vote != Up ==> r == Fail(HttpError(BadRequest, "Only upvotes are allowed on claims.")) && effects == []
    ensures vote == Up ==> |effects| >= 1 && effects[0] == UpsertClaimVote(claimId, caller.id, Up)
    ensures vote == Up && !upsertRaises ==> r == Ok("success") && effects[1..] == [RecountClaimVotes(claimId)]
    ensures vote == Up && upsertRaises ==> r.Fail? && r.error.status == InternalServerError && |effects| == 1
  {
    effects := [];
    if vote != Up {
      return Fail(HttpError(BadRequest, "Only upvotes are allowed on claims.")), effects;
    }
    effects := effects + [UpsertClaimVote(claimId, caller.id, vote)];
    if upsertRaises {
      return Fail(HttpError(InternalServerError, "Internal Server Error")), effects;
    }
    effects := effects + [RecountClaimVotes(claimId)];
    // The recalculation's failure is only logged.
    r := Ok("success");
  }
}
