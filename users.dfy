/**
 * The user-profile endpoints (backend/app/routers/users.py): the caller's
 * own profile, created on first access; a partial update of it; and the
 * public profile page joining the user's recent claims with their
 * analyses and comment counts, their recent comments and three counts.
 * Database calls are outcomes passed in; an exception the endpoint does
 * not catch is a 500 "Internal Server Error".
 */
module Users {
  import opened Json
  import opened Text
  import opened Http
  import opened Schemas

  const Unhandled := "Internal Server Error"
  const NotCreated := "Could not create user profile."

  /** A `maybe_single()` select: it raised, or returned its data (`None` when there is no row). */
  datatype ProfileLookup = LookupRaised | LookedUp(data: Json)

  /** An insert or update followed by `.single()`: it raised (with the exception's text), or returned its data. */
  datatype SingleWrite = WriteRaised(message: string) | WriteReturned(data: Json)

  /** The profile row a missing caller profile is created from. */
  function OwnProfileRow(caller: User): (r: map<string, Json>)
    ensures r.Keys == {"id", "email", "full_name"}
    ensures r["id"] == JStr(caller.id) && r["email"] == JStr(caller.email)
    ensures r["full_name"] == (if caller.fullName.Some? then JStr(caller.fullName.value) else JNull)
  {
    map["id" := JStr(caller.id), "email" := JStr(caller.email),
        "full_name" := if caller.fullName.Some? then JStr(caller.fullName.value) else JNull]
  }

  /** `UserProfile(**data)`: the data must be a dict that validates. */
  function ProfileOf(data: Json): (r: Response<UserProfile>)
    ensures r.Ok? <==> data.JObj? && ValidateUserProfile(data.fields).Some?
    ensures r.Ok? ==> ValidateUserProfile(data.fields) == Some(r.value)
    ensures r.Fail? ==> r.error == HttpError(InternalServerError, Unhandled)
  {
    if data.JObj? && ValidateUserProfile(data.fields).Some? then Ok(ValidateUserProfile(data.fields).value)
    else Fail(HttpError(InternalServerError, Unhandled))
  }

  /**
   * `GET /users/me`: the stored profile, or a profile created from the
   * caller's id, email and name when none is stored.
   */
  method GetOwnProfile(caller: User, lookup: ProfileLookup, insert: SingleWrite)
    returns (created: Option<map<string, Json>>, r: Response<UserProfile>)
    ensures created.Some? <==> lookup.LookedUp? && !Truthy(lookup.data)
    ensures created.Some? ==> created.value == OwnProfileRow(caller)
    ensures lookup.LookupRaised? ==> r == Fail(HttpError(InternalServerError, Unhandled))
    ensures lookup.LookedUp? && Truthy(lookup.data) ==> r == ProfileOf(lookup.data)
    ensures created.Some? && insert.WriteReturned? && !Truthy(insert.data) ==> r == Fail(HttpError(InternalServerError, NotCreated))
    ensures created.Some? && insert.WriteReturned? && Truthy(insert.data) ==> r == ProfileOf(insert.data)
    ensures r.Fail? ==> r.error.status == InternalServerError
  {
    created := None;
    if lookup.LookupRaised? {
      return created, Fail(HttpError(InternalServerError, Unhandled));
    }
    if Truthy(lookup.data) {
      return created, ProfileOf(lookup.data);
    }
    created := Some(OwnProfileRow(caller));
    if insert.WriteRaised? {
      return created, Fail(HttpError(InternalServerError, Unhandled));
    }
    if !Truthy(insert.data) {
      return created, Fail(HttpError(InternalServerError, NotCreated));
    }
    r := ProfileOf(insert.data);
  }

  /** `UserProfileUpdate`: each field is unset (`None`), or set to a text or to `None`. */
  datatype ProfileUpdate = ProfileUpdate(
    fullName: Option<Option<string>>,
    avatarUrl: Option<Option<string>>,
    coverPhotoUrl: Option<Option<string>>)

  function OptText(v: Option<string>): Json
  {
    if v.Some? then JStr(v.value) else JNull
  }

  /** `model_dump(exclude_unset=True)`: exactly the fields the client set. */
  function UpdateData(u: ProfileUpdate): (r: map<string, Json>)
    ensures "full_name" in r <==> u.fullName.Some?
    ensures "avatar_url" in r <==> u.avatarUrl.Some?
    ensures "cover_photo_url" in r <==> u.coverPhotoUrl.Some?
    ensures r.Keys <= {"full_name", "avatar_url", "cover_photo_url"}
    ensures u.fullName.Some? ==> r["full_name"] == OptText(u.fullName.value)
    ensures u.avatarUrl.Some? ==> r["avatar_url"] == OptText(u.avatarUrl.value)
    ensures u.coverPhotoUrl.Some? ==> r["cover_photo_url"] == OptText(u.coverPhotoUrl.value)
  {
    var a := if u.fullName.Some? then map["full_name" := OptText(u.fullName.value)] else map[];
    var b := if u.avatarUrl.Some? then a["avatar_url" := OptText(u.avatarUrl.value)] else a;
    if u.coverPhotoUrl.Some? then b["cover_photo_url" := OptText(u.coverPhotoUrl.value)] else b
  }

  /**
   * `PUT /users/me`: an update that sets nothing is refused with 400
   * before any write; an update that matches no row gives 404.
   */
  method UpdateOwnProfile(u: ProfileUpdate, caller: User, outcome: SingleWrite)
    returns (written: Option<map<string, Json>>, r: Response<UserProfile>)
    ensures UpdateData(u) == map[] <==> r == Fail(HttpError(BadRequest, "No fields to update."))
    ensures UpdateData(u) == map[] ==> written.None?
    ensures UpdateData(u) != map[] ==> written == Some(UpdateData(u))
    ensures written.Some? && outcome.WriteReturned? && !Truthy(outcome.data) ==> r == Fail(HttpError(NotFound, "User profile not found."))
    ensures written.Some? && outcome.WriteReturned? && Truthy(outcome.data) ==> r == ProfileOf(outcome.data)
    ensures written.Some? && outcome.WriteRaised? ==> r == Fail(HttpError(InternalServerError, Unhandled))
  {
    var data := UpdateData(u);
    if data == map[] {
      return None, Fail(HttpError(BadRequest, "No fields to update."));
    }
    written := Some(data);
    if outcome.WriteRaised? {
      return written, Fail(HttpError(InternalServerError, Unhandled));
    }
    if !Truthy(outcome.data) {
      return written, Fail(HttpError(NotFound, "User profile not found."));
    }
    r := ProfileOf(outcome.data);
  }

  // ---------------------------------------------------------------------
  // The public profile page
  // ---------------------------------------------------------------------

  /** Python `str(v)`: a string is its own text; `render` gives the text of any other value. */
  function Str(v: Json, render: Json -> string): (r: string)
    ensures v.JStr? ==> r == v.s
  {
    if v.JStr? then v.s else render(v)
  }

  /** The placeholder row a missing public profile is created from. */
  function PlaceholderRow(userId: string): (r: map<string, Json>)
    ensures r.Keys == {"id", "email", "full_name"} && r["full_name"] == JNull
    ensures r["email"] == JStr("user_" + userId + "@example.com")
  {
    map["id" := JStr(userId), "email" := JStr("user_" + userId + "@example.com"), "full_name" := JNull]
  }

  /** Starlette's `str()` of an `HTTPException`: its status, a colon and its detail. */
  function HttpErrorText(e: HttpError): string
  {
    Text.NatToString(if e.status >= 0 then e.status else 0) + ": " + e.detail
  }

  /** The re-raised message for empty insert data reads "500: Could not create user profile.". */
  lemma EmptyInsertText()
    ensures HttpErrorText(HttpError(InternalServerError, NotCreated)) == "500: " + NotCreated
  {
    assert NatToString(5) == "5";
    assert NatToString(50) == NatToString(5) + "0";
    assert NatToString(500) == NatToString(50) + "0";
  }

  const CreateFailedPrefix := "Could not create user profile: "

  /**
   * The profile shown on the page (not validated). Every failure to
   * create a missing one, including the endpoint's own 500 for empty
   * insert data, is re-raised as "Could not create user profile: <error>".
   */
  function PublicProfile(userId: string, lookup: ProfileLookup, insert: SingleWrite): (r: Response<Json>)
    ensures lookup.LookupRaised? ==> r == Fail(HttpError(InternalServerError, Unhandled))
    ensures lookup.LookedUp? && Truthy(lookup.data) ==> r == Ok(lookup.data)
    ensures lookup.LookedUp? && !Truthy(lookup.data) && insert.WriteRaised? ==>
      r == Fail(HttpError(InternalServerError, CreateFailedPrefix + insert.message))
    ensures lookup.LookedUp? && !Truthy(lookup.data) && insert.WriteReturned? && !Truthy(insert.data) ==>
      r == Fail(HttpError(InternalServerError, CreateFailedPrefix + HttpErrorText(HttpError(InternalServerError, NotCreated))))
    ensures r.Ok? ==> Truthy(r.value)
  {
    match lookup
    case LookupRaised => Fail(HttpError(InternalServerError, Unhandled))
    case LookedUp(data) =>
      if Truthy(data) then Ok(data)
      else match insert
        case WriteRaised(message) => Fail(HttpError(InternalServerError, CreateFailedPrefix + message))
        case WriteReturned(created) =>
          if Truthy(created) then Ok(created)
          else
            Fail(HttpError(InternalServerError, CreateFailedPrefix + HttpErrorText(HttpError(InternalServerError, NotCreated))))
  }

  /** `str(claim["id"])` for every fetched claim; `None` when a row is not a dict with an id. */
  function ClaimIds(claims: seq<Json>, render: Json -> string): (r: Option<seq<string>>)
    ensures r.Some? <==> forall k :: 0 <= k < |claims| ==> claims[k].JObj? && "id" in claims[k].fields
    ensures r.Some? ==> |r.value| == |claims|
    ensures r.Some? ==> forall k :: 0 <= k < |claims| ==> r.value[k] == Str(claims[k].fields["id"], render)
  {
    if claims == [] then Some([])
    else if claims[0].JObj? && "id" in claims[0].fields then
      match ClaimIds(claims[1..], render)
      case None => None
      case Some(rest) => Some([Str(claims[0].fields["id"], render)] + rest)
    else None
  }

  /** `str(a["claim_id"])` of an analysis row. */
  function AnalysisKey(render: Json -> string): Json -> Option<string>
  {
    (a: Json) => if a.JObj? && "claim_id" in a.fields then Some(Str(a.fields["claim_id"], render)) else None
  }

  function Identity(a: Json): Json
  {
    a
  }

  /** `{str(a["claim_id"]): a for a in analyses}`. */
  function AnalysesById(analyses: seq<Json>, render: Json -> string): Option<map<string, Json>>
  {
    IndexBy(analyses, AnalysisKey(render), Identity)
  }

  /** `analysis.get(key) if analysis else None`. */
  function FromAnalysis(analysis: Json, key: string): (r: Json)
    ensures !Truthy(analysis) ==> r == JNull
    ensures Truthy(analysis) && analysis.JObj? ==> r == Get(analysis.fields, key)
  {
    if Truthy(analysis) && analysis.JObj? then Get(analysis.fields, key) else JNull
  }

  /** One entry of `recent_claims`; `None` when reading the row raises. */
  function RecentClaimEntry(analyses: map<string, Json>, counts: map<string, int>, render: Json -> string, claim: Json): (r: Option<map<string, Json>>)
    ensures r.Some? <==> claim.JObj? && "id" in claim.fields && "content" in claim.fields && "status" in claim.fields && "created_at" in claim.fields
    ensures r.Some? ==> var id := Str(claim.fields["id"], render);
      r.value.Keys == {"id", "content", "status", "created_at", "verdict", "confidence_score", "comment_count"} &&
      r.value["id"] == JStr(id) && r.value["content"] == claim.fields["content"] &&
      r.value["status"] == claim.fields["status"] && r.value["created_at"] == claim.fields["created_at"] &&
      r.value["comment_count"] == JNum(if id in counts then counts[id] as real else 0.0)
    ensures r.Some? ==> var id := Str(claim.fields["id"], render);
      (id !in analyses ==> r.value["verdict"] == JNull && r.value["confidence_score"] == JNull) &&
      (id in analyses ==> r.value["verdict"] == FromAnalysis(analyses[id], "verdict") &&
                          r.value["confidence_score"] == FromAnalysis(analyses[id], "confidence_score"))
  {
    if claim.JObj? && "id" in claim.fields && "content" in claim.fields && "status" in claim.fields && "created_at" in claim.fields then
      var id := Str(claim.fields["id"], render);
      var analysis := if id in analyses then analyses[id] else JNull;
      Some(map[
        "id" := JStr(id),
        "content" := claim.fields["content"],
        "status" := claim.fields["status"],
        "created_at" := claim.fields["created_at"],
        "verdict" := FromAnalysis(analysis, "verdict"),
        "confidence_score" := FromAnalysis(analysis, "confidence_score"),
        "comment_count" := JNum(if id in counts then counts[id] as real else 0.0)])
    else None
  }

  function RecentClaimConverter(analyses: map<string, Json>, counts: map<string, int>, render: Json -> string): Json -> Option<map<string, Json>>
  {
    claim => RecentClaimEntry(analyses, counts, render, claim)
  }

  /** The loop that builds `recent_claims`, one entry per fetched claim, in order. */
  method RecentClaims(claims: seq<Json>, analyses: map<string, Json>, counts: map<string, int>, render: Json -> string)
    returns (r: Option<seq<map<string, Json>>>)
    ensures r == MapAll(claims, RecentClaimConverter(analyses, counts, render))
  {
    var f := RecentClaimConverter(analyses, counts, render);
    var out: seq<map<string, Json>> := [];
    var i := 0;
    while i < |claims|
      invariant 0 <= i <= |claims|
      invariant MapAll(claims[..i], f) == Some(out)
    {
      var entry := RecentClaimEntry(analyses, counts, render, claims[i]);
      MapAllStep(claims, i, f, out);
      if entry.None? {
        return None;
      }
      out := out + [entry.value];
      i := i + 1;
    }
    assert claims[..i] == claims;
    r := Some(out);
  }

  /**
   * A claim's verdict on the page is the verdict of the LAST analysis row
   * for that claim (when that row is a non-empty dict), and `None` when no
   * analysis row names the claim.
   */
  lemma RecentClaimVerdict(analysisRows: seq<Json>, counts: map<string, int>, render: Json -> string, claim: Json, j: nat)
    requires AnalysesById(analysisRows, render).Some?
    requires RecentClaimEntry(AnalysesById(analysisRows, render).value, counts, render, claim).Some?
    requires j < |analysisRows| && AnalysisKey(render)(analysisRows[j]) == Some(Str(claim.fields["id"], render))
    requires forall k :: j < k < |analysisRows| ==> AnalysisKey(render)(analysisRows[k]) != AnalysisKey(render)(analysisRows[j])
    ensures var entry := RecentClaimEntry(AnalysesById(analysisRows, render).value, counts, render, claim).value;
      entry["verdict"] == FromAnalysis(analysisRows[j], "verdict")
  {
    IndexByDefined(analysisRows, AnalysisKey(render), Identity);
    IndexByLastWins(analysisRows, AnalysisKey(render), Identity, j);
  }

  /** A claim no analysis row names has no verdict and no confidence. */
  lemma RecentClaimWithoutAnalysis(analysisRows: seq<Json>, counts: map<string, int>, render: Json -> string, claim: Json)
    requires AnalysesById(analysisRows, render).Some?
    requires RecentClaimEntry(AnalysesById(analysisRows, render).value, counts, render, claim).Some?
    requires forall k :: 0 <= k < |analysisRows| ==> AnalysisKey(render)(analysisRows[k]) != Some(Str(claim.fields["id"], render))
    ensures var entry := RecentClaimEntry(AnalysesById(analysisRows, render).value, counts, render, claim).value;
      entry["verdict"] == JNull && entry["confidence_score"] == JNull
  {
    IndexByDefined(analysisRows, AnalysisKey(render), Identity);
    IndexByKeys(analysisRows, AnalysisKey(render), Identity);
  }

  // ---------------------------------------------------------------------
  // Recent comments: the row the select returns lacks the claim's id
  // ---------------------------------------------------------------------

  /** An embedded `claims` object holding exactly the columns named in the select. */
  predicate EmbeddedClaim(c: Json, columns: set<string>)
  {
    c.JObj? && c.fields.Keys == columns
  }

  /** A row of `select("id, content, created_at, upvotes, downvotes, claims(content)")`. */
  predicate SelectedAsWritten(row: Json)
  {
    row.JObj? && row.fields.Keys == {"id", "content", "created_at", "upvotes", "downvotes", "claims"} &&
    EmbeddedClaim(row.fields["claims"], {"content"})
  }

  /** One entry of `recent_comments` as written: it reads `comment["claims"]["id"]`. */
  function RecentCommentAsWritten(comment: Json, render: Json -> string): (r: Option<map<string, Json>>)
    ensures r.Some? ==> (comment.JObj? && "claims" in comment.fields && comment.fields["claims"].JObj? &&
      "id" in comment.fields["claims"].fields)
  {
    if comment.JObj? && "id" in comment.fields && "content" in comment.fields && "created_at" in comment.fields &&
       "upvotes" in comment.fields && "downvotes" in comment.fields && "claims" in comment.fields &&
       comment.fields["claims"].JObj? && "content" in comment.fields["claims"].fields && "id" in comment.fields["claims"].fields
    then
      Some(map[
        "id" := JStr(Str(comment.fields["id"], render)),
        "content" := comment.fields["content"],
        "created_at" := comment.fields["created_at"],
        "upvotes" := comment.fields["upvotes"],
        "downvotes" := comment.fields["downvotes"],
        "claim_content" := comment.fields["claims"].fields["content"],
        "claim_id" := JStr(Str(comment.fields["claims"].fields["id"], render))])
    else None
  }

  /**
   * Every row the select returns makes the entry raise `KeyError`, so the
   * page fails with 500 for any user who has commented.
   */
  lemma RecentCommentAsWrittenRaises(comment: Json, render: Json -> string)
    requires SelectedAsWritten(comment)
    ensures RecentCommentAsWritten(comment, render).None?
  {
    assert "id" !in comment.fields["claims"].fields;
  }

  /** A concrete selected row: a comment on a claim, as the database returns it. */
  lemma RecentCommentAsWrittenExample(render: Json -> string)
    ensures var row := JObj(map["id" := JStr("c1"), "content" := JStr("Agreed"), "created_at" := JStr("2024-01-01"),
                                "upvotes" := JNum(0.0), "downvotes" := JNum(0.0),
                                "claims" := JObj(map["content" := JStr("The claim")])]);
      SelectedAsWritten(row) && RecentCommentAsWritten(row, render).None?
  {
    var row := JObj(map["id" := JStr("c1"), "content" := JStr("Agreed"), "created_at" := JStr("2024-01-01"),
                        "upvotes" := JNum(0.0), "downvotes" := JNum(0.0),
                        "claims" := JObj(map["content" := JStr("The claim")])]);
    assert row.fields.Keys == {"id", "content", "created_at", "upvotes", "downvotes", "claims"};
    assert row.fields["claims"].fields.Keys == {"content"};
    RecentCommentAsWrittenRaises(row, render);
  }

  /** A row of the corrected select, which also fetches the comment's own `claim_id`. */
  predicate SelectedCorrected(row: Json)
  {
    row.JObj? && row.fields.Keys == {"id", "content", "created_at", "upvotes", "downvotes", "claim_id", "claims"} &&
    EmbeddedClaim(row.fields["claims"], {"content"})
  }

  /** One entry of `recent_comments`, taking the claim's id from the comment's `claim_id` column. */
  function RecentComment(comment: Json, render: Json -> string): (r: Option<map<string, Json>>)
    ensures SelectedCorrected(comment) ==> r.Some?
    ensures r.Some? ==> r.value.Keys == {"id", "content", "created_at", "upvotes", "downvotes", "claim_content", "claim_id"}
    ensures r.Some? ==> (comment.JObj? && "claim_id" in comment.fields && "id" in comment.fields &&
      r.value["claim_id"] == JStr(Str(comment.fields["claim_id"], render)) &&
      r.value["id"] == JStr(Str(comment.fields["id"], render)))
    ensures r.Some? ==> ("claims" in comment.fields && comment.fields["claims"].JObj? &&
      "content" in comment.fields["claims"].fields && r.value["claim_content"] == comment.fields["claims"].fields["content"])
  {
    if comment.JObj? && "id" in comment.fields && "content" in comment.fields && "created_at" in comment.fields &&
       "upvotes" in comment.fields && "downvotes" in comment.fields && "claim_id" in comment.fields &&
       "claims" in comment.fields && comment.fields["claims"].JObj? && "content" in comment.fields["claims"].fields
    then
      Some(map[
        "id" := JStr(Str(comment.fields["id"], render)),
        "content" := comment.fields["content"],
        "created_at" := comment.fields["created_at"],
        "upvotes" := comment.fields["upvotes"],
        "downvotes" := comment.fields["downvotes"],
        "claim_content" := comment.fields["claims"].fields["content"],
        "claim_id" := JStr(Str(comment.fields["claim_id"], render))])
    else None
  }

  function RecentCommentConverter(render: Json -> string): Json -> Option<map<string, Json>>
  {
    comment => RecentComment(comment, render)
  }

  /** The loop that builds `recent_comments`, one entry per fetched comment, in order. */
  method RecentComments(comments: seq<Json>, render: Json -> string) returns (r: Option<seq<map<string, Json>>>)
    ensures r == MapAll(comments, RecentCommentConverter(render))
  {
    var f := RecentCommentConverter(render);
    var out: seq<map<string, Json>> := [];
    var i := 0;
    while i < |comments|
      invariant 0 <= i <= |comments|
      invariant MapAll(comments[..i], f) == Some(out)
    {
      var entry := RecentComment(comments[i], render);
      MapAllStep(comments, i, f, out);
      if entry.None? {
        return None;
      }
      out := out + [entry.value];
      i := i + 1;
    }
    assert comments[..i] == comments;
    r := Some(out);
  }

  /** With the corrected select every fetched comment yields an entry, in order. */
  lemma RecentCommentsSucceed(comments: seq<Json>, render: Json -> string)
    requires forall k :: 0 <= k < |comments| ==> SelectedCorrected(comments[k])
    ensures var r := MapAll(comments, RecentCommentConverter(render));
      r.Some? && |r.value| == |comments| &&
      forall k :: 0 <= k < |comments| ==> ("claim_id" in r.value[k] && comments[k].JObj? && "claim_id" in comments[k].fields &&
        r.value[k]["claim_id"] == JStr(Str(comments[k].fields["claim_id"], render)))
  {
    MapAllAt(comments, RecentCommentConverter(render));
  }

  /** `count or 0`. */
  function CountOr0(count: Option<int>): (r: Json)
    ensures count.Some? && count.value != 0 ==> r == JNum(count.value as real)
    ensures count.None? || count.value == 0 ==> r == JNum(0.0)
  {
    if count.Some? && count.value != 0 then JNum(count.value as real) else JNum(0.0)
  }

  datatype ProfilePage = ProfilePage(
    profile: Json,
    recentClaims: seq<map<string, Json>>,
    recentComments: seq<map<string, Json>>,
    stats: map<string, Json>)

  /** The three page counts; a missing count shows as 0. */
  function Stats(totalClaims: Option<int>, totalComments: Option<int>, verifiedClaims: Option<int>): (r: map<string, Json>)
    ensures r.Keys == {"total_claims", "total_comments", "verified_claims"}
    ensures r["total_claims"] == CountOr0(totalClaims) && r["total_comments"] == CountOr0(totalComments)
    ensures r["verified_claims"] == CountOr0(verifiedClaims)
  {
    map["total_claims" := CountOr0(totalClaims), "total_comments" := CountOr0(totalComments),
        "verified_claims" := CountOr0(verifiedClaims)]
  }

  /** The number of fetched comment rows whose `claim_id` renders as `id`. */
  function CountFor(rows: seq<Json>, id: string, render: Json -> string): nat
  {
    if rows == [] then 0
    else
      (if rows[0].JObj? && "claim_id" in rows[0].fields && Str(rows[0].fields["claim_id"], render) == id then 1 else 0)
      + CountFor(rows[1..], id, render)
  }

  /**
   * The comment count per claim id, from the rows of the count lookup's
   * `data`: one entry per claim id that has comments, counting its rows.
   * `None` when a row is not a dict with a `claim_id`.
   */
  function CommentCounts(rows: seq<Json>, render: Json -> string): (r: Option<map<string, int>>)
    ensures r.Some? <==> forall k :: 0 <= k < |rows| ==> rows[k].JObj? && "claim_id" in rows[k].fields
    ensures r.Some? ==> forall id :: CountFor(rows, id, render) == (if id in r.value then r.value[id] else 0)
    ensures r.Some? ==> forall id :: id in r.value ==> r.value[id] > 0
  {
    if rows == [] then Some(map[])
    else if rows[0].JObj? && "claim_id" in rows[0].fields then
      match CommentCounts(rows[1..], render)
      case None => None
      case Some(rest) =>
        var id := Str(rows[0].fields["claim_id"], render);
        Some(rest[id := (if id in rest then rest[id] else 0) + 1])
    else None
  }

  /**
   * The analyses and comment counts the recent claims are joined with,
   * both empty when the user has no claims (neither lookup is made then);
   * `None` when a claim row, an analysis row or a count row lacks its id.
   * `countRows` are the rows the count lookup returns.
   */
  function ClaimJoins(claims: seq<Json>, analysisRows: seq<Json>, countRows: seq<Json>, render: Json -> string): (r: Option<(map<string, Json>, map<string, int>)>)
    ensures r.Some? <==> (ClaimIds(claims, render).Some? &&
      (claims != [] ==> AnalysesById(analysisRows, render).Some? && CommentCounts(countRows, render).Some?))
    ensures r.Some? && claims == [] ==> r.value == (map[], map[])
    ensures r.Some? && claims != [] ==> r.value == (AnalysesById(analysisRows, render).value, CommentCounts(countRows, render).value)
  {
    match ClaimIds(claims, render)
    case None => None
    case Some(ids) =>
      if ids == [] then Some((map[], map[]))
      else match AnalysesById(analysisRows, render)
        case None => None
        case Some(analyses) =>
          match CommentCounts(countRows, render)
          case None => None
          case Some(counts) => Some((analyses, counts))
  }

  // ---------------------------------------------------------------------
  // Comment counts: the comprehension iterates the response object
  // ---------------------------------------------------------------------

  /** What iterating a pydantic model yields: one `(name, value)` pair per field, in declaration order. */
  datatype FieldPair = FieldPair(name: string, value: Json)

  /** The count lookup's `execute()` response iterated as the model it is: its `data` field, then its `count`. */
  function ResponsePairs(data: seq<Json>, count: Option<int>): (r: seq<FieldPair>)
    ensures |r| == 2 && r[0] == FieldPair("data", JArr(data))
  {
    [FieldPair("data", JArr(data)), FieldPair("count", if count.Some? then JNum(count.value as real) else JNull)]
  }

  /**
   * The comment-count comprehension as written, over the pairs it iterates:
   * `c["claim_id"]` indexes a tuple with a string, which raises
   * `TypeError`, so only an empty iteration gives a map.
   */
  function CountMapAsWritten(pairs: seq<FieldPair>): Option<map<string, int>>
  {
    if pairs == [] then Some(map[]) else None
  }

  /** The joins as written: the count lookup feeds its response object itself to the comprehension. */
  function ClaimJoinsAsWritten(claims: seq<Json>, analysisRows: seq<Json>, data: seq<Json>, count: Option<int>,
                               render: Json -> string): Option<(map<string, Json>, map<string, int>)>
  {
    match ClaimIds(claims, render)
    case None => None
    case Some(ids) =>
      if ids == [] then Some((map[], map[]))
      else match AnalysesById(analysisRows, render)
        case None => None
        case Some(analyses) =>
          match CountMapAsWritten(ResponsePairs(data, count))
          case None => None
          case Some(counts) => Some((analyses, counts))
  }

  /**
   * As written, the joins succeed only for a user without claims: for any
   * user with a claim the handler raises before the page is built, and
   * the request fails with 500.
   */
  lemma ClaimJoinsAsWrittenRaises(claims: seq<Json>, analysisRows: seq<Json>, data: seq<Json>, count: Option<int>,
                                  render: Json -> string)
    ensures ClaimJoinsAsWritten(claims, analysisRows, data, count, render).Some? <==>
      ClaimIds(claims, render).Some? && claims == []
  {
    if ClaimIds(claims, render).Some? && claims != [] {
      assert |ClaimIds(claims, render).value| == |claims|;
      assert ResponsePairs(data, count) != [];
    }
  }

  /** A concrete user with one claim, which has one comment: the page fails as written. */
  lemma ClaimJoinsAsWrittenExample(render: Json -> string)
    ensures var claim := JObj(map["id" := JStr("c1"), "content" := JStr("x"), "status" := JStr("completed"),
                                  "created_at" := JStr("2024-01-01")]);
      ClaimJoinsAsWritten([claim], [], [JObj(map["claim_id" := JStr("c1")])], Some(1), render).None?
  {
    var claim := JObj(map["id" := JStr("c1"), "content" := JStr("x"), "status" := JStr("completed"),
                          "created_at" := JStr("2024-01-01")]);
    ClaimJoinsAsWrittenRaises([claim], [], [JObj(map["claim_id" := JStr("c1")])], Some(1), render);
  }

  /**
   * `GET /users/{id}/profile`. `claims` are the user's five latest
   * claims, `analysisRows` the analyses the id lookup returns,
   * `countRows` the `claim_id` rows the count lookup returns, `comments`
   * the five latest comments. The page uses the corrected comment counts
   * and recent-comment entries.
   */
  method GetUserProfile(userId: string, lookup: ProfileLookup, insert: SingleWrite,
                        claims: seq<Json>, analysisRows: seq<Json>, countRows: seq<Json>, comments: seq<Json>,
                        totalClaims: Option<int>, totalComments: Option<int>, verifiedClaims: Option<int>,
                        render: Json -> string)
    returns (created: Option<map<string, Json>>, lookedUp: bool, r: Response<ProfilePage>)
    ensures created.Some? <==> lookup.LookedUp? && !Truthy(lookup.data)
    ensures created.Some? ==> created.value == PlaceholderRow(userId)
    ensures PublicProfile(userId, lookup, insert).Fail? ==> r == Fail(PublicProfile(userId, lookup, insert).error) && !lookedUp
    ensures lookedUp ==> claims != []
    ensures r.Ok? ==> (lookedUp <==> claims != [])
    ensures r.Ok? ==> r.value.profile == PublicProfile(userId, lookup, insert).value
    ensures r.Ok? ==> (ClaimJoins(claims, analysisRows, countRows, render).Some? &&
      MapAll(claims, RecentClaimConverter(ClaimJoins(claims, analysisRows, countRows, render).value.0,
                                          ClaimJoins(claims, analysisRows, countRows, render).value.1, render)) == Some(r.value.recentClaims))
    ensures r.Ok? ==> MapAll(comments, RecentCommentConverter(render)) == Some(r.value.recentComments)
    ensures r.Ok? ==> r.value.stats == Stats(totalClaims, totalComments, verifiedClaims)
    ensures r.Fail? ==> r.error.status == InternalServerError
    ensures PublicProfile(userId, lookup, insert).Ok? && ClaimJoins(claims, analysisRows, countRows, render).Some? &&
            MapAll(claims, RecentClaimConverter(ClaimJoins(claims, analysisRows, countRows, render).value.0,
                                                ClaimJoins(claims, analysisRows, countRows, render).value.1, render)).Some? &&
            MapAll(comments, RecentCommentConverter(render)).Some? ==>
      r.Ok?
  {
    created := None;
    lookedUp := false;
    if lookup.LookedUp? && !Truthy(lookup.data) {
      created := Some(PlaceholderRow(userId));
    }
    var profile := PublicProfile(userId, lookup, insert);
    if profile.Fail? {
      return created, lookedUp, Fail(profile.error);
    }
    lookedUp := ClaimIds(claims, render).Some? && claims != [];
    var joins := ClaimJoins(claims, analysisRows, countRows, render);
    if joins.None? {
      return created, lookedUp, Fail(HttpError(InternalServerError, Unhandled));
    }
    var recentClaims := RecentClaims(claims, joins.value.0, joins.value.1, render);
    if recentClaims.None? {
      return created, lookedUp, Fail(HttpError(InternalServerError, Unhandled));
    }
    var recentComments := RecentComments(comments, render);
    if recentComments.None? {
      return created, lookedUp, Fail(HttpError(InternalServerError, Unhandled));
    }
    r := Ok(ProfilePage(profile.value, recentClaims.value, recentComments.value, Stats(totalClaims, totalComments, verifiedClaims)));
  }

  /**
   * On a page that loads, claim k's entry carries claim k's id and the
   * number of fetched comment rows for that id, in the order the claims
   * were fetched.
   */
  lemma {:induction false} PageClaimEntries(claims: seq<Json>, analysisRows: seq<Json>, countRows: seq<Json>, render: Json -> string, page: seq<map<string, Json>>)
    requires ClaimJoins(claims, analysisRows, countRows, render).Some?
    requires MapAll(claims, RecentClaimConverter(ClaimJoins(claims, analysisRows, countRows, render).value.0,
                                                 ClaimJoins(claims, analysisRows, countRows, render).value.1, render)) == Some(page)
    ensures |page| == |claims|
    ensures forall k :: 0 <= k < |claims| ==> (claims[k].JObj? && "id" in claims[k].fields &&
      "id" in page[k] && "comment_count" in page[k] &&
      page[k]["id"] == JStr(Str(claims[k].fields["id"], render)) &&
      page[k]["comment_count"] ==
        JNum(CountFor(countRows, Str(claims[k].fields["id"], render), render) as real))
  {
    var joins := ClaimJoins(claims, analysisRows, countRows, render).value;
    var f := RecentClaimConverter(joins.0, joins.1, render);
    MapAllAt(claims, f);
    forall k | 0 <= k < |claims|
      ensures claims[k].JObj? && "id" in claims[k].fields && "id" in page[k] && "comment_count" in page[k]
      ensures page[k]["id"] == JStr(Str(claims[k].fields["id"], render))
      ensures page[k]["comment_count"] == JNum(CountFor(countRows, Str(claims[k].fields["id"], render), render) as real)
    {
      var entry := RecentClaimEntry(joins.0, joins.1, render, claims[k]);
      assert page[k] == entry.value;
      CountsAgree(countRows, joins.1, render, Str(claims[k].fields["id"], render));
    }
  }

  /** A count map that `CommentCounts` produced gives an id its row count, 0 when it lacks the id. */
  lemma CountsAgree(countRows: seq<Json>, counts: map<string, int>, render: Json -> string, id: string)
    requires CommentCounts(countRows, render) == Some(counts)
    ensures (if id in counts then counts[id] else 0) == CountFor(countRows, id, render)
  {
  }
}
