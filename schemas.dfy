/**
 * The enums and response records of the backend (backend/app/models/schemas.py),
 * each record with the validation pydantic performs when it is built from
 * a database row: `None` stands for the `ValidationError` the constructor
 * raises. UUID and datetime fields are kept as their text.
 */
module Schemas {
  import opened Json

  // ---------------------------------------------------------------------
  // Enums: each value with the string it is stored as.
  // ---------------------------------------------------------------------

  datatype ContentType = Text | Url | Image | Video

  function ContentTypeValue(c: ContentType): string
  {
    match c
    case Text => "text"
    case Url => "url"
    case Image => "image"
    case Video => "video"
  }

  /** `ContentType(s)`: exactly the four stored strings name a content type. */
  function ParseContentType(s: string): (r: Option<ContentType>)
    ensures r.Some? <==> (s == "text" || s == "url" || s == "image" || s == "video")
    ensures forall c :: r == Some(c) <==> ContentTypeValue(c) == s
  {
    if s == "text" then Some(Text)
    else if s == "url" then Some(Url)
    else if s == "image" then Some(Image)
    else if s == "video" then Some(Video)
    else None
  }

  datatype ClaimStatus = Pending | Processing | Completed | Failed

  function StatusValue(st: ClaimStatus): string
  {
    match st
    case Pending => "pending"
    case Processing => "processing"
    case Completed => "completed"
    case Failed => "failed"
  }

  /** `ClaimStatus(s)`: a claim is in exactly one of four states. */
  function ParseStatus(s: string): (r: Option<ClaimStatus>)
    ensures r.Some? <==> (s == "pending" || s == "processing" || s == "completed" || s == "failed")
    ensures forall st :: r == Some(st) <==> StatusValue(st) == s
  {
    if s == "pending" then Some(Pending)
    else if s == "processing" then Some(Processing)
    else if s == "completed" then Some(Completed)
    else if s == "failed" then Some(Failed)
    else None
  }

  datatype Verdict = True | False | Misleading | Uncertain

  function VerdictValue(v: Verdict): string
  {
    match v
    case True => "true"
    case False => "false"
    case Misleading => "misleading"
    case Uncertain => "uncertain"
  }

  /** `Verdict(s)`: exactly four verdict strings are accepted. */
  function ParseVerdict(s: string): (r: Option<Verdict>)
    ensures r.Some? <==> (s == "true" || s == "false" || s == "misleading" || s == "uncertain")
    ensures forall v :: r == Some(v) <==> VerdictValue(v) == s
  {
    if s == "true" then Some(True)
    else if s == "false" then Some(False)
    else if s == "misleading" then Some(Misleading)
    else if s == "uncertain" then Some(Uncertain)
    else None
  }

  datatype VoteType = Up | Down

  function VoteValue(v: VoteType): string
  {
    match v
    case Up => "up"
    case Down => "down"
  }

  /** `VoteType(s)`: a vote is "up" or "down" and nothing else. */
  function ParseVote(s: string): (r: Option<VoteType>)
    ensures r.Some? <==> (s == "up" || s == "down")
    ensures forall v :: r == Some(v) <==> VoteValue(v) == s
  {
    if s == "up" then Some(Up)
    else if s == "down" then Some(Down)
    else None
  }

  /** The stored strings of distinct statuses differ, so status round-trips through the database. */
  lemma StatusValueInjective(a: ClaimStatus, b: ClaimStatus)
    ensures StatusValue(a) == StatusValue(b) ==> a == b
    ensures ParseStatus(StatusValue(a)) == Some(a)
  {
    assert ParseStatus(StatusValue(a)).Some?;
  }

  // ---------------------------------------------------------------------
  // Enum-typed fields
  // ---------------------------------------------------------------------

  function AsContentType(j: Json): (r: Option<ContentType>)
    ensures r.Some? ==> j == JStr(ContentTypeValue(r.value))
  {
    if j.JStr? then ParseContentType(j.s) else None
  }

  function AsStatus(j: Json): (r: Option<ClaimStatus>)
    ensures r.Some? ==> j == JStr(StatusValue(r.value))
  {
    if j.JStr? then ParseStatus(j.s) else None
  }

  function AsVerdict(j: Json): (r: Option<Verdict>)
    ensures r.Some? ==> j == JStr(VerdictValue(r.value))
  {
    if j.JStr? then ParseVerdict(j.s) else None
  }

  /** An `Optional[VoteType]` field. */
  function AsOptVote(j: Json): (r: Option<Option<VoteType>>)
    ensures r == Some(None) <==> j.JNull?
    ensures forall v :: r == Some(Some(v)) <==> j == JStr(VoteValue(v))
  {
    if j.JNull? then Some(None)
    else if j.JStr? then
      match ParseVote(j.s)
      case Some(v) => Some(Some(v))
      case None => None
    else None
  }

  /** A field declared without a default must be present in the row. */
  function Required<T>(row: map<string, Json>, key: string, validate: Json -> Option<T>): (r: Option<T>)
    ensures key !in row ==> r == None
    ensures key in row ==> r == validate(row[key])
  {
    if key in row then validate(row[key]) else None
  }

  // ---------------------------------------------------------------------
  // Records
  // ---------------------------------------------------------------------

  /** The authenticated caller that the auth dependency resolves from a bearer token (backend/app/services/auth.py). */
  datatype User = User(id: string, email: string, fullName: Option<string>, isExpert: bool)

  datatype ClaimResponse = ClaimResponse(
    id: string,
    userId: string,
    content: string,
    contentType: ContentType,
    originalUrl: Option<string>,
    filePath: Option<string>,
    status: ClaimStatus,
    createdAt: string,
    updatedAt: string,
    upvoteCount: int)

  /** `ClaimResponse(**row)`. `upvote_count` is the only field with a default, 0. */
  function ValidateClaimResponse(row: map<string, Json>): (r: Option<ClaimResponse>)
    ensures r.Some? ==> "upvote_count" !in row ==> r.value.upvoteCount == 0
    ensures r.Some? ==> "upvote_count" in row ==> row["upvote_count"] == JNum(r.value.upvoteCount as real)
    ensures r.Some? ==> Get(row, "status") == JStr(StatusValue(r.value.status))
    ensures r.Some? ==> Get(row, "content") == JStr(r.value.content) && Get(row, "id") == JStr(r.value.id)
    ensures "status" !in row || "id" !in row || "created_at" !in row ==> r == None
  {
    var id :- Required(row, "id", AsStr);
    var userId :- Required(row, "user_id", AsStr);
    var content :- Required(row, "content", AsStr);
    var contentType :- Required(row, "content_type", AsContentType);
    var originalUrl :- Required(row, "original_url", AsOptStr);
    var filePath :- Required(row, "file_path", AsOptStr);
    var status :- Required(row, "status", AsStatus);
    var createdAt :- Required(row, "created_at", AsStr);
    var updatedAt :- Required(row, "updated_at", AsStr);
    var upvotes :- AsInt(GetOr(row, "upvote_count", JNum(0.0)));
    Some(ClaimResponse(id, userId, content, contentType, originalUrl, filePath, status, createdAt, updatedAt, upvotes))
  }

  datatype EvidenceItem = EvidenceItem(
    source: string,
    excerpt: string,
    credibilityScore: Option<real>,
    url: Option<string>)

  /** `EvidenceItem(source=…, excerpt=…, credibility_score=…, url=…)`. */
  function ValidateEvidenceItem(source: Json, excerpt: Json, credibility: Json, url: Json): (r: Option<EvidenceItem>)
    ensures r.Some? <==> source.JStr? && excerpt.JStr? && (credibility.JNum? || credibility.JNull?) && (url.JStr? || url.JNull?)
    ensures r.Some? ==> r.value.source == source.s && r.value.excerpt == excerpt.s
  {
    var s :- AsStr(source);
    var e :- AsStr(excerpt);
    var c :- AsOptFloat(credibility);
    var u :- AsOptStr(url);
    Some(EvidenceItem(s, e, c, u))
  }

  datatype ClaimAnalysis = ClaimAnalysis(
    id: string,
    claimId: string,
    verdict: Verdict,
    confidenceScore: real,
    summary: string,
    evidence: seq<EvidenceItem>,
    sources: seq<map<string, Json>>,
    aiReasoning: string,
    createdAt: string)

  /** `ClaimAnalysis(...)` from the values a router passes in. */
  function ValidateClaimAnalysis(
    id: Json, claimId: Json, verdict: Json, confidence: Json, summary: Json,
    evidence: seq<EvidenceItem>, sources: Json, aiReasoning: Json, createdAt: Json): (r: Option<ClaimAnalysis>)
    ensures r.Some? ==> r.value.evidence == evidence
    ensures r.Some? ==> verdict == JStr(VerdictValue(r.value.verdict)) && confidence == JNum(r.value.confidenceScore)
    ensures !id.JStr? || !claimId.JStr? || !createdAt.JStr? ==> r == None
    ensures r.Some? ==> sources.JArr? && |r.value.sources| == |sources.items|
    ensures r.Some? ==> forall k :: 0 <= k < |sources.items| ==> sources.items[k] == JObj(r.value.sources[k])
  {
    var i :- AsStr(id);
    var c :- AsStr(claimId);
    var v :- AsVerdict(verdict);
    var conf :- AsFloat(confidence);
    var s :- AsStr(summary);
    var src :- AsObjectList(sources);
    var reasoning :- AsStr(aiReasoning);
    var created :- AsStr(createdAt);
    Some(ClaimAnalysis(i, c, v, conf, s, evidence, src, reasoning, created))
  }

  datatype ClaimDetail = ClaimDetail(
    claim: ClaimResponse,
    analysis: Option<ClaimAnalysis>,
    commentCount: int,
    userVote: Option<VoteType>)

  /** `ClaimDetail(claim=…, analysis=…, comment_count=…[, user_vote=…])`; `user_vote` defaults to `None`. */
  function ValidateClaimDetail(claim: ClaimResponse, analysis: Option<ClaimAnalysis>, commentCount: Json, userVote: Json := JNull)
    : (r: Option<ClaimDetail>)
    ensures r.Some? ==> r.value.claim == claim && r.value.analysis == analysis
    ensures r.Some? ==> commentCount == JNum(r.value.commentCount as real)
    ensures userVote == JNull ==> (r.Some? ==> r.value.userVote == None)
    ensures commentCount == JNum(0.0) && userVote == JNull ==> r == Some(ClaimDetail(claim, analysis, 0, None))
    ensures userVote == JNull ==> (r.Some? <==> AsInt(commentCount).Some?)
    ensures r.Some? <==> AsInt(commentCount).Some? && AsOptVote(userVote).Some?
    ensures r.Some? ==> AsOptVote(userVote) == Some(r.value.userVote)
  {
    var n :- AsInt(commentCount);
    var v :- AsOptVote(userVote);
    Some(ClaimDetail(claim, analysis, n, v))
  }

  datatype UserProfile = UserProfile(
    id: string,
    email: string,
    fullName: Option<string>,
    avatarUrl: Option<string>,
    coverPhotoUrl: Option<string>,
    isExpert: bool,
    expertDomain: Option<string>,
    createdAt: string)

  /** `UserProfile(**row)`: the optional fields default to `None`, `is_expert` to `False`. */
  function ValidateUserProfile(row: map<string, Json>): (r: Option<UserProfile>)
    ensures r.Some? ==> "is_expert" !in row ==> !r.value.isExpert
    ensures r.Some? ==> "full_name" !in row ==> r.value.fullName == None
    ensures r.Some? ==> Get(row, "id") == JStr(r.value.id) && Get(row, "email") == JStr(r.value.email)
    ensures "created_at" !in row ==> r == None
  {
    var id :- Required(row, "id", AsStr);
    var email :- Required(row, "email", AsStr);
    var fullName :- AsOptStr(Get(row, "full_name"));
    var avatar :- AsOptStr(Get(row, "avatar_url"));
    var cover :- AsOptStr(Get(row, "cover_photo_url"));
    var expert :- AsBool(GetOr(row, "is_expert", JBool(false)));
    var domain :- AsOptStr(Get(row, "expert_domain"));
    var created :- Required(row, "created_at", AsStr);
    Some(UserProfile(id, email, fullName, avatar, cover, expert, domain, created))
  }

  datatype RecentClaimPreview = RecentClaimPreview(id: string, content: string, status: ClaimStatus, createdAt: string)

  /** `RecentClaimPreview(**row)`: all four fields are required, and the status must be a known one. */
  function ValidateRecentClaimPreview(j: Json): (r: Option<RecentClaimPreview>)
    ensures r.Some? <==>
      && j.JObj?
      && "id" in j.fields && j.fields["id"].JStr?
      && "content" in j.fields && j.fields["content"].JStr?
      && "status" in j.fields && AsStatus(j.fields["status"]).Some?
      && "created_at" in j.fields && j.fields["created_at"].JStr?
    ensures r.Some? ==>
      && j.fields["id"] == JStr(r.value.id)
      && j.fields["content"] == JStr(r.value.content)
      && j.fields["status"] == JStr(StatusValue(r.value.status))
      && j.fields["created_at"] == JStr(r.value.createdAt)
  {
    if !j.JObj? then None
    else
      var id :- Required(j.fields, "id", AsStr);
      var content :- Required(j.fields, "content", AsStr);
      var status :- Required(j.fields, "status", AsStatus);
      var created :- Required(j.fields, "created_at", AsStr);
      Some(RecentClaimPreview(id, content, status, created))
  }

  /** Every element of a list validates, or the list does not. */
  function ValidatePreviews(items: seq<Json>): (r: Option<seq<RecentClaimPreview>>)
    ensures r.Some? ==> |r.value| == |items|
    ensures r.Some? <==> forall k :: 0 <= k < |items| ==> ValidateRecentClaimPreview(items[k]).Some?
  {
    if items == [] then Some([])
    else
      match ValidateRecentClaimPreview(items[0])
      case None => None
      case Some(p) =>
        match ValidatePreviews(items[1..])
        case None => None
        case Some(ps) => Some([p] + ps)
  }

  datatype DashboardStats = DashboardStats(
    totalClaims: int,
    pendingClaims: int,
    completedClaims: int,
    rtiRequests: int,
    recentClaims: Option<seq<RecentClaimPreview>>)

  /** `DashboardStats(**row)`: `recent_claims` may be `None` and defaults to `[]` when absent. */
  function ValidateDashboardStats(row: map<string, Json>): (r: Option<DashboardStats>)
    ensures r.Some? ==> "recent_claims" !in row ==> r.value.recentClaims == Some([])
    ensures r.Some? ==> ("recent_claims" in row && row["recent_claims"] == JNull <==> r.value.recentClaims == None)
  {
    var total :- Required(row, "total_claims", AsInt);
    var pending :- Required(row, "pending_claims", AsInt);
    var completed :- Required(row, "completed_claims", AsInt);
    var rti :- Required(row, "rti_requests", AsInt);
    var recent :- match GetOr(row, "recent_claims", JArr([]))
                  case JNull => Some(None)
                  case JArr(items) =>
                    (match ValidatePreviews(items)
                     case Some(ps) => Some(Some(ps))
                     case None => None)
                  case _ => None;
    Some(DashboardStats(total, pending, completed, rti, recent))
  }
}
