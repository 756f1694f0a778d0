/**
 * The background processing of a submitted claim
 * (backend/app/services/claim_processor.py): it marks the claim
 * `processing`, asks the AI service for an analysis, stores it, marks the
 * claim `completed`, and finally offers the analysis to the knowledge base;
 * any failure on the way marks the claim `failed`. Every database and HTTP
 * call is an outcome passed in, and the method returns the calls it makes.
 */
module ClaimProcessor {
  import opened Json
  import opened Text
  import opened Schemas
  import Claims
  import BrowseClaims

  /** A database write: it succeeds, returns a result carrying an `error`, or raises. */
  datatype WriteOutcome = Written | ErrorResult | WriteRaised

  /** The `.single()` select of the claim row. */
  datatype ClaimFetch = ClaimFetchRaised | ClaimFetchError | ClaimFetched(data: Json)

  /** The `/analyze` call: it raises (transport or HTTP status error) or returns the decoded body. */
  datatype AiCall = AiRaised | AiReturned(result: Json)

  /** The body of the `/analyze` request. */
  datatype AnalysisRequest = AnalysisRequest(claimId: string, content: string, contentType: ContentType, fileUrl: Option<string>)

  /** The row inserted into `claim_analyses`; `evidence` and `sources` are stored as JSON text. */
  datatype AnalysisRecord = AnalysisRecord(
    claimId: string,
    verdict: Json,
    confidenceScore: Json,
    summary: Json,
    evidence: string,
    sources: string,
    aiReasoning: Json)

  /** The article offered to the knowledge base. */
  datatype KbArticle = KbArticle(title: string, content: string, sourceUrl: string, sourceType: string, verified: bool)

  datatype ProcessEffect =
    | WriteStatus(status: ClaimStatus)
    | CallAnalyze(url: string, request: AnalysisRequest)
    | InsertAnalysis(record: AnalysisRecord)
    | PostArticle(url: string, article: KbArticle)

  // ---------------------------------------------------------------------
  // Pure pieces
  // ---------------------------------------------------------------------

  /** Evidence and sources as stored: a list is encoded, text is kept as it is, anything else is "[]". */
  function SerializeList(v: Json, encode: Encoder): (r: string)
    ensures v.JArr? ==> r == encode(v)
    ensures v.JStr? ==> r == v.s
    ensures !v.JArr? && !v.JStr? ==> r == "[]"
  {
    match v
    case JArr(_) => encode(v)
    case JStr(s) => s
    case _ => "[]"
  }

  /**
   * A list the processor stores is read back as the same list by the claims
   * router and by the browse endpoint, whenever decoding undoes encoding.
   */
  lemma StoredListReadBack(xs: seq<Json>, encode: Encoder, decode: Decoder, route: Claims.Route)
    requires RoundTrips(decode, encode)
    ensures Claims.DecodedField(JStr(SerializeList(JArr(xs), encode)), route, decode) == Some(JArr(xs))
    ensures BrowseClaims.ListField(JStr(SerializeList(JArr(xs), encode)), decode) == JArr(xs)
  {
    assert decode(encode(JArr(xs))) == Some(JArr(xs));
  }

  /**
   * The analysis row built from the AI service's answer: a missing verdict,
   * confidence, summary or reasoning gets its default (a stored `None` is
   * kept), and the reasoning is read from the answer's `reasoning` key.
   */
  function AnalysisRecordOf(claimId: string, result: map<string, Json>, encode: Encoder): (r: AnalysisRecord)
    ensures r.claimId == claimId
    ensures r.verdict == GetOr(result, "verdict", JStr("uncertain"))
    ensures "confidence_score" !in result ==> r.confidenceScore == JNum(0.0)
    ensures "summary" !in result ==> r.summary == JStr("Analysis failed or incomplete.")
    ensures "reasoning" !in result ==> r.aiReasoning == JStr("N/A")
    ensures "reasoning" in result ==> r.aiReasoning == result["reasoning"]
    ensures "evidence" !in result ==> r.evidence == encode(JArr([]))
    ensures r.evidence == SerializeList(GetOr(result, "evidence", JArr([])), encode)
    ensures r.sources == SerializeList(GetOr(result, "sources", JArr([])), encode)
  {
    AnalysisRecord(
      claimId,
      GetOr(result, "verdict", JStr("uncertain")),
      GetOr(result, "confidence_score", JNum(0.0)),
      GetOr(result, "summary", JStr("Analysis failed or incomplete.")),
      SerializeList(GetOr(result, "evidence", JArr([])), encode),
      SerializeList(GetOr(result, "sources", JArr([])), encode),
      GetOr(result, "reasoning", JStr("N/A")))
  }

  /** A `reasoning` answer is what the claims router later shows as `ai_reasoning`. */
  lemma ReasoningCarriedOver(claimId: string, result: map<string, Json>, encode: Encoder, text: string)
    requires "reasoning" in result && result["reasoning"] == JStr(text) && text != ""
    ensures Claims.ReasoningField(map["ai_reasoning" := AnalysisRecordOf(claimId, result, encode).aiReasoning], Claims.DetailRoute) == JStr(text)
  {
  }

  const KbTitlePrefix := "Fact-Check for claim: '"

  /** The article title: the first 50 characters of the claim, quoted and followed by an ellipsis. */
  function KbTitle(content: string): (r: string)
    ensures |r| <= |KbTitlePrefix| + 50 + 4
    ensures StartsWith(r, KbTitlePrefix + Take(content, 50))
  {
    KbTitlePrefix + Take(content, 50) + "...'"
  }

  /**
   * `add_analysis_to_knowledge_base`: nothing is sent without a service
   * URL, or when the summary and reasoning are not both text (the
   * concatenation raises and the error is only logged).
   */
  function KnowledgeBasePost(claim: map<string, Json>, content: string, record: AnalysisRecord, aiServiceUrl: string): (r: Option<ProcessEffect>)
    ensures aiServiceUrl == "" ==> r.None?
    ensures r.Some? ==> r.value.PostArticle? && r.value.url == aiServiceUrl + "/add-article"
    ensures r.Some? ==> r.value.article.verified && r.value.article.title == KbTitle(content)
    ensures r.Some? ==> record.summary.JStr? && record.aiReasoning.JStr?
    ensures r.Some? ==> r.value.article.content == record.summary.s + "\n\nReasoning: " + record.aiReasoning.s
    ensures aiServiceUrl != "" && record.summary.JStr? && record.aiReasoning.JStr? ==> r.Some?
    ensures r.Some? ==> r.value.article.sourceType == "fact-check"
    ensures r.Some? && "id" !in claim ==> r.value.article.sourceUrl == "http://localhost:3000/claims/"
    ensures r.Some? && "id" in claim && claim["id"].JStr? ==> r.value.article.sourceUrl == "http://localhost:3000/claims/" + claim["id"].s
  {
    if aiServiceUrl == "" then None
    else if record.summary.JStr? && record.aiReasoning.JStr? then
      var id := if "id" in claim && claim["id"].JStr? then claim["id"].s else "";
      Some(PostArticle(aiServiceUrl + "/add-article",
        KbArticle(KbTitle(content), record.summary.s + "\n\nReasoning: " + record.aiReasoning.s,
                  "http://localhost:3000/claims/" + id, "fact-check", true)))
    else None
  }

  /** The public URL of the claim's file, when it has one and the lookup does not raise. */
  function FileUrl(claim: map<string, Json>, publicUrl: string -> Option<string>): (r: Option<string>)
    ensures !Truthy(Get(claim, "file_path")) ==> r.None?
    ensures Get(claim, "file_path").JStr? && Get(claim, "file_path").s != "" ==> r == publicUrl(Get(claim, "file_path").s)
  {
    var path := Get(claim, "file_path");
    if path.JStr? && path.s != "" then publicUrl(path.s) else None
  }

  /** `AIAnalysisRequest(...)`: the row needs a text `content` and a known `content_type`. */
  function AnalysisRequestOf(claimId: string, claim: map<string, Json>, fileUrl: Option<string>): (r: Option<AnalysisRequest>)
    ensures r.Some? <==> Get(claim, "content").JStr? && AsContentType(Get(claim, "content_type")).Some?
    ensures r.Some? ==> r.value.claimId == claimId && r.value.fileUrl == fileUrl
    ensures r.Some? ==> JStr(r.value.content) == claim["content"] && claim["content_type"] == JStr(ContentTypeValue(r.value.contentType))
  {
    var content :- AsStr(Get(claim, "content"));
    var contentType :- AsContentType(Get(claim, "content_type"));
    Some(AnalysisRequest(claimId, content, contentType, fileUrl))
  }

  /** The request a run sends once the claim row is read: its `file_path` is resolved first. */
  function RunRequest(claimId: string, claim: map<string, Json>, publicUrl: string -> Option<string>): Option<AnalysisRequest>
  {
    AnalysisRequestOf(claimId, claim, FileUrl(claim, publicUrl))
  }

  /** `/analyze` answered with a non-empty object; anything else makes the run fail. */
  predicate AiAnswered(ai: AiCall)
  {
    ai.AiReturned? && Truthy(ai.result) && ai.result.JObj?
  }

  /** Every step of the analysis succeeds, so the analysis is stored and `completed` is written. */
  predicate AnalysisStored(request: Option<AnalysisRequest>, aiServiceUrl: string, ai: AiCall, insert: WriteOutcome)
  {
    request.Some? && aiServiceUrl != "" && AiAnswered(ai) && insert == Written
  }

  /** The knowledge-base post a run makes once `/analyze` has answered with an object, if any. */
  function RunPost(claimId: string, claim: map<string, Json>, publicUrl: string -> Option<string>,
                   aiServiceUrl: string, ai: AiCall, encode: Encoder): Option<ProcessEffect>
  {
    var request := RunRequest(claimId, claim, publicUrl);
    if request.Some? && AiAnswered(ai) then
      KnowledgeBasePost(claim, request.value.content, AnalysisRecordOf(claimId, ai.result.fields, encode), aiServiceUrl)
    else None
  }

  /** Every `/analyze` call among the effects goes to `url` with `request` (so there is none when `request` is `None`). */
  predicate CallsCarry(effects: seq<ProcessEffect>, url: string, request: Option<AnalysisRequest>)
  {
    forall k :: 0 <= k < |effects| && effects[k].CallAnalyze? ==> effects[k].url == url && request == Some(effects[k].request)
  }

  /** Every knowledge-base post among the effects is `post` (so there is none when `post` is `None`). */
  predicate PostsAre(effects: seq<ProcessEffect>, post: Option<ProcessEffect>)
  {
    forall k :: 0 <= k < |effects| && effects[k].PostArticle? ==> post == Some(effects[k])
  }

  /**
   * What a run's effects say about its outcome, given the status writes
   * made before the analysis: `completed` is written exactly when the
   * analysis was `stored`, and otherwise `failed` is the one write after
   * `before`; every `/analyze` call goes to `url` with `request`; every post
   * is `post`; and when the analysis was stored and the `completed` write
   * did not raise, the run ends with the post.
   */
  predicate RunOutcome(effects: seq<ProcessEffect>, before: seq<ClaimStatus>, url: string, request: Option<AnalysisRequest>,
                       post: Option<ProcessEffect>, stored: bool, markCompleted: WriteOutcome)
  {
    && (stored <==> Completed in StatusWrites(effects))
    && (!stored ==> StatusWrites(effects) == before + [Failed])
    && CallsCarry(effects, url, request)
    && PostsAre(effects, post)
    && (stored && markCompleted != WriteRaised && post.Some? ==> effects != [] && effects[|effects| - 1] == post.value)
  }

  // ---------------------------------------------------------------------
  // The status lifecycle
  // ---------------------------------------------------------------------

  /** The status writes among the effects, in order. */
  function StatusWrites(effects: seq<ProcessEffect>): (r: seq<ClaimStatus>)
    ensures |r| <= |effects|
  {
    if effects == [] then []
    else (if effects[0].WriteStatus? then [effects[0].status] else []) + StatusWrites(effects[1..])
  }

  lemma {:induction false} StatusWritesAppend(a: seq<ProcessEffect>, b: seq<ProcessEffect>)
    ensures StatusWrites(a + b) == StatusWrites(a) + StatusWrites(b)
  {
    if a == [] {
      assert a + b == b;
    } else {
      var head := if a[0].WriteStatus? then [a[0].status] else [];
      assert (a + b)[0] == a[0];
      assert (a + b)[1..] == a[1..] + b;
      StatusWritesAppend(a[1..], b);
      assert StatusWrites(a + b) == head + StatusWrites(a[1..] + b);
      assert StatusWrites(a) == head + StatusWrites(a[1..]);
      assert head + (StatusWrites(a[1..]) + StatusWrites(b)) == (head + StatusWrites(a[1..])) + StatusWrites(b);
    }
  }

  /** A status write in front of further effects. */
  lemma FirstWrite(status: ClaimStatus, tail: seq<ProcessEffect>)
    ensures StatusWrites([WriteStatus(status)] + tail) == [status] + StatusWrites(tail)
    ensures forall k :: 1 <= k <= |tail| ==> ([WriteStatus(status)] + tail)[k] == tail[k - 1]
  {
    assert ([WriteStatus(status)] + tail)[1..] == tail;
  }

  /** One more effect: the step the processor takes. */
  lemma StatusWritesSnoc(a: seq<ProcessEffect>, e: ProcessEffect)
    ensures StatusWrites(a + [e]) == StatusWrites(a) + (if e.WriteStatus? then [e.status] else [])
  {
    StatusWritesAppend(a, [e]);
  }

  /**
   * The status sequences the processor can write: `processing` first, then
   * possibly `completed`, then possibly `failed` — `pending` is never
   * written and nothing follows `failed`.
   */
  predicate LifecycleOrder(writes: seq<ClaimStatus>)
  {
    writes == [] || (writes[0] == Processing && AfterProcessing(writes[1..]))
  }

  /** The writes that may follow `processing`: nothing, `failed`, `completed`, or `completed` then `failed`. */
  predicate AfterProcessing(writes: seq<ClaimStatus>)
  {
    writes == [] || writes == [Failed] || writes == [Completed] || writes == [Completed, Failed]
  }

  /** The status a claim is left in by a run, given the one it had before. */
  function FinalStatus(before: ClaimStatus, writes: seq<ClaimStatus>): ClaimStatus
  {
    if writes == [] then before else writes[|writes| - 1]
  }

  /** A run starting from `pending` never goes back to `pending`, and it ends in `failed` or `completed` unless it stopped while `processing`. */
  lemma LifecycleEnds(writes: seq<ClaimStatus>)
    requires LifecycleOrder(writes) && writes != []
    ensures FinalStatus(Pending, writes) != Pending
    ensures Pending !in writes
    ensures writes[0] == Processing
  {
  }

  /**
   * `process_claim_async`. Without the database URL or key no client is
   * created and nothing is written. Otherwise the claim is marked
   * `processing`; a missing row ends the run there; each failure marks it
   * `failed` and skips the knowledge base; a write of `completed` that only
   * reports an error is logged and the run goes on to the knowledge base.
   */
  method ProcessClaim(
    claimId: string, urlAndKeyPresent: bool, markProcessing: WriteOutcome, fetch: ClaimFetch,
    publicUrl: string -> Option<string>, aiServiceUrl: string, ai: AiCall,
    insert: WriteOutcome, markCompleted: WriteOutcome, encode: Encoder)
    returns (effects: seq<ProcessEffect>)
    ensures RunShape(effects, claimId, ai, insert, markCompleted, encode)
    ensures !urlAndKeyPresent ==> effects == []
    ensures urlAndKeyPresent ==> |effects| >= 1 && effects[0] == WriteStatus(Processing)
    ensures urlAndKeyPresent && markProcessing != Written ==> effects == [WriteStatus(Processing), WriteStatus(Failed)]
    ensures urlAndKeyPresent && markProcessing == Written && fetch.ClaimFetched? && !Truthy(fetch.data) ==>
      effects == [WriteStatus(Processing)]
    ensures urlAndKeyPresent && markProcessing == Written && (fetch.ClaimFetchRaised? || fetch.ClaimFetchError?) ==>
      effects == [WriteStatus(Processing), WriteStatus(Failed)]
    ensures urlAndKeyPresent && markProcessing == Written && fetch.ClaimFetched? && Truthy(fetch.data) ==>
      FetchedRun(effects, claimId, fetch.data, publicUrl, aiServiceUrl, ai, insert, markCompleted, encode)
    ensures !(urlAndKeyPresent && markProcessing == Written && fetch.ClaimFetched? && Truthy(fetch.data)) ==>
      forall k :: 0 <= k < |effects| ==> effects[k].WriteStatus?
  {
    effects := [];
    if !urlAndKeyPresent {
      StatusOnly(effects);
      return;
    }
    if markProcessing != Written || fetch.ClaimFetchRaised? || fetch.ClaimFetchError? {
      effects := [WriteStatus(Processing), WriteStatus(Failed)];
      StatusOnly(effects);
      return;
    }
    if !Truthy(fetch.data) {
      effects := [WriteStatus(Processing)];
      StatusOnly(effects);
      return;
    }
    effects := ProcessFetchedClaim(claimId, fetch.data, publicUrl, aiServiceUrl, ai, insert, markCompleted, encode);
  }

  /** The run once the claim is marked `processing` and a non-empty row came back. */
  method ProcessFetchedClaim(
    claimId: string, data: Json, publicUrl: string -> Option<string>, aiServiceUrl: string, ai: AiCall,
    insert: WriteOutcome, markCompleted: WriteOutcome, encode: Encoder)
    returns (effects: seq<ProcessEffect>)
    requires Truthy(data)
    ensures RunShape(effects, claimId, ai, insert, markCompleted, encode)
    ensures |effects| >= 1 && effects[0] == WriteStatus(Processing)
    ensures FetchedRun(effects, claimId, data, publicUrl, aiServiceUrl, ai, insert, markCompleted, encode)
  {
    if !data.JObj? {
      effects := [WriteStatus(Processing), WriteStatus(Failed)];
      StatusOnly(effects);
      return;
    }
    var tail := AnalyzeAndStore(claimId, data.fields, publicUrl, aiServiceUrl, ai, insert, markCompleted, encode);
    var request := RunRequest(claimId, data.fields, publicUrl);
    ProcessingThen(tail, claimId, ai, insert, markCompleted, encode);
    ProcessingPrefix(tail, aiServiceUrl + "/analyze", request, RunPost(claimId, data.fields, publicUrl, aiServiceUrl, ai, encode),
                     AnalysisStored(request, aiServiceUrl, ai, insert), markCompleted);
    effects := [WriteStatus(Processing)] + tail;
  }

  /**
   * A run once the claim is marked `processing` and a non-empty row came
   * back: it writes `completed` exactly when the row is a dict whose request
   * can be built, the service URL is set, `/analyze` answers with an object
   * and the insert succeeds, and writes `failed` right after `processing`
   * otherwise; every `/analyze` call carries the row's request, every post
   * is the one built from the answer, and a run that stores the analysis
   * and marks it `completed` ends with that post.
   */
  predicate FetchedRun(effects: seq<ProcessEffect>, claimId: string, data: Json, publicUrl: string -> Option<string>,
                       aiServiceUrl: string, ai: AiCall, insert: WriteOutcome, markCompleted: WriteOutcome, encode: Encoder)
  {
    var request := if data.JObj? then RunRequest(claimId, data.fields, publicUrl) else None;
    var post := if data.JObj? then RunPost(claimId, data.fields, publicUrl, aiServiceUrl, ai, encode) else None;
    var stored := data.JObj? && AnalysisStored(request, aiServiceUrl, ai, insert);
    RunOutcome(effects, [Processing], aiServiceUrl + "/analyze", request, post, stored, markCompleted)
  }

  /**
   * The shape of every run: its status writes follow the lifecycle;
   * `completed` needs a successful insert of the analysis, and is the last
   * write unless that write raised; an article is posted only after such a
   * `completed`, as the last effect; and every inserted record is the one
   * built from the AI service's answer.
   */
  predicate RunShape(effects: seq<ProcessEffect>, claimId: string, ai: AiCall, insert: WriteOutcome,
                     markCompleted: WriteOutcome, encode: Encoder)
  {
    && LifecycleOrder(StatusWrites(effects))
    && (Completed in StatusWrites(effects) ==> insert == Written && exists k :: 0 <= k < |effects| && effects[k].InsertAnalysis?)
    && (markCompleted != WriteRaised && Completed in StatusWrites(effects) ==> StatusWrites(effects) == [Processing, Completed])
    && ((exists k :: 0 <= k < |effects| && effects[k].PostArticle?) ==>
      && insert == Written && markCompleted != WriteRaised
      && StatusWrites(effects) == [Processing, Completed]
      && effects[|effects| - 1].PostArticle?)
    && (forall k :: 0 <= k < |effects| && effects[k].InsertAnalysis? ==>
      ai.AiReturned? && ai.result.JObj? && effects[k].record == AnalysisRecordOf(claimId, ai.result.fields, encode))
  }

  /** Effects that are all status writes: no call, no insert, no post, and their writes are the statuses in order. */
  lemma StatusOnly(effects: seq<ProcessEffect>)
    requires forall k :: 0 <= k < |effects| ==> effects[k].WriteStatus?
    ensures forall url, request :: CallsCarry(effects, url, request)
    ensures forall post :: PostsAre(effects, post)
    ensures forall k :: 0 <= k < |effects| ==> !effects[k].InsertAnalysis? && !effects[k].PostArticle?
    ensures effects == [] ==> LifecycleOrder(StatusWrites(effects))
    ensures effects == [WriteStatus(Failed)] ==> StatusWrites(effects) == [] + [Failed] && AfterProcessing(StatusWrites(effects))
    ensures effects == [WriteStatus(Processing)] ==> StatusWrites(effects) == [Processing] && LifecycleOrder([Processing])
    ensures effects == [WriteStatus(Processing), WriteStatus(Failed)] ==>
      StatusWrites(effects) == [Processing] + [Failed] && LifecycleOrder([Processing, Failed])
  {
    if effects == [WriteStatus(Processing), WriteStatus(Failed)] {
      assert effects[1..] == [WriteStatus(Failed)];
      assert [Processing, Failed][1..] == [Failed];
    }
    if effects == [WriteStatus(Failed)] {
      assert [] + [Failed] == [Failed];
    }
    if effects == [WriteStatus(Processing)] {
      assert [Processing][1..] == [];
    }
  }

  /** The run's facts once the tail that follows the `processing` write has its own. */
  lemma ProcessingThen(
    tail: seq<ProcessEffect>, claimId: string, ai: AiCall, insert: WriteOutcome, markCompleted: WriteOutcome, encode: Encoder)
    requires AfterProcessing(StatusWrites(tail))
    requires Completed in StatusWrites(tail) ==> insert == Written && exists k :: 0 <= k < |tail| && tail[k].InsertAnalysis?
    requires markCompleted != WriteRaised && Completed in StatusWrites(tail) ==> StatusWrites(tail) == [Completed]
    requires (exists k :: 0 <= k < |tail| && tail[k].PostArticle?) ==>
      insert == Written && markCompleted != WriteRaised && StatusWrites(tail) == [Completed] && tail[|tail| - 1].PostArticle?
    requires forall k :: 0 <= k < |tail| && tail[k].InsertAnalysis? ==>
      ai.AiReturned? && ai.result.JObj? && tail[k].record == AnalysisRecordOf(claimId, ai.result.fields, encode)
    ensures var effects := [WriteStatus(Processing)] + tail;
      && LifecycleOrder(StatusWrites(effects))
      && (Completed in StatusWrites(effects) ==> insert == Written && exists k :: 0 <= k < |effects| && effects[k].InsertAnalysis?)
      && (markCompleted != WriteRaised && Completed in StatusWrites(effects) ==> StatusWrites(effects) == [Processing, Completed])
      && ((exists k :: 0 <= k < |effects| && effects[k].PostArticle?) ==>
        && insert == Written && markCompleted != WriteRaised
        && StatusWrites(effects) == [Processing, Completed]
        && effects[|effects| - 1].PostArticle?)
      && (forall k :: 0 <= k < |effects| && effects[k].InsertAnalysis? ==>
        ai.AiReturned? && ai.result.JObj? && effects[k].record == AnalysisRecordOf(claimId, ai.result.fields, encode))
  {
    var effects := [WriteStatus(Processing)] + tail;
    FirstWrite(Processing, tail);
    forall k | 0 <= k < |effects| && effects[k].InsertAnalysis?
      ensures ai.AiReturned? && ai.result.JObj? && effects[k].record == AnalysisRecordOf(claimId, ai.result.fields, encode)
    {
      assert tail[k - 1] == effects[k];
    }
    if exists k :: 0 <= k < |effects| && effects[k].PostArticle? {
      var k :| 0 <= k < |effects| && effects[k].PostArticle?;
      assert tail[k - 1] == effects[k];
    }
    if Completed in StatusWrites(effects) {
      var k :| 0 <= k < |tail| && tail[k].InsertAnalysis?;
      assert effects[k + 1] == tail[k];
    }
  }

  /** The `processing` write in front of the tail is the one write before the analysis, and adds no call and no post. */
  lemma ProcessingPrefix(tail: seq<ProcessEffect>, url: string, request: Option<AnalysisRequest>, post: Option<ProcessEffect>,
                         stored: bool, markCompleted: WriteOutcome)
    requires RunOutcome(tail, [], url, request, post, stored, markCompleted)
    ensures RunOutcome([WriteStatus(Processing)] + tail, [Processing], url, request, post, stored, markCompleted)
  {
    var effects := [WriteStatus(Processing)] + tail;
    FirstWrite(Processing, tail);
    if !stored {
      assert [] + [Failed] == [Failed];
      assert StatusWrites(effects) == [Processing] + [Failed];
    }
    forall k | 0 <= k < |effects| && effects[k].CallAnalyze?
      ensures effects[k].url == url && request == Some(effects[k].request)
    {
      assert effects[k] == tail[k - 1];
    }
    forall k | 0 <= k < |effects| && effects[k].PostArticle?
      ensures post == Some(effects[k])
    {
      assert effects[k] == tail[k - 1];
    }
  }

  /**
   * The part of the run after the claim row is read: build the request,
   * call the AI service, store the analysis, mark the claim `completed`,
   * then offer the analysis to the knowledge base.
   */
  method AnalyzeAndStore(
    claimId: string, claim: map<string, Json>, publicUrl: string -> Option<string>, aiServiceUrl: string,
    ai: AiCall, insert: WriteOutcome, markCompleted: WriteOutcome, encode: Encoder)
    returns (tail: seq<ProcessEffect>)
    ensures AfterProcessing(StatusWrites(tail)) && StatusWrites(tail) != []
    ensures Completed in StatusWrites(tail) ==> insert == Written && exists k :: 0 <= k < |tail| && tail[k].InsertAnalysis?
    ensures markCompleted != WriteRaised && Completed in StatusWrites(tail) ==> StatusWrites(tail) == [Completed]
    ensures (exists k :: 0 <= k < |tail| && tail[k].PostArticle?) ==>
      insert == Written && markCompleted != WriteRaised && StatusWrites(tail) == [Completed] && tail[|tail| - 1].PostArticle?
    ensures forall k :: 0 <= k < |tail| && tail[k].InsertAnalysis? ==>
      ai.AiReturned? && ai.result.JObj? && tail[k].record == AnalysisRecordOf(claimId, ai.result.fields, encode)
    ensures RunOutcome(tail, [], aiServiceUrl + "/analyze", RunRequest(claimId, claim, publicUrl),
                       RunPost(claimId, claim, publicUrl, aiServiceUrl, ai, encode),
                       AnalysisStored(RunRequest(claimId, claim, publicUrl), aiServiceUrl, ai, insert), markCompleted)
  {
    var fileUrl := FileUrl(claim, publicUrl);
    var request := AnalysisRequestOf(claimId, claim, fileUrl);
    if request.None? || aiServiceUrl == "" {
      tail := [WriteStatus(Failed)];
      StatusOnly(tail);
      return;
    }
    tail := CallAndStore(claimId, claim, request.value, aiServiceUrl, ai, insert, markCompleted, encode);
  }

  /** The run once the request is built: call `/analyze`, then store what it answered. */
  method CallAndStore(
    claimId: string, claim: map<string, Json>, request: AnalysisRequest, aiServiceUrl: string,
    ai: AiCall, insert: WriteOutcome, markCompleted: WriteOutcome, encode: Encoder)
    returns (tail: seq<ProcessEffect>)
    ensures AfterProcessing(StatusWrites(tail)) && StatusWrites(tail) != []
    ensures Completed in StatusWrites(tail) ==> insert == Written && exists k :: 0 <= k < |tail| && tail[k].InsertAnalysis?
    ensures markCompleted != WriteRaised && Completed in StatusWrites(tail) ==> StatusWrites(tail) == [Completed]
    ensures (exists k :: 0 <= k < |tail| && tail[k].PostArticle?) ==>
      insert == Written && markCompleted != WriteRaised && StatusWrites(tail) == [Completed] && tail[|tail| - 1].PostArticle?
    ensures forall k :: 0 <= k < |tail| && tail[k].InsertAnalysis? ==>
      ai.AiReturned? && ai.result.JObj? && tail[k].record == AnalysisRecordOf(claimId, ai.result.fields, encode)
    ensures RunOutcome(tail, [], aiServiceUrl + "/analyze", Some(request),
                       if AiAnswered(ai)
                       then KnowledgeBasePost(claim, request.content, AnalysisRecordOf(claimId, ai.result.fields, encode), aiServiceUrl)
                       else None,
                       AiAnswered(ai) && insert == Written, markCompleted)
  {
    var call := CallAnalyze(aiServiceUrl + "/analyze", request);
    if !AiAnswered(ai) {
      tail := [call, WriteStatus(Failed)];
      assert tail[1..] == [WriteStatus(Failed)];
      assert StatusWrites(tail) == [] + [Failed];
      return;
    }
    var record := AnalysisRecordOf(claimId, ai.result.fields, encode);
    var post := KnowledgeBasePost(claim, request.content, record, aiServiceUrl);
    tail := StoreAnalysis(call, record, post, insert, markCompleted);
    assert tail[1].InsertAnalysis?;
  }

  /**
   * The steps after `/analyze` answered with an object: insert the analysis,
   * mark the claim `completed` (a failed insert or a raising write marks it
   * `failed` instead), then offer the analysis to the knowledge base.
   */
  method StoreAnalysis(
    call: ProcessEffect, record: AnalysisRecord, post: Option<ProcessEffect>,
    insert: WriteOutcome, markCompleted: WriteOutcome)
    returns (tail: seq<ProcessEffect>)
    requires call.CallAnalyze?
    requires post.Some? ==> post.value.PostArticle?
    ensures |tail| >= 3 && tail[0] == call && tail[1] == InsertAnalysis(record)
    ensures AfterProcessing(StatusWrites(tail)) && StatusWrites(tail) != []
    ensures Completed in StatusWrites(tail) <==> insert == Written
    ensures insert == Written && markCompleted != WriteRaised ==> StatusWrites(tail) == [Completed]
    ensures forall k :: 0 <= k < |tail| && tail[k].InsertAnalysis? ==> k == 1
    ensures forall k :: 0 <= k < |tail| && tail[k].PostArticle? ==>
      k == |tail| - 1 && insert == Written && markCompleted != WriteRaised && post == Some(tail[k])
    ensures insert == Written && markCompleted != WriteRaised && post.Some? ==> tail[|tail| - 1] == post.value
    ensures insert != Written ==> StatusWrites(tail) == [Failed]
    ensures CallsCarry(tail, call.url, Some(call.request))
    ensures PostsAre(tail, post)
  {
    var stored := [call, InsertAnalysis(record)];
    if insert != Written {
      tail := stored + [WriteStatus(Failed)];
      StoredThenWrites(call, record, [WriteStatus(Failed)]);
      assert StatusWrites([WriteStatus(Failed)]) == [Failed];
      return;
    }
    if markCompleted == WriteRaised {
      tail := stored + [WriteStatus(Completed), WriteStatus(Failed)];
      StoredThenWrites(call, record, [WriteStatus(Completed), WriteStatus(Failed)]);
      assert StatusWrites([WriteStatus(Completed), WriteStatus(Failed)]) == [Completed, Failed];
      return;
    }
    // A result carrying an error is only logged.
    tail := stored + [WriteStatus(Completed)];
    StoredThenWrites(call, record, [WriteStatus(Completed)]);
    assert StatusWrites([WriteStatus(Completed)]) == [Completed];
    if post.Some? {
      StatusWritesSnoc(tail, post.value);
      LastEffect(tail, post.value);
      tail := tail + [post.value];
    }
  }

  /** After the call and the insert, the effects are status writes only. */
  lemma StoredThenWrites(call: ProcessEffect, record: AnalysisRecord, writes: seq<ProcessEffect>)
    requires call.CallAnalyze? && forall k :: 0 <= k < |writes| ==> writes[k].WriteStatus?
    ensures var tail := [call, InsertAnalysis(record)] + writes;
      && StatusWrites(tail) == StatusWrites(writes)
      && (forall k :: 0 <= k < |tail| && tail[k].InsertAnalysis? ==> k == 1)
      && CallsCarry(tail, call.url, Some(call.request))
      && (forall k :: 0 <= k < |tail| ==> !tail[k].PostArticle?)
  {
    var tail := [call, InsertAnalysis(record)] + writes;
    assert tail[0] == call;
    assert tail[1..] == [InsertAnalysis(record)] + writes;
    assert tail[1..][1..] == writes;
    assert forall k :: 2 <= k < |tail| ==> tail[k] == writes[k - 2];
  }

  /** One more effect that is an article post: it is the only post and comes last. */
  lemma LastEffect(effects: seq<ProcessEffect>, post: ProcessEffect)
    requires forall k :: 0 <= k < |effects| ==> !effects[k].PostArticle?
    ensures forall k :: 0 <= k < |effects + [post]| && (effects + [post])[k].PostArticle? ==> k == |effects|
    ensures (effects + [post])[|effects|] == post
    ensures forall url, request :: CallsCarry(effects, url, request) && !post.CallAnalyze? ==> CallsCarry(effects + [post], url, request)
    ensures post.PostArticle? ==> PostsAre(effects + [post], Some(post))
    ensures forall k :: 0 <= k < |effects| ==> (effects + [post])[k] == effects[k]
  {
  }
}
