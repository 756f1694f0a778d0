/**
 * The endpoints of the AI service (ai-service/app/main.py): the service
 * registry filled at startup, the health report, `/analyze` (content
 * augmentation, retrieval, classification and response validation) and
 * `/add-article`. OCR, transcription, retrieval and the knowledge-base
 * insert are outcomes passed in.
 */
module AiMain {
  import opened Json
  import opened Text
  import opened Http
  import ClaimClassifier

  /** An awaited service call: its value, or the text of the exception it raised. */
  datatype Call<T> = Returned(value: T) | Raised(message: string)

  datatype ServiceName = Ocr | Transcription | Rag | Classifier

  /** The key a service is registered under. */
  function ServiceKey(s: ServiceName): string
  {
    match s
    case Ocr => "ocr"
    case Transcription => "transcription"
    case Rag => "rag"
    case Classifier => "classifier"
  }

  const AllServices: set<ServiceName> := {Ocr, Transcription, Rag, Classifier}

  /** The body of `/analyze`. */
  datatype AnalyzeRequest = AnalyzeRequest(claimId: string, content: string, contentType: string, fileUrl: Option<string>)

  /** A truthy `file_url`. */
  predicate HasFile(req: AnalyzeRequest)
  {
    req.fileUrl.Some? && req.fileUrl.value != ""
  }

  /** The extraction service `/analyze` consults before retrieval, if any. */
  function ExtractorFor(req: AnalyzeRequest): (r: Option<ServiceName>)
    ensures r == Some(Ocr) <==> req.contentType == "image" && HasFile(req)
    ensures r == Some(Transcription) <==> req.contentType == "video" && HasFile(req)
    ensures r.None? <==> !(req.contentType == "image" || req.contentType == "video") || !HasFile(req)
  {
    if req.contentType == "image" && HasFile(req) then Some(Ocr)
    else if req.contentType == "video" && HasFile(req) then Some(Transcription)
    else None
  }

  const ImageLabel := "\n\nExtracted text from image: "
  const VideoLabel := "\n\nTranscription from video: "

  /** The content retrieval and the classifier see, given the extracted text. */
  function AugmentedContent(req: AnalyzeRequest, extracted: string): (r: string)
    ensures ExtractorFor(req).None? ==> r == req.content
    ensures ExtractorFor(req).Some? ==> StartsWith(r, req.content) && |r| > |req.content|
  {
    match ExtractorFor(req)
    case Some(Ocr) => req.content + ImageLabel + extracted
    case Some(Transcription) => req.content + VideoLabel + extracted
    case _ => req.content
  }

  /** The extracted text is appended after the label of its kind. */
  lemma AugmentationLabels(req: AnalyzeRequest, extracted: string)
    ensures ExtractorFor(req) == Some(Ocr) ==> AugmentedContent(req, extracted)[|req.content|..] == ImageLabel + extracted
    ensures ExtractorFor(req) == Some(Transcription) ==> AugmentedContent(req, extracted)[|req.content|..] == VideoLabel + extracted
  {
  }

  // ---------------------------------------------------------------------
  // The response model
  // ---------------------------------------------------------------------

  datatype EvidenceItem = EvidenceItem(source: string, excerpt: string, credibilityScore: Option<real>, url: Option<string>)

  datatype AnalysisResponse = AnalysisResponse(
    verdict: string,
    confidenceScore: real,
    summary: string,
    evidence: seq<EvidenceItem>,
    sources: seq<map<string, Json>>,
    reasoning: string)

  /** A field the model declares without a default: a missing key is a validation error. */
  function Required(d: map<string, Json>, key: string): (r: Option<Json>)
    ensures r.Some? <==> key in d
    ensures r.Some? ==> r.value == d[key]
  {
    if key in d then Some(d[key]) else None
  }

  /** `EvidenceItem` from one list element; both optional fields are required keys. */
  function EvidenceOf(j: Json): (r: Option<EvidenceItem>)
    ensures r.Some? <==>
      && j.JObj?
      && "source" in j.fields && j.fields["source"].JStr?
      && "excerpt" in j.fields && j.fields["excerpt"].JStr?
      && "credibility_score" in j.fields && (j.fields["credibility_score"].JNum? || j.fields["credibility_score"].JNull?)
      && "url" in j.fields && (j.fields["url"].JStr? || j.fields["url"].JNull?)
    ensures r.Some? ==>
      && JStr(r.value.source) == j.fields["source"]
      && JStr(r.value.excerpt) == j.fields["excerpt"]
      && Some(r.value.credibilityScore) == AsOptFloat(j.fields["credibility_score"])
      && Some(r.value.url) == AsOptStr(j.fields["url"])
  {
    if !j.JObj? then None
    else
      var d := j.fields;
      var source :- Required(d, "source");
      var excerpt :- Required(d, "excerpt");
      var credibility :- Required(d, "credibility_score");
      var url :- Required(d, "url");
      var s :- AsStr(source);
      var e :- AsStr(excerpt);
      var c :- AsOptFloat(credibility);
      var u :- AsOptStr(url);
      Some(EvidenceItem(s, e, c, u))
  }

  /** `AnalysisResponse(**analysis_result)`; extra keys are ignored. */
  function ValidateAnalysisResponse(d: map<string, Json>): (r: Option<AnalysisResponse>)
    ensures r.Some? ==> "verdict" in d && d["verdict"] == JStr(r.value.verdict) && "confidence_score" in d && d["confidence_score"] == JNum(r.value.confidenceScore)
    ensures r.Some? ==> "summary" in d && d["summary"] == JStr(r.value.summary) && "reasoning" in d && d["reasoning"] == JStr(r.value.reasoning)
    ensures r.Some? ==> "evidence" in d && d["evidence"].JArr? && |r.value.evidence| == |d["evidence"].items|
    ensures r.Some? ==> "sources" in d && d["sources"].JArr? && |r.value.sources| == |d["sources"].items|
  {
    var verdict :- Required(d, "verdict");
    var confidence :- Required(d, "confidence_score");
    var summary :- Required(d, "summary");
    var evidence :- Required(d, "evidence");
    var sources :- Required(d, "sources");
    var reasoning :- Required(d, "reasoning");
    var v :- AsStr(verdict);
    var c :- AsFloat(confidence);
    var s :- AsStr(summary);
    var items :- AsList(evidence);
    var ev :- MapAll(items, EvidenceOf);
    var src :- AsObjectList(sources);
    var why :- AsStr(reasoning);
    Some(AnalysisResponse(v, c, s, ev, src, why))
  }

  /** An evidence dict of the classifier is a valid `EvidenceItem` exactly when the article's title is not stored as `None`. */
  lemma EvidenceDictValid(a: ClaimClassifier.Article)
    ensures EvidenceOf(JObj(ClaimClassifier.EvidenceDict(a))).Some? <==> !a.title.Null?
  {
    var d := ClaimClassifier.EvidenceDict(a);
    var source := ClaimClassifier.TextGet(a.title, "Unknown Source");
    var credibility := if a.similarity.Some? then a.similarity.value else 0.0;
    var url := ClaimClassifier.UrlJson(a);
    assert d["source"] == source;
    assert d["excerpt"] == JStr(ClaimClassifier.Excerpt(a));
    assert d["url"] == url;
    assert d["credibility_score"] == JNum(credibility);
    if !a.title.Null? {
      assert EvidenceOf(JObj(d)) == Some(EvidenceItem(source.s, ClaimClassifier.Excerpt(a), Some(credibility), AsOptStr(url).value));
    }
  }

  /** No title stored as `None` among the articles the evidence is built from (the first three). */
  predicate EvidenceTitlesSet(context: seq<ClaimClassifier.Article>)
  {
    forall k :: 0 <= k < |ClaimClassifier.First(context, ClaimClassifier.MaxEvidence)| ==> !context[k].title.Null?
  }

  /** The classifier's evidence list validates exactly when none of its first three titles is stored as `None`. */
  lemma ClassifierEvidenceValid(context: seq<ClaimClassifier.Article>)
    ensures MapAll(ClaimClassifier.Objs(ClaimClassifier.EvidenceList(context)), EvidenceOf).Some? <==> EvidenceTitlesSet(context)
  {
    var evidence := ClaimClassifier.EvidenceList(context);
    var items := ClaimClassifier.Objs(evidence);
    forall k | 0 <= k < |items|
      ensures EvidenceOf(items[k]).Some? <==> !context[k].title.Null?
    {
      EvidenceDictValid(context[k]);
    }
    MapAllAt(items, EvidenceOf);
  }

  /** The source dicts always form a list of dicts. */
  lemma ClassifierSourcesValid(context: seq<ClaimClassifier.Article>)
    ensures AsObjectList(JArr(ClaimClassifier.Objs(ClaimClassifier.PrepareSources(context)))).Some?
  {
  }

  /** A model reply whose four scalar fields have the types the response model demands. */
  predicate ScalarFieldsTyped(analysis: map<string, Json>)
  {
    "verdict" in analysis && analysis["verdict"].JStr? &&
    "confidence_score" in analysis && analysis["confidence_score"].JNum? &&
    "summary" in analysis && analysis["summary"].JStr? &&
    "reasoning" in analysis && analysis["reasoning"].JStr?
  }

  /**
   * A dict analysis with well-typed scalar fields always validates once the
   * classifier has attached its evidence and sources: then `/analyze`
   * answers with the reply's verdict, one source per context article and
   * the evidence of the first three.
   */
  lemma TypedAnalysisValid(analysis: map<string, Json>, context: seq<ClaimClassifier.Article>)
    requires ScalarFieldsTyped(analysis) && EvidenceTitlesSet(context)
    ensures var r := ValidateAnalysisResponse(ClaimClassifier.Combined(JObj(analysis),
      ClaimClassifier.EvidenceList(context), ClaimClassifier.PrepareSources(context)));
      r.Some? && JStr(r.value.verdict) == analysis["verdict"] && JNum(r.value.confidenceScore) == analysis["confidence_score"] &&
      |r.value.sources| == |context| && |r.value.evidence| == |ClaimClassifier.First(context, ClaimClassifier.MaxEvidence)|
  {
    var evidence := ClaimClassifier.Objs(ClaimClassifier.EvidenceList(context));
    var sources := ClaimClassifier.Objs(ClaimClassifier.PrepareSources(context));
    ClassifierEvidenceValid(context);
    ClassifierSourcesValid(context);
    AttachedValid(analysis, evidence, sources);
  }

  /**
   * A title stored as `None` among the first three context articles makes
   * the evidence invalid, so the response model rejects a dict analysis
   * once the classifier has attached it, and `/analyze` answers 500.
   */
  lemma NullEvidenceTitleRejected(analysis: map<string, Json>, context: seq<ClaimClassifier.Article>)
    requires !EvidenceTitlesSet(context)
    ensures ValidateAnalysisResponse(ClaimClassifier.Combined(JObj(analysis),
      ClaimClassifier.EvidenceList(context), ClaimClassifier.PrepareSources(context))).None?
  {
    ClassifierEvidenceValid(context);
    CombinedEvidenceMustValidate(analysis, ClaimClassifier.EvidenceList(context), ClaimClassifier.PrepareSources(context));
  }

  /** A dict analysis combined with evidence some item of which is not a valid EvidenceItem never validates. */
  lemma CombinedEvidenceMustValidate(analysis: map<string, Json>, evidence: seq<map<string, Json>>, sources: seq<map<string, Json>>)
    requires MapAll(ClaimClassifier.Objs(evidence), EvidenceOf).None?
    ensures ValidateAnalysisResponse(ClaimClassifier.Combined(JObj(analysis), evidence, sources)).None?
  {
    var d := ClaimClassifier.Combined(JObj(analysis), evidence, sources);
    assert d["evidence"] == JArr(ClaimClassifier.Objs(evidence));
    EvidenceMustValidate(d);
  }

  /** The response model validates every evidence element. */
  lemma EvidenceMustValidate(d: map<string, Json>)
    requires "evidence" in d && d["evidence"].JArr? && MapAll(d["evidence"].items, EvidenceOf).None?
    ensures ValidateAnalysisResponse(d).None?
  {
  }

  /** A well-typed analysis validates once a valid evidence list and a list of source dicts are attached. */
  lemma AttachedValid(analysis: map<string, Json>, evidence: seq<Json>, sources: seq<Json>)
    requires ScalarFieldsTyped(analysis)
    requires MapAll(evidence, EvidenceOf).Some? && AsObjectList(JArr(sources)).Some?
    ensures var r := ValidateAnalysisResponse(analysis["evidence" := JArr(evidence)]["sources" := JArr(sources)]);
      r.Some? && JStr(r.value.verdict) == analysis["verdict"] && JNum(r.value.confidenceScore) == analysis["confidence_score"] &&
      |r.value.evidence| == |evidence| && |r.value.sources| == |sources|
  {
    var d := analysis["evidence" := JArr(evidence)]["sources" := JArr(sources)];
    assert d["verdict"] == analysis["verdict"] && d["confidence_score"] == analysis["confidence_score"];
    assert d["summary"] == analysis["summary"] && d["reasoning"] == analysis["reasoning"];
    assert d["evidence"] == JArr(evidence) && d["sources"] == JArr(sources);
    assert ValidateAnalysisResponse(d) == Some(AnalysisResponse(
      analysis["verdict"].s, analysis["confidence_score"].n, analysis["summary"].s,
      MapAll(evidence, EvidenceOf).value, AsObjectList(JArr(sources)).value, analysis["reasoning"].s));
  }

  /**
   * Whether the classifier's result validates: a well-typed dict analysis
   * does when no evidence title is stored as `None`, and no dict analysis
   * does otherwise; anything else becomes the fallback, which always does.
   */
  lemma ClassifierOutcome(retrieved: seq<ClaimClassifier.Article>, web: seq<ClaimClassifier.Article>, keyPresent: bool,
                          outcome: ClaimClassifier.LlmOutcome, fenced: string -> Option<string>, decode: Decoder)
    ensures var r := ValidateAnalysisResponse(ClaimClassifier.ClassifierResult(retrieved, web, keyPresent, outcome, fenced, decode));
      var analysis := ClaimClassifier.LlmAnalysis(keyPresent, outcome, fenced, decode);
      var titlesSet := EvidenceTitlesSet(ClaimClassifier.MergedContext(retrieved, web));
      && (analysis.JObj? && ScalarFieldsTyped(analysis.fields) && titlesSet ==> r.Some? && JStr(r.value.verdict) == analysis.fields["verdict"])
      && (analysis.JObj? && !titlesSet ==> r.None?)
      && (!analysis.JObj? ==> r.Some? && r.value.confidenceScore == 0.1 && r.value.evidence == [] && r.value.sources == [])
      && (!keyPresent && titlesSet ==> r.Some? && r.value.verdict == "uncertain" && r.value.confidenceScore == 0.55)
  {
    var context := ClaimClassifier.MergedContext(retrieved, web);
    var analysis := ClaimClassifier.LlmAnalysis(keyPresent, outcome, fenced, decode);
    assert ClaimClassifier.ClassifierResult(retrieved, web, keyPresent, outcome, fenced, decode) ==
      ClaimClassifier.Combined(analysis, ClaimClassifier.EvidenceList(context), ClaimClassifier.PrepareSources(context));
    FixedAnalysesTyped();
    if !analysis.JObj? {
      FallbackValid();
    } else if !EvidenceTitlesSet(context) {
      NullEvidenceTitleRejected(analysis.fields, context);
    } else if ScalarFieldsTyped(analysis.fields) {
      TypedAnalysisValid(analysis.fields, context);
    }
  }

  /** The simulated and the unreadable-reply analyses are well typed. */
  lemma FixedAnalysesTyped()
    ensures ScalarFieldsTyped(ClaimClassifier.SimulatedAnalysis)
    ensures ScalarFieldsTyped(ClaimClassifier.InvalidFormatAnalysis)
  {
  }

  /** The fallback analysis validates, with confidence 0.1 and no evidence or sources. */
  lemma FallbackValid()
    ensures var r := ValidateAnalysisResponse(ClaimClassifier.FallbackAnalysis);
      r.Some? && r.value.verdict == "uncertain" && r.value.confidenceScore == 0.1 &&
      r.value.evidence == [] && r.value.sources == []
  {
    assert MapAll([], EvidenceOf) == Some([]);
  }

  // ---------------------------------------------------------------------
  // The application
  // ---------------------------------------------------------------------

  const AnalysisFailed := "Analysis failed: "
  const AddFailed := "Add article failed: "
  const NotAdded := "Failed to add article to knowledge base."

  /** `str(KeyError(key))`: the key in single quotes. */
  function KeyErrorText(key: string): string
  {
    "'" + key + "'"
  }

  /** The body of `/add-article`, with its two defaults applied. */
  datatype AddArticleRequest = AddArticleRequest(title: string, content: string, sourceUrl: Option<string>, sourceType: string, verified: bool)

  /** `AddArticleRequest` from a JSON body: `source_type` defaults to "fact-check", `verified` to true. */
  function AddArticleRequestOf(body: map<string, Json>): (r: Option<AddArticleRequest>)
    ensures "source_type" !in body && r.Some? ==> r.value.sourceType == "fact-check"
    ensures "verified" !in body && r.Some? ==> r.value.verified
    ensures r.Some? ==> "title" in body && JStr(r.value.title) == body["title"]
    ensures r.Some? ==> "content" in body && JStr(r.value.content) == body["content"]
    ensures r.Some? <==> (Get(body, "title").JStr? && Get(body, "content").JStr? && AsOptStr(Get(body, "source_url")).Some? &&
      AsStr(GetOr(body, "source_type", JStr("fact-check"))).Some? && AsBool(GetOr(body, "verified", JBool(true))).Some?)
  {
    var title :- Required(body, "title");
    var content :- Required(body, "content");
    var t :- AsStr(title);
    var c :- AsStr(content);
    var u :- AsOptStr(Get(body, "source_url"));
    var st :- AsStr(GetOr(body, "source_type", JStr("fact-check")));
    var v :- AsBool(GetOr(body, "verified", JBool(true)));
    Some(AddArticleRequest(t, c, u, st, v))
  }

  /** The AI service process: which heavy services have been registered. */
  class AiService {
    var services: set<ServiceName>

    /** Before startup no service is registered. */
    constructor()
      ensures services == {}
    {
      services := {};
    }

    /** The startup hook registers all four services. */
    method Startup()
      modifies this
      ensures services == old(services) + AllServices
    {
      services := services + {Ocr};
      services := services + {Transcription};
      services := services + {Rag};
      services := services + {Classifier};
    }

    /** `/health`: every service is reported, "loaded" exactly when registered. */
    function Health(): (r: map<string, Json>)
      reads this
      ensures "status" in r && r["status"] == JStr("healthy")
      ensures "services" in r && r["services"].JObj?
      ensures r["services"].fields.Keys == {"ocr", "transcription", "rag", "classifier"}
      ensures forall s: ServiceName :: ServiceKey(s) in r["services"].fields
      ensures forall s: ServiceName :: r["services"].fields[ServiceKey(s)] == JStr("loaded") <==> s in services
      ensures forall s: ServiceName :: r["services"].fields[ServiceKey(s)] == JStr("unavailable") <==> s !in services
    {
      var registered := services;
      var report := (s: ServiceName) => JStr(if s in registered then "loaded" else "unavailable");
      var fields := map["ocr" := report(Ocr), "transcription" := report(Transcription),
                         "rag" := report(Rag), "classifier" := report(Classifier)];
      map["status" := JStr("healthy"), "services" := JObj(fields)]
    }

    /**
     * `/analyze`. A service looked up before startup raises `KeyError`;
     * that and any exception of OCR, transcription or retrieval become
     * 500 "Analysis failed: …", as does a classifier result that does not
     * validate (`invalid` is the validation error's text).
     */
    method Analyze(req: AnalyzeRequest, extraction: Call<string>, retrieval: Call<seq<ClaimClassifier.Article>>,
                   web: seq<ClaimClassifier.Article>, keyPresent: bool, outcome: ClaimClassifier.LlmOutcome,
                   fenced: string -> Option<string>, decode: Decoder, fmt: real -> string, invalid: string)
      returns (content: string, r: Response<AnalysisResponse>)
      ensures r.Fail? ==> r.error.status == InternalServerError && StartsWith(r.error.detail, AnalysisFailed)
      ensures ExtractorFor(req).Some? && ExtractorFor(req).value !in services ==>
        r == Fail(HttpError(InternalServerError, AnalysisFailed + KeyErrorText(ServiceKey(ExtractorFor(req).value))))
      ensures ExtractorFor(req).Some? && extraction.Raised? ==> r.Fail?
      ensures ExtractorFor(req).None? ==> content == req.content
      ensures ExtractorFor(req).Some? && extraction.Returned? && ExtractorFor(req).value in services ==>
        content == AugmentedContent(req, extraction.value)
      ensures Rag !in services ==> r.Fail?
      ensures r.Ok? ==> retrieval.Returned? && Classifier in services
      ensures r.Ok? ==> Some(r.value) == ValidateAnalysisResponse(ClaimClassifier.ClassifierResult(retrieval.value, web, keyPresent, outcome, fenced, decode))
      ensures services == AllServices && (ExtractorFor(req).None? || extraction.Returned?) && retrieval.Returned? ==>
        var analysis := ClaimClassifier.LlmAnalysis(keyPresent, outcome, fenced, decode);
        var titlesSet := EvidenceTitlesSet(ClaimClassifier.MergedContext(retrieval.value, web));
        && (analysis.JObj? && ScalarFieldsTyped(analysis.fields) && titlesSet ==> r.Ok? && JStr(r.value.verdict) == analysis.fields["verdict"])
        && (analysis.JObj? && !titlesSet ==> r == Fail(HttpError(InternalServerError, AnalysisFailed + invalid)))
        && (!analysis.JObj? ==> r.Ok? && r.value.confidenceScore == 0.1 && r.value.evidence == [] && r.value.sources == [])
      ensures services == AllServices && (ExtractorFor(req).None? || extraction.Returned?) && retrieval.Returned? && !keyPresent ==>
        (EvidenceTitlesSet(ClaimClassifier.MergedContext(retrieval.value, web)) ==>
          r.Ok? && r.value.verdict == "uncertain" && r.value.confidenceScore == 0.55)
    {
      content := req.content;
      var extractor := ExtractorFor(req);
      if extractor.Some? {
        if extractor.value !in services {
          return content, Fail(HttpError(InternalServerError, AnalysisFailed + KeyErrorText(ServiceKey(extractor.value))));
        }
        if extraction.Raised? {
          return content, Fail(HttpError(InternalServerError, AnalysisFailed + extraction.message));
        }
        content := AugmentedContent(req, extraction.value);
      }
      if Rag !in services {
        return content, Fail(HttpError(InternalServerError, AnalysisFailed + KeyErrorText("rag")));
      }
      if retrieval.Raised? {
        return content, Fail(HttpError(InternalServerError, AnalysisFailed + retrieval.message));
      }
      if Classifier !in services {
        return content, Fail(HttpError(InternalServerError, AnalysisFailed + KeyErrorText("classifier")));
      }
      var context, contextText, result := ClaimClassifier.AnalyzeClaim(retrieval.value, web, keyPresent, outcome, fenced, decode, fmt);
      ClassifierOutcome(retrieval.value, web, keyPresent, outcome, fenced, decode);
      var response := ValidateAnalysisResponse(result);
      if response.None? {
        r := Fail(HttpError(InternalServerError, AnalysisFailed + invalid));
      } else {
        r := Ok(response.value);
      }
    }
  }

  /** What the knowledge-base insert did: returned a truth value, or raised. */
  datatype AddOutcome = Added(success: bool) | AddRaised(message: string)

  /**
   * `/add-article`. A false result raises the 500 "not added" error, which
   * the endpoint re-raises unchanged; any other exception (a missing
   * retrieval service among them) is wrapped as "Add article failed: …".
   */
  function AddArticle(ragRegistered: bool, outcome: AddOutcome): (r: Response<map<string, Json>>)
    ensures r.Fail? ==> r.error.status == InternalServerError
    ensures r.Ok? <==> ragRegistered && outcome == Added(true)
    ensures ragRegistered && outcome == Added(false) ==> r.error.detail == NotAdded
    ensures ragRegistered && outcome.AddRaised? ==> r.error.detail == AddFailed + outcome.message
    ensures !ragRegistered ==> r.error.detail == AddFailed + KeyErrorText("rag")
    ensures r.Ok? ==> "status" in r.value && r.value["status"] == JStr("success")
  {
    if !ragRegistered then Fail(HttpError(InternalServerError, AddFailed + KeyErrorText("rag")))
    else match outcome
      case AddRaised(message) => Fail(HttpError(InternalServerError, AddFailed + message))
      case Added(success) =>
        if success then Ok(map["status" := JStr("success"), "message" := JStr("Article added to knowledge base.")])
        else Fail(HttpError(InternalServerError, NotAdded))
  }

  /**
   * Of all the failures, exactly the false insert result keeps its own
   * message: every other error is wrapped as an "Add article failed" error.
   */
  lemma NotAddedNotWrapped(ragRegistered: bool, outcome: AddOutcome)
    requires AddArticle(ragRegistered, outcome).Fail?
    ensures StartsWith(AddArticle(ragRegistered, outcome).error.detail, AddFailed) <==> !(ragRegistered && outcome == Added(false))
  {
    var detail := AddArticle(ragRegistered, outcome).error.detail;
    if ragRegistered && outcome == Added(false) {
      assert detail[0] == 'F' && AddFailed[0] == 'A';
    } else {
      var rest := if ragRegistered then outcome.message else KeyErrorText("rag");
      assert detail == AddFailed + rest;
      assert detail[..|AddFailed|] == AddFailed;
    }
  }
}
