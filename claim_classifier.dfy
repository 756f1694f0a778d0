/**
 * The claim classifier of the AI service: the weak-context test that
 * decides on a live web search, the numbered context text handed to the
 * language model, the evidence and source lists built from the context
 * articles, the parsing of the model's reply and the fixed analyses used
 * when the model is unavailable or the pipeline fails.
 *
 * The HTTP calls (web search, scraping, the chat-completion request) are
 * inputs: the scraped pages arrive as `web`, the model's reply as an
 * `LlmOutcome`. `json.loads`, the fenced-block regular expression and the
 * `:.3f` rendering of a similarity are function parameters.
 */
module ClaimClassifier {
  import opened Json
  import opened Text
  import Schemas
  import Claims

  /** A key of an article dict: missing, stored as `None`, or stored with a value. */
  datatype Field<T> = Absent | Null | Present(value: T)

  /**
   * A context article as the knowledge-base search or the scraper returns it.
   * `dict.get(key, default)` returns the default only for a missing key, so
   * for the fields read that way a stored `None` is kept apart from a
   * missing key. A missing and a `None` `source_url` read the same.
   */
  datatype Article = Article(
    title: Field<string>,
    content: Option<string>,
    similarity: Option<real>,
    sourceUrl: Option<string>,
    sourceType: Field<string>,
    verified: Field<bool>)

  /** Python `xs[:n]`. */
  function First<T>(xs: seq<T>, n: nat): (r: seq<T>)
    ensures |r| == if |xs| <= n then |xs| else n
    ensures r == xs[..|r|]
  {
    if |xs| <= n then xs else xs[..n]
  }

  /** `article.get('similarity', 0)`. */
  function SimilarityOf(a: Article): real
  {
    if a.similarity.Some? then a.similarity.value else 0.0
  }

  /** `article.get('content', '')`. */
  function ContentOf(a: Article): string
  {
    if a.content.Some? then a.content.value else ""
  }

  /** `article.get(key, default)` for a text field: the stored text (even "") or `None`; the default only for a missing key. */
  function TextGet(f: Field<string>, default: string): (r: Json)
    ensures r.JNull? <==> f.Null?
    ensures f.Present? ==> r == JStr(f.value)
    ensures f.Absent? ==> r == JStr(default)
  {
    match f
    case Absent => JStr(default)
    case Null => JNull
    case Present(s) => JStr(s)
  }

  /** `article.get('verified', False)`. */
  function VerifiedGet(f: Field<bool>): (r: Json)
    ensures r == JBool(true) <==> f == Present(true)
    ensures r.JNull? <==> f.Null?
  {
    match f
    case Absent => JBool(false)
    case Null => JNull
    case Present(b) => JBool(b)
  }

  /** `{article.get('title', 'N/A')}` in an f-string, where `None` renders as "None". */
  function TitleText(a: Article): string
  {
    match a.title
    case Absent => "N/A"
    case Null => "None"
    case Present(s) => s
  }

  // ---------------------------------------------------------------------
  // The weak-context test
  // ---------------------------------------------------------------------

  function SimilaritySum(ctx: seq<Article>): real
  {
    if ctx == [] then 0.0 else SimilaritySum(ctx[..|ctx| - 1]) + SimilarityOf(ctx[|ctx| - 1])
  }

  /** Fewer than two articles, or an average similarity (a missing one counting 0) below 0.75. */
  predicate IsContextWeak(ctx: seq<Article>)
  {
    |ctx| < 2 || SimilaritySum(ctx) / (|ctx| as real) < 0.75
  }

  lemma {:induction false} SimilaritySumAtLeast(ctx: seq<Article>, bound: real)
    requires forall k :: 0 <= k < |ctx| ==> SimilarityOf(ctx[k]) >= bound
    ensures SimilaritySum(ctx) >= bound * (|ctx| as real)
  {
    if ctx != [] {
      SimilaritySumAtLeast(ctx[..|ctx| - 1], bound);
    }
  }

  lemma {:induction false} SimilaritySumBelow(ctx: seq<Article>, bound: real)
    requires ctx != []
    requires forall k :: 0 <= k < |ctx| ==> SimilarityOf(ctx[k]) < bound
    ensures SimilaritySum(ctx) < bound * (|ctx| as real)
  {
    if |ctx| > 1 {
      SimilaritySumBelow(ctx[..|ctx| - 1], bound);
    }
  }

  /** Two or more articles that each reach similarity 0.75 make a strong context: no web search. */
  lemma StrongArticlesNotWeak(ctx: seq<Article>)
    requires |ctx| >= 2
    requires forall k :: 0 <= k < |ctx| ==> SimilarityOf(ctx[k]) >= 0.75
    ensures !IsContextWeak(ctx)
  {
    SimilaritySumAtLeast(ctx, 0.75);
  }

  /** Articles that all fall below 0.75 (or carry no similarity) always make a weak context. */
  lemma WeakArticlesWeak(ctx: seq<Article>)
    requires forall k :: 0 <= k < |ctx| ==> SimilarityOf(ctx[k]) < 0.75
    ensures IsContextWeak(ctx)
  {
    if |ctx| >= 2 {
      SimilaritySumBelow(ctx, 0.75);
    }
  }

  /** The internal context, followed by the scraped pages only when it is weak. */
  function MergedContext(retrieved: seq<Article>, web: seq<Article>): (r: seq<Article>)
    ensures |r| >= |retrieved| && r[..|retrieved|] == retrieved
    ensures IsContextWeak(retrieved) ==> r == retrieved + web
    ensures !IsContextWeak(retrieved) ==> r == retrieved
  {
    if IsContextWeak(retrieved) then retrieved + web else retrieved
  }

  // ---------------------------------------------------------------------
  // The context text handed to the language model
  // ---------------------------------------------------------------------

  const NoContext := "No relevant context was found."
  const EntrySeparator := "\n---\n"
  const MaxContextArticles := 5
  const SnippetLength := 500

  /** The opening of the entry numbered `i`, up to the rendered similarity. */
  function EntryHeader(i: nat): string
  {
    "Source " + NatToString(i) + " (Similarity: "
  }

  /** The entry of the article numbered `i`; `fmt` renders the similarity with three decimals. */
  function ContextEntry(i: nat, a: Article, fmt: real -> string): string
  {
    EntryHeader(i) + (fmt(SimilarityOf(a)) + "):\n"
      + "Title: " + TitleText(a) + "\n"
      + "Content Snippet: " + Take(ContentOf(a), SnippetLength) + "...\n")
  }

  /** The entries of `xs`, numbered from 1. */
  function ContextEntries(xs: seq<Article>, fmt: real -> string): (r: seq<string>)
    ensures |r| == |xs|
  {
    seq(|xs|, k requires 0 <= k < |xs| => ContextEntry(k + 1, xs[k], fmt))
  }

  /** The prompt's context: the fixed message, or the first five entries joined by a separator line. */
  function ContextText(articles: seq<Article>, fmt: real -> string): string
  {
    if articles == [] then NoContext
    else Join(ContextEntries(First(articles, MaxContextArticles), fmt), EntrySeparator)
  }

  /** The loop of `_prepare_context`. */
  method PrepareContext(articles: seq<Article>, fmt: real -> string) returns (text: string)
    ensures text == ContextText(articles, fmt)
  {
    if articles == [] {
      return NoContext;
    }
    var first := First(articles, MaxContextArticles);
    var parts: seq<string> := [];
    var i := 0;
    while i < |first|
      invariant 0 <= i <= |first|
      invariant |parts| == i
      invariant forall k :: 0 <= k < i ==> parts[k] == ContextEntry(k + 1, first[k], fmt)
    {
      parts := parts + [ContextEntry(i + 1, first[i], fmt)];
      i := i + 1;
    }
    assert parts == ContextEntries(first, fmt);
    text := Join(parts, EntrySeparator);
  }

  lemma {:induction false} JoinStartsWithFirst(parts: seq<string>, sep: string)
    requires parts != []
    ensures StartsWith(Join(parts, sep), parts[0])
  {
    if |parts| > 1 {
      var j := Join(parts, sep);
      assert j == parts[0] + (sep + Join(parts[1..], sep));
      assert j[..|parts[0]|] == parts[0];
    }
  }

  lemma StartsWithTrans(s: string, t: string, u: string)
    requires StartsWith(s, t) && StartsWith(t, u)
    ensures StartsWith(s, u)
  {
    assert s[..|u|] == s[..|t|][..|u|];
  }

  /** Every entry numbered 1 opens with the same header. */
  lemma FirstEntryHeader(a: Article, fmt: real -> string)
    ensures StartsWith(ContextEntry(1, a, fmt), "Source 1 (Similarity: ")
  {
    assert NatToString(1) == "1";
    assert EntryHeader(1) == "Source 1 (Similarity: ";
    var e := ContextEntry(1, a, fmt);
    assert e[..|EntryHeader(1)|] == EntryHeader(1);
  }

  /** The text starts with the first numbered entry exactly when there is context, and is the fixed message otherwise. */
  lemma ContextTextShape(articles: seq<Article>, fmt: real -> string)
    ensures articles == [] <==> ContextText(articles, fmt) == NoContext
    ensures articles != [] ==> StartsWith(ContextText(articles, fmt), "Source 1 (Similarity: ")
  {
    if articles != [] {
      var entries := ContextEntries(First(articles, MaxContextArticles), fmt);
      var text := ContextText(articles, fmt);
      JoinStartsWithFirst(entries, EntrySeparator);
      FirstEntryHeader(articles[0], fmt);
      StartsWithTrans(text, entries[0], "Source 1 (Similarity: ");
      assert text[0] == 'S';
    }
  }

  /** Articles after the fifth never reach the prompt. */
  lemma ContextIgnoresBeyondFive(articles: seq<Article>, fmt: real -> string)
    requires |articles| > MaxContextArticles
    ensures ContextText(articles, fmt) == ContextText(articles[..MaxContextArticles], fmt)
  {
    assert First(articles, MaxContextArticles) == First(articles[..MaxContextArticles], MaxContextArticles);
  }

  // ---------------------------------------------------------------------
  // Evidence and sources built from the context
  // ---------------------------------------------------------------------

  const MaxEvidence := 3
  const ExcerptLength := 250

  /** The excerpt: the first 250 characters of the content and an ellipsis. */
  function Excerpt(a: Article): (r: string)
    ensures 3 <= |r| <= ExcerptLength + 3
    ensures r[|r| - 3..] == "..."
    ensures r[..|r| - 3] == Take(ContentOf(a), ExcerptLength)
  {
    Take(ContentOf(a), ExcerptLength) + "..."
  }

  function UrlJson(a: Article): (r: Json)
    ensures r.JStr? || r.JNull?
  {
    if a.sourceUrl.Some? then JStr(a.sourceUrl.value) else JNull
  }

  /** One evidence dict of `_extract_evidence`. */
  function EvidenceDict(a: Article): map<string, Json>
  {
    map[
      "source" := TextGet(a.title, "Unknown Source"),
      "excerpt" := JStr(Excerpt(a)),
      "url" := UrlJson(a),
      "credibility_score" := JNum(if a.similarity.Some? then a.similarity.value else 0.0)]
  }

  /** The loop of `_extract_evidence`: the first three articles, in order. */
  method ExtractEvidence(articles: seq<Article>) returns (evidence: seq<map<string, Json>>)
    ensures |evidence| == if |articles| <= MaxEvidence then |articles| else MaxEvidence
    ensures forall k :: 0 <= k < |evidence| ==> evidence[k] == EvidenceDict(articles[k])
  {
    var first := First(articles, MaxEvidence);
    evidence := [];
    for i := 0 to |first|
      invariant |evidence| == i
      invariant forall k :: 0 <= k < i ==> evidence[k] == EvidenceDict(first[k])
    {
      evidence := evidence + [EvidenceDict(first[i])];
    }
  }

  /**
   * The backend's `EvidenceItem` accepts an evidence dict of the classifier
   * exactly when the article's title is not stored as `None`; it then keeps
   * the title (the default for a missing one), the excerpt, the similarity
   * and the article's URL.
   */
  lemma EvidenceAcceptedByBackend(a: Article)
    ensures var item := Claims.EvidenceFromDict(EvidenceDict(a));
      (item.Some? <==> !a.title.Null?) &&
      (item.Some? ==>
        && JStr(item.value.source) == TextGet(a.title, "Unknown Source")
        && item.value.excerpt == Excerpt(a)
        && item.value.credibilityScore == Some(SimilarityOf(a))
        && (item.value.url.Some? <==> a.sourceUrl.Some?))
  {
    var d := EvidenceDict(a);
    assert GetOr(d, "source", JStr("")) == TextGet(a.title, "Unknown Source");
    assert GetOr(d, "excerpt", JStr("")) == JStr(Excerpt(a));
    assert Get(d, "credibility_score") == JNum(SimilarityOf(a));
    assert Get(d, "url") == UrlJson(a);
  }

  /** One entry of `_prepare_sources`. */
  function SourceDict(a: Article): map<string, Json>
  {
    map[
      "title" := TextGet(a.title, "Unknown Source"),
      "url" := UrlJson(a),
      "type" := TextGet(a.sourceType, "generic"),
      "verified" := VerifiedGet(a.verified)]
  }

  /**
   * `_prepare_sources`: one entry per article, in order. Title and type are
   * read with `dict.get`: a stored value, even "" or `None`, is kept, and
   * the default only fills a missing key.
   */
  function PrepareSources(articles: seq<Article>): (r: seq<map<string, Json>>)
    ensures |r| == |articles|
    ensures forall k :: 0 <= k < |r| ==> r[k] == SourceDict(articles[k])
    ensures forall k :: 0 <= k < |r| ==> "title" in r[k] && r[k]["title"] == TextGet(articles[k].title, "Unknown Source")
    ensures forall k :: 0 <= k < |r| ==> "type" in r[k] && r[k]["type"] == TextGet(articles[k].sourceType, "generic")
    ensures forall k :: 0 <= k < |r| ==> "verified" in r[k] && (r[k]["verified"] == JBool(true) <==> articles[k].verified == Present(true))
  {
    if articles == [] then []
    else [SourceDict(articles[0])] + PrepareSources(articles[1..])
  }

  // ---------------------------------------------------------------------
  // The language model's reply and the fixed analyses
  // ---------------------------------------------------------------------

  function AnalysisDict(verdict: string, confidence: real, summary: string, reasoning: string): map<string, Json>
  {
    map["verdict" := JStr(verdict), "confidence_score" := JNum(confidence),
        "summary" := JStr(summary), "reasoning" := JStr(reasoning)]
  }

  /** `_simulate_llm_analysis`. */
  const SimulatedAnalysis := AnalysisDict("uncertain", 0.55,
    "This is a simulated analysis as the LLM API key is missing.",
    "This response was generated by the simulation as a fallback.")

  /** The reply `_parse_llm_response` gives for text that does not decode. */
  const InvalidFormatAnalysis := AnalysisDict("uncertain", 0.3,
    "AI analysis completed but the response format was invalid.",
    "Could not parse the structured response from the AI model.")

  /** `_get_fallback_analysis`. */
  const FallbackAnalysis := AnalysisDict("uncertain", 0.1,
    "An internal error occurred during analysis.",
    "The AI service was unable to complete the analysis due to a technical issue.")
    ["evidence" := JArr([])]["sources" := JArr([])]

  /**
   * `_parse_llm_response`. `fenced` is the regular-expression search for a
   * ```json block, giving its object text; when there is one it alone is
   * decoded, otherwise the whole reply is.
   */
  function ParseLlmResponse(text: string, fenced: string -> Option<string>, decode: Decoder): (r: Json)
    ensures fenced(text).Some? ==> r == (if decode(fenced(text).value).Some? then decode(fenced(text).value).value else JObj(InvalidFormatAnalysis))
    ensures fenced(text).None? ==> r == (if decode(text).Some? then decode(text).value else JObj(InvalidFormatAnalysis))
  {
    var candidate := if fenced(text).Some? then fenced(text).value else text;
    match decode(candidate)
    case Some(v) => v
    case None => JObj(InvalidFormatAnalysis)
  }

  /** A reply that is the encoding of an analysis, without a fenced block, is read back unchanged. */
  lemma ParseReadsBackEncoded(j: Json, fenced: string -> Option<string>, decode: Decoder, encode: Encoder)
    requires RoundTrips(decode, encode)
    requires fenced(encode(j)).None?
    ensures ParseLlmResponse(encode(j), fenced, decode) == j
  {
    assert decode(encode(j)) == Some(j);
  }

  /** A fenced block decides the result, whatever the text around it would decode to. */
  lemma FenceTakesPrecedence(text: string, fenced: string -> Option<string>, decode: Decoder, encode: Encoder, j: Json)
    requires RoundTrips(decode, encode)
    requires fenced(text) == Some(encode(j))
    ensures ParseLlmResponse(text, fenced, decode) == j
  {
    assert decode(encode(j)) == Some(j);
  }

  /** The chat-completion request: it raised (timeout, transport or HTTP error), or it returned a JSON body. */
  datatype LlmOutcome = LlmFailed | LlmReplied(body: Json)

  /** The text of `choices[0]`: `message.content`, else `text`; `None` when any step raises or the text is empty. */
  function ChoiceText(choice: map<string, Json>): (r: Option<string>)
    ensures r.Some? ==> r.value != ""
  {
    if "message" in choice && !choice["message"].JObj? then None
    else
      var fromMessage := if "message" in choice then Get(choice["message"].fields, "content") else JNull;
      var content := Or(Or(fromMessage, Get(choice, "text")), JStr(""));
      if content.JStr? && content.s != "" then Some(content.s) else None
  }

  /** The reply text of a response body, or `None` when the simulated analysis is used instead. */
  function ReplyText(body: Json): (r: Option<string>)
    ensures r.Some? ==> r.value != ""
    ensures r.Some? ==> body.JObj? && "choices" in body.fields && body.fields["choices"].JArr?
  {
    if !body.JObj? || "choices" !in body.fields then None
    else match body.fields["choices"]
      case JArr(items) => if items != [] && items[0].JObj? then ChoiceText(items[0].fields) else None
      case _ => None
  }

  /** `_call_llm_for_analysis`: the simulation without an API key or when the call or its reply fails. */
  function LlmAnalysis(keyPresent: bool, outcome: LlmOutcome, fenced: string -> Option<string>, decode: Decoder): (r: Json)
    ensures !keyPresent ==> r == JObj(SimulatedAnalysis)
    ensures outcome.LlmFailed? ==> r == JObj(SimulatedAnalysis)
    ensures keyPresent && outcome.LlmReplied? && ReplyText(outcome.body).Some? ==>
      r == ParseLlmResponse(ReplyText(outcome.body).value, fenced, decode)
    ensures outcome.LlmReplied? && ReplyText(outcome.body).None? ==> r == JObj(SimulatedAnalysis)
  {
    if !keyPresent then JObj(SimulatedAnalysis)
    else match outcome
      case LlmFailed => JObj(SimulatedAnalysis)
      case LlmReplied(body) =>
        match ReplyText(body)
        case None => JObj(SimulatedAnalysis)
        case Some(t) => ParseLlmResponse(t, fenced, decode)
  }

  /** A list of dicts as a JSON list. */
  function Objs(ds: seq<map<string, Json>>): (r: seq<Json>)
    ensures |r| == |ds|
    ensures forall k :: 0 <= k < |ds| ==> r[k] == JObj(ds[k])
  {
    if ds == [] then [] else [JObj(ds[0])] + Objs(ds[1..])
  }

  /** The evidence dicts of a context: its first three articles. */
  function EvidenceList(context: seq<Article>): (r: seq<map<string, Json>>)
    ensures |r| == |First(context, MaxEvidence)|
    ensures forall k :: 0 <= k < |r| ==> r[k] == EvidenceDict(context[k])
  {
    var first := First(context, MaxEvidence);
    seq(|first|, k requires 0 <= k < |first| => EvidenceDict(first[k]))
  }

  /** The analysis with evidence and sources set, or the fallback when the analysis is not a dict. */
  function Combined(analysis: Json, evidence: seq<map<string, Json>>, sources: seq<map<string, Json>>): (r: map<string, Json>)
    ensures !analysis.JObj? ==> r == FallbackAnalysis
    ensures analysis.JObj? ==> r == analysis.fields["evidence" := JArr(Objs(evidence))]["sources" := JArr(Objs(sources))]
  {
    if analysis.JObj? then analysis.fields["evidence" := JArr(Objs(evidence))]["sources" := JArr(Objs(sources))]
    else FallbackAnalysis
  }

  /** What `analyze_claim` returns, as a function of its inputs. */
  function ClassifierResult(retrieved: seq<Article>, web: seq<Article>, keyPresent: bool, outcome: LlmOutcome,
                            fenced: string -> Option<string>, decode: Decoder): map<string, Json>
  {
    var context := MergedContext(retrieved, web);
    Combined(LlmAnalysis(keyPresent, outcome, fenced, decode), EvidenceList(context), PrepareSources(context))
  }

  /**
   * `analyze_claim`: merges in the web context when the internal one is
   * weak, prepares the prompt context, asks the model, and attaches the
   * evidence and sources of the merged context. A non-dict analysis makes
   * the combination raise, which returns the fallback analysis.
   */
  method AnalyzeClaim(retrieved: seq<Article>, web: seq<Article>, keyPresent: bool, outcome: LlmOutcome,
                      fenced: string -> Option<string>, decode: Decoder, fmt: real -> string)
    returns (context: seq<Article>, contextText: string, result: map<string, Json>)
    ensures context == MergedContext(retrieved, web)
    ensures contextText == ContextText(context, fmt)
    ensures result == ClassifierResult(retrieved, web, keyPresent, outcome, fenced, decode)
  {
    context := retrieved;
    if IsContextWeak(retrieved) {
      context := retrieved + web;
    }
    contextText := PrepareContext(context, fmt);
    var analysis := LlmAnalysis(keyPresent, outcome, fenced, decode);
    var evidence := ExtractEvidence(context);
    var sources := PrepareSources(context);
    assert evidence == EvidenceList(context);
    result := Combined(analysis, evidence, sources);
  }

  /**
   * The result always carries evidence and source lists. Unless it is the
   * fallback, it keeps every other key of the analysis, lists one source
   * per context article and the evidence of the first three, in order.
   */
  lemma ClassifierResultShape(retrieved: seq<Article>, web: seq<Article>, keyPresent: bool, outcome: LlmOutcome,
                              fenced: string -> Option<string>, decode: Decoder)
    ensures var r := ClassifierResult(retrieved, web, keyPresent, outcome, fenced, decode);
      "evidence" in r && r["evidence"].JArr? && "sources" in r && r["sources"].JArr?
    ensures var r := ClassifierResult(retrieved, web, keyPresent, outcome, fenced, decode);
      !LlmAnalysis(keyPresent, outcome, fenced, decode).JObj? ==> r == FallbackAnalysis && r["evidence"] == JArr([]) && r["sources"] == JArr([])
  {
    var context := MergedContext(retrieved, web);
    CombinedShape(LlmAnalysis(keyPresent, outcome, fenced, decode), EvidenceList(context), PrepareSources(context));
  }

  /**
   * For a dict analysis the result keeps every other key of the analysis,
   * lists one source per context article and the evidence of the first
   * three, in order.
   */
  lemma ClassifierResultContents(retrieved: seq<Article>, web: seq<Article>, keyPresent: bool, outcome: LlmOutcome,
                                 fenced: string -> Option<string>, decode: Decoder)
    requires LlmAnalysis(keyPresent, outcome, fenced, decode).JObj?
    ensures var r := ClassifierResult(retrieved, web, keyPresent, outcome, fenced, decode);
      var analysis := LlmAnalysis(keyPresent, outcome, fenced, decode);
      var context := MergedContext(retrieved, web);
      && (forall key :: key in analysis.fields && key != "evidence" && key != "sources" ==> key in r && r[key] == analysis.fields[key])
      && "sources" in r && r["sources"].JArr? && |r["sources"].items| == |context|
      && (forall k :: 0 <= k < |context| ==> r["sources"].items[k] == JObj(SourceDict(context[k])))
      && "evidence" in r && r["evidence"].JArr? && |r["evidence"].items| == |First(context, MaxEvidence)|
      && (forall k :: 0 <= k < |r["evidence"].items| ==> r["evidence"].items[k] == JObj(EvidenceDict(context[k])))
  {
    var analysis := LlmAnalysis(keyPresent, outcome, fenced, decode);
    var context := MergedContext(retrieved, web);
    assert ClassifierResult(retrieved, web, keyPresent, outcome, fenced, decode) ==
      Combined(analysis, EvidenceList(context), PrepareSources(context));
    CombinedContents(analysis.fields, context);
  }

  /** The dict case of `Combined` over a context, entry by entry. */
  lemma CombinedContents(fields: map<string, Json>, context: seq<Article>)
    ensures var r := Combined(JObj(fields), EvidenceList(context), PrepareSources(context));
      && (forall key :: key in fields && key != "evidence" && key != "sources" ==> key in r && r[key] == fields[key])
      && "sources" in r && r["sources"].JArr? && |r["sources"].items| == |context|
      && (forall k :: 0 <= k < |context| ==> r["sources"].items[k] == JObj(SourceDict(context[k])))
      && "evidence" in r && r["evidence"].JArr? && |r["evidence"].items| == |First(context, MaxEvidence)|
      && (forall k :: 0 <= k < |r["evidence"].items| ==> r["evidence"].items[k] == JObj(EvidenceDict(context[k])))
  {
    CombinedShape(JObj(fields), EvidenceList(context), PrepareSources(context));
  }

  /** Attaching the lists keeps every other key of a dict analysis; anything else becomes the fallback. */
  lemma CombinedShape(analysis: Json, evidence: seq<map<string, Json>>, sources: seq<map<string, Json>>)
    ensures var r := Combined(analysis, evidence, sources);
      analysis.JObj? ==>
        && (forall key :: key in analysis.fields && key != "evidence" && key != "sources" ==> key in r && r[key] == analysis.fields[key])
        && "evidence" in r && r["evidence"] == JArr(Objs(evidence))
        && "sources" in r && r["sources"] == JArr(Objs(sources))
    ensures var r := Combined(analysis, evidence, sources);
      !analysis.JObj? ==> r == FallbackAnalysis && "evidence" in r && r["evidence"] == JArr([]) && "sources" in r && r["sources"] == JArr([])
  {
  }
}
