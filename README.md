# TruthGuard claim and analysis data, modelled in Dafny

TruthGuard is a fact-checking service. Users submit claims as text, a URL,
an image or a video. A background processor sends each claim to an AI
service, stores the returned analysis and moves the claim's status along
pending → processing → completed | failed. Readers then browse, search,
comment on and vote on claims.

This project models the part of TruthGuard that cleans up and reshapes claim
and analysis data, with the database and HTTP calls turned into inputs:

- the backend's pydantic records and enums (`schemas.dfy`);
- the claim router: token extraction, storage paths, analysis normalisation,
  search, status and up-only votes (`claims.dfy`);
- the browse router (`browse_claims.dfy`);
- the comment router (`comments.dfy`);
- the user router (`users.dfy`);
- the background processor (`claim_processor.dfy`);
- the AI service's classifier helpers (`claim_classifier.dfy`);
- the AI service's HTTP endpoints (`ai_main.dfy`);
- the browse page (`browse_page.dfy`);
- the featured-claims carousel (`featured_claims.dfy`);
- the submission bar (`search_bar.dfy`);
- the verdict badge (`verdict_badge.dfy`).

Shared pieces:

- `json.dfy` holds the loosely typed payload. `Json` has null, bool, number
  (as `real`), string, list and object, so each `isinstance` test is a
  pattern match.
- `json.dfy` also holds the Python dictionary helpers (`get`, truthiness,
  `or`), the shared "convert every element or fail" loop (`MapAll`) and the
  dictionary comprehension (`IndexBy`, where the last row wins).
- `http.dfy` holds the HTTP error and response type.
- `text.dfy` holds string helpers.

Treatment of library and external code:

- JSON text decoding and encoding (RFC 8259) are function parameters
  `Decoder` and `Encoder`. Some properties assume the round-trip predicate
  `RoundTrips`.
- The fenced-block regex of the LLM parser is a parameter too.
- Database, storage, HTTP and LLM results are outcome datatypes passed in.
- Operations that write return the sequence of writes they perform
  (`effects`), so the order of status writes can be stated.
- Components and services whose state the source mutates are classes:
  - `BrowsePage.BrowsePageState`
  - `FeaturedClaims.Carousel`
  - `SearchBar.Bar`
  - `AiMain.AiService`
- Loops that append to a list are methods with loop invariants, proved
  equal to a specification function. The functions' properties are proved
  as lemmas.

## Model

| member | source | states |
|---|---|---|
| Schemas.ParseContentType | backend/app/models/schemas.py:12-16 | exactly "text", "url", "image" and "video" are accepted, and parsing inverts the enum's value |
| Schemas.ParseStatus | backend/app/models/schemas.py:18-22 | exactly "pending", "processing", "completed" and "failed" are accepted, and parsing inverts the enum's value |
| Schemas.ParseVerdict | backend/app/models/schemas.py:24-28 | exactly "true", "false", "misleading" and "uncertain" are accepted, and parsing inverts the enum's value |
| Schemas.ParseVote | backend/app/models/schemas.py:30-32 | exactly "up" and "down" are accepted, and parsing inverts the enum's value |
| Schemas.StatusValueInjective | backend/app/models/schemas.py:18-22 | distinct statuses have distinct strings, and every status string parses back to its status |
| Schemas.AsContentType | backend/app/models/schemas.py:75 | a `ContentType` field accepts only a string that is one of the enum's values |
| Schemas.AsStatus | backend/app/models/schemas.py:78 | a `ClaimStatus` field accepts only a string that is one of the enum's values |
| Schemas.AsVerdict | backend/app/models/schemas.py:92 | a `Verdict` field accepts only a string that is one of the enum's values |
| Schemas.AsOptVote | backend/app/models/schemas.py:104 | an optional vote is `None` exactly for null and a vote exactly for its string |
| Schemas.ValidateClaimResponse | backend/app/models/schemas.py:71-81 | upvote_count defaults to 0 when the row lacks it; the id, content and status come from the row; a row without status, id or created_at is rejected |
| Schemas.ValidateEvidenceItem | backend/app/models/schemas.py:83-87 | accepted iff source and excerpt are strings, credibility is a number or null, and url is a string or null |
| Schemas.ValidateClaimAnalysis | backend/app/models/schemas.py:89-98 | evidence is kept, the verdict and confidence come from their fields, the sources are the dicts of the list one for one, and a missing id, claim_id or created_at is rejected |
| Schemas.ValidateClaimDetail | backend/app/models/schemas.py:100-104 | the claim and the optional analysis are carried over; user_vote defaults to None; the record is accepted exactly when comment_count is an integer and user_vote is absent or a valid vote type |
| Schemas.ValidateUserProfile | backend/app/models/schemas.py:59-69 | is_expert defaults to false and full_name to None; id and email come from the row; a row without created_at is rejected |
| Schemas.ValidateRecentClaimPreview | backend/app/models/schemas.py:133-137 | a preview validates exactly when the row is an object with text `id`, `content` and `created_at` and a known `status`, and it carries those four values |
| Schemas.ValidatePreviews | backend/app/models/schemas.py:145 | the list validates iff every element does, with one preview per element |
| Schemas.ValidateDashboardStats | backend/app/models/schemas.py:139-145 | recent_claims defaults to the empty list, and it is None exactly when the row holds null |
| Claims.BearerToken | backend/app/routers/claims.py:32-35 | a token exists only for a header that starts with the case-sensitive "Bearer "; it is the non-empty, space-free piece right after it |
| Claims.BearerTokenRecovered | backend/app/routers/claims.py:34-35 | "Bearer " followed by a space-free token, with anything after a space, yields exactly that token |
| Claims.AfterLastDot | backend/app/routers/claims.py:44 | the result is the dot-free suffix that follows the last '.' |
| Claims.FileExtension | backend/app/routers/claims.py:44 | a name without '.' gives "bin"; otherwise the name is its prefix, a '.', then the dot-free extension |
| Claims.StoragePath | backend/app/routers/claims.py:45 | the path is "<user_id>/<uuid>.<extension>" |
| Claims.SubmitClaim | backend/app/routers/claims.py:21-126 | no token gives 401 before any upload or insert; once the upload (if any) succeeds, the insert of the pending record with the caller's id, the form fields and the storage path comes right after it; after a successful insert the claim is scheduled exactly when the service settings are present and marked failed exactly when they are missing, as the last effect; an empty or failed insert gives 500; a validating row is the response |
| Claims.AnalysisSource | backend/app/routers/claims.py:153-164 | the analysis is a non-empty dict, or the first element of a non-empty list when that element is a non-empty dict; anything else means no analysis |
| Claims.DecodedField | backend/app/routers/claims.py:173-183 | null or an undecodable string gives []; a string that decodes to a list gives that list; other values pass unchanged |
| Claims.EvidenceDefaultsToEmpty | backend/app/routers/claims.py:173-196 | null or undecodable evidence gives no items, and evidence that is neither a list nor a string gives no items |
| Claims.EvidenceOfDictList | backend/app/routers/claims.py:185-196 | non-dict items are dropped and dict items are kept in order, with source and excerpt defaulting to "" |
| Claims.SourcesSpec | backend/app/routers/claims.py:198-219 | a list is kept as is, and a number, bool, dict or null becomes [] |
| Claims.ReasoningField | backend/app/routers/claims.py:220 | on the detail route a falsy ai_reasoning becomes "N/A"; on the search route only a missing key does |
| Claims.AnalysisOf | backend/app/routers/claims.py:212-226 | falsy verdict, confidence and summary become uncertain, 0.0 and "Analysis incomplete."; evidence and sources are the normalised lists; any construction failure gives no analysis |
| Claims.SearchRejectsNullReasoning | backend/app/routers/claims.py:337-350 | a stored null ai_reasoning drops the analysis in search results, while the detail view shows "N/A" |
| Claims.BuildClaimAnalysis | backend/app/routers/claims.py:164-226 | the loop that builds the analysis computes `AnalysisOf` |
| Claims.CommentCountField | backend/app/routers/claims.py:231-236 | the count is 0 unless the join is a non-empty list whose first element is a dict, and then it is that dict's count, defaulting to 0 |
| Claims.VoteField | backend/app/routers/claims.py:238-252 | there is no vote for an anonymous caller or a failed lookup; otherwise the vote is the row's vote_type |
| Claims.GetClaim | backend/app/routers/claims.py:129-266 | a failed fetch gives 500 and a missing row gives 404; the claim validates from the row; the analysis is `AnalysisOf` the joined analysis source, and none without one; user_vote is the caller's looked-up vote, and none for an anonymous caller; comment_count is the joined count |
| Claims.SearchQueryFor | backend/app/routers/claims.py:277-290 | offset = (page-1)*per_page, the inclusive range has per_page rows, the content filter is "%q%" only for a non-empty q, and rows are ordered by created_at descending |
| Claims.ConsecutivePagesAdjacent | backend/app/routers/claims.py:277-290 | page p+1 starts right after page p ends |
| Claims.SearchRowDetailOf | backend/app/routers/claims.py:298-364 | a row becomes a ClaimDetail whose claim validates from the row and whose user_vote is None |
| Claims.SearchClaims | backend/app/routers/claims.py:269-374 | the query is `SearchQueryFor`; a null count becomes 0; the result is one detail per row, in order; any failure gives the fixed 500 |
| Claims.SearchResponse | backend/app/routers/claims.py:292-374 | the per-row loop succeeds iff every row converts, and then gives the converted rows in order |
| Claims.SearchResultRows | backend/app/routers/claims.py:297-364 | a successful search has one detail per row, each the conversion of the row at the same index |
| Claims.SearchRowDetail | backend/app/routers/claims.py:298-364 | the per-row body computes `SearchRowDetailOf` |
| Claims.GetClaimStatus | backend/app/routers/claims.py:377-392 | a missing row gives 404, an existing row gives its status, and every other failure gives 500 "Failed to fetch claim status" |
| Claims.VoteOnClaim | backend/app/routers/claims.py:394-424 | a non-up vote gives 400 before any write; an up vote is upserted and then recounted, and a failed recount still returns success |
| BrowseClaims.OrderColumn | backend/app/routers/browse_claims.py:77-82 | comment_count iff "popular", upvote_count iff "relevant", created_at otherwise |
| BrowseClaims.BrowseQueryFor | backend/app/routers/browse_claims.py:77-84 | the order column is `OrderColumn(sort)`, and the inclusive range [skip, skip+limit-1] holds limit rows |
| BrowseClaims.NextPageAdjacent | backend/app/routers/browse_claims.py:84 | the page at skip+limit starts right after the page at skip |
| BrowseClaims.UserPreviewOf | backend/app/routers/browse_claims.py:101-108 | a user preview exists exactly when the user payload is a dict |
| BrowseClaims.CommentOutOf | backend/app/routers/browse_claims.py:110-121 | a missing id, upvotes, downvotes or expert flag defaults to "", 0, 0 or false, and there is a user exactly for a dict payload |
| BrowseClaims.CommentRows | backend/app/routers/browse_claims.py:93-95 | non-list comments become [] |
| BrowseClaims.ListField | backend/app/routers/browse_claims.py:143-168 | a list is kept; a string is decoded, or gives [] when decoding fails; any other value gives [] |
| BrowseClaims.AnalysisOutOf | backend/app/routers/browse_claims.py:170-183 | an analysis is built exactly when id, verdict, summary, ai_reasoning and created_at are text or null, confidence_score is a number or null, and both normalised lists are lists; every field then carries the row's value |
| BrowseClaims.AnalysisOfRow | backend/app/routers/browse_claims.py:125-140 | the analysis comes from a dict, or from a list whose first element is a dict; otherwise there is none |
| BrowseClaims.ClaimOutOf | backend/app/routers/browse_claims.py:185-197 | a claim is built exactly when the row is an object, every dict comment converts, and the seven claim fields, with missing ones defaulted to "", "text" or 0, have their declared kinds; the fields carry those values, comments are the dict rows converted in order and the analysis is `AnalysisOfRow` |
| BrowseClaims.CommentsKeepDictsInOrder | backend/app/routers/browse_claims.py:94-121 | when every dict comment converts, there is one CommentOut per dict entry |
| BrowseClaims.ObjectsMembers | backend/app/routers/browse_claims.py:96-99 | every kept comment was a dict entry of the rows |
| BrowseClaims.NoCommentListNoComments | backend/app/routers/browse_claims.py:93-95 | a claim whose comments are not a list has no comments |
| BrowseClaims.UndecodableEvidenceIsEmpty | backend/app/routers/browse_claims.py:145-150 | undecodable evidence text gives empty evidence |
| BrowseClaims.DecodedNonListDropsAnalysis | backend/app/routers/browse_claims.py:170-183 | evidence text that decodes to a non-list makes construction fail, so there is no analysis |
| BrowseClaims.BuildClaimOut | backend/app/routers/browse_claims.py:90-197 | the per-row loops compute `ClaimOutOf` |
| BrowseClaims.Browse | backend/app/routers/browse_claims.py:62-206 | parameters outside skip ≥ 0 and 1 ≤ limit ≤ 100 give 422 with no query; otherwise the query is `BrowseQueryFor`, a query error gives 500 "Database query failed", an exception gives 500 with its message, and rows give one ClaimOut each |
| BrowseClaims.BrowseResponse | backend/app/routers/browse_claims.py:84-206 | the row loop and the error answers of `Browse` |
| BrowseClaims.BrowsePageRows | backend/app/routers/browse_claims.py:90-197 | a page has one ClaimOut per row, in order, each the conversion of the row at the same index |
| BrowsePage.ChosenUnit | frontend/app/browse/page.tsx:13-22 | the chosen unit is the largest one that the elapsed seconds strictly exceed; there is none exactly for 60 seconds or less |
| BrowsePage.FormatTimeAgo | frontend/app/browse/page.tsx:7-27 | "unknown" for a missing date, "invalid date" for an unparsable one, the chosen unit's phrase, or else the seconds clamped to 0 or more |
| BrowsePage.ChosenCountInRange | frontend/app/browse/page.tsx:13-22 | the floored count for the chosen unit is at least 1 |
| BrowsePage.SingularExactlyBelowTwo | frontend/app/browse/page.tsx:14-22 | the unit is singular exactly when the floored count is 1 |
| BrowsePage.WithoutFailed | frontend/app/browse/page.tsx:56 | a claim is kept iff its status is not "failed" |
| BrowsePage.WithoutFailedKeepsOthers | frontend/app/browse/page.tsx:56 | a list with no failed claim is unchanged |
| BrowsePage.InsertDescPermutes | frontend/app/browse/page.tsx:59-77 | inserting into the sorted list adds exactly that element |
| BrowsePage.InsertDescSorted | frontend/app/browse/page.tsx:59-77 | inserting keeps the list sorted by non-increasing key |
| BrowsePage.SortDescPermutes | frontend/app/browse/page.tsx:59-77 | sorting returns a permutation of its input |
| BrowsePage.SortDescSorted | frontend/app/browse/page.tsx:59-77 | sorting returns non-increasing keys |
| BrowsePage.InsertDescWithKey | frontend/app/browse/page.tsx:59-77 | an inserted element goes ahead of every element with the same key, and their order is kept |
| BrowsePage.SortDescStable | frontend/app/browse/page.tsx:59-77 | the sort is stable, as `Array.prototype.sort` is: elements with equal keys keep their input order |
| BrowsePage.ArrangeSpec | frontend/app/browse/page.tsx:56-77 | the shown list is a permutation of the non-failed claims, in non-increasing order of the chosen key: created_at, comments plus upvotes, or confidence×100 + 2×upvotes + comments with a missing confidence as 0; claims with equal keys keep the server's order |
| BrowsePage.ErrorMessage | frontend/app/browse/page.tsx:44-50 | a non-OK response shows its detail, or "Error <status>" when the detail is empty; a thrown error without a message shows "Failed to fetch claims" |
| BrowsePage.BrowsePageState.constructor | frontend/app/browse/page.tsx:32-35 | the page starts with no claims, loading, no error and sort "newest" |
| BrowsePage.BrowsePageState.SetSort | frontend/app/browse/page.tsx:93 | a sort button changes only the sort |
| BrowsePage.BrowsePageState.FetchClaims | frontend/app/browse/page.tsx:37-85 | the URL carries the sort; success shows `Arrange` of the data and clears the error; failure keeps the claims and sets the error message; loading ends |
| BrowsePage.InlineBadgeGradient | frontend/app/browse/page.tsx:212-218 | true, false and misleading have their own colours, and any other or missing verdict uses the uncertain colours |
| BrowsePage.InlineBadgeText | frontend/app/browse/page.tsx:219 | the text is the verdict with a capital first letter, or "Pending" for a missing or empty verdict |
| BrowsePage.RoundHalfUp | frontend/app/browse/page.tsx:220 | the result is the integer nearest to x, with halves rounded up |
| BrowsePage.InlineConfidenceText | frontend/app/browse/page.tsx:220 | confidence is shown iff it is present and non-zero, as " (N%)" |
| BrowsePage.InlineBadgeClasses | frontend/app/browse/page.tsx:221-222 | "sm" selects the small padding and text classes, and every other size the medium ones |
| ClaimProcessor.SerializeList | backend/app/services/claim_processor.py:119-131 | a list is JSON-encoded, a string passes through unchanged, and anything else becomes "[]" |
| ClaimProcessor.StoredListReadBack | backend/app/services/claim_processor.py:123-131 | a stored list reads back as the same list in both the claim router and the browse router |
| ClaimProcessor.AnalysisRecordOf | backend/app/services/claim_processor.py:134-142 | the defaults are verdict "uncertain", confidence 0.0, summary "Analysis failed or incomplete." and reasoning "N/A"; ai_reasoning comes from "reasoning"; evidence and sources are serialised |
| ClaimProcessor.ReasoningCarriedOver | backend/app/services/claim_processor.py:141 | the AI's reasoning text is what the claim detail view shows |
| ClaimProcessor.KbTitle | backend/app/services/claim_processor.py:26 | the title starts with "Fact-Check for claim: '" and the first 50 characters of the content, and is bounded in length |
| ClaimProcessor.KnowledgeBasePost | backend/app/services/claim_processor.py:14-31 | the article is posted to "<ai url>/add-article" exactly when the AI URL is set and summary and reasoning are text, with verified true, source type "fact-check", source URL "http://localhost:3000/claims/<id>" (the id, or nothing when the row has none), the `KbTitle` title and "summary + Reasoning: + reasoning" as content |
| ClaimProcessor.FileUrl | backend/app/services/claim_processor.py:81-87 | a claim without a truthy file_path has no file URL; otherwise the URL is the storage's public URL |
| ClaimProcessor.AnalysisRequestOf | backend/app/services/claim_processor.py:90-95 | the request exists iff content is a string and content_type is valid, and it carries the claim id and the file URL |
| ClaimProcessor.LifecycleEnds | backend/app/services/claim_processor.py:60-63 | a lifecycle that writes anything first writes processing, never writes pending, and ends away from pending |
| ClaimProcessor.ProcessClaim | backend/app/services/claim_processor.py:43-187 | no URL or key means no write at all; the first write is processing; a missing row stops after it; completed is written only after a successful insert; any failure after marking writes failed; a failed completed write is only logged; the KB post comes only after a saved analysis; with a non-empty row, completed is written exactly when the analysis is stored and otherwise the writes are processing then failed, every `/analyze` call carries the row's request and every post is the knowledge-base post of the answer |
| ClaimProcessor.AnalyzeAndStore | backend/app/services/claim_processor.py:97-180 | completed is written exactly when the request can be built, the service URL is set, `/analyze` answers with an object and the insert succeeds, and otherwise failed is the only write; every call carries `AnalysisRequestOf` the row; every post is `KnowledgeBasePost` of the answer, and comes last when the completed write did not raise |
| ClaimProcessor.CallAndStore | backend/app/services/claim_processor.py:102-162 | completed is written exactly when `/analyze` answers with an object and the insert succeeds, and otherwise failed is the only write; the call carries the request; the post is the knowledge-base post of the answer |
| ClaimProcessor.ProcessFetchedClaim | backend/app/services/claim_processor.py:78-180 | after processing, completed is written exactly when the row is a dict whose analysis is stored, and otherwise failed follows processing; calls and posts are those of the row and the answer |
| ClaimProcessor.ProcessingPrefix | backend/app/services/claim_processor.py:60-67 | the processing write in front of the rest of the run adds no call and no post and is the one write before failed |
| ClaimProcessor.StoreAnalysis | backend/app/services/claim_processor.py:144-187 | the insert comes right after the call; completed is written iff the insert succeeded; a raising completed write is followed by failed; the knowledge-base post, when there is one, is the last effect and only follows a completed write that did not raise |
| ClaimClassifier.StrongArticlesNotWeak | ai-service/app/services/claim_classifier.py:84-89 | two or more articles, each with similarity at least 0.75, are not weak context |
| ClaimClassifier.WeakArticlesWeak | ai-service/app/services/claim_classifier.py:84-89 | articles that all have similarity below 0.75 (a missing one counting 0) are always weak context |
| ClaimClassifier.MergedContext | ai-service/app/services/claim_classifier.py:27-33 | the web results are appended after the internal context, and only when that context is weak |
| ClaimClassifier.ContextEntries | ai-service/app/services/claim_classifier.py:132-138 | there is one entry per article |
| ClaimClassifier.PrepareContext | ai-service/app/services/claim_classifier.py:128-139 | the append loop computes `ContextText` |
| ClaimClassifier.FirstEntryHeader | ai-service/app/services/claim_classifier.py:135 | numbering starts at "Source 1" |
| ClaimClassifier.ContextTextShape | ai-service/app/services/claim_classifier.py:128-139 | empty input gives exactly "No relevant context was found."; otherwise the text starts with the first article's header |
| ClaimClassifier.ContextIgnoresBeyondFive | ai-service/app/services/claim_classifier.py:132 | articles after the fifth do not change the context text |
| ClaimClassifier.Excerpt | ai-service/app/services/claim_classifier.py:236 | the excerpt is the first 250 characters of the content followed by "..." |
| ClaimClassifier.ExtractEvidence | ai-service/app/services/claim_classifier.py:231-240 | min(3, n) items, in input order, each the evidence dict of the article at the same index; its source is the stored title, "Unknown Source" only for a missing title, and null for a stored None |
| ClaimClassifier.EvidenceAcceptedByBackend | ai-service/app/services/claim_classifier.py:234-239 | an evidence dict is a valid backend EvidenceItem exactly when the article's title is not stored as None; the item then has the `.get` title as source, the same excerpt and credibility, and a url iff the article has one |
| ClaimClassifier.PrepareSources | ai-service/app/services/claim_classifier.py:242-250 | one source per article, in order; title and type are the stored values (a stored None stays null, and only a missing key takes "Unknown Source" or "generic"); verified is true exactly when the article stores true |
| ClaimClassifier.ParseLlmResponse | ai-service/app/services/claim_classifier.py:216-229 | a fenced block is decoded in preference to the whole text; undecodable text gives the uncertain 0.3 analysis |
| ClaimClassifier.ParseReadsBackEncoded | ai-service/app/services/claim_classifier.py:221 | unfenced JSON text parses back to the value it encodes |
| ClaimClassifier.FenceTakesPrecedence | ai-service/app/services/claim_classifier.py:218-220 | when a fenced block holds encoded JSON, that value is the result whatever surrounds it |
| ClaimClassifier.ChoiceText | ai-service/app/services/claim_classifier.py:169-173 | a choice yields reply text only when that text is non-empty |
| ClaimClassifier.ReplyText | ai-service/app/services/claim_classifier.py:164-174 | text exists only for an object with a choices list, and is never empty |
| ClaimClassifier.LlmAnalysis | ai-service/app/services/claim_classifier.py:141-183 | no API key, a failed request or a reply without text give the simulated analysis; otherwise the reply is parsed |
| ClaimClassifier.Objs | ai-service/app/services/claim_classifier.py:43-44 | the list holds one JSON object per dict, in order |
| ClaimClassifier.EvidenceList | ai-service/app/services/claim_classifier.py:231-240 | min(3, n) evidence dicts, in order, each with the article's `.get` title as source |
| ClaimClassifier.Combined | ai-service/app/services/claim_classifier.py:42-44 | evidence and sources overwrite those keys of the analysis, and a non-object analysis gives the fallback |
| ClaimClassifier.AnalyzeClaim | ai-service/app/services/claim_classifier.py:24-79 | the pipeline merges the context, builds its text and returns `ClassifierResult` |
| ClaimClassifier.ClassifierResultShape | ai-service/app/services/claim_classifier.py:24-79 | the result always carries evidence and source lists; a non-object analysis gives the fallback with empty evidence and sources |
| ClaimClassifier.ClassifierResultContents | ai-service/app/services/claim_classifier.py:24-79 | for a dict analysis every other key is kept, sources are one per context article and evidence is the first three, in order |
| AiMain.ExtractorFor | ai-service/app/main.py:77-83 | OCR iff an image with a file URL, transcription iff a video with a file URL, and none otherwise |
| AiMain.AugmentedContent | ai-service/app/main.py:74-83 | content without an extractor is unchanged; otherwise it is extended after the original content |
| AiMain.AugmentationLabels | ai-service/app/main.py:77-83 | what is appended is "\n\nExtracted text from image: " or "\n\nTranscription from video: " followed by the extracted text |
| AiMain.EvidenceOf | ai-service/app/models/schemas.py:12-16 | an evidence item validates exactly when the element is an object with all four keys, text source and excerpt, a number or null credibility score and a text or null url, and it carries those values |
| AiMain.ValidateAnalysisResponse | ai-service/app/models/schemas.py:18-24 | a valid response carries the verdict, confidence, summary and reasoning of the dict, and lists of the same length for evidence and sources |
| AiMain.EvidenceDictValid | ai-service/app/main.py:94 | a classifier evidence dict is a valid EvidenceItem exactly when its article's title is not stored as None |
| AiMain.ClassifierEvidenceValid | ai-service/app/main.py:94 | the classifier's evidence list validates exactly when none of the first three context articles stores a None title |
| AiMain.NullEvidenceTitleRejected | ai-service/app/main.py:94 | a dict analysis combined with evidence from an article whose title is stored as None never validates |
| AiMain.ClassifierOutcome | ai-service/app/main.py:89-94 | the classifier's result validates with the analysis's verdict when the analysis is a typed dict and no evidence title is None; it never validates when a dict analysis meets a None evidence title; a non-dict analysis becomes the 0.1 fallback with no evidence and no sources; without an API key the result is uncertain 0.55 |
| AiMain.ClassifierSourcesValid | ai-service/app/main.py:94 | the classifier's sources are all dicts |
| AiMain.TypedAnalysisValid | ai-service/app/main.py:89-94 | an analysis with correctly typed scalar fields, combined with evidence whose titles are not None, yields a valid response with its verdict and confidence, one source per context article and at most three evidence items |
| AiMain.FixedAnalysesTyped | ai-service/app/services/claim_classifier.py:185-192 | the simulated analysis and the invalid-format analysis are correctly typed |
| AiMain.FallbackValid | ai-service/app/services/claim_classifier.py:252-260 | the fallback is a valid response: uncertain, 0.1, no evidence and no sources |
| AiMain.AddArticleRequestOf | ai-service/app/main.py:100-105 | title and content are required strings; source_type defaults to "fact-check" and verified to true |
| AiMain.AiService.constructor | ai-service/app/main.py:36 | no service is registered before startup |
| AiMain.AiService.Startup | ai-service/app/main.py:38-46 | startup registers all four services |
| AiMain.AiService.Health | ai-service/app/main.py:57-68 | status is "healthy", and each of the four services is "loaded" iff registered and "unavailable" otherwise |
| AiMain.AiService.Analyze | ai-service/app/main.py:70-98 | any failure gives 500 with "Analysis failed: …"; content is augmented only for an image or video with a file; success is the validated classifier result; a typed dict analysis succeeds with its verdict, and a dict analysis fails with 500 when an evidence title is None; a non-dict analysis gives the 0.1 fallback; with no API key the answer is uncertain 0.55 |
| AiMain.AddArticle | ai-service/app/main.py:107-121 | success iff the service is registered and the add returns true; a false result gives 500 with its own detail; an exception gives 500 "Add article failed: …" |
| AiMain.NotAddedNotWrapped | ai-service/app/main.py:112-121 | of all failures of `/add-article`, exactly the false result keeps its own message; every other error detail starts with "Add article failed: " |
| Comments.ValidateCommentResponse | backend/app/models/schemas.py:106-119 | replies default to [] and user_vote to None; the id comes from the row; parent_comment_id is required |
| Comments.VoteKey | backend/app/routers/comments.py:36 | a vote row is keyed by its comment_id and needs both comment_id and vote_type |
| Comments.VoteMapLastWins | backend/app/routers/comments.py:36 | the vote map's keys are exactly the rows' comment_ids, and each maps to the vote_type of its last row |
| Comments.CommentIds | backend/app/routers/comments.py:34 | the ids exist iff every comment is a dict with an id, one per comment |
| Comments.UserVotes | backend/app/routers/comments.py:31-39 | an anonymous caller or a failed lookup gives no votes; otherwise the map is built from the fetched vote rows |
| Comments.CommentWithVote | backend/app/routers/comments.py:43-46 | each comment validates, and its user_vote is the caller's vote for its id, else None |
| Comments.GetClaimComments | backend/app/routers/comments.py:14-48 | no rows give []; votes are queried only for a signed-in caller; the output has the rows' length and order, and each entry is `CommentWithVote` of its row with the caller's `UserVotes`; an anonymous caller or a failed lookup gives no votes and still succeeds |
| Comments.CreateComment | backend/app/routers/comments.py:51-91 | the row takes user_id from the caller and is_expert_response from the caller's flag; the parent id is stringified only when present; an empty insert or a missing fetch gives 500; an inserted row with an id whose fetched row validates gives that comment |
| Comments.VoteOnComment | backend/app/routers/comments.py:94-122 | the vote is upserted and then recounted; a failed recount still returns success; a failed upsert gives 500 |
| Users.OwnProfileRow | backend/app/routers/users.py:20-24 | the new profile has the caller's id, email and full_name |
| Users.ProfileOf | backend/app/routers/users.py:28-30 | the answer is the validated profile, or 500 when the data does not validate |
| Users.GetOwnProfile | backend/app/routers/users.py:13-30 | a profile is created exactly when the lookup finds none; a falsy insert gives 500 "Could not create user profile." |
| Users.UpdateData | backend/app/routers/users.py:38 | exactly the fields that were set are written |
| Users.UpdateOwnProfile | backend/app/routers/users.py:32-48 | an update with no set fields gives 400 before any write; no matching row gives 404 |
| Users.PlaceholderRow | backend/app/routers/users.py:61-65 | the placeholder email is "user_<id>@example.com" and full_name is null |
| Users.EmptyInsertText | backend/app/routers/users.py:67-71 | the inner 500 is re-wrapped as "Could not create user profile: 500: Could not create user profile." |
| Users.PublicProfile | backend/app/routers/users.py:54-73 | an existing profile is returned; otherwise a placeholder is inserted, and every insert failure becomes 500 with the "Could not create user profile: " prefix |
| Users.ClaimIds | backend/app/routers/users.py:81 | the ids exist iff every claim row is a dict with an id, one per claim |
| Users.FromAnalysis | backend/app/routers/users.py:107-108 | a missing analysis gives null, and otherwise the field of the analysis |
| Users.RecentClaimEntry | backend/app/routers/users.py:99-110 | the entry carries the claim's id, content, status and created_at; verdict and confidence come from the analysis with the same id; comment_count defaults to 0 |
| Users.RecentClaims | backend/app/routers/users.py:98-110 | the loop converts every claim, in order |
| Users.RecentClaimVerdict | backend/app/routers/users.py:87 | the verdict shown comes from the last analysis row for that claim id |
| Users.RecentClaimWithoutAnalysis | backend/app/routers/users.py:101-108 | a claim with no analysis row has null verdict and confidence |
| Users.RecentCommentAsWritten | backend/app/routers/users.py:117-127 | as written, an entry needs an embedded claim that has an id |
| Users.RecentCommentAsWrittenRaises | backend/app/routers/users.py:113-126 | with the select as written, every comment row makes the loop fail |
| Users.RecentCommentAsWrittenExample | backend/app/routers/users.py:113-126 | a concrete row of that shape fails |
| Users.RecentComment | backend/app/routers/users.py:118-127 | corrected: every row of the corrected select converts, and the entry has seven keys, taking claim_id from the comment itself |
| Users.RecentComments | backend/app/routers/users.py:117-127 | the loop converts every comment, in order |
| Users.RecentCommentsSucceed | backend/app/routers/users.py:117-127 | with the corrected select, the recent-comments loop always succeeds, with one entry per comment |
| Users.CountOr0 | backend/app/routers/users.py:137-139 | a missing or zero count is 0 |
| Users.Stats | backend/app/routers/users.py:136-140 | each stat is its count or 0 |
| Users.CommentCounts | backend/app/routers/users.py:89-95 | corrected: the count map exists iff every fetched row is a dict with a `claim_id`, and it gives each claim id the number of rows naming it, with no entry for an id without comments |
| Users.CountsAgree | backend/app/routers/users.py:89-95 | corrected: a missing entry of the count map means no rows for that id |
| Users.ClaimJoins | backend/app/routers/users.py:81-95 | with no claim ids, the analysis and count lookups are skipped and both maps are empty; otherwise the maps are the analyses by claim id and `CommentCounts` of the count rows |
| Users.ResponsePairs | backend/app/routers/users.py:92-95 | iterating the count lookup's response yields its two fields as pairs, the first being `data` |
| Users.ClaimJoinsAsWrittenRaises | backend/app/routers/users.py:80-95 | as written, the joins succeed exactly for a user with no claims; for any user with a claim, the comprehension at :95 raises |
| Users.ClaimJoinsAsWrittenExample | backend/app/routers/users.py:80-95 | a concrete user with one claim and one comment makes the as-written joins fail |
| Users.GetUserProfile | backend/app/routers/users.py:50-147 | corrected: profile creation, recent claims joined to analyses and to the counts of the fetched comment rows, recent comments and stats, with every failure a 500; when the profile, the joins and every claim and comment entry succeed, the page is returned |
| Users.PageClaimEntries | backend/app/routers/users.py:98-110 | recent_claims has the fetched claims' length and order, each with its own id and with comment_count the number of fetched comment rows for that id, 0 when there are none |
| FeaturedClaims.KeepClaim | frontend/components/FeaturedClaims.tsx:20 | the filter throws for null, and otherwise keeps exactly the claims whose status is not "failed" |
| FeaturedClaims.WithoutFailed | frontend/components/FeaturedClaims.tsx:20 | the filter never lengthens the list |
| FeaturedClaims.WithoutFailedDefined | frontend/components/FeaturedClaims.tsx:20 | the filter completes iff no element is null |
| FeaturedClaims.WithoutFailedMembers | frontend/components/FeaturedClaims.tsx:20 | a claim survives iff it was fetched and has not failed |
| FeaturedClaims.WithoutFailedAppend | frontend/components/FeaturedClaims.tsx:20 | the filter keeps server order |
| FeaturedClaims.Featured | frontend/components/FeaturedClaims.tsx:17-21 | the featured list is the first min(6, n) kept claims of a list response, and a non-list response shows nothing |
| FeaturedClaims.FeaturedNotFailed | frontend/components/FeaturedClaims.tsx:20 | no featured claim has failed, and each one was in the response |
| FeaturedClaims.Step | frontend/components/FeaturedClaims.tsx:31-33 | the index moves only when there are more than 3 claims, and then it stays below the length |
| FeaturedClaims.RotationInRange | frontend/components/FeaturedClaims.tsx:33 | after any number of ticks the index is 0 or below the length |
| FeaturedClaims.StepWraps | frontend/components/FeaturedClaims.tsx:33 | a step adds 3 and wraps around the end at most once |
| FeaturedClaims.StepKeepsFullWindow | frontend/components/FeaturedClaims.tsx:33 | when the length is a multiple of 3, a step from a full window lands on a full window |
| FeaturedClaims.RotationFullWindows | frontend/components/FeaturedClaims.tsx:33-39 | when the length is a multiple of 3, every visible window is a full three claims |
| FeaturedClaims.Window | frontend/components/FeaturedClaims.tsx:39 | at most 3 contiguous claims starting at index, with JavaScript's clamping |
| FeaturedClaims.Carousel.constructor | frontend/components/FeaturedClaims.tsx:10-11 | the carousel starts with no claims and index 0 |
| FeaturedClaims.Carousel.Load | frontend/components/FeaturedClaims.tsx:13-27 | a successful fetch replaces the claims with `Featured`; a failed one changes nothing |
| FeaturedClaims.Carousel.Tick | frontend/components/FeaturedClaims.tsx:30-37 | one interval firing applies `Step` and keeps the index valid |
| FeaturedClaims.Carousel.Visible | frontend/components/FeaturedClaims.tsx:39 | at most 3 contiguous claims, and at least one when any are loaded |
| SearchBar.ClaimContent | frontend/components/SearchBar.tsx:31-32 | "File submission: <name>" in file mode with a file, else the typed content |
| SearchBar.ContentTypeFor | frontend/components/SearchBar.tsx:34-41 | in file mode "image" iff the file's MIME type starts with "image/", else "video"; otherwise the mode's name |
| SearchBar.ContentTypeAccepted | frontend/components/SearchBar.tsx:34-41 | every content type the bar sends is a backend ContentType |
| SearchBar.AuthorizationAccepted | frontend/components/SearchBar.tsx:49 | the backend reads back exactly the token the bar sends |
| SearchBar.Bar.constructor | frontend/components/SearchBar.tsx:11-14 | the bar starts in text mode with no content, no file and not submitting |
| SearchBar.Bar.ClearFile | frontend/components/SearchBar.tsx:73-77 | clearFile sets the file to null and the content to "" |
| SearchBar.Bar.SelectMode | frontend/components/SearchBar.tsx:104-107 | every mode switch also clears the file and the content |
| SearchBar.Bar.SelectFile | frontend/components/SearchBar.tsx:65-71 | selecting a file sets the content to its name, and no selection changes nothing |
| SearchBar.Bar.EditContent | frontend/components/SearchBar.tsx:176 | typing replaces only the content |
| SearchBar.Bar.Disabled | frontend/components/SearchBar.tsx:189 | disabled iff submitting, or blank content with no file |
| SearchBar.Bar.HandleSubmit | frontend/components/SearchBar.tsx:20-63 | no session goes to login and sends nothing; nothing to submit sends nothing; otherwise the form holds content and content_type, original_url only in url mode and the file only when present; success goes to the new claim, failure shows the alert |
| VerdictBadge.VerdictConfig | frontend/components/VerdictBadge.tsx:34-66 | true, false and misleading map to True, False and Misleading; anything else maps to Uncertain |
| VerdictBadge.SizesDistinct | frontend/components/VerdictBadge.tsx:71-81 | each size has its own padding and text classes and its own icon size |
| VerdictBadge.Render | frontend/components/VerdictBadge.tsx:13-91 | processing wins over any verdict; a missing verdict gives "No Analysis"; size defaults to md; confidence is shown whenever it is a number |
| VerdictBadge.ZeroConfidenceShown | frontend/components/VerdictBadge.tsx:87-91 | a zero confidence is shown as "(0%)", whereas the browse page's inline badge hides it |
| VerdictBadge.LabelsAgreeWithInlineBadge | frontend/components/VerdictBadge.tsx:34-66 | for every stored verdict the caption equals the browse page's capitalised text |
| VerdictBadge.KnownVerdictsDistinct | frontend/components/VerdictBadge.tsx:34-66 | different stored verdicts get different looks |

## Left out

I/O, timing and presentation:

- Database, storage, RPC and HTTP calls are not modelled as behaviour. Their results are inputs, and the writes appear as effect traces.
- JSON text decoding, JSON encoding and the fenced-block regex are parameters. Their internals are library code.
- `rag_system.py` and `content_extraction.py` are not part of this model. Neither is the live web search with its scraping, nor the automatic knowledge-base insert inside the classifier's `analyze_claim`. Retrieval, extraction and web results are inputs.
- `auth.py`, `db.py`, the dashboard and RTI routers, and the backend's `main.py` are not part of this model.
- Wall-clock time is an input: `formatTimeAgo` takes elapsed whole seconds, or says that the date is missing or unparsable. The "date error" branch for a throwing Date is left out.
- FastAPI background scheduling, `asyncio` concurrency and the 7-second interval cadence are left out. One interval firing is one `Tick`.
- Logging, print statements and presentation markup without logic are left out.
- The claim view page is not part of this model, including its client-side polling and optimistic voting.

Floating point:

- Numbers are Dafny `real`. Float rounding is not modelled.
- The `.3f` similarity formatting is a parameter.
- BrowsePage.RoundHalfUp: does not reproduce the rounding of `confidence * 100` in floating point.

Validation:

- Pydantic's lax coercions are left out, for example a numeric string accepted as a number, or a boolean accepted as an int. A field validates only when it has the declared JSON kind. Because numbers are reals, an `int` field accepts any number with no fractional part, so 1.0 is read as 1, as pydantic does.
- In the classifier's article dicts, `title`, `source_type` and `verified` may be missing, stored as `None`, or set, and `.get` keeps a stored `None`. `content` and `similarity` are only present or missing: a stored `None` there makes the source raise while formatting the context, and that path is not modelled.
- UUID and datetime fields only need to be strings.
- Nested `replies` in CommentResponse must be null or a list, but their elements are not validated.
- `str()` of a non-string id is the parameter `render`.

Case, search and deployment:

- Upper-casing, trimming and the storage MIME type are ASCII-only or left out.
- The `ilike` match itself is left to the database; only the pattern is modelled.

Individual contracts:

- Claims.SubmitClaim: the upload's content type and the auth-session resets around the upload and insert are left out. The upload is an outcome.
- ClaimProcessor.ProcessClaim: each `hasattr(result, 'error')` check is a write outcome: written, an error result, or raised.
- Users.GetUserProfile: models the corrected page. As written, users.py:95 iterates the response object instead of its rows, which raises for any user with a claim, so the source answers 500 there (see Findings).
- Users.GetUserProfile: `.single()` returning no row is modelled as a raised call, and `maybe_single()` returning `None` itself as an empty lookup.
- SearchBar.Bar.HandleSubmit: resetting the file input's DOM value and the file-size display are left out. A response body without an `id` counts as a failed submit, whereas the component navigates to "/claims/undefined" in that case.
- ClaimProcessor.KnowledgeBasePost: promises the source URL only for a row whose id is missing or text. For any other id the model uses "" where the f-string would render the value with `str`, for example "None" for a null id.
- BrowsePage.ArrangeSpec: the "newest" key is an integer read from the date text by the parameter `parseTime`. In the browser an empty or unparsable `created_at` gives NaN, the comparator then answers NaN (read as 0), and the resulting order is implementation-defined; that case is not modelled.
- BrowsePage.InlineBadgeGradient: a verdict naming an inherited property of a JavaScript object, such as "constructor" or "toString", finds a function in the colour map instead of falling back to the uncertain colours; the model treats every unknown verdict as uncertain.
- VerdictBadge.Render: the lucide icon components are represented by enum tags.
- FeaturedClaims.Featured: a response whose JSON cannot be parsed counts as a failed fetch.
- Comments.GetClaimComments: the per-comment pydantic construction raising mid-loop is modelled as a 500, which is the server's generic answer.
- ClaimClassifier.PrepareSources: promises no non-empty title or type. `.get` keeps a stored empty string or `None`, so the source gives no such guarantee.
- ClaimClassifier.EvidenceAcceptedByBackend: promises acceptance only for articles whose title is not stored as `None`. With such a title the backend's `str` field rejects the evidence, so `AiMain.AiService.Analyze` answers 500.

## Findings

| source | as written | input that shows it | evidently intended | confidence | as-written member | corrected member |
|---|---|---|---|---|---|---|
| backend/app/routers/users.py:113-126 | the recent-comments query selects `claims(content)`, but the loop reads `comment["claims"]["id"]`, which raises KeyError, so the public profile of any user with a comment fails with 500 | a comment row `{id: "c1", content: "Agreed", created_at: "2024-01-01", upvotes: 0, downvotes: 0, claims: {content: "x"}}` | each recent comment names its claim's id, with the id selected alongside the content | not executed | Users.RecentCommentAsWrittenRaises | Users.RecentCommentsSucceed |
| backend/app/routers/users.py:91-95 | the comment-count comprehension iterates the `execute()` response object rather than its `data` rows, and iterating a pydantic model yields `(name, value)` pairs, so `c["claim_id"]` raises TypeError and the public profile of any user with a claim fails with 500; the rows would also lack the `count` key the comprehension reads | a user with one claim `{id: "c1", content: "x", status: "completed", created_at: "2024-01-01"}` and one comment on it | each recent claim shows the number of comments on it, counted from the fetched `claim_id` rows | not executed | Users.ClaimJoinsAsWrittenRaises | Users.CommentCounts |
