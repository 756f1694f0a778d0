/**
 * The comment endpoints (backend/app/routers/comments.py): listing a
 * claim's comments with the caller's own vote on each, creating a comment
 * on the caller's behalf, and voting on a comment. Database calls are
 * outcomes passed in; an exception the endpoint does not catch is a 500
 * "Internal Server Error".
 */
module Comments {
  import opened Json
  import opened Http
  import opened Schemas
  import Claims

  const Unhandled := "Internal Server Error"

  datatype CommentResponse = CommentResponse(
    id: string,
    claimId: string,
    userId: string,
    user: UserProfile,
    content: string,
    upvotes: int,
    downvotes: int,
    isExpertResponse: bool,
    parentCommentId: Option<string>,
    replies: Option<seq<Json>>,
    userVote: Option<VoteType>,
    createdAt: string,
    updatedAt: string)

  /** A nested user profile: it must be a dict that validates. */
  function AsUserProfile(j: Json): (r: Option<UserProfile>)
    ensures r.Some? ==> j.JObj? && ValidateUserProfile(j.fields) == r
  {
    if j.JObj? then ValidateUserProfile(j.fields) else None
  }

  /** `replies`: absent means `[]`; `None` or a list is accepted. */
  function AsReplies(j: Json): (r: Option<Option<seq<Json>>>)
    ensures r.Some? <==> j.JNull? || j.JArr?
  {
    match j
    case JNull => Some(None)
    case JArr(items) => Some(Some(items))
    case _ => None
  }

  /**
   * `CommentResponse(**row)`. `parent_comment_id` has no default, so the
   * key must be present even when its value is `None`.
   */
  function ValidateCommentResponse(row: map<string, Json>): (r: Option<CommentResponse>)
    ensures r.Some? ==> "id" in row && row["id"] == JStr(r.value.id)
    ensures r.Some? ==> "parent_comment_id" in row
    ensures r.Some? ==> "replies" !in row ==> r.value.replies == Some([])
    ensures r.Some? ==> "user_vote" !in row ==> r.value.userVote == None
  {
    var id :- Required(row, "id", AsStr);
    var claimId :- Required(row, "claim_id", AsStr);
    var userId :- Required(row, "user_id", AsStr);
    var user :- Required(row, "user", AsUserProfile);
    var content :- Required(row, "content", AsStr);
    var up :- Required(row, "upvotes", AsInt);
    var down :- Required(row, "downvotes", AsInt);
    var expert :- Required(row, "is_expert_response", AsBool);
    var parent :- Required(row, "parent_comment_id", AsOptStr);
    var replies :- AsReplies(GetOr(row, "replies", JArr([])));
    var vote :- AsOptVote(Get(row, "user_vote"));
    var created :- Required(row, "created_at", AsStr);
    var updated :- Required(row, "updated_at", AsStr);
    Some(CommentResponse(id, claimId, userId, user, content, up, down, expert, parent, replies, vote, created, updated))
  }

  // ---------------------------------------------------------------------
  // Listing comments
  // ---------------------------------------------------------------------

  /** `vote['comment_id']`: `None` when the row is not a dict with both keys the comprehension reads. */
  function VoteKey(vote: Json): (r: Option<Json>)
    ensures r.Some? <==> vote.JObj? && "comment_id" in vote.fields && "vote_type" in vote.fields
    ensures r.Some? ==> r.value == vote.fields["comment_id"]
  {
    if vote.JObj? && "comment_id" in vote.fields && "vote_type" in vote.fields then Some(vote.fields["comment_id"]) else None
  }

  /** `vote['vote_type']` of a row that has it. */
  function VoteTypeOf(vote: Json): Json
  {
    if vote.JObj? && "vote_type" in vote.fields then vote.fields["vote_type"] else JNull
  }

  /** `{vote['comment_id']: vote['vote_type'] for vote in rows}`: the last row for a comment wins. */
  function VoteMap(votes: seq<Json>): Option<map<Json, Json>>
  {
    IndexBy(votes, VoteKey, VoteTypeOf)
  }

  /**
   * When every row is well formed, the map holds exactly the commented ids
   * and each maps to the vote of the LAST row for that comment.
   */
  lemma VoteMapLastWins(votes: seq<Json>, k: nat)
    requires forall j :: 0 <= j < |votes| ==> VoteKey(votes[j]).Some?
    requires k < |votes|
    requires forall j :: k < j < |votes| ==> VoteKey(votes[j]) != VoteKey(votes[k])
    ensures VoteMap(votes).Some?
    ensures forall id :: id in VoteMap(votes).value <==> exists j :: 0 <= j < |votes| && VoteKey(votes[j]) == Some(id)
    ensures VoteMap(votes).value[votes[k].fields["comment_id"]] == votes[k].fields["vote_type"]
  {
    IndexByKeys(votes, VoteKey, VoteTypeOf);
    IndexByLastWins(votes, VoteKey, VoteTypeOf, k);
  }

  /** The caller's votes, or `None` when the lookup raised. */
  datatype VoteRows = VotesRaised | VotesFetched(rows: seq<Json>)

  /** The ids sent to the vote lookup: `None` when building the list raises (a row that is not a dict with an id). */
  function CommentIds(comments: seq<Json>): (r: Option<seq<Json>>)
    ensures r.Some? ==> |r.value| == |comments|
    ensures r.Some? <==> forall k :: 0 <= k < |comments| ==> comments[k].JObj? && "id" in comments[k].fields
  {
    if comments == [] then Some([])
    else if comments[0].JObj? && "id" in comments[0].fields then
      match CommentIds(comments[1..])
      case None => None
      case Some(rest) => Some([comments[0].fields["id"]] + rest)
    else None
  }

  /**
   * The vote map the listing uses: empty for an anonymous caller, and
   * empty when any step of the lookup raises (the error is only logged).
   */
  function UserVotes(caller: Option<User>, comments: seq<Json>, lookup: VoteRows): (r: map<Json, Json>)
    ensures caller.None? || lookup.VotesRaised? ==> r == map[]
    ensures caller.Some? && lookup.VotesFetched? && CommentIds(comments).Some? && VoteMap(lookup.rows).Some? ==>
      r == VoteMap(lookup.rows).value
  {
    if caller.None? || CommentIds(comments).None? then map[]
    else match lookup
      case VotesRaised => map[]
      case VotesFetched(rows) =>
        match VoteMap(rows)
        case None => map[]
        case Some(m) => m
  }

  /** One listed comment: its validated row with `user_vote` set from the map; `None` when either step raises. */
  function CommentWithVote(votes: map<Json, Json>, comment: Json): (r: Option<CommentResponse>)
    ensures r.Some? ==> comment.JObj? && ValidateCommentResponse(comment.fields).Some?
    ensures r.Some? ==> r.value == ValidateCommentResponse(comment.fields).value.(userVote := r.value.userVote)
    ensures r.Some? ==> var id := comment.fields["id"];
      (id !in votes ==> r.value.userVote == None) && (id in votes ==> AsOptVote(votes[id]) == Some(r.value.userVote))
  {
    if !comment.JObj? then None
    else
      var model :- ValidateCommentResponse(comment.fields);
      var vote :- AsOptVote(if comment.fields["id"] in votes then votes[comment.fields["id"]] else JNull);
      Some(model.(userVote := vote))
  }

  function WithVotes(votes: map<Json, Json>): Json -> Option<CommentResponse>
  {
    comment => CommentWithVote(votes, comment)
  }

  /**
   * `get_claim_comments`. `rows` is the listing in the order the database
   * returns it; `lookup` is the caller's vote rows. The vote lookup is
   * issued only for a signed-in caller, with the ids of all comments.
   */
  method GetClaimComments(rows: seq<Json>, caller: Option<User>, lookup: VoteRows)
    returns (queriedIds: Option<seq<Json>>, r: Response<seq<CommentResponse>>)
    ensures rows == [] ==> r == Ok([]) && queriedIds.None?
    ensures caller.None? ==> queriedIds.None?
    ensures rows != [] && caller.Some? ==> queriedIds == CommentIds(rows)
    ensures r.Fail? ==> r.error == HttpError(InternalServerError, Unhandled)
    ensures rows != [] ==> r.Ok? <==> MapAll(rows, WithVotes(UserVotes(caller, rows, lookup))).Some?
    ensures r.Ok? ==> |r.value| == |rows|
    ensures r.Ok? ==> forall k :: 0 <= k < |rows| ==>
      rows[k].JObj? && "id" in rows[k].fields && JStr(r.value[k].id) == rows[k].fields["id"]
    ensures r.Ok? && (caller.None? || lookup.VotesRaised?) ==> forall k :: 0 <= k < |r.value| ==> r.value[k].userVote == None
    ensures r.Ok? ==> Some(r.value) == MapAll(rows, WithVotes(UserVotes(caller, rows, lookup)))
    ensures r.Ok? ==> forall k :: 0 <= k < |rows| ==> CommentWithVote(UserVotes(caller, rows, lookup), rows[k]) == Some(r.value[k])
  {
    if rows == [] {
      return None, Ok([]);
    }
    queriedIds := None;
    if caller.Some? {
      queriedIds := CommentIds(rows);
    }
    var votes := UserVotes(caller, rows, lookup);
    var out: seq<CommentResponse> := [];
    var i := 0;
    while i < |rows|
      invariant 0 <= i <= |rows|
      invariant MapAll(rows[..i], WithVotes(votes)) == Some(out)
    {
      var item := CommentWithVote(votes, rows[i]);
      MapAllStep(rows, i, WithVotes(votes), out);
      if item.None? {
        return queriedIds, Fail(HttpError(InternalServerError, Unhandled));
      }
      out := out + [item.value];
      i := i + 1;
    }
    assert rows[..i] == rows;
    MapAllAt(rows, WithVotes(votes));
    r := Ok(out);
  }

  // ---------------------------------------------------------------------
  // Creating a comment and voting
  // ---------------------------------------------------------------------

  /** The request body of `create_comment`. */
  datatype CommentCreate = CommentCreate(content: string, claimId: string, parentCommentId: Option<string>)

  /**
   * `create_comment`. The row inserted is the request body with the
   * caller's id and expert flag set; the new row is then fetched by the id
   * the insert returned and validated.
   */
  method CreateComment(comment: CommentCreate, caller: User, insert: Claims.InsertOutcome, fetch: Claims.SingleFetch)
    returns (row: map<string, Json>, fetchedId: Option<Json>, r: Response<CommentResponse>)
    ensures row.Keys == {"content", "claim_id", "parent_comment_id", "user_id", "is_expert_response"}
    ensures row["user_id"] == JStr(caller.id) && row["is_expert_response"] == JBool(caller.isExpert)
    ensures row["content"] == JStr(comment.content) && row["claim_id"] == JStr(comment.claimId)
    ensures comment.parentCommentId.Some? ==> row["parent_comment_id"] == JStr(comment.parentCommentId.value)
    ensures comment.parentCommentId.None? ==> row["parent_comment_id"] == JNull
    ensures insert.Inserted? && insert.rows == [] ==> r == Fail(HttpError(InternalServerError, "Failed to create comment record.")) && fetchedId.None?
    ensures fetchedId.Some? ==> insert.Inserted? && insert.rows != [] && insert.rows[0].JObj? && "id" in insert.rows[0].fields
    ensures fetchedId.Some? ==> fetchedId == Some(insert.rows[0].fields["id"])
    ensures fetchedId.Some? && fetch.Fetched? && !Truthy(fetch.data) ==> r == Fail(HttpError(InternalServerError, "Failed to fetch newly created comment."))
    ensures r.Ok? ==> fetchedId.Some? && fetch.Fetched? && fetch.data.JObj? && ValidateCommentResponse(fetch.data.fields) == Some(r.value)
    ensures r.Fail? ==> r.error.status == InternalServerError
    ensures insert.Inserted? && insert.rows != [] && insert.rows[0].JObj? && "id" in insert.rows[0].fields &&
            fetch.Fetched? && fetch.data.JObj? && fetch.data.fields != map[] && ValidateCommentResponse(fetch.data.fields).Some? ==>
      r == Ok(ValidateCommentResponse(fetch.data.fields).value)
  {
    row := map["content" := JStr(comment.content), "claim_id" := JStr(comment.claimId),
               "parent_comment_id" := if comment.parentCommentId.Some? then JStr(comment.parentCommentId.value) else JNull];
    // The `str()` conversions of the UUID fields keep their text unchanged.
    row := row["user_id" := JStr(caller.id)];
    row := row["is_expert_response" := JBool(caller.isExpert)];
    fetchedId := None;
    if insert.InsertRaised? {
      return row, fetchedId, Fail(HttpError(InternalServerError, Unhandled));
    }
    if insert.rows == [] {
      return row, fetchedId, Fail(HttpError(InternalServerError, "Failed to create comment record."));
    }
    var first := insert.rows[0];
    if !first.JObj? || "id" !in first.fields {
      return row, fetchedId, Fail(HttpError(InternalServerError, Unhandled));
    }
    fetchedId := Some(first.fields["id"]);
    if fetch.FetchRaised? {
      return row, fetchedId, Fail(HttpError(InternalServerError, Unhandled));
    }
    if !Truthy(fetch.data) {
      return row, fetchedId, Fail(HttpError(InternalServerError, "Failed to fetch newly created comment."));
    }
    var model := if fetch.data.JObj? then ValidateCommentResponse(fetch.data.fields) else None;
    if model.None? {
      return row, fetchedId, Fail(HttpError(InternalServerError, Unhandled));
    }
    r := Ok(model.value);
  }

  datatype CommentVoteEffect =
    | UpsertCommentVote(commentId: string, userId: string, voteType: string)
    | RecountCommentVotes(commentId: string)

  /**
   * `vote_on_comment`: either vote type is upserted for the caller, then the
   * counts are recalculated; a failed recalculation still answers success.
   */
  method VoteOnComment(commentId: string, vote: VoteType, caller: User, upsertRaises: bool, recountRaises: bool)
    returns (r: Response<map<string, Json>>, effects: seq<CommentVoteEffect>)
    ensures |effects| >= 1 && effects[0] == UpsertCommentVote(commentId, caller.id, VoteValue(vote))
    ensures upsertRaises ==> r == Fail(HttpError(InternalServerError, Unhandled)) && |effects| == 1
    ensures !upsertRaises ==> effects == [UpsertCommentVote(commentId, caller.id, VoteValue(vote)), RecountCommentVotes(commentId)]
    ensures !upsertRaises ==> r.Ok? && "status" in r.value && r.value["status"] == JStr("success")
  {
    effects := [UpsertCommentVote(commentId, caller.id, VoteValue(vote))];
    if upsertRaises {
      return Fail(HttpError(InternalServerError, Unhandled)), effects;
    }
    effects := effects + [RecountCommentVotes(commentId)];
    // The recalculation's failure is only logged.
    r := Ok(map["status" := JStr("success"), "message" := JStr("Vote submitted and counts updated.")]);
  }
}
