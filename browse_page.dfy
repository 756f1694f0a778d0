/**
 * The browse page of the web client (frontend/app/browse/page.tsx): the
 * "time ago" label, the client-side filtering and re-sorting of the claims
 * the browse endpoint returns, the page state `fetchClaims` updates, and the
 * page's own small verdict badge.
 */
module BrowsePage {
  import opened Json
  import opened Text
  import opened BrowseClaims

  // ---------------------------------------------------------------------
  // formatTimeAgo
  // ---------------------------------------------------------------------

  /** The `created_at` string as the label sees it: absent or empty, not a date, or a date this many whole seconds ago. */
  datatype DateInput = Missing | Unparsable | ElapsedSeconds(seconds: int)

  datatype Unit = Year | Month | Day | Hour | Minute

  function UnitSeconds(u: Unit): nat
  {
    match u
    case Year => 31536000
    case Month => 2592000
    case Day => 86400
    case Hour => 3600
    case Minute => 60
  }

  function UnitName(u: Unit): string
  {
    match u
    case Year => "year"
    case Month => "month"
    case Day => "day"
    case Hour => "hour"
    case Minute => "minute"
  }

  /** `"<n> <unit> ago"`, with the unit in the plural unless `n` is 1. */
  function Phrase(n: nat, u: Unit): string
  {
    NatToString(n) + " " + UnitName(u) + (if n == 1 then "" else "s") + " ago"
  }

  /**
   * The largest unit of which the elapsed time holds more than one: the
   * first of year, month, day, hour, minute whose length in seconds the
   * elapsed time strictly exceeds.
   */
  function ChosenUnit(seconds: int): (r: Option<Unit>)
    ensures r.Some? ==> seconds > UnitSeconds(r.value)
    ensures r.Some? ==> forall u :: UnitSeconds(u) > UnitSeconds(r.value) ==> seconds <= UnitSeconds(u)
    ensures r.None? <==> seconds <= 60
  {
    if seconds > 31536000 then Some(Year)
    else if seconds > 2592000 then Some(Month)
    else if seconds > 86400 then Some(Day)
    else if seconds > 3600 then Some(Hour)
    else if seconds > 60 then Some(Minute)
    else None
  }

  /** `formatTimeAgo`. */
  function FormatTimeAgo(d: DateInput): (r: string)
    ensures d.Missing? ==> r == "unknown"
    ensures d.Unparsable? ==> r == "invalid date"
    ensures d.ElapsedSeconds? && ChosenUnit(d.seconds).Some? ==>
      var u := ChosenUnit(d.seconds).value;
      r == Phrase(d.seconds / UnitSeconds(u), u)
    ensures d.ElapsedSeconds? && ChosenUnit(d.seconds).None? ==>
      r == NatToString(if d.seconds < 0 then 0 else d.seconds) + " seconds ago"
  {
    match d
    case Missing => "unknown"
    case Unparsable => "invalid date"
    case ElapsedSeconds(s) =>
      if s > 31536000 then Phrase(s / 31536000, Year)
      else if s > 2592000 then Phrase(s / 2592000, Month)
      else if s > 86400 then Phrase(s / 86400, Day)
      else if s > 3600 then Phrase(s / 3600, Hour)
      else if s > 60 then Phrase(s / 60, Minute)
      else NatToString(if s < 0 then 0 else s) + " seconds ago"
  }

  /**
   * The count shown with a unit is at least 1 and never reaches the next
   * larger unit: at most 12 months, 30 days, 24 hours or 60 minutes.
   */
  lemma ChosenCountInRange(seconds: int)
    requires ChosenUnit(seconds).Some?
    ensures var u := ChosenUnit(seconds).value; var n := seconds / UnitSeconds(u);
      && n >= 1
      && (u == Month ==> n <= 12)
      && (u == Day ==> n <= 30)
      && (u == Hour ==> n <= 24)
      && (u == Minute ==> n <= 60)
  {
  }

  /** The unit is singular exactly when the elapsed time is less than two of it. */
  lemma SingularExactlyBelowTwo(seconds: int)
    requires ChosenUnit(seconds).Some?
    ensures var u := ChosenUnit(seconds).value;
      seconds / UnitSeconds(u) == 1 <==> seconds < 2 * UnitSeconds(u)
  {
  }

  // ---------------------------------------------------------------------
  // Filtering and sorting in fetchClaims
  // ---------------------------------------------------------------------

  /** `data.filter((claim) => claim.status !== 'failed')`. */
  function WithoutFailed(claims: seq<ClaimOut>): (r: seq<ClaimOut>)
    ensures forall c :: c in r <==> c in claims && c.status != "failed"
    ensures |r| <= |claims|
  {
    if claims == [] then []
    else (if claims[0].status != "failed" then [claims[0]] else []) + WithoutFailed(claims[1..])
  }

  /** A list with no failed claim goes through the filter unchanged. */
  lemma {:induction false} WithoutFailedKeepsOthers(claims: seq<ClaimOut>)
    requires forall k :: 0 <= k < |claims| ==> claims[k].status != "failed"
    ensures WithoutFailed(claims) == claims
  {
    if claims != [] {
      WithoutFailedKeepsOthers(claims[1..]);
    }
  }

  /** Non-increasing in `key`. */
  predicate SortedDesc<T>(s: seq<T>, key: T -> real)
  {
    forall i, j :: 0 <= i < j < |s| ==> key(s[i]) >= key(s[j])
  }

  /** Inserting `x` in front of the first element with a smaller key, so earlier elements stay ahead of equal ones. */
  function InsertDesc<T>(x: T, s: seq<T>, key: T -> real): (r: seq<T>)
    ensures |r| == |s| + 1
  {
    if s == [] || key(x) >= key(s[0]) then [x] + s
    else [s[0]] + InsertDesc(x, s[1..], key)
  }

  /**
   * The stable sort `Array.prototype.sort` performs with the comparator
   * `(a, b) => key(b) - key(a)`: an insertion sort on the keys, largest first.
   */
  function SortDesc<T>(s: seq<T>, key: T -> real): (r: seq<T>)
    ensures |r| == |s|
  {
    if s == [] then [] else InsertDesc(s[0], SortDesc(s[1..], key), key)
  }

  lemma {:induction false} InsertDescPermutes<T>(x: T, s: seq<T>, key: T -> real)
    ensures multiset(InsertDesc(x, s, key)) == multiset{x} + multiset(s)
  {
    if s != [] && key(x) < key(s[0]) {
      InsertDescPermutes(x, s[1..], key);
      assert s == [s[0]] + s[1..];
    }
  }

  lemma {:induction false} InsertDescSorted<T>(x: T, s: seq<T>, key: T -> real)
    requires SortedDesc(s, key)
    ensures SortedDesc(InsertDesc(x, s, key), key)
  {
    if s != [] && key(x) < key(s[0]) {
      InsertDescSorted(x, s[1..], key);
      InsertDescPermutes(x, s[1..], key);
      var rest := InsertDesc(x, s[1..], key);
      forall k | 0 <= k < |rest|
        ensures key(s[0]) >= key(rest[k])
      {
        assert rest[k] in multiset(rest);
        if rest[k] != x {
          assert rest[k] in multiset(s[1..]);
          var j :| 0 <= j < |s[1..]| && s[1..][j] == rest[k];
          assert s[j + 1] == rest[k];
        }
      }
    }
  }

  /** Every sort returns a permutation of its input. */
  lemma {:induction false} SortDescPermutes<T>(s: seq<T>, key: T -> real)
    ensures multiset(SortDesc(s, key)) == multiset(s)
  {
    if s != [] {
      SortDescPermutes(s[1..], key);
      InsertDescPermutes(s[0], SortDesc(s[1..], key), key);
      assert s == [s[0]] + s[1..];
    }
  }

  /** Every sort leaves its keys non-increasing. */
  lemma {:induction false} SortDescSorted<T>(s: seq<T>, key: T -> real)
    ensures SortedDesc(SortDesc(s, key), key)
  {
    if s != [] {
      SortDescSorted(s[1..], key);
      InsertDescSorted(s[0], SortDesc(s[1..], key), key);
    }
  }

  /** The elements whose key is `v`, in their order in `s`. */
  function WithKey<T>(s: seq<T>, key: T -> real, v: real): seq<T>
  {
    if s == [] then []
    else (if key(s[0]) == v then [s[0]] else []) + WithKey(s[1..], key, v)
  }

  /** `WithKey` of a list with `x` in front. */
  lemma WithKeyCons<T>(x: T, s: seq<T>, key: T -> real, v: real)
    ensures WithKey([x] + s, key, v) == (if key(x) == v then [x] else []) + WithKey(s, key, v)
  {
    assert ([x] + s)[1..] == s;
  }

  /** Inserting `x` puts it ahead of every element with the same key and leaves their order alone. */
  lemma {:induction false} InsertDescWithKey<T>(x: T, s: seq<T>, key: T -> real, v: real)
    ensures WithKey(InsertDesc(x, s, key), key, v) == (if key(x) == v then [x] else []) + WithKey(s, key, v)
  {
    if s == [] || key(x) >= key(s[0]) {
      WithKeyCons(x, s, key, v);
    } else {
      var rest := InsertDesc(x, s[1..], key);
      WithKeyCons(s[0], rest, key, v);
      InsertDescWithKey(x, s[1..], key, v);
      WithKeyCons(s[0], s[1..], key, v);
      assert [s[0]] + s[1..] == s;
    }
  }

  /** The sort is stable: elements with equal keys keep the order they had in the input. */
  lemma {:induction false} SortDescStable<T>(s: seq<T>, key: T -> real, v: real)
    ensures WithKey(SortDesc(s, key), key, v) == WithKey(s, key, v)
  {
    if s != [] {
      SortDescStable(s[1..], key, v);
      InsertDescWithKey(s[0], SortDesc(s[1..], key), key, v);
    }
  }

  datatype SortType = Newest | Popular | Relevant

  function SortName(s: SortType): string
  {
    match s
    case Newest => "newest"
    case Popular => "popular"
    case Relevant => "relevant"
  }

  /** "popular": comments plus upvotes. */
  function PopularityScore(c: ClaimOut): real
  {
    (c.commentCount + c.upvoteCount) as real
  }

  /** "relevant": confidence times 100 (a missing or zero confidence counting as 0), plus twice the upvotes, plus the comments. */
  function RelevanceScore(c: ClaimOut): real
  {
    var confidence := if c.analysis.Some? && c.analysis.value.confidenceScore.Some? then c.analysis.value.confidenceScore.value else 0.0;
    confidence * 100.0 + (2 * c.upvoteCount + c.commentCount) as real
  }

  /** The sort key of each order; "newest" uses the creation time in milliseconds, which `parseTime` reads from the date text. */
  function SortKey(sort: SortType, parseTime: string -> int): ClaimOut -> real
  {
    match sort
    case Newest => (c: ClaimOut) => parseTime(c.createdAt) as real
    case Popular => PopularityScore
    case Relevant => RelevanceScore
  }

  /** The list the page shows: failed claims removed, then re-sorted by the selected order. */
  function Arrange(data: seq<ClaimOut>, sort: SortType, parseTime: string -> int): (r: seq<ClaimOut>)
  {
    SortDesc(WithoutFailed(data), SortKey(sort, parseTime))
  }

  /**
   * What the page shows holds exactly the non-failed claims, each as often
   * as the response held it, in non-increasing order of the selected key;
   * claims with equal keys stay in the order the server sent them.
   */
  lemma ArrangeSpec(data: seq<ClaimOut>, sort: SortType, parseTime: string -> int)
    ensures multiset(Arrange(data, sort, parseTime)) == multiset(WithoutFailed(data))
    ensures forall c :: c in Arrange(data, sort, parseTime) <==> c in data && c.status != "failed"
    ensures SortedDesc(Arrange(data, sort, parseTime), SortKey(sort, parseTime))
    ensures forall v :: WithKey(Arrange(data, sort, parseTime), SortKey(sort, parseTime), v) ==
                        WithKey(WithoutFailed(data), SortKey(sort, parseTime), v)
  {
    SortDescPermutes(WithoutFailed(data), SortKey(sort, parseTime));
    SortDescSorted(WithoutFailed(data), SortKey(sort, parseTime));
    forall v {
      SortDescStable(WithoutFailed(data), SortKey(sort, parseTime), v);
    }
    forall c
      ensures c in Arrange(data, sort, parseTime) <==> c in WithoutFailed(data)
    {
      assert c in Arrange(data, sort, parseTime) <==> c in multiset(Arrange(data, sort, parseTime));
      assert c in WithoutFailed(data) <==> c in multiset(WithoutFailed(data));
    }
  }

  // ---------------------------------------------------------------------
  // The page state
  // ---------------------------------------------------------------------

  /** The outcome of the request `fetchClaims` sends. */
  datatype FetchOutcome =
    | Thrown(message: Option<string>)                  // a network or parse error; `None` when it is not an `Error`
    | NotOk(status: nat, detail: Option<string>)       // `detail` from the error body, `None` when absent or unreadable
    | Loaded(data: seq<ClaimOut>)

  /** The message of a failed request: the body's non-empty `detail`, else `"Error <status>"`. */
  function ErrorMessage(outcome: FetchOutcome): (r: string)
    requires !outcome.Loaded?
    ensures outcome.Thrown? && outcome.message.None? ==> r == "Failed to fetch claims"
    ensures outcome.NotOk? && (outcome.detail.None? || outcome.detail.value == "") ==>
      r == "Error " + NatToString(outcome.status)
    ensures outcome.NotOk? && outcome.detail.Some? && outcome.detail.value != "" ==> r == outcome.detail.value
  {
    match outcome
    case Thrown(m) => if m.Some? then m.value else "Failed to fetch claims"
    case NotOk(status, detail) =>
      if detail.Some? && detail.value != "" then detail.value else "Error " + NatToString(status)
  }

  class BrowsePageState {
    var claims: seq<ClaimOut>
    var loading: bool
    var error: Option<string>
    var sort: SortType

    constructor ()
      ensures claims == [] && loading && error == None && sort == Newest
    {
      claims := [];
      loading := true;
      error := None;
      sort := Newest;
    }

    /** Choosing an order; the page then fetches again. */
    method SetSort(s: SortType)
      modifies this
      ensures sort == s && claims == old(claims) && loading == old(loading) && error == old(error)
    {
      sort := s;
    }

    /**
     * `fetchClaims`: requests the selected order from the backend; on
     * success shows the arranged list and clears the error, on failure
     * keeps the claims it had and records the message; loading always ends.
     */
    method FetchClaims(backendUrl: string, outcome: FetchOutcome, parseTime: string -> int) returns (url: string)
      modifies this
      ensures url == backendUrl + "/claims/browse?sort=" + SortName(sort)
      ensures sort == old(sort) && !loading
      ensures outcome.Loaded? ==> claims == Arrange(outcome.data, sort, parseTime) && error == None
      ensures !outcome.Loaded? ==> claims == old(claims) && error == Some(ErrorMessage(outcome))
    {
      loading := true;
      error := None;
      url := backendUrl + "/claims/browse?sort=" + SortName(sort);
      if outcome.Loaded? {
        var data := WithoutFailed(outcome.data);
        data := SortDesc(data, SortKey(sort, parseTime));
        claims := data;
      } else {
        error := Some(ErrorMessage(outcome));
      }
      loading := false;
    }
  }

  // ---------------------------------------------------------------------
  // The page's own verdict badge
  // ---------------------------------------------------------------------

  const TrueGradient := "from-green-400 via-emerald-500 to-green-600 text-white"
  const FalseGradient := "from-red-400 via-rose-500 to-red-600 text-white"
  const MisleadingGradient := "from-yellow-400 via-amber-500 to-orange-500 text-white"
  const UncertainGradient := "from-slate-300 via-slate-400 to-slate-500 text-slate-900"

  /** The colour classes: those of the verdict, and the uncertain ones for a missing or unknown verdict. */
  function InlineBadgeGradient(verdict: Option<string>): (r: string)
    ensures verdict.None? ==> r == UncertainGradient
    ensures verdict.Some? && verdict.value !in {"true", "false", "misleading"} ==> r == UncertainGradient
    ensures verdict == Some("true") ==> r == TrueGradient
    ensures verdict == Some("false") ==> r == FalseGradient
    ensures verdict == Some("misleading") ==> r == MisleadingGradient
  {
    match verdict
    case None => UncertainGradient
    case Some(v) =>
      if v == "true" then TrueGradient
      else if v == "false" then FalseGradient
      else if v == "misleading" then MisleadingGradient
      else UncertainGradient
  }

  /** The label: the verdict with its first letter in upper case, or "Pending" when there is none. */
  function InlineBadgeText(verdict: Option<string>): (r: string)
    ensures verdict.None? || verdict.value == "" ==> r == "Pending"
    ensures verdict.Some? && verdict.value != "" ==>
      |r| == |verdict.value| && r[0] == UpperChar(verdict.value[0]) && r[1..] == verdict.value[1..]
  {
    if verdict.Some? && verdict.value != "" then Capitalize(verdict.value) else "Pending"
  }

  /** `Math.round` on a real: the nearest integer, halves rounded up. */
  function RoundHalfUp(x: real): (r: int)
    ensures r as real <= x + 0.5 < r as real + 1.0
  {
    (x + 0.5).Floor
  }

  /** Decimal rendering of an integer, with a leading '-' when negative. */
  function IntToString(i: int): (r: string)
    ensures i >= 0 ==> r == NatToString(i)
    ensures i < 0 ==> r == "-" + NatToString(-i)
  {
    if i >= 0 then NatToString(i) else "-" + NatToString(-i)
  }

  /** `" (<percent>%)"` for a truthy confidence; nothing for a missing or zero one. */
  function InlineConfidenceText(confidence: Option<real>): (r: string)
    ensures r == "" <==> confidence.None? || confidence.value == 0.0
    ensures r != "" ==> r == " (" + IntToString(RoundHalfUp(confidence.value * 100.0)) + "%)"
  {
    if confidence.Some? && confidence.value != 0.0 then " (" + IntToString(RoundHalfUp(confidence.value * 100.0)) + "%)" else ""
  }

  datatype BadgeSize = Small | Medium

  /** Padding and text classes: the small ones for `sm`, the medium ones otherwise. */
  function InlineBadgeClasses(size: BadgeSize): (r: (string, string))
    ensures size == Small ==> r == ("px-2.5 py-1", "text-xs")
    ensures size == Medium ==> r == ("px-3 py-1.5", "text-sm")
  {
    if size == Small then ("px-2.5 py-1", "text-xs") else ("px-3 py-1.5", "text-sm")
  }
}
