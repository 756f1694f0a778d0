/**
 * The home page's featured-claims carousel (frontend/components/FeaturedClaims.tsx):
 * it loads the newest claims once, keeps at most six that have not
 * failed, and every few seconds advances a window of three through them.
 * The fetch is an input (`None` when the request or its JSON parsing
 * fails) and one firing of the interval timer is one `Tick`.
 */
module FeaturedClaims {
  import opened Json

  const MaxFeatured := 6
  const WindowSize := 3

  /** `c.status !== "failed"` is false exactly for an object whose status is the string "failed". */
  predicate IsFailed(c: Json)
  {
    c.JObj? && "status" in c.fields && c.fields["status"] == JStr("failed")
  }

  /** `c.status` throws for `null`; any other value has a status, possibly `undefined`. */
  function KeepClaim(c: Json): (r: Option<bool>)
    ensures r.None? <==> c == JNull
    ensures r.Some? ==> (r.value <==> !IsFailed(c))
  {
    if c == JNull then None else Some(!IsFailed(c))
  }

  /** `data.filter((c) => c.status !== "failed")`; `None` when the callback throws. */
  function WithoutFailed(data: seq<Json>): (r: Option<seq<Json>>)
    ensures r.Some? ==> |r.value| <= |data|
  {
    if data == [] then Some([])
    else
      match KeepClaim(data[0])
      case None => None
      case Some(keep) =>
        match WithoutFailed(data[1..])
        case None => None
        case Some(rest) => Some(if keep then [data[0]] + rest else rest)
  }

  /** The filter runs to the end exactly when no element is `null`. */
  lemma {:induction false} WithoutFailedDefined(data: seq<Json>)
    ensures WithoutFailed(data).Some? <==> forall k :: 0 <= k < |data| ==> data[k] != JNull
  {
    if data != [] {
      WithoutFailedDefined(data[1..]);
      assert forall k :: 1 <= k < |data| ==> data[1..][k - 1] == data[k];
    }
  }

  /** A claim survives the filter exactly when it was fetched and has not failed. */
  lemma {:induction false} WithoutFailedMembers(data: seq<Json>, x: Json)
    requires WithoutFailed(data).Some?
    ensures x in WithoutFailed(data).value <==> x in data && !IsFailed(x)
  {
    if data != [] {
      WithoutFailedMembers(data[1..], x);
      assert data == [data[0]] + data[1..];
    }
  }

  /** Filtering keeps server order: filtering two runs of claims one after the other concatenates the results. */
  lemma {:induction false} WithoutFailedAppend(a: seq<Json>, b: seq<Json>)
    requires WithoutFailed(a).Some? && WithoutFailed(b).Some?
    ensures WithoutFailed(a + b) == Some(WithoutFailed(a).value + WithoutFailed(b).value)
  {
    if a == [] {
      assert a + b == b;
      assert WithoutFailed(a).value + WithoutFailed(b).value == WithoutFailed(b).value;
    } else {
      assert (a + b)[0] == a[0];
      assert (a + b)[1..] == a[1..] + b;
      WithoutFailedAppend(a[1..], b);
      var keep := KeepClaim(a[0]).value;
      calc {
        WithoutFailed(a + b);
        Some(if keep then [a[0]] + WithoutFailed(a[1..] + b).value else WithoutFailed(a[1..] + b).value);
        Some(if keep then [a[0]] + (WithoutFailed(a[1..]).value + WithoutFailed(b).value)
             else WithoutFailed(a[1..]).value + WithoutFailed(b).value);
        { if keep { assert [a[0]] + (WithoutFailed(a[1..]).value + WithoutFailed(b).value) ==
                           ([a[0]] + WithoutFailed(a[1..]).value) + WithoutFailed(b).value; } }
        Some(WithoutFailed(a).value + WithoutFailed(b).value);
      }
    }
  }

  /** The claims shown: the response must be a list; the first six that have not failed. */
  function Featured(response: Option<Json>): (r: Option<seq<Json>>)
    ensures r.Some? ==> response.Some? && response.value.JArr? && WithoutFailed(response.value.items).Some?
    ensures r.Some? ==> var kept := WithoutFailed(response.value.items).value;
      |r.value| == (if |kept| <= MaxFeatured then |kept| else MaxFeatured) && r.value == kept[..|r.value|]
    ensures response.Some? && response.value.JArr? && WithoutFailed(response.value.items).Some? ==> r.Some?
  {
    if response.Some? && response.value.JArr? then
      match WithoutFailed(response.value.items)
      case None => None
      case Some(kept) => Some(if |kept| <= MaxFeatured then kept else kept[..MaxFeatured])
    else None
  }

  /** No featured claim has failed, and every featured claim was in the response. */
  lemma FeaturedNotFailed(response: Option<Json>, k: nat)
    requires Featured(response).Some? && k < |Featured(response).value|
    ensures !IsFailed(Featured(response).value[k]) && Featured(response).value[k] in response.value.items
  {
    var kept := WithoutFailed(response.value.items).value;
    assert Featured(response).value[k] == kept[k];
    WithoutFailedMembers(response.value.items, kept[k]);
  }

  /** One firing of the interval: it is only installed when more than three claims are loaded. */
  function Step(index: nat, n: nat): (r: nat)
    ensures n > 3 && index < n ==> r < n
    ensures n <= 3 ==> r == index
  {
    if n > 3 then (index + WindowSize) % n else index
  }

  /** The index after `ticks` firings, starting from 0. */
  function Rotation(ticks: nat, n: nat): nat
  {
    if ticks == 0 then 0 else Step(Rotation(ticks - 1, n), n)
  }

  /** The index stays inside the loaded list (or at 0 when it is empty). */
  lemma {:induction false} RotationInRange(ticks: nat, n: nat)
    ensures n == 0 ==> Rotation(ticks, n) == 0
    ensures n > 0 ==> Rotation(ticks, n) < n
  {
    if ticks > 0 {
      RotationInRange(ticks - 1, n);
    }
  }

  /** From a start inside the list, a step moves on by three, wrapping around the end once. */
  lemma StepWraps(i: nat, n: nat)
    requires 3 < n && i < n
    ensures Step(i, n) == if i + WindowSize < n then i + WindowSize else i + WindowSize - n
  {
    var a := i + WindowSize;
    if n <= a {
      var q := a / n;
      assert a == q * n + a % n;
      assert q == 1;
    }
  }

  /** Two multiples of three are at least three apart. */
  lemma MultiplesOfThreeApart(i: nat, n: nat)
    requires i % WindowSize == 0 && n % WindowSize == 0 && i < n
    ensures i + WindowSize <= n
  {
  }

  /** One step from a full window whose start is a multiple of three lands on another such start. */
  lemma StepKeepsFullWindow(i: nat, n: nat)
    requires n > 0 && n % WindowSize == 0 && i % WindowSize == 0 && i + WindowSize <= n
    ensures Step(i, n) % WindowSize == 0 && Step(i, n) + WindowSize <= n
  {
    if n > 3 {
      StepWraps(i, n);
      if i + WindowSize < n {
        NextMultipleOfThree(i);
        MultiplesOfThreeApart(i + WindowSize, n);
      } else {
        assert Step(i, n) == 0;
      }
    }
  }

  /** The next multiple of three. */
  lemma NextMultipleOfThree(i: nat)
    requires i % WindowSize == 0
    ensures (i + WindowSize) % WindowSize == 0
  {
    var q := i / WindowSize;
    assert i + WindowSize == (q + 1) * WindowSize;
  }

  /**
   * When the number of claims is a multiple of three (six, in particular)
   * the index only visits multiples of three, so the window is always a
   * full three claims.
   */
  lemma {:induction false} RotationFullWindows(ticks: nat, n: nat)
    requires n > 0 && n % WindowSize == 0
    ensures Rotation(ticks, n) % WindowSize == 0 && Rotation(ticks, n) + WindowSize <= n
  {
    if ticks == 0 {
      MultiplesOfThreeApart(0, n);
    } else {
      RotationFullWindows(ticks - 1, n);
      StepKeepsFullWindow(Rotation(ticks - 1, n), n);
    }
  }

  /** `claims.slice(index, index + 3)`: JavaScript clamps both ends to the length. */
  function Window(claims: seq<Json>, index: nat): (r: seq<Json>)
    ensures |r| <= WindowSize
    ensures index <= |claims| ==> |r| == (if index + WindowSize <= |claims| then WindowSize else |claims| - index)
    ensures forall k :: 0 <= k < |r| ==> index + k < |claims| && r[k] == claims[index + k]
  {
    var lo := if index <= |claims| then index else |claims|;
    var hi := if index + WindowSize <= |claims| then index + WindowSize else |claims|;
    claims[lo..hi]
  }

  /** The component's state: the loaded claims and the window's start. */
  class Carousel {
    var claims: seq<Json>
    var index: nat

    /** The index is 0 or inside the loaded list. */
    ghost predicate Valid()
      reads this
    {
      index == 0 || index < |claims|
    }

    constructor()
      ensures claims == [] && index == 0
      ensures Valid()
    {
      claims := [];
      index := 0;
    }

    /** The fetch effect: on success the featured claims replace the list; a failure is only logged. */
    method Load(response: Option<Json>)
      modifies this
      ensures Featured(response).Some? ==> claims == Featured(response).value
      ensures Featured(response).None? ==> claims == old(claims)
      ensures index == old(index)
      ensures old(index) == 0 ==> Valid()
    {
      var featured := Featured(response);
      if featured.Some? {
        claims := featured.value;
      }
    }

    /** One firing of the interval timer. */
    method Tick()
      requires Valid()
      modifies this
      ensures claims == old(claims)
      ensures index == Step(old(index), |claims|)
      ensures Valid()
    {
      if |claims| > 3 {
        index := (index + WindowSize) % |claims|;
      }
    }

    /** The claims on screen. */
    function Visible(): (r: seq<Json>)
      reads this
      ensures |r| <= WindowSize
      ensures forall k :: 0 <= k < |r| ==> index + k < |claims| && r[k] == claims[index + k]
      ensures Valid() && claims != [] ==> r != []
    {
      Window(claims, index)
    }
  }
}
