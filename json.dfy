/**
 * The loosely typed payloads that flow between the database, the backend
 * and the AI service. A Python `dict`/`list` read back from Supabase or from
 * `json.loads` is a `Json` value here, so every `isinstance` check of the
 * source becomes a pattern match.
 */
module Json {

  datatype Option<+T> = None | Some(value: T) {
    predicate IsFailure() { None? }

    function PropagateFailure<U>(): Option<U>
      requires None?
    {
      None
    }

    function Extract(): T
      requires Some?
    {
      value
    }
  }

  datatype Json =
    | JNull
    | JBool(b: bool)
    | JNum(n: real)
    | JStr(s: string)
    | JArr(items: seq<Json>)
    | JObj(fields: map<string, Json>)

  /** `json.loads`: text to value, `None` standing for `JSONDecodeError`. */
  type Decoder = string -> Option<Json>

  /** `json.dumps`: value to text. */
  type Encoder = Json -> string

  /** A decoder and an encoder that undo each other on every value. */
  ghost predicate RoundTrips(decode: Decoder, encode: Encoder)
  {
    forall j :: decode(encode(j)) == Some(j)
  }

  /** `d.get(key)`: the stored value, or Python's `None` when the key is absent. */
  function Get(d: map<string, Json>, key: string): (r: Json)
    ensures key in d ==> r == d[key]
    ensures key !in d ==> r == JNull
  {
    if key in d then d[key] else JNull
  }

  /** `d.get(key, default)`: the default replaces only a MISSING key, not a stored `None`. */
  function GetOr(d: map<string, Json>, key: string, default: Json): (r: Json)
    ensures key in d ==> r == d[key]
    ensures key !in d ==> r == default
  {
    if key in d then d[key] else default
  }

  /** Python truthiness of a JSON value. */
  predicate Truthy(j: Json)
  {
    match j
    case JNull => false
    case JBool(b) => b
    case JNum(n) => n != 0.0
    case JStr(s) => s != ""
    case JArr(items) => items != []
    case JObj(fields) => fields != map[]
  }

  /** `x or default`: `x` when it is truthy, otherwise `default`. */
  function Or(j: Json, default: Json): (r: Json)
    ensures Truthy(j) ==> r == j
    ensures !Truthy(j) ==> r == default
  {
    if Truthy(j) then j else default
  }

  /** The objects of a list, in order, with every non-object element dropped. */
  function Objects(items: seq<Json>): (r: seq<map<string, Json>>)
    ensures |r| <= |items|
  {
    if items == [] then []
    else
      var rest := Objects(items[1..]);
      match items[0]
      case JObj(o) => [o] + rest
      case _ => rest
  }

  /** How many elements of a list are objects. */
  function CountObjects(items: seq<Json>): nat
  {
    if items == [] then 0
    else (if items[0].JObj? then 1 else 0) + CountObjects(items[1..])
  }

  lemma {:induction false} ObjectsLength(items: seq<Json>)
    ensures |Objects(items)| == CountObjects(items)
  {
    if items != [] {
      ObjectsLength(items[1..]);
    }
  }

  /** Filtering distributes over concatenation: the kept objects keep their relative order. */
  lemma {:induction false} ObjectsAppend(a: seq<Json>, b: seq<Json>)
    ensures Objects(a + b) == Objects(a) + Objects(b)
  {
    if a == [] {
      assert a + b == b;
    } else {
      assert (a + b)[1..] == a[1..] + b;
      ObjectsAppend(a[1..], b);
    }
  }

  /** One more element: the step a loop that skips non-objects takes. */
  lemma ObjectsSnoc(items: seq<Json>, x: Json)
    ensures Objects(items + [x]) == Objects(items) + (if x.JObj? then [x.fields] else [])
  {
    ObjectsAppend(items, [x]);
    assert Objects([x]) == (if x.JObj? then [x.fields] else []);
  }

  /** A list made only of objects loses nothing. */
  lemma {:induction false} ObjectsOfAllObjects(items: seq<Json>)
    requires forall k :: 0 <= k < |items| ==> items[k].JObj?
    ensures |Objects(items)| == |items|
    ensures forall k :: 0 <= k < |items| ==> Objects(items)[k] == items[k].fields
  {
    if items != [] {
      ObjectsOfAllObjects(items[1..]);
    }
  }

  /** A list with no object at all gives nothing. */
  lemma {:induction false} ObjectsOfNoObjects(items: seq<Json>)
    requires forall k :: 0 <= k < |items| ==> !items[k].JObj?
    ensures Objects(items) == []
  {
    if items != [] {
      ObjectsOfNoObjects(items[1..]);
    }
  }

  /**
   * Converting every element of a list where one failure aborts the whole
   * conversion, as a Python loop does when one constructor raises.
   */
  function MapAll<A, B>(xs: seq<A>, f: A -> Option<B>): (r: Option<seq<B>>)
    ensures r.Some? ==> |r.value| == |xs|
  {
    if xs == [] then Some([])
    else
      match MapAll(xs[..|xs| - 1], f)
      case None => None
      case Some(ys) =>
        match f(xs[|xs| - 1])
        case None => None
        case Some(y) => Some(ys + [y])
  }

  /** `MapAll` succeeds exactly when every element converts, and then element k is the conversion of element k. */
  lemma {:induction false} MapAllAt<A, B>(xs: seq<A>, f: A -> Option<B>)
    ensures MapAll(xs, f).Some? <==> forall k :: 0 <= k < |xs| ==> f(xs[k]).Some?
    ensures MapAll(xs, f).Some? ==> forall k :: 0 <= k < |xs| ==> MapAll(xs, f).value[k] == f(xs[k]).value
  {
    if xs != [] {
      var init := xs[..|xs| - 1];
      MapAllAt(init, f);
      assert forall k :: 0 <= k < |init| ==> init[k] == xs[k];
    }
  }

  /** Once a prefix fails, the whole list fails. */
  lemma {:induction false} MapAllPrefixFails<A, B>(xs: seq<A>, ys: seq<A>, f: A -> Option<B>)
    requires MapAll(xs, f).None?
    ensures MapAll(xs + ys, f).None?
  {
    MapAllAt(xs, f);
    MapAllAt(xs + ys, f);
    var k :| 0 <= k < |xs| && f(xs[k]).None?;
    assert (xs + ys)[k] == xs[k];
  }

  /** The step of a loop that converts `xs[i]` after `xs[..i]`: it extends the result, or the whole list fails. */
  lemma MapAllStep<A, B>(xs: seq<A>, i: nat, f: A -> Option<B>, acc: seq<B>)
    requires i < |xs| && MapAll(xs[..i], f) == Some(acc)
    ensures f(xs[i]).Some? ==> MapAll(xs[..i + 1], f) == Some(acc + [f(xs[i]).value])
    ensures f(xs[i]).None? ==> MapAll(xs, f).None?
  {
    if f(xs[i]).None? {
      MapAllFailsAt(xs, i, f);
    } else {
      var ys := xs[..i + 1];
      assert ys[..|ys| - 1] == xs[..i];
      assert ys[|ys| - 1] == xs[i];
    }
  }

  /** One element that does not convert makes the whole list fail. */
  lemma {:induction false} MapAllFailsAt<A, B>(xs: seq<A>, i: nat, f: A -> Option<B>)
    requires i < |xs| && f(xs[i]).None?
    ensures MapAll(xs, f).None?
  {
    if i < |xs| - 1 {
      var init := xs[..|xs| - 1];
      assert init[i] == xs[i];
      MapAllFailsAt(init, i, f);
    }
  }

  /** One more element: the step a loop over the list takes. */
  lemma MapAllSnoc<A, B>(xs: seq<A>, x: A, f: A -> Option<B>)
    ensures MapAll(xs + [x], f) ==
      if MapAll(xs, f).Some? && f(x).Some? then Some(MapAll(xs, f).value + [f(x).value]) else None
  {
    assert (xs + [x])[..|xs + [x]| - 1] == xs;
  }

  /**
   * The loop the routers run over a list read from the database: elements
   * that are not dicts are skipped, each dict is converted in order, and a
   * conversion that raises aborts the loop (`None`).
   */
  method CollectObjects<B>(raw: seq<Json>, convert: map<string, Json> -> Option<B>) returns (r: Option<seq<B>>)
    ensures r == MapAll(Objects(raw), convert)
  {
    var out: seq<B> := [];
    var i := 0;
    while i < |raw|
      invariant 0 <= i <= |raw|
      invariant MapAll(Objects(raw[..i]), convert) == Some(out)
    {
      assert raw[..i + 1] == raw[..i] + [raw[i]];
      ObjectsSnoc(raw[..i], raw[i]);
      if raw[i].JObj? {
        var item := convert(raw[i].fields);
        MapAllSnoc(Objects(raw[..i]), raw[i].fields, convert);
        if item.None? {
          assert raw == raw[..i + 1] + raw[i + 1..];
          ObjectsAppend(raw[..i + 1], raw[i + 1..]);
          MapAllPrefixFails(Objects(raw[..i + 1]), Objects(raw[i + 1..]), convert);
          return None;
        }
        out := out + [item.value];
      } else {
        assert Objects(raw[..i]) + [] == Objects(raw[..i]);
      }
      i := i + 1;
    }
    assert raw[..i] == raw;
    r := Some(out);
  }

  /**
   * A dict comprehension `{key(row): value(row) for row in rows}`: a later
   * row overwrites an earlier one with the same key, and the comprehension
   * raises (`None`) when `key` raises on some row.
   */
  function IndexBy<K>(rows: seq<Json>, key: Json -> Option<K>, value: Json -> Json): Option<map<K, Json>>
  {
    if rows == [] then Some(map[])
    else
      var last := rows[|rows| - 1];
      match IndexBy(rows[..|rows| - 1], key, value)
      case None => None
      case Some(m) =>
        match key(last)
        case None => None
        case Some(k) => Some(m[k := value(last)])
  }

  /** The comprehension succeeds exactly when every row has a key. */
  lemma {:induction false} IndexByDefined<K>(rows: seq<Json>, key: Json -> Option<K>, value: Json -> Json)
    ensures IndexBy(rows, key, value).Some? <==> forall k :: 0 <= k < |rows| ==> key(rows[k]).Some?
  {
    if rows != [] {
      var init := rows[..|rows| - 1];
      IndexByDefined(init, key, value);
      assert forall k :: 0 <= k < |init| ==> init[k] == rows[k];
    }
  }

  /** The keys of the result are exactly the keys of the rows. */
  lemma {:induction false} IndexByKeys<K>(rows: seq<Json>, key: Json -> Option<K>, value: Json -> Json)
    requires forall k :: 0 <= k < |rows| ==> key(rows[k]).Some?
    ensures IndexBy(rows, key, value).Some?
    ensures forall id :: id in IndexBy(rows, key, value).value <==> exists k :: 0 <= k < |rows| && key(rows[k]) == Some(id)
  {
    IndexByDefined(rows, key, value);
    if rows != [] {
      var n := |rows| - 1;
      var init := rows[..n];
      assert forall k :: 0 <= k < |init| ==> init[k] == rows[k];
      IndexByKeys(init, key, value);
      forall id
        ensures id in IndexBy(rows, key, value).value <==> exists k :: 0 <= k < |rows| && key(rows[k]) == Some(id)
      {
        if key(rows[n]) == Some(id) {
          assert id in IndexBy(rows, key, value).value;
        } else {
          if id in IndexBy(rows, key, value).value {
            var k :| 0 <= k < |init| && key(init[k]) == Some(id);
            assert key(rows[k]) == Some(id);
          }
          if exists k :: 0 <= k < |rows| && key(rows[k]) == Some(id) {
            var k :| 0 <= k < |rows| && key(rows[k]) == Some(id);
            assert k < n && key(init[k]) == Some(id);
          }
        }
      }
    }
  }

  /** A row that no later row with the same key follows decides its key's entry: the last one wins. */
  lemma {:induction false} IndexByLastWins<K>(rows: seq<Json>, key: Json -> Option<K>, value: Json -> Json, k: nat)
    requires forall j :: 0 <= j < |rows| ==> key(rows[j]).Some?
    requires k < |rows|
    requires forall j :: k < j < |rows| ==> key(rows[j]) != key(rows[k])
    ensures IndexBy(rows, key, value).Some? && key(rows[k]).value in IndexBy(rows, key, value).value
    ensures IndexBy(rows, key, value).value[key(rows[k]).value] == value(rows[k])
  {
    IndexByDefined(rows, key, value);
    var n := |rows| - 1;
    if k < n {
      var init := rows[..n];
      assert forall j :: 0 <= j < |init| ==> init[j] == rows[j];
      IndexByLastWins(init, key, value, k);
      assert key(rows[n]) != key(rows[k]);
    }
  }

  // ---------------------------------------------------------------------
  // Field validation as pydantic performs it when a model is built from a
  // dict. `None` means the model constructor raised a validation error.
  // ---------------------------------------------------------------------

  /** A `str` field. */
  function AsStr(j: Json): (r: Option<string>)
    ensures r.Some? <==> j.JStr?
    ensures r.Some? ==> r.value == j.s
  {
    if j.JStr? then Some(j.s) else None
  }

  /** An `Optional[str]` field: `None` is accepted as well. */
  function AsOptStr(j: Json): (r: Option<Option<string>>)
    ensures r.Some? <==> (j.JStr? || j.JNull?)
    ensures r == Some(None) <==> j.JNull?
    ensures j.JStr? ==> r == Some(Some(j.s))
  {
    match j
    case JNull => Some(None)
    case JStr(s) => Some(Some(s))
    case _ => None
  }

  /** An `int` field: a number without a fractional part. */
  function AsInt(j: Json): (r: Option<int>)
    ensures r.Some? <==> (j.JNum? && j.n.Floor as real == j.n)
    ensures r.Some? ==> r.value as real == j.n
  {
    if j.JNum? && j.n.Floor as real == j.n then Some(j.n.Floor) else None
  }

  /** A `float` field. */
  function AsFloat(j: Json): (r: Option<real>)
    ensures r.Some? <==> j.JNum?
    ensures r.Some? ==> r.value == j.n
  {
    if j.JNum? then Some(j.n) else None
  }

  /** An `Optional[float]` field. */
  function AsOptFloat(j: Json): (r: Option<Option<real>>)
    ensures r.Some? <==> (j.JNum? || j.JNull?)
    ensures r == Some(None) <==> j.JNull?
    ensures j.JNum? ==> r == Some(Some(j.n))
  {
    match j
    case JNull => Some(None)
    case JNum(n) => Some(Some(n))
    case _ => None
  }

  /** A `bool` field. */
  function AsBool(j: Json): (r: Option<bool>)
    ensures r.Some? <==> j.JBool?
    ensures r.Some? ==> r.value == j.b
  {
    if j.JBool? then Some(j.b) else None
  }

  /** A `List[Any]` field. */
  function AsList(j: Json): (r: Option<seq<Json>>)
    ensures r.Some? <==> j.JArr?
    ensures r.Some? ==> r.value == j.items
  {
    if j.JArr? then Some(j.items) else None
  }

  /** A `List[Dict[str, Any]]` field: a list every element of which is an object. */
  function AsObjectList(j: Json): (r: Option<seq<map<string, Json>>>)
    ensures r.Some? <==> (j.JArr? && forall k :: 0 <= k < |j.items| ==> j.items[k].JObj?)
    ensures r.Some? ==> |r.value| == |j.items|
    ensures r.Some? ==> forall k :: 0 <= k < |j.items| ==> r.value[k] == j.items[k].fields
  {
    if j.JArr? && forall k :: 0 <= k < |j.items| ==> j.items[k].JObj? then
      ObjectsOfAllObjects(j.items);
      Some(Objects(j.items))
    else None
  }
}
