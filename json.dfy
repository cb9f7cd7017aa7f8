/**
 * JSON values as the adapter sees them after `JSON.parse` or a manifest's `toJson()`,
 * JavaScript's view of them (property access, truthiness, optional chaining), and the
 * JSON Patch operations that the adapter appends to API objects.
 */
module Json {
  import opened Wrappers

  /** A JSON value. An object keeps its members in enumeration order. */
  datatype Json =
    | JNull
    | JBool(b: bool)
    | JNumber(n: real)
    | JString(s: string)
    | JArray(items: seq<Json>)
    | JObject(members: seq<Member>)

  datatype Member = Member(key: string, value: Json)

  /** A member of an object literal; an undefined (`None`) value is dropped on rendering. */
  datatype Entry = Entry(key: string, value: Option<Json>)

  /** The value of the first member named `k`. */
  function Find(ms: seq<Member>, k: string): Option<Json>
  {
    if ms == [] then None
    else if ms[0].key == k then Some(ms[0].value)
    else Find(ms[1..], k)
  }

  /** `j.k` for a `j` that is not null or undefined: undefined unless `j` is an object with member `k`. */
  function Get(j: Json, k: string): Option<Json>
  {
    if j.JObject? then Find(j.members, k) else None
  }

  /** The members of an object literal that are defined, in order. */
  function Defined(es: seq<Entry>): seq<Member>
  {
    if es == [] then []
    else (if es[0].value.Some? then [Member(es[0].key, es[0].value.value)] else []) + Defined(es[1..])
  }

  /** An object literal as rendered: its undefined members are left out. */
  function Obj(es: seq<Entry>): (r: Json)
    ensures r.JObject? && |r.members| <= |es|
  {
    LengthDefined(es);
    JObject(Defined(es))
  }

  lemma {:induction false} LengthDefined(es: seq<Entry>)
    ensures |Defined(es)| <= |es|
  {
    if es != [] {
      LengthDefined(es[1..]);
    }
  }

  /** Looking up past the head of an object literal. */
  lemma DefinedCons(es: seq<Entry>)
    requires es != []
    ensures forall k :: es[0].value.Some? && es[0].key == k ==> Find(Defined(es), k) == es[0].value
    ensures forall k :: !(es[0].value.Some? && es[0].key == k) ==> Find(Defined(es), k) == Find(Defined(es[1..]), k)
  {
    var rest := Defined(es[1..]);
    if es[0].value.Some? {
      var head := [Member(es[0].key, es[0].value.value)];
      assert Defined(es) == head + rest;
      assert (head + rest)[1..] == rest;
    } else {
      assert Defined(es) == rest;
    }
  }

  lemma {:induction false} DefinedMissing(es: seq<Entry>, k: string)
    requires forall j :: 0 <= j < |es| ==> es[j].key != k
    ensures Find(Defined(es), k) == None
  {
    if es != [] {
      DefinedMissing(es[1..], k);
      DefinedCons(es);
    }
  }

  /** Reading member `es[i].key` of an object literal whose keys are distinct gives the literal's value. */
  lemma {:induction false} ObjGet(es: seq<Entry>, i: nat)
    requires i < |es|
    requires forall j :: 0 <= j < |es| && j != i ==> es[j].key != es[i].key
    ensures Get(Obj(es), es[i].key) == es[i].value
  {
    DefinedCons(es);
    if i == 0 {
      DefinedMissing(es[1..], es[0].key);
    } else {
      ObjGet(es[1..], i - 1);
    }
  }

  /** `x == null || x === undefined`: the values on which `??` and `?.` fall back. */
  predicate Nullish(o: Option<Json>) {
    o.None? || o.value.JNull?
  }

  /** JavaScript truthiness of a possibly undefined value. Arrays and objects are truthy even when empty. */
  predicate Truthy(o: Option<Json>) {
    match o
    case None => false
    case Some(JNull) => false
    case Some(JBool(b)) => b
    case Some(JNumber(n)) => n != 0.0
    case Some(JString(s)) => s != ""
    case Some(JArray(_)) => true
    case Some(JObject(_)) => true
  }

  /** Optional chaining `o?.p0?.p1...`: undefined as soon as a step is null or undefined. */
  function Chain(o: Option<Json>, path: seq<string>): Option<Json>
    decreases path
  {
    if path == [] then o
    else if Nullish(o) then None
    else Chain(Get(o.value, path[0]), path[1..])
  }

  predicate StartsWith(s: string, prefix: string) {
    |prefix| <= |s| && s[..|prefix|] == prefix
  }

  /** A natural number in decimal, as a template literal renders it. */
  function Decimal(n: nat): (r: string)
    ensures r != [] && forall c :: c in r ==> '0' <= c <= '9'
  {
    if n < 10 then ["0123456789"[n]] else Decimal(n / 10) + ["0123456789"[n % 10]]
  }

  /**
   * A JSON Patch operation: `add` (section 4.1 of RFC 6902) and `remove` (section 4.2),
   * each at a path in the syntax of RFC 6901.
   */
  datatype Patch = Add(path: string, value: Json) | Remove(path: string)
}
