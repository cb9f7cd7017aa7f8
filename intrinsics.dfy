/**
 * `resolveIntrinsics`: the `JSON.stringify` replacer that rewrites a resource's resolved
 * CloudFormation properties before they are mapped. The replacer sees every value top-down,
 * with the property name or array index it sits under; what it returns is serialized in place
 * of the value and, when that is an array or object, descended into in turn.
 */
module Intrinsics {
  import opened Wrappers
  import opened Json
  import opened Base

  /**
   * What resolution consults: the resource being resolved (for error messages), its mapper's
   * reference mode, and the names of the chart's children by id.
   */
  datatype RefContext = RefContext(logicalId: string, refMapping: RefMapping, names: map<string, string>)

  /** `{ "Fn::...": ... }`: a single-key object whose key starts with `Fn::`. */
  predicate FnIntrinsic(v: Json) {
    v.JObject? && |v.members| == 1 && StartsWith(v.members[0].key, "Fn::")
  }

  /** `{ "Ref": ... }`: a single-key object whose key is `Ref`. */
  predicate RefIntrinsic(v: Json) {
    v.JObject? && |v.members| == 1 && v.members[0].key == "Ref"
  }

  /** A tree with no intrinsic left in it: what resolution produces and leaves alone. */
  predicate Inert(v: Json)
    decreases v
  {
    match v
    case JArray(items) => forall i :: 0 <= i < |items| ==> Inert(items[i])
    case JObject(ms) => !FnIntrinsic(v) && !RefIntrinsic(v) && forall i :: 0 <= i < |ms| ==> Inert(ms[i].value)
    case _ => true
  }

  /** A JSON null somewhere in the tree. */
  predicate HasNull(v: Json)
    decreases v
  {
    match v
    case JNull => true
    case JArray(items) => exists i :: 0 <= i < |items| && HasNull(items[i])
    case JObject(ms) => exists i :: 0 <= i < |ms| && HasNull(ms[i].value)
    case _ => false
  }

  /** An `Fn::` intrinsic somewhere in the tree. */
  predicate ContainsFn(v: Json)
    decreases v
  {
    || FnIntrinsic(v)
    || (v.JArray? && exists i :: 0 <= i < |v.items| && ContainsFn(v.items[i]))
    || (v.JObject? && exists i :: 0 <= i < |v.members| && ContainsFn(v.members[i].value))
  }

  /** The keys of an object's members, in order. */
  function Keys(ms: seq<Member>): (ks: seq<string>)
    ensures |ks| == |ms| && forall i :: 0 <= i < |ms| ==> ks[i] == ms[i].key
  {
    if ms == [] then [] else [ms[0].key] + Keys(ms[1..])
  }

  /**
   * A `Ref` to chart child `ref`: the child's name when the mapper resolves references by
   * name. Looking up a non-string id throws, as does an id the chart has no child for.
   */
  function ResolveRef(ref: Json, ctx: RefContext): (r: Outcome<Json>)
    ensures r.Success? <==> ref.JString? && ref.s in ctx.names && ctx.refMapping == ByName
    ensures r.Success? ==> r.value == JString(ctx.names[ref.s])
    ensures ref.JString? && ref.s !in ctx.names ==> r == Failure(UnknownChild(ref))
    ensures ref.JString? && ref.s in ctx.names && ctx.refMapping != ByName ==> r == Failure(UnsupportedRefMapping(ctx.refMapping))
  {
    if !ref.JString? then Failure(ScriptError)
    else if ref.s !in ctx.names then Failure(UnknownChild(ref))
    else
      match ctx.refMapping
      case ByName => Success(JString(ctx.names[ref.s]))
      case ByArn => Failure(UnsupportedRefMapping(ByArn))
  }

  /**
   * The replacer applied to `v` under `key`, then to what it returns. `Object.keys(null)`
   * throws, so a null anywhere in the tree is an error when `nullIsError` holds (the code as
   * written); with `nullIsError` false a null passes through like any other non-intrinsic.
   * The `Fn::` check comes before the `Ref` check, and a `Ref` is replaced without descending
   * into it.
   */
  function Resolve(key: Key, v: Json, ctx: RefContext, nullIsError: bool): (r: Outcome<Json>)
    ensures r.Success? ==> Inert(r.value)
    ensures r.Success? && nullIsError ==> !HasNull(r.value)
    ensures FnIntrinsic(v) ==> r == Failure(UnsupportedIntrinsic(v, key, ctx.logicalId))
    decreases v, 1
  {
    match v
    case JNull => if nullIsError then Failure(ScriptError) else Success(JNull)
    case JArray(items) =>
      var resolved :- ResolveItems(items, 0, ctx, nullIsError);
      Success(JArray(resolved))
    case JObject(ms) =>
      if FnIntrinsic(v) then Failure(UnsupportedIntrinsic(v, key, ctx.logicalId))
      else if RefIntrinsic(v) then ResolveRef(ms[0].value, ctx)
      else
        var resolved :- ResolveMembers(ms, ctx, nullIsError);
        Success(JObject(resolved))
    case _ => Success(v)
  }

  /** The replacer over an array's items, under their indices `start`, `start + 1`, ... */
  function ResolveItems(items: seq<Json>, start: nat, ctx: RefContext, nullIsError: bool): (r: Outcome<seq<Json>>)
    ensures r.Success? ==> |r.value| == |items|
    ensures r.Success? ==> forall i :: 0 <= i < |items| ==> Inert(r.value[i]) && (nullIsError ==> !HasNull(r.value[i]))
    decreases items, 0
  {
    if items == [] then Success([])
    else
      var head :- Resolve(Index(start), items[0], ctx, nullIsError);
      var tail :- ResolveItems(items[1..], start + 1, ctx, nullIsError);
      Success([head] + tail)
  }

  /** The replacer over an object's members, under their keys; the keys and their order are kept. */
  function ResolveMembers(ms: seq<Member>, ctx: RefContext, nullIsError: bool): (r: Outcome<seq<Member>>)
    ensures r.Success? ==> Keys(r.value) == Keys(ms)
    ensures r.Success? ==> forall i :: 0 <= i < |ms| ==> Inert(r.value[i].value) && (nullIsError ==> !HasNull(r.value[i].value))
    decreases ms, 0
  {
    if ms == [] then Success([])
    else
      var head :- Resolve(Prop(ms[0].key), ms[0].value, ctx, nullIsError);
      var tail :- ResolveMembers(ms[1..], ctx, nullIsError);
      Success([Member(ms[0].key, head)] + tail)
  }

  /** An `Fn::` intrinsic at any depth makes resolution throw. */
  lemma {:induction false} ContainsFnFails(key: Key, v: Json, ctx: RefContext, nullIsError: bool)
    requires ContainsFn(v)
    ensures Resolve(key, v, ctx, nullIsError).Failure?
    decreases v, 1
  {
    if FnIntrinsic(v) {
    } else if v.JArray? {
      ItemsContainingFnFail(v.items, 0, ctx, nullIsError);
    } else if RefIntrinsic(v) {
      assert ContainsFn(v.members[0].value);
    } else {
      MembersContainingFnFail(v.members, ctx, nullIsError);
    }
  }

  lemma {:induction false} ItemsContainingFnFail(items: seq<Json>, start: nat, ctx: RefContext, nullIsError: bool)
    requires exists i :: 0 <= i < |items| && ContainsFn(items[i])
    ensures ResolveItems(items, start, ctx, nullIsError).Failure?
    decreases items, 0
  {
    var i :| 0 <= i < |items| && ContainsFn(items[i]);
    if i == 0 {
      ContainsFnFails(Index(start), items[0], ctx, nullIsError);
    } else if Resolve(Index(start), items[0], ctx, nullIsError).Success? {
      assert items[1..][i - 1] == items[i];
      ItemsContainingFnFail(items[1..], start + 1, ctx, nullIsError);
    }
  }

  lemma {:induction false} MembersContainingFnFail(ms: seq<Member>, ctx: RefContext, nullIsError: bool)
    requires exists i :: 0 <= i < |ms| && ContainsFn(ms[i].value)
    ensures ResolveMembers(ms, ctx, nullIsError).Failure?
    decreases ms, 0
  {
    var i :| 0 <= i < |ms| && ContainsFn(ms[i].value);
    if i == 0 {
      ContainsFnFails(Prop(ms[0].key), ms[0].value, ctx, nullIsError);
    } else if Resolve(Prop(ms[0].key), ms[0].value, ctx, nullIsError).Success? {
      assert ms[1..][i - 1] == ms[i];
      MembersContainingFnFail(ms[1..], ctx, nullIsError);
    }
  }

  /** A tree without intrinsics (and, as written, without nulls) comes back unchanged. */
  lemma {:induction false} InertUnchanged(key: Key, v: Json, ctx: RefContext, nullIsError: bool)
    requires Inert(v) && (nullIsError ==> !HasNull(v))
    ensures Resolve(key, v, ctx, nullIsError) == Success(v)
    decreases v, 1
  {
    match v
    case JArray(items) => InertItemsUnchanged(items, 0, ctx, nullIsError);
    case JObject(ms) => InertMembersUnchanged(ms, ctx, nullIsError);
    case _ =>
  }

  lemma {:induction false} InertItemsUnchanged(items: seq<Json>, start: nat, ctx: RefContext, nullIsError: bool)
    requires forall i :: 0 <= i < |items| ==> Inert(items[i]) && (nullIsError ==> !HasNull(items[i]))
    ensures ResolveItems(items, start, ctx, nullIsError) == Success(items)
    decreases items, 0
  {
    if items != [] {
      InertUnchanged(Index(start), items[0], ctx, nullIsError);
      InertItemsUnchanged(items[1..], start + 1, ctx, nullIsError);
      assert [items[0]] + items[1..] == items;
    }
  }

  lemma {:induction false} InertMembersUnchanged(ms: seq<Member>, ctx: RefContext, nullIsError: bool)
    requires forall i :: 0 <= i < |ms| ==> Inert(ms[i].value) && (nullIsError ==> !HasNull(ms[i].value))
    ensures ResolveMembers(ms, ctx, nullIsError) == Success(ms)
    decreases ms, 0
  {
    if ms != [] {
      InertUnchanged(Prop(ms[0].key), ms[0].value, ctx, nullIsError);
      InertMembersUnchanged(ms[1..], ctx, nullIsError);
      assert [Member(ms[0].key, ms[0].value)] + ms[1..] == ms;
    }
  }

  /** Resolving a resolved tree again, against any chart, changes nothing. */
  lemma Idempotent(key: Key, v: Json, ctx: RefContext, ctx': RefContext, nullIsError: bool)
    requires Resolve(key, v, ctx, nullIsError).Success?
    ensures Resolve(key, Resolve(key, v, ctx, nullIsError).value, ctx', nullIsError) == Resolve(key, v, ctx, nullIsError)
  {
    InertUnchanged(key, Resolve(key, v, ctx, nullIsError).value, ctx', nullIsError);
  }

  /** `{Ref: id}` resolves as a reference to chart child `id`, never as an `Fn::` intrinsic. */
  lemma RefResolved(key: Key, id: string, ctx: RefContext, nullIsError: bool)
    ensures Resolve(key, JObject([Member("Ref", JString(id))]), ctx, nullIsError) == ResolveRef(JString(id), ctx)
  {
    assert !FnIntrinsic(JObject([Member("Ref", JString(id))]));
  }

  /**
   * A property `{Ref: id}` becomes the name of chart child `id` when references resolve by
   * name; the other properties are kept.
   */
  lemma {:induction false} RefMemberReplaced(ms: seq<Member>, i: nat, id: string, ctx: RefContext, nullIsError: bool)
    requires i < |ms| && ms[i].value == JObject([Member("Ref", JString(id))])
    requires forall j :: 0 <= j < |ms| && j != i ==> Inert(ms[j].value) && (nullIsError ==> !HasNull(ms[j].value))
    requires id in ctx.names && ctx.refMapping == ByName
    ensures ResolveMembers(ms, ctx, nullIsError) == Success(ms[i := Member(ms[i].key, JString(ctx.names[id]))])
    decreases ms
  {
    var replaced := Member(ms[i].key, JString(ctx.names[id]));
    if i == 0 {
      RefResolved(Prop(ms[0].key), id, ctx, nullIsError);
      InertMembersUnchanged(ms[1..], ctx, nullIsError);
      assert [replaced] + ms[1..] == ms[0 := replaced];
    } else {
      InertUnchanged(Prop(ms[0].key), ms[0].value, ctx, nullIsError);
      RefMemberReplaced(ms[1..], i - 1, id, ctx, nullIsError);
      assert [ms[0]] + ms[1..][i - 1 := replaced] == ms[i := replaced];
    }
  }

  /** As written, a single null property makes resolution throw (`Object.keys(null)`). */
  lemma NullPropertyThrows(ctx: RefContext)
    ensures Resolve(Prop(""), JObject([Member("tags", JNull)]), ctx, true) == Failure(ScriptError)
  {
    NotIntrinsic(JObject([Member("tags", JNull)]));
  }

  /** `tags` is neither `Ref` nor an `Fn::` name. */
  lemma NotIntrinsic(v: Json)
    requires v == JObject([Member("tags", JNull)])
    ensures !FnIntrinsic(v) && !RefIntrinsic(v)
  {
    assert "tags"[0] != "Fn::"[0];
  }

  /**
   * Corrected, null is passed through like any non-intrinsic value, and on every tree
   * without a null the corrected resolution agrees with the code as written.
   */
  lemma {:induction false} NullSafeAgrees(key: Key, v: Json, ctx: RefContext)
    requires !HasNull(v)
    ensures Resolve(key, v, ctx, false) == Resolve(key, v, ctx, true)
    decreases v, 1
  {
    match v
    case JArray(items) => NullSafeItemsAgree(items, 0, ctx);
    case JObject(ms) =>
      if !FnIntrinsic(v) && !RefIntrinsic(v) {
        NullSafeMembersAgree(ms, ctx);
      }
    case _ =>
  }

  lemma {:induction false} NullSafeItemsAgree(items: seq<Json>, start: nat, ctx: RefContext)
    requires forall i :: 0 <= i < |items| ==> !HasNull(items[i])
    ensures ResolveItems(items, start, ctx, false) == ResolveItems(items, start, ctx, true)
    decreases items, 0
  {
    if items != [] {
      NullSafeAgrees(Index(start), items[0], ctx);
      NullSafeItemsAgree(items[1..], start + 1, ctx);
    }
  }

  lemma {:induction false} NullSafeMembersAgree(ms: seq<Member>, ctx: RefContext)
    requires forall i :: 0 <= i < |ms| ==> !HasNull(ms[i].value)
    ensures ResolveMembers(ms, ctx, false) == ResolveMembers(ms, ctx, true)
    decreases ms, 0
  {
    if ms != [] {
      NullSafeAgrees(Prop(ms[0].key), ms[0].value, ctx);
      NullSafeMembersAgree(ms[1..], ctx);
    }
  }

  /** Corrected, the same single null property passes through. */
  lemma NullPropertyKept(ctx: RefContext)
    ensures Resolve(Prop(""), JObject([Member("tags", JNull)]), ctx, false) == Success(JObject([Member("tags", JNull)]))
  {
    NotIntrinsic(JObject([Member("tags", JNull)]));
    InertUnchanged(Prop(""), JObject([Member("tags", JNull)]), ctx, false);
  }
}
