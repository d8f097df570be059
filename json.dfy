/**
 * JSON values as `JSON.parse` produces them, the few JavaScript operations the
 * source applies to them (property read, truthiness, `String(v)`), and the
 * response schemas handed to the model, with what it means for a value to
 * conform to one.
 */
module Json {
  import opened Wrappers
  import Text

  /** A parsed JSON value. Numbers are integers in this model. */
  datatype Json =
    | JNull
    | JBool(b: bool)
    | JNumber(n: int)
    | JString(s: string)
    | JArray(elems: seq<Json>)
    | JObject(members: seq<Member>)

  /** One `"key": value` pair of an object, in text order. */
  datatype Member = Member(key: string, value: Json)

  /** The value under `key` in a member list; when a key repeats, the last one wins, as in `JSON.parse`. */
  function Lookup(ms: seq<Member>, key: string): (r: Option<Json>)
    ensures r.Some? <==> exists i :: 0 <= i < |ms| && ms[i].key == key
  {
    if ms == [] then None
    else if ms[|ms| - 1].key == key then Some(ms[|ms| - 1].value)
    else Lookup(ms[..|ms| - 1], key)
  }

  /** Members appended after the last occurrence of a key do not change what it reads. */
  lemma {:induction false} LookupPastAbsent(ms: seq<Member>, more: seq<Member>, key: string)
    requires forall i :: 0 <= i < |more| ==> more[i].key != key
    ensures Lookup(ms + more, key) == Lookup(ms, key)
  {
    if more != [] {
      var all := ms + more;
      assert all[..|all| - 1] == ms + more[..|more| - 1];
      LookupPastAbsent(ms, more[..|more| - 1], key);
    } else {
      assert ms + more == ms;
    }
  }

  /** No member carries the key. */
  predicate Lacks(ms: seq<Member>, key: string)
  {
    forall i :: 0 <= i < |ms| ==> ms[i].key != key
  }

  lemma LacksConcat(a: seq<Member>, b: seq<Member>, key: string)
    ensures Lacks(a + b, key) <==> Lacks(a, key) && Lacks(b, key)
  {
    if Lacks(a, key) && Lacks(b, key) {
      forall i | 0 <= i < |a + b|
        ensures (a + b)[i].key != key
      {
        if i >= |a| {
          assert (a + b)[i] == b[i - |a|];
        }
      }
    }
    if Lacks(a + b, key) {
      forall i | 0 <= i < |a|
        ensures a[i].key != key
      {
        assert (a + b)[i] == a[i];
      }
      forall i | 0 <= i < |b|
        ensures b[i].key != key
      {
        assert (a + b)[|a| + i] == b[i];
      }
    }
  }

  /** Members before and after a stretch that lack a key do not change what it reads there. */
  lemma {:induction false} LookupIsolated(before: seq<Member>, mid: seq<Member>, after: seq<Member>, key: string)
    requires Lacks(before, key) && Lacks(after, key)
    ensures Lookup(before + mid + after, key) == Lookup(mid, key)
  {
    LookupPastAbsent(before + mid, after, key);
    if mid == [] {
      assert before + mid == before;
    } else {
      var both := before + mid;
      assert both[..|both| - 1] == before + mid[..|mid| - 1];
      assert both[|both| - 1] == mid[|mid| - 1];
      LookupIsolated(before, mid[..|mid| - 1], [], key);
      assert before + mid[..|mid| - 1] + [] == before + mid[..|mid| - 1];
    }
  }

  /** Members before a key's first occurrence do not change what it reads. */
  lemma LookupPastFront(front: seq<Member>, ms: seq<Member>, key: string)
    requires Lacks(front, key)
    ensures Lookup(front + ms, key) == Lookup(ms, key)
  {
    LookupIsolated(front, ms, [], key);
    assert front + ms + [] == front + ms;
  }

  /** `v[key]` on a parsed value: only objects have named properties here. */
  function Field(v: Json, key: string): Option<Json>
  {
    if v.JObject? then Lookup(v.members, key) else None
  }

  /** JavaScript's truthiness of a parsed value: `null`, `false`, `0` and `""` are falsy. */
  predicate Truthy(v: Json)
  {
    match v
    case JNull => false
    case JBool(b) => b
    case JNumber(n) => n != 0
    case JString(s) => s != ""
    case JArray(_) => true
    case JObject(_) => true
  }

  /**
   * `String(v)`, which `new Error(v)` applies to its argument: arrays are joined
   * with commas, with `null` elements written as nothing, and every object
   * reads "[object Object]".
   */
  function ToJsString(v: Json): string
  {
    match v
    case JNull => "null"
    case JBool(b) => if b then "true" else "false"
    case JNumber(n) => Text.IntToString(n)
    case JString(s) => s
    case JArray(xs) =>
      Text.Join(seq(|xs|, i requires 0 <= i < |xs| => if xs[i].JNull? then "" else ToJsString(xs[i])), ',')
    case JObject(_) => "[object Object]"
  }

  // ---------------------------------------------------------------------
  // Response schemas

  /** The subset of the model's schema language the handlers use. */
  datatype Schema =
    | SString
    | SNumber
    | SArray(items: Schema)
    | SObject(properties: seq<Property>, required: seq<string>)

  datatype Property = Property(name: string, schema: Schema)

  /**
   * `v` has the shape `sc` describes: the right kind of value, every required
   * key present, and every listed property that is present conforming in turn.
   * Keys the schema does not list are allowed.
   */
  predicate Conforms(v: Json, sc: Schema)
    decreases sc
  {
    match sc
    case SString => v.JString?
    case SNumber => v.JNumber?
    case SArray(items) =>
      v.JArray? && forall i :: 0 <= i < |v.elems| ==> Conforms(v.elems[i], items)
    case SObject(props, req) =>
      v.JObject? &&
      (forall k :: k in req ==> Lookup(v.members, k).Some?) &&
      (forall i :: 0 <= i < |props| ==>
        var f := Lookup(v.members, props[i].name);
        f.Some? ==> Conforms(f.value, props[i].schema))
  }

  /** A conforming object carries every key its schema requires, with a value of the listed shape. */
  lemma ConformsRequired(v: Json, props: seq<Property>, req: seq<string>, i: nat)
    requires Conforms(v, SObject(props, req))
    requires i < |props| && props[i].name in req
    ensures Field(v, props[i].name).Some?
    ensures Conforms(Field(v, props[i].name).value, props[i].schema)
  {
  }

  /** An object that lacks one required key does not conform, whatever else it holds. */
  lemma MissingRequiredKey(ms: seq<Member>, props: seq<Property>, req: seq<string>, k: string)
    requires k in req
    requires forall i :: 0 <= i < |ms| ==> ms[i].key != k
    ensures !Conforms(JObject(ms), SObject(props, req))
  {
  }
}
