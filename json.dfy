/**
  The JavaScript values that the cache and the entity contexts pass around: whatever
  JSON.parse can produce. Object properties are kept in insertion order, as JavaScript
  keeps them, so that two values are equal exactly when JSON.stringify prints them alike.
 */
module Json {
  import opened Wrappers

  datatype Json =
    | JNull
    | JBool(b: bool)
    | JNum(n: real)
    | JStr(s: string)
    | JArr(items: seq<Json>)
    | JObj(fields: seq<Field>)

  datatype Field = Field(key: string, val: Json)

  /** JavaScript truthiness: null, false, 0 and "" are falsy; every array and object is truthy. */
  predicate Truthy(j: Json) {
    match j
    case JNull => false
    case JBool(b) => b
    case JNum(n) => n != 0.0
    case JStr(s) => s != ""
    case _ => true
  }

  /** `deepEqual(a, b)`, i.e. `JSON.stringify(a) === JSON.stringify(b)`. Object fields are taken
      to be in the order JavaScript gives them (integer-like keys first); on values so ordered
      the serialisation is injective, so it is structural equality. */
  predicate DeepEqual(a: Json, b: Json) {
    a == b
  }

  /** The property names of an object, in order. */
  function Keys(fs: seq<Field>): seq<string> {
    if fs == [] then [] else [fs[0].key] + Keys(fs[1..])
  }

  predicate Has(fs: seq<Field>, k: string) {
    k in Keys(fs)
  }

  /** A JavaScript object never holds the same property twice. */
  predicate UniqueKeys(fs: seq<Field>) {
    fs == [] || (fs[0].key !in Keys(fs[1..]) && UniqueKeys(fs[1..]))
  }

  /** `obj[k]`, with None for `undefined` */
  function Get(fs: seq<Field>, k: string): (r: Option<Json>)
    ensures r.Some? <==> Has(fs, k)
  {
    if fs == [] then None
    else if fs[0].key == k then Some(fs[0].val)
    else Get(fs[1..], k)
  }

  /** `{...obj, [k]: v}`: an existing property keeps its place, a new one goes last. */
  function Assign(fs: seq<Field>, k: string, v: Json): (r: seq<Field>)
    ensures forall j :: Get(r, j) == if j == k then Some(v) else Get(fs, j)
    ensures Keys(r) == if Has(fs, k) then Keys(fs) else Keys(fs) + [k]
    ensures UniqueKeys(fs) ==> UniqueKeys(r)
  {
    if fs == [] then [Field(k, v)]
    else if fs[0].key == k then [Field(k, v)] + fs[1..]
    else
      var rest := Assign(fs[1..], k, v);
      assert ([fs[0]] + rest)[1..] == rest;
      [fs[0]] + rest
  }

  /** `{...a, ...b}`: the properties of `b` are assigned over `a` one after the other. */
  function Spread(a: seq<Field>, b: seq<Field>): (r: seq<Field>)
    ensures UniqueKeys(b) ==> forall k :: Get(r, k) == if Has(b, k) then Get(b, k) else Get(a, k)
    ensures UniqueKeys(a) ==> UniqueKeys(r)
    ensures forall k :: Has(a, k) ==> Has(r, k)
    decreases |b|
  {
    if b == [] then a
    else Spread(Assign(a, b[0].key, b[0].val), b[1..])
  }

  /** The object without property `k`; what JSON.stringify prints for `{...obj, k: undefined}`. */
  function Unset(fs: seq<Field>, k: string): (r: seq<Field>)
    ensures forall j :: Get(r, j) == if j == k then None else Get(fs, j)
    ensures UniqueKeys(fs) ==> UniqueKeys(r)
    ensures forall j :: j in Keys(r) ==> j in Keys(fs)
  {
    if fs == [] then []
    else if fs[0].key == k then Unset(fs[1..], k)
    else
      var rest := Unset(fs[1..], k);
      assert ([fs[0]] + rest)[1..] == rest;
      assert Keys([fs[0]] + rest) == [fs[0].key] + Keys(rest);
      [fs[0]] + rest
  }

  /** `obj[k]` is the first property named `k`. */
  lemma {:induction false} GetAt(fs: seq<Field>, i: nat, k: string)
    requires i < |fs| && fs[i].key == k
    requires forall j :: 0 <= j < i ==> fs[j].key != k
    ensures Get(fs, k) == Some(fs[i].val)
  {
    if i > 0 {
      GetAt(fs[1..], i - 1, k);
    }
  }

  /** `x?.k` */
  function Prop(x: Option<Json>, k: string): Option<Json> {
    if x.Some? && x.value.JObj? then Get(x.value.fields, k) else None
  }

  /** `x || fallback` */
  function OrElse(x: Option<Json>, fallback: Json): (r: Json)
    ensures x.Some? && Truthy(x.value) ==> r == x.value
    ensures (x.None? || !Truthy(x.value)) ==> r == fallback
  {
    if x.Some? && Truthy(x.value) then x.value else fallback
  }

  /** The own properties that `{...x}` copies: an object's fields; other values are taken to add none. */
  function OwnFields(x: Json): seq<Field> {
    if x.JObj? then x.fields else []
  }

  /** A value the network or the cache can hand over: objects, at every depth of the top level, have unique keys. */
  predicate WellFormedObject(x: Json) {
    x.JObj? ==> UniqueKeys(x.fields)
  }

  /** `v && typeof v === 'object' && k in v` */
  predicate IsObjectWith(v: Json, k: string) {
    v.JObj? && Has(v.fields, k)
  }
}
