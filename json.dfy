/** JavaScript values as the mock services store them: JSON data, with an object
    modelled as a map from key to value. A key that is absent from the map is the
    JavaScript `undefined` (JSON.stringify drops such keys). Numbers are integers:
    money is in cents and time in milliseconds, so NaN never arises. */
module Json {
  import opened Common

  datatype Json =
    | Null
    | Bool(b: bool)
    | Num(n: int)
    | Str(s: string)
    | Arr(elems: seq<Json>)
    | Obj(fields: map<string, Json>)

  /** A plain JavaScript object. */
  type Record = map<string, Json>

  /** `obj.key`: the value under the key, or None for undefined. */
  function Get(r: Record, key: string): (v: Option<Json>)
    ensures v.Some? <==> key in r
    ensures v.Some? ==> v.value == r[key]
  {
    if key in r then Some(r[key]) else None
  }

  /** JavaScript truthiness; undefined is falsy. */
  predicate Truthy(v: Option<Json>) {
    match v
    case None => false
    case Some(Null) => false
    case Some(Bool(b)) => b
    case Some(Num(n)) => n != 0
    case Some(Str(s)) => s != ""
    case Some(Arr(_)) => true
    case Some(Obj(_)) => true
  }

  /** `a || b` on JavaScript values. */
  function Or(a: Option<Json>, b: Option<Json>): (r: Option<Json>)
    ensures Truthy(a) ==> r == a
    ensures !Truthy(a) ==> r == b
  {
    if Truthy(a) then a else b
  }

  /** `a === b` on two values freshly parsed from storage: primitives compare by
      value, while two separately parsed arrays or objects are never the same
      reference. */
  predicate StrictEq(a: Option<Json>, b: Option<Json>) {
    a == b && (a.None? || !(a.value.Arr? || a.value.Obj?))
  }

  /** `{...base, ...patch}`: every key of the patch overrides the base. */
  function Spread(base: Record, patch: Record): (r: Record)
    ensures r.Keys == base.Keys + patch.Keys
    ensures forall k :: k in patch ==> r[k] == patch[k]
    ensures forall k :: k in base && k !in patch ==> r[k] == base[k]
  {
    base + patch
  }
}
