/**
 * The JavaScript / Firestore value model shared by the generator and the pages:
 * a document is a map from field names to values, a missing key is `undefined`.
 */
module Documents {
  import opened Wrappers

  datatype Value =
    | Null
    | Bool(b: bool)
    | Num(n: int)
    | Str(s: string)
    | Timestamp(millis: int)   // a Firestore Timestamp: the only value with toDate()
    | ServerTimestamp          // the serverTimestamp() sentinel, an opaque token
    | Arr(items: seq<Value>)
    | Obj(fields: map<string, Value>)

  type Doc = map<string, Value>

  /** JavaScript truthiness (NaN is not modelled). */
  predicate Truthy(v: Value) {
    match v
    case Null => false
    case Bool(b) => b
    case Num(n) => n != 0
    case Str(s) => s != ""
    case _ => true
  }

  /** `d.k` (or a lookup in a collection), with None for `undefined`. */
  function Get<K, V>(d: map<K, V>, k: K): (v: Option<V>)
    ensures v.Some? <==> k in d
    ensures v.Some? ==> v.value == d[k]
  {
    if k in d then Some(d[k]) else None
  }

  /** `d.k || fallback` */
  function FieldOr(d: Doc, k: string, fallback: Value): Value {
    if k in d && Truthy(d[k]) then d[k] else fallback
  }
}
