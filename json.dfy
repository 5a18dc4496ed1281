/** JavaScript values as they come out of `JSON.parse`, plus the two
    non-JSON values the application builds from them: `undefined` (a
    missing property) and a `Date` object. Numbers are integers. */
module Json {
  import opened Seqs
  import opened JsText

  datatype Json =
    | JUndefined
    | JNull
    | JBool(b: bool)
    | JNum(n: int)
    | JStr(s: string)
    | JArr(items: seq<Json>)
    | JObj(fields: map<string, Json>)
      /** `new Date(source)`: the date is kept as the value it was built from. */
    | JDate(source: Json)

  /** JavaScript truthiness: `undefined`, `null`, `false`, `0` and `""` are
      falsy, every other value is truthy. */
  predicate Truthy(v: Json)
  {
    match v
    case JUndefined => false
    case JNull => false
    case JBool(b) => b
    case JNum(n) => n != 0
    case JStr(s) => s != ""
    case _ => true
  }

  /** Converting `v` to a primitive succeeds, as `String(v)`, a template
      literal, `Array.prototype.join` and `new Date(v)` do it. A parsed value
      holds no functions, so an object with an own `toString` field has
      neither a callable `toString` nor a `valueOf` giving a primitive, and
      the conversion throws a TypeError; any other object becomes
      "[object Object]", and an array converts each of its elements. */
  predicate ConvertsToPrimitive(v: Json)
  {
    match v
    case JObj(fields) => "toString" !in fields
    case JArr(items) => forall i :: 0 <= i < |items| ==> ConvertsToPrimitive(items[i])
    case _ => true
  }

  /** `a || b`: `a` when it is truthy, otherwise `b`. */
  function Or(a: Json, b: Json): (r: Json)
    ensures Truthy(a) ==> r == a
    ensures !Truthy(a) ==> r == b
  {
    if Truthy(a) then a else b
  }

  /** Reading `v.key`: a TypeError (None) on `null` and `undefined`, and the
      field of an object or `undefined`. For an array or a string this
      gives `undefined` even for the keys they do have (indices and
      `length`): every read here is of a named field, or goes through
      `OptFirst`, which indexes arrays itself. */
  function Get(v: Json, key: string): (r: Option<Json>)
    ensures r.None? <==> v.JUndefined? || v.JNull?
    ensures v.JObj? && key in v.fields ==> r == Some(v.fields[key])
    ensures v.JObj? && key !in v.fields ==> r == Some(JUndefined)
  {
    match v
    case JUndefined => None
    case JNull => None
    case JObj(fields) => Some(if key in fields then fields[key] else JUndefined)
    case _ => Some(JUndefined)
  }

  /** Reading `v?.key`: like `Get`, but `undefined` instead of a TypeError. */
  function OptGet(v: Json, key: string): Json
  {
    match Get(v, key)
    case Some(x) => x
    case None => JUndefined
  }

  /** Reading `v?.[0]`. */
  function OptFirst(v: Json): Json
  {
    match v
    case JArr(items) => if |items| > 0 then items[0] else JUndefined
    case _ => OptGet(v, "0")
  }

  /** The own enumerable properties `{...v}` copies: an object's fields;
      the indices of an array or string; nothing for any other value. */
  function Spread(v: Json): map<string, Json>
  {
    match v
    case JObj(fields) => fields
    case JArr(items) => IndexMap(items)
    case JStr(s) => IndexMap(seq(|s|, i requires 0 <= i < |s| => JStr([s[i]])))
    case _ => map[]
  }

  /** The map from `"0"`, `"1"`, … to the elements of `items`. */
  function IndexMap(items: seq<Json>): (m: map<string, Json>)
    ensures forall i :: 0 <= i < |items| ==> NatToString(i) in m && m[NatToString(i)] == items[i]
  {
    forall i, j | 0 <= i < |items| && 0 <= j < |items| && NatToString(i) == NatToString(j)
      ensures i == j
    {
      NatToStringInjective(i, j);
    }
    map i | 0 <= i < |items| :: NatToString(i) := items[i]
  }
}
