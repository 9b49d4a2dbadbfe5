/** Request bodies and judge outputs are JSON values handled with Python's
    dynamic typing. This module fixes the value type and the handful of
    Python operations the request handlers apply to it: truthiness, `x or {}`,
    `int(x)`, `float(x)`, `isinstance(x, (int, float))`, `key in x`, `x[key]`
    and `x.get(key, default)`, and the "missing required fields" check the
    endpoints share. */
module PyJson {
  import opened Wrappers
  import opened Text

  /** A decoded JSON value. Objects are maps, so key order is not modelled. */
  datatype Json =
    | JNull
    | JBool(b: bool)
    | JInt(i: int)
    | JFloat(f: real)
    | JStr(s: string)
    | JArr(items: seq<Json>)
    | JObj(fields: map<string, Json>)

  /** Python's `bool(v)`. */
  predicate Truthy(v: Json) {
    match v
    case JNull => false
    case JBool(b) => b
    case JInt(i) => i != 0
    case JFloat(f) => f != 0.0
    case JStr(s) => s != []
    case JArr(items) => items != []
    case JObj(fields) => fields != map[]
  }

  /** `a or b` */
  function Or(a: Json, b: Json): (r: Json)
    ensures Truthy(a) ==> r == a
    ensures !Truthy(a) ==> r == b
  {
    if Truthy(a) then a else b
  }

  /** `request.get_json(silent=True) or {}`: a missing or unparsable body,
      and any falsy body, become the empty object. */
  function RequestPayload(body: Option<Json>): (r: Json)
    ensures r == JObj(map[]) || (body.Some? && r == body.value && Truthy(r))
    ensures body.Some? && Truthy(body.value) ==> r == body.value
  {
    match body
    case None => JObj(map[])
    case Some(v) => Or(v, JObj(map[]))
  }

  /** Python's `int(f)` for a float: truncation toward zero. */
  function TruncateReal(f: real): (r: int)
    ensures r as real <= f < r as real + 1.0 || r as real - 1.0 < f <= r as real
    ensures 0.0 <= f ==> r as real <= f < r as real + 1.0
    ensures f < 0.0 ==> r as real - 1.0 < f <= r as real
  {
    if f >= 0.0 then f.Floor else -((-f).Floor)
  }

  /** `int(v)`; `None` stands for the `TypeError`/`ValueError` the callers catch. */
  function ToInt(v: Json): (r: Option<int>)
    ensures v.JInt? ==> r == Some(v.i)
    ensures v.JBool? ==> r == Some(if v.b then 1 else 0)
    ensures v.JFloat? ==> r == Some(TruncateReal(v.f))
    ensures v.JStr? ==> r == ParseInt(v.s)
    ensures v.JNull? || v.JArr? || v.JObj? ==> r.None?
  {
    match v
    case JBool(b) => Some(if b then 1 else 0)
    case JInt(i) => Some(i)
    case JFloat(f) => Some(TruncateReal(f))
    case JStr(s) => ParseInt(s)
    case _ => None
  }

  /** `float(v)`; `None` stands for the `TypeError`/`ValueError` the callers catch. */
  function ToFloat(v: Json): (r: Option<FloatValue>)
    ensures v.JInt? ==> r == Some(Finite(v.i as real))
    ensures v.JFloat? ==> r == Some(Finite(v.f))
    ensures v.JNull? || v.JArr? || v.JObj? ==> r.None?
  {
    match v
    case JBool(b) => Some(Finite(if b then 1.0 else 0.0))
    case JInt(i) => Some(Finite(i as real))
    case JFloat(f) => Some(Finite(f))
    case JStr(s) => ParseFloat(s)
    case _ => None
  }

  /** `isinstance(v, (int, float))`; `bool` is a subclass of `int`. */
  predicate IsNumber(v: Json) {
    v.JBool? || v.JInt? || v.JFloat?
  }

  /** `float(v)` for a value that `IsNumber` admits. */
  function NumberValue(v: Json): real
    requires IsNumber(v)
  {
    match v
    case JBool(b) => if b then 1.0 else 0.0
    case JInt(i) => i as real
    case JFloat(f) => f
  }

  /** `key in v` is defined (raises no `TypeError`) for dicts, lists and strings. */
  predicate SupportsIn(v: Json) {
    v.JObj? || v.JArr? || v.JStr?
  }

  predicate IsSubstring(k: string, s: string) {
    exists i :: 0 <= i <= |s| && k <= s[i..]
  }

  /** `key in v` for a string key: a dict key, a list element equal to the
      string, or a substring. */
  predicate In(v: Json, key: string)
    requires SupportsIn(v)
  {
    match v
    case JObj(fields) => key in fields
    case JArr(items) => JStr(key) in items
    case JStr(s) => IsSubstring(key, s)
  }

  /** `v[key]` for a string key; `None` stands for the `KeyError` or
      `TypeError` Python raises. */
  function Subscript(v: Json, key: string): (r: Option<Json>)
    ensures r.Some? <==> v.JObj? && key in v.fields
    ensures r.Some? ==> r.value == v.fields[key]
  {
    if v.JObj? && key in v.fields then Some(v.fields[key]) else None
  }

  /** `fields.get(key, default)` */
  function GetOr(fields: map<string, Json>, key: string, default: Json): (r: Json)
    ensures key in fields ==> r == fields[key]
    ensures key !in fields ==> r == default
  {
    if key in fields then fields[key] else default
  }

  /** The required keys `payload` lacks, in the order they were given. */
  function Absent(payload: Json, required: seq<string>): (r: seq<string>)
    requires SupportsIn(payload)
    ensures forall k :: k in r <==> k in required && !In(payload, k)
    ensures r == [] <==> forall k :: k in required ==> In(payload, k)
    ensures |r| <= |required|
  {
    if required == [] then []
    else
      var rest := Absent(payload, required[1..]);
      assert required == [required[0]] + required[1..];
      if In(payload, required[0]) then rest else [required[0]] + rest
  }

  /** `sorted(k for k in required if k not in payload)`; `None` when the
      membership test raises `TypeError`. */
  function MissingFields(payload: Json, required: seq<string>): (r: Option<seq<string>>)
    ensures r.None? <==> !SupportsIn(payload) && required != []
    ensures r.Some? ==> Sorted(r.value)
    ensures r.Some? && SupportsIn(payload) ==>
      (forall k :: k in r.value <==> k in required && !In(payload, k)) &&
      (r.value == [] <==> forall k :: k in required ==> In(payload, k))
  {
    if !SupportsIn(payload) then
      if required == [] then Some([]) else None
    else
      var a := Absent(payload, required);
      var s := Sort(a);
      assert forall k :: k in s <==> k in multiset(s);
      assert forall k :: k in a <==> k in multiset(a);
      assert |s| == |multiset(s)| == |multiset(a)| == |a|;
      Some(s)
  }

  /** The list of missing fields is there and non-empty exactly when the
      payload supports `in` and lacks a required key. */
  lemma MissingIffAbsent(payload: Json, required: seq<string>)
    ensures var mf := MissingFields(payload, required);
      (mf.Some? && mf.value != []) <==> SupportsIn(payload) && exists k :: k in required && !In(payload, k)
  {
    var mf := MissingFields(payload, required);
    if mf.Some? && mf.value != [] {
      var k := mf.value[0];
      assert k in mf.value;
    }
  }

  /** The 400 message for a non-empty list of missing fields. */
  function MissingMessage(missing: seq<string>): string
  {
    "Missing required fields: " + Join(", ", missing)
  }

  /** How a request handler ends when it does not succeed: the error
      response it returns, with its HTTP status, or an exception that escapes
      it (which the framework answers with a 500). */
  datatype ApiError = Reject(code: int, message: string) | Raised

  /** `int(payload[key])`; `None` when the subscript or the conversion raises. */
  function IntField(payload: Json, key: string): (r: Option<int>)
    ensures r.Some? ==> payload.JObj? && key in payload.fields && ToInt(payload.fields[key]) == r
    ensures payload.JObj? && key in payload.fields ==> r == ToInt(payload.fields[key])
  {
    match Subscript(payload, key)
    case None => None
    case Some(v) => ToInt(v)
  }

  /** `str(v)`. Strings, integers, booleans and `None` are rendered here;
      `repr` renders floats, lists and dicts. */
  function Str(v: Json, repr: Json -> string): (r: string)
    ensures v.JStr? ==> r == v.s
    ensures v.JInt? ==> r == IntToString(v.i)
    ensures v.JBool? ==> r == (if v.b then "True" else "False")
    ensures v.JNull? ==> r == "None"
  {
    match v
    case JNull => "None"
    case JBool(b) => if b then "True" else "False"
    case JInt(i) => IntToString(i)
    case JStr(s) => s
    case _ => repr(v)
  }

  /** `str(i)` read back by `int()` gives `i`. */
  lemma ToIntOfRenderedInt(i: int)
    ensures ToInt(JStr(IntToString(i))) == Some(i)
  {
    ParseIntOfIntToString(i);
  }
}
