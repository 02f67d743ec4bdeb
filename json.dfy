/** The values a Python program handles after `json.load` or while building
    MongoDB documents, with the Python operations the collectors apply to them. */
module Json {
  import opened Common
  import Text

  /** A decoded JSON value, or a Python `datetime` (JTime, in seconds), which
      the repository writes into documents but no JSON decoder produces. */
  datatype Json =
    | JNull
    | JBool(b: bool)
    | JInt(i: int)
    | JFloat(r: real)
    | JStr(s: string)
    | JArr(items: seq<Json>)
    | JObj(fields: map<string, Json>)
    | JTime(t: int)

  /** A Python dict with string keys: a MongoDB document, a location record. */
  type Doc = map<string, Json>

  /** `d.get(key)`: a missing key reads as None. */
  function Get(d: Doc, key: string): Json
  {
    if key in d then d[key] else JNull
  }

  /** `d.get(key, default)`: the default only when the key is missing. */
  function GetOr(d: Doc, key: string, default: Json): Json
  {
    if key in d then d[key] else default
  }

  /** `d.setdefault(key, v)` as a value: the key is added only when missing. */
  function SetDefault(d: Doc, key: string, v: Json): Doc
  {
    if key in d then d else d[key := v]
  }

  /** Python truth value `bool(v)`. */
  predicate Truthy(v: Json)
  {
    match v
    case JNull => false
    case JBool(b) => b
    case JInt(i) => i != 0
    case JFloat(r) => r != 0.0
    case JStr(s) => s != []
    case JArr(xs) => xs != []
    case JObj(m) => m != map[]
    case JTime(_) => true
  }

  /** Python `a or b`: `a` when it is truthy, otherwise `b`. */
  function Or(a: Json, b: Json): Json
  {
    if Truthy(a) then a else b
  }

  /** `isinstance(v, (int, float))`; a Python bool is an int. */
  predicate IsNumber(v: Json)
  {
    v.JBool? || v.JInt? || v.JFloat?
  }

  /** `float(v)`, or None where `float()` raises. */
  function ToFloat(v: Json): Option<real>
  {
    match v
    case JBool(b) => Some(if b then 1.0 else 0.0)
    case JInt(i) => Some(i as real)
    case JFloat(r) => Some(r)
    case JStr(s) => Text.ParseFloat(s)
    case _ => None
  }

  /** `float(v)`, with the exception it raises where it cannot convert. */
  function PyFloat(v: Json): (r: Result<real>)
    ensures r.Ok? <==> v.JBool? || v.JInt? || v.JFloat? || (v.JStr? && Text.ParseFloat(v.s).Some?)
    ensures v.JBool? ==> r == Ok(if v.b then 1.0 else 0.0)
    ensures v.JInt? ==> r == Ok(v.i as real)
    ensures v.JFloat? ==> r == Ok(v.r)
    ensures v.JStr? && r.Ok? ==> r.value == Text.ParseFloat(v.s).value
    ensures r.Err? ==> (v.JStr? <==> r.error == "ValueError: could not convert string to float")
  {
    match ToFloat(v)
    case Some(x) => Ok(x)
    case None =>
      if v.JStr? then Err("ValueError: could not convert string to float")
      else Err("TypeError: float() argument must be a string or a real number")
  }

  /** What `float(v)` gives is the value of `v` as a number. */
  lemma PyFloatValue(v: Json)
    ensures PyFloat(v).Ok? <==> ToFloat(v).Some?
    ensures PyFloat(v).Ok? ==> ToFloat(v) == Some(PyFloat(v).value)
  {
  }

  /** The integer a Python subscript accepts as a list index (bools included). */
  function IndexKey(key: Json): Option<int>
  {
    match key
    case JInt(i) => Some(i)
    case JBool(b) => Some(if b then 1 else 0)
    case _ => None
  }

  /** Python index normalisation: a negative index counts from the end. */
  function Wrap(n: nat, i: int): (r: Option<nat>)
    ensures r.Some? <==> -(n as int) <= i < n
    ensures r.Some? ==> r.value < n && (r.value == i || r.value == n + i)
  {
    if 0 <= i < n then Some(i) else if -(n as int) <= i < 0 then Some(n + i) else None
  }

  /** Python `c[key]` on a decoded JSON value. */
  function Subscript(c: Json, key: Json): Result<Json>
  {
    match c
    case JArr(xs) =>
      (match IndexKey(key)
       case None => Err("TypeError: list indices must be integers or slices")
       case Some(i) =>
         match Wrap(|xs|, i)
         case None => Err("IndexError: list index out of range")
         case Some(j) => Ok(xs[j]))
    case JStr(s) =>
      (match IndexKey(key)
       case None => Err("TypeError: string indices must be integers")
       case Some(i) =>
         match Wrap(|s|, i)
         case None => Err("IndexError: string index out of range")
         case Some(j) => Ok(JStr([s[j]])))
    case JObj(m) =>
      (match key
       case JStr(k) => if k in m then Ok(m[k]) else Err("KeyError")
       case JArr(_) => Err("TypeError: unhashable type")
       case JObj(_) => Err("TypeError: unhashable type")
       case _ => Err("KeyError"))
    case _ => Err("TypeError: object is not subscriptable")
  }

  /** A present key of a dict reads as its value. */
  lemma SubscriptField(m: map<string, Json>, k: string)
    requires k in m
    ensures Subscript(JObj(m), JStr(k)) == Ok(m[k])
  {
  }

  /** A string can never index a list or a string: Python raises TypeError. */
  lemma SubscriptByStringFails(c: Json, k: string)
    requires c.JArr? || c.JStr?
    ensures Subscript(c, JStr(k)).Err?
  {
  }

  /** The dict key a value stands for: Python merges `True`, `1` and `1.0`
      into one key, and a list or dict is unhashable (None). */
  function HashKey(v: Json): (r: Option<Json>)
    ensures r.None? <==> v.JArr? || v.JObj?
    ensures r.Some? && !IsNumber(v) ==> r.value == v
  {
    match v
    case JBool(b) => Some(JInt(if b then 1 else 0))
    case JFloat(x) => if x == x.Floor as real then Some(JInt(x.Floor)) else Some(v)
    case JArr(_) => None
    case JObj(_) => None
    case _ => Some(v)
  }

  /** Two numbers are the same dict key exactly when they are equal as numbers. */
  lemma NumbersShareKey(a: Json, b: Json)
    requires IsNumber(a) && IsNumber(b)
    ensures HashKey(a) == HashKey(b) <==> ToFloat(a) == ToFloat(b)
  {
  }
}
