/** The duck-typed payloads the video API returns, and the few Python
    operations the application applies to them: truthiness, `dict.get`,
    `a or b`, `str(x)` and `int(x)`. */
module PyValues {
  import opened Wrappers
  import PyText

  /** A payload value. `Mapping` is a plain `dict` (or any `Mapping`);
      `Model` is an SDK response object whose `model_dump()` gives `fields`;
      `Other` is any other object (a float, a tuple, an uploaded file ...),
      of which only its truthiness is observed. */
  datatype Value =
    | Null
    | Bool(b: bool)
    | Int(i: int)
    | Str(s: string)
    | List(items: seq<Value>)
    | Mapping(entries: map<string, Value>)
    | Model(fields: map<string, Value>)
    | Other(truthy: bool)

  /** A plain `dict` with string keys, as every normalised payload is. */
  type Dict = map<string, Value>

  /** Python's `bool(v)`. An SDK object has no `__len__`/`__bool__` and is
      always true. */
  predicate Truthy(v: Value) {
    match v
    case Null => false
    case Bool(b) => b
    case Int(i) => i != 0
    case Str(s) => s != ""
    case List(items) => items != []
    case Mapping(m) => m != map[]
    case Model(_) => true
    case Other(t) => t
  }

  /** `d.get(k)`: the value under `k`, or None when there is none. */
  function Get(d: Dict, k: string): (v: Value)
    ensures k !in d ==> v == Null
  {
    if k in d then d[k] else Null
  }

  /** `d.get(k, default)`. */
  function GetOr(d: Dict, k: string, default: Value): (v: Value)
    ensures k in d ==> v == d[k]
    ensures k !in d ==> v == default
  {
    if k in d then d[k] else default
  }

  /** Python's `a or b`: `a` when it is truthy, otherwise `b`. */
  function Or(a: Value, b: Value): (v: Value)
    ensures Truthy(v) <==> Truthy(a) || Truthy(b)
    ensures v == a || v == b
  {
    if Truthy(a) then a else b
  }

  /** `isinstance(v, (str, int))`; a `bool` is an `int` in Python. */
  predicate IsIdScalar(v: Value) {
    v.Str? || v.Int? || v.Bool?
  }

  /** The text every compound value stands for under `str()`. The model does
      not reproduce Python's `repr` of containers and objects; it only needs a
      text that is not empty and is none of the job statuses. */
  const ObjectText: string := "<object>"

  /** `str(v)`. */
  function PyStr(v: Value): (s: string)
    ensures v.Str? ==> s == v.s
    ensures s != "" || v == Str("")
  {
    match v
    case Null => "None"
    case Bool(b) => if b then "True" else "False"
    case Int(i) => PyText.IntToString(i)
    case Str(s) => s
    case _ => ObjectText
  }

  /** `int(v)` for the values the application converts: an int (a bool is
      0 or 1), or a string in Python's integer syntax. Every other value
      makes `int()` raise, which is None here. */
  function AsInt(v: Value): (r: Option<int>)
    ensures v.Int? ==> r == Some(v.i)
    ensures !(v.Int? || v.Bool? || v.Str?) ==> r.None?
  {
    match v
    case Int(i) => Some(i)
    case Bool(b) => Some(if b then 1 else 0)
    case Str(s) => PyText.ParseInt(s)
    case _ => None
  }

  /** `Optional[str]` as a payload value: None or the string. */
  function OptStr(o: Option<string>): (v: Value)
    ensures o.None? <==> v == Null
  {
    match o
    case None => Null
    case Some(s) => Str(s)
  }

  /** `int(str(n))` gives `n` back for every integer value. */
  lemma {:induction false} AsIntOfDecimal(n: int)
    ensures AsInt(Str(PyText.IntToString(n))) == Some(n)
  {
    PyText.ParseIntRoundTrip(n);
  }
}
