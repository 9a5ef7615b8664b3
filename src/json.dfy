/**
 * JSON-like values as the validators see them: serde_json's `Value` on the
 * Rust side, the objects produced by Python's `json` module on the other.
 * Numbers keep the integer/float distinction both parsers make.
 */
module Json {
  import opened Wrappers

  datatype Value =
    | Null
    | Bool(b: bool)
    | Int(i: int)
    | Float(r: real)
    | Str(s: string)
    | Array(items: seq<Value>)
    | Object(fields: map<string, Value>)

  /** A literal that generated code compares a value against. */
  datatype Literal =
    | LitStr(s: string)
    | LitInt(i: int)
    | LitFloat(r: real)
    | LitBool(b: bool)
    | LitNull

  const I64Min: int := -0x8000_0000_0000_0000
  const I64Max: int := 0x7FFF_FFFF_FFFF_FFFF

  /** serde_json `Value::as_str`. */
  function AsStr(v: Value): (r: Option<string>)
    ensures r.Some? <==> v.Str?
    ensures r.Some? ==> r.value == v.s
  {
    if v.Str? then Some(v.s) else None
  }

  /**
   * serde_json `Value::as_f64`: every number has one. The rounding of a
   * large integer to the nearest double is not modelled.
   */
  function AsF64(v: Value): (r: Option<real>)
    ensures r.Some? <==> v.Int? || v.Float?
    ensures v.Int? ==> r == Some(v.i as real)
    ensures v.Float? ==> r == Some(v.r)
  {
    match v
    case Int(i) => Some(i as real)
    case Float(x) => Some(x)
    case _ => None
  }

  /** serde_json `Value::as_i64`: only integers that fit in 64 signed bits; never a float. */
  function AsI64(v: Value): (r: Option<int>)
    ensures r.Some? <==> v.Int? && I64Min <= v.i <= I64Max
    ensures r.Some? ==> r.value == v.i
  {
    if v.Int? && I64Min <= v.i <= I64Max then Some(v.i) else None
  }

  /** serde_json `Value::as_bool`. */
  function AsBool(v: Value): (r: Option<bool>)
    ensures r.Some? <==> v.Bool?
    ensures r.Some? ==> r.value == v.b
  {
    if v.Bool? then Some(v.b) else None
  }
}
