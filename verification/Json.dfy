/** Decoded JSON values, as `encoding/json` hands them to the daemon in `interface{}` form. */
module Json {
  import opened GoText

  datatype Option<+T> = None | Some(value: T)

  type Int64 = v: int | -0x8000_0000_0000_0000 <= v < 0x8000_0000_0000_0000

  /** A number as the decoder holds it, a finite float64: `mantissa` times two to the power of `exponent`, written
      in one way only. */
  datatype Binary = Binary(mantissa: int, exponent: int)
  {
    predicate Finite() {
      if mantissa == 0 then exponent == 0
      else
        && mantissa % 2 == 1 && -0x20_0000_0000_0000 < mantissa < 0x20_0000_0000_0000
        && -1074 <= exponent && BitLength(Magnitude(mantissa)) + exponent <= 1024
    }
  }

  type Float = b: Binary | b.Finite() witness Binary(0, 0)

  function Magnitude(n: int): nat { if n < 0 then -n else n }

  function BitLength(n: nat): nat { if n == 0 then 0 else 1 + BitLength(n / 2) }

  function PowerOfTwo(n: nat): (p: nat)
    ensures p > 0
  {
    if n == 0 then 1 else 2 * PowerOfTwo(n - 1)
  }

  datatype JSON =
    | JNull
    | JBool(flag: bool)
    | JNum(number: Float)
    | JStr(text: string)
    | JArr(items: seq<JSON>)
    | JObj(fields: map<string, JSON>)

  type Object = j: JSON | j.JObj? witness JObj(map[])

  /** `m[key].(string)` */
  function Str(m: Object, key: string): Option<string> {
    if key in m.fields && m.fields[key].JStr? then Some(m.fields[key].text) else None
  }

  /** `m[key].(map[string]interface{})` */
  function Obj(m: Object, key: string): Option<Object> {
    if key in m.fields && m.fields[key].JObj? then Some(m.fields[key]) else None
  }

  /** `value, ok := m[key].(bool); ok && value` */
  predicate Flagged(m: Object, key: string) {
    key in m.fields && m.fields[key] == JBool(true)
  }

  /** The first of the keys that holds a non-blank string; the text is not trimmed. */
  function FirstString(m: Object, keys: seq<string>): (r: string)
    ensures r == "" || !Blank(r)
  {
    if keys == [] then ""
    else match Str(m, keys[0])
      case Some(t) => if !Blank(t) then t else FirstString(m, keys[1..])
      case None => FirstString(m, keys[1..])
  }

  predicate AnyStringEquals(m: Object, target: string, keys: seq<string>) {
    exists k | k in keys :: Str(m, k) == Some(target)
  }

  const DEEP_KEYS := ["text", "delta", "content", "message", "value"]

  function DeepString(v: JSON): string
    decreases v, 1
  {
    match v
    case JStr(t) => t
    case JObj(_) => DeepFirst(v, DEEP_KEYS)
    case JArr(items) => DeepConcat(items)
    case _ => ""
  }

  function DeepFirst(v: Object, keys: seq<string>): string
    decreases v, 0, keys
  {
    if keys == [] then ""
    else
      var t := if keys[0] in v.fields then DeepString(v.fields[keys[0]]) else "";
      if t != "" then t else DeepFirst(v, keys[1..])
  }

  function DeepConcat(items: seq<JSON>): string
    decreases items, 0
  {
    if items == [] then "" else DeepString(items[0]) + DeepConcat(items[1..])
  }

  function DeepField(m: Object, key: string): string {
    if key in m.fields then DeepString(m.fields[key]) else ""
  }

  function FirstDeepString(m: Object, keys: seq<string>): (r: string)
    ensures r == "" || !Blank(r)
  {
    if keys == [] then ""
    else if !Blank(DeepField(m, keys[0])) then DeepField(m, keys[0])
    else FirstDeepString(m, keys[1..])
  }

  /** `int64(float64)` for values in range: truncation toward zero. */
  function Truncate(n: Float): int {
    if n.exponent >= 0 then n.mantissa * PowerOfTwo(n.exponent)
    else
      var whole := Magnitude(n.mantissa) / PowerOfTwo(-n.exponent);
      if n.mantissa < 0 then -whole else whole
  }
}
