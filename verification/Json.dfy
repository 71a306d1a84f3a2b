/** JSON values and the accessors of `serde_json::Value` that the adapters use. */
module Json {
  import opened Wrappers

  const I64_MIN: int := -0x8000_0000_0000_0000
  const I64_MAX: int := 0x7FFF_FFFF_FFFF_FFFF
  const U64_LIMIT: int := 0x1_0000_0000_0000_0000
  const U32_LIMIT: int := 0x1_0000_0000

  /** `Number` is an integer; `Fraction` any other number, kept as its text. */
  datatype Value =
    | Null
    | Bool(b: bool)
    | Number(n: int)
    | Fraction(text: string)
    | Str(s: string)
    | Arr(items: seq<Value>)
    | Obj(fields: map<string, Value>)

  function Get(v: Value, key: string): Option<Value> {
    if v.Obj? && key in v.fields then Some(v.fields[key]) else None
  }

  function GetIn(v: Option<Value>, key: string): Option<Value> {
    if v.Some? then Get(v.value, key) else None
  }

  function AsStr(v: Option<Value>): Option<string> {
    if v.Some? && v.value.Str? then Some(v.value.s) else None
  }

  function AsBool(v: Option<Value>): Option<bool> {
    if v.Some? && v.value.Bool? then Some(v.value.b) else None
  }

  function AsArray(v: Option<Value>): Option<seq<Value>> {
    if v.Some? && v.value.Arr? then Some(v.value.items) else None
  }

  function AsObject(v: Option<Value>): Option<map<string, Value>> {
    if v.Some? && v.value.Obj? then Some(v.value.fields) else None
  }

  function AsI64(v: Option<Value>): Option<int> {
    if v.Some? && v.value.Number? && I64_MIN <= v.value.n <= I64_MAX then Some(v.value.n) else None
  }

  function AsU64(v: Option<Value>): Option<nat> {
    if v.Some? && v.value.Number? && 0 <= v.value.n < U64_LIMIT then Some(v.value.n) else None
  }

  function StrField(v: Value, key: string): Option<string> {
    AsStr(Get(v, key))
  }
}
