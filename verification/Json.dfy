/**
  JSON values as a tree, read the way the Qt value class reads them: every accessor is total and falls
  back to a default when the value has another type.  JSON text is not modelled.
*/
module Json {
  datatype Json =
    | Undefined
    | Null
    | Bool(flag: bool)
    | Num(number: real)
    | Str(text: string)
    | Arr(items: seq<Json>)
    | Obj(fields: map<string, Json>)

  const INT32_LOWEST := -0x8000_0000
  const INT32_HIGHEST := 0x7fff_ffff
  const INT64_LOWEST := -0x8000_0000_0000_0000
  const INT64_HIGHEST := 0x7fff_ffff_ffff_ffff

  predicate IsInt32(n: int) {
    INT32_LOWEST <= n <= INT32_HIGHEST
  }

  predicate IsInt64(n: int) {
    INT64_LOWEST <= n <= INT64_HIGHEST
  }

  predicate IsWhole(x: real) {
    x == x.Floor as real
  }

  /** The member of an object, `Undefined` when it is missing or when the value is no object. */
  function Member(json: Json, key: string): Json {
    if json.Obj? && key in json.fields then json.fields[key] else Undefined
  }

  function TextOf(json: Json): string {
    if json.Str? then json.text else ""
  }

  function FlagOf(json: Json): bool {
    json.Bool? && json.flag
  }

  function ItemsOf(json: Json): seq<Json> {
    if json.Arr? then json.items else []
  }

  function MembersOf(json: Json): map<string, Json> {
    if json.Obj? then json.fields else map[]
  }

  /** A whole number within 64 bits, 0 for anything else. */
  function IntegerOf(json: Json): int {
    if json.Num? && IsWhole(json.number) && IsInt64(json.number.Floor) then json.number.Floor else 0
  }

  /** A whole number within 32 bits, 0 for anything else. */
  function IntOf(json: Json): int {
    if json.Num? && IsWhole(json.number) && IsInt32(json.number.Floor) then json.number.Floor else 0
  }
}
