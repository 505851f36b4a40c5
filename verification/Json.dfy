/** Decoded JSON, as Go's `any` holds it. Text encoding and decoding are not modelled. */
module Json {
  import opened Wrappers

  /** Go's int. */
  type Int64 = n: int | -0x8000_0000_0000_0000 <= n < 0x8000_0000_0000_0000

  /** What Go's addition makes of a sum that does not fit. */
  function Wrap64(n: int): Int64 {
    (n + 0x8000_0000_0000_0000) % 0x1_0000_0000_0000_0000 - 0x8000_0000_0000_0000
  }

  datatype Json =
    | Null
    | Bool(b: bool)
    | Int(n: int)
    | Decimal(literal: string)
    | Str(s: string)
    | Arr(items: seq<Json>)
    | Obj(fields: map<string, Json>)

  type Fields = map<string, Json>

  /** A struct field's view of an object: absent and null leave the zero value. */
  function Field(fields: Fields, key: string): Json {
    if key in fields then fields[key] else Null
  }

  /** The entry of an object, null where there is none. */
  function Sub(j: Json, key: string): Json { if j.Obj? then Field(j.fields, key) else Null }

  function AsString(j: Json): Option<string> {
    match j case Null => Some("") case Str(s) => Some(s) case _ => None
  }

  function AsStringPointer(j: Json): Option<Option<string>> {
    match j case Null => Some(None) case Str(s) => Some(Some(s)) case _ => None
  }

  function AsInt(j: Json): Option<Int64> {
    match j
    case Null => Some(0)
    case Int(n) => if -0x8000_0000_0000_0000 <= n < 0x8000_0000_0000_0000 then Some(n) else None
    case _ => None
  }

  /** A nested struct: null is an empty object, anything but an object fails. */
  function AsFields(j: Json): Option<Fields> {
    match j case Null => Some(map[]) case Obj(f) => Some(f) case _ => None
  }

  function AsItems(j: Json): Option<seq<Json>> {
    match j case Null => Some([]) case Arr(xs) => Some(xs) case _ => None
  }
}
