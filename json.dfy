/** JSON values as they cross the wire between the frontend and the backend. */
module Json {

  /**
   * A parsed JSON value. Numbers are kept as integers: the modelled code only
   * ever compares or forwards them.
   */
  datatype Value =
    | Null
    | Bool(b: bool)
    | Num(n: int)
    | Str(s: string)
    | Arr(items: seq<Value>)
    | Obj(fields: map<string, Value>)

  /** The type name Zod reports for a received value ("Expected string, received number"). */
  function TypeName(v: Value): string {
    match v
    case Null => "null"
    case Bool(_) => "boolean"
    case Num(_) => "number"
    case Str(_) => "string"
    case Arr(_) => "array"
    case Obj(_) => "object"
  }
}
