/** The JavaScript values that flow through the transformation engine. */
module Values {

  /** A JavaScript value, as far as the engine can produce or inspect one. */
  datatype Value =
    | Undefined
    | NaN
    | Bool(b: bool)
    | Int(i: int)
      /** The number `parseFloat` reads from `text`; its digits are not interpreted. */
    | Float(text: string)
    | Str(s: string)
    | List(items: seq<Value>)
      /** A plain object, such as a record under construction or a nested container. */
    | Object(fields: map<string, Value>)
      /** A `Date` built from the `-`-separated parts of a cell. */
    | Date(parts: seq<string>)

  /** A record built by the path writer: property name to value. */
  type Record = map<string, Value>

  /** JavaScript truthiness: what `if (v)` and `!v` test. A number read by
      `parseFloat` is falsy when it is 0 or NaN, which its uninterpreted text does
      not decide, so it has no truthiness here. */
  predicate Truthy(v: Value)
    requires !v.Float?
  {
    match v
    case Undefined => false
    case NaN => false
    case Bool(b) => b
    case Int(i) => i != 0
    case Str(s) => s != ""
    case _ => true
  }
}
