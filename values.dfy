/** The dynamic values (`interface{}`) that YAML configuration and JSON decoding produce. */
module Values {

  /** `Int` is a YAML integer (Go `int`), `Float` a YAML float or any JSON number (Go `float64`),
      `List` a `[]interface{}` and `Object` a `map[string]interface{}`; `Null` is Go's nil. */
  datatype Value =
    | Null
    | Bool(b: bool)
    | Int(i: int)
    | Float(f: real)
    | Str(s: string)
    | List(items: seq<Value>)
    | Object(fields: map<string, Value>)

  /** What fmt's %T prints for a value of each shape. */
  function TypeName(v: Value): string {
    match v
    case Null => "<nil>"
    case Bool(_) => "bool"
    case Int(_) => "int"
    case Float(_) => "float64"
    case Str(_) => "string"
    case List(_) => "[]interface {}"
    case Object(_) => "map[string]interface {}"
  }
}
