/**
 * JavaScript values as the client sees them: configuration records handed to
 * the constructor and bodies decoded from the server's JSON responses.
 */
module JsonValues {
  import opened Wrappers

  /**
   * A JavaScript value. `Undefined` stands for an absent argument or property.
   * Numbers are integers in this model.
   */
  datatype Json =
    | Undefined
    | Null
    | Bool(b: bool)
    | Num(n: int)
    | Str(s: string)
    | Arr(items: seq<Json>)
    | Obj(fields: map<string, Json>)

  /** The values for which JavaScript's `!v` is true (NaN is not modelled). */
  predicate Falsy(v: Json) {
    match v
    case Undefined => true
    case Null => true
    case Bool(b) => !b
    case Num(n) => n == 0
    case Str(s) => s == ""
    case _ => false
  }

  /**
   * Reading the property `key` of `v`: None where JavaScript throws a
   * TypeError (the value is undefined or null), otherwise the property's
   * value, `Undefined` when it is absent.
   */
  function Property(v: Json, key: string): Option<Json> {
    match v
    case Undefined => None
    case Null => None
    case Obj(fields) => Some(if key in fields then fields[key] else Undefined)
    case _ => Some(Undefined)
  }

  // The per-property type tests of a schema whose properties are all required.

  predicate StringAt(fields: map<string, Json>, key: string) {
    key in fields && fields[key].Str?
  }

  predicate NumberAt(fields: map<string, Json>, key: string) {
    key in fields && fields[key].Num?
  }

  predicate BoolAt(fields: map<string, Json>, key: string) {
    key in fields && fields[key].Bool?
  }

  predicate ArrayAt(fields: map<string, Json>, key: string) {
    key in fields && fields[key].Arr?
  }
}
