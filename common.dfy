// Value types shared by every part of the model.
module Common {
  datatype Option<T> = None | Some(value: T)

  /** The role names the backend stores in the User table. */
  const ADMIN: string := "ADMIN"
  const SUB_ADMIN: string := "SUB_ADMIN"
  const USER: string := "USER"

  /** A JavaScript string is truthy exactly when it is not empty. */
  predicate Truthy(s: string) { |s| > 0 }

  /** An optional string (undefined, null or a value) that is truthy. */
  predicate Present(o: Option<string>) { o.Some? && |o.value| > 0 }

  /** An id that is neither missing nor zero, the JavaScript truthiness of a number. */
  predicate TruthyId(o: Option<int>) { o.Some? && o.value != 0 }

  /**
   * A field of a request body as a handler reads it: absent (undefined or null), an
   * integer, a string or a boolean. Multipart forms only carry strings.
   */
  datatype JsValue = Absent | Num(n: int) | Str(s: string) | Bool(b: bool)

  /** JavaScript truthiness of a body field: not absent, not 0, not "". */
  predicate JsTruthy(v: JsValue)
  {
    match v
    case Absent => false
    case Num(n) => n != 0
    case Str(s) => |s| > 0
    case Bool(b) => b
  }
}
