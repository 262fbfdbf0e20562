/** Values shared by every part of the model: optional values, record ids and
    the JavaScript truthiness rules the route handlers and pages rely on. */
module Values {

  /** `None` stands for a JSON `null` or an absent property. */
  datatype Option<+T> = None | Some(value: T) {

    /** The wrapped value, or `default` when there is none. */
    function GetOr(default: T): T {
      match this
      case Some(v) => v
      case None => default
    }
  }

  /** Record ids are handed out by the store; the ORM never produces an empty id,
      so a "falsy" id is always an absent one. */
  type Id = nat

  /** JavaScript truthiness of a string-valued field: absent, null and "" are falsy. */
  predicate Present(f: Option<string>) {
    f.Some? && f.value != ""
  }

  /** `f || fallback` for a string-valued field. */
  function OrElse(f: Option<string>, fallback: string): (r: string)
    ensures Present(f) ==> r == f.value
    ensures !Present(f) ==> r == fallback
  {
    if Present(f) then f.value else fallback
  }

  /** `f || null`: an empty string is stored as null. */
  function OrNull(f: Option<string>): (r: Option<string>)
    ensures r.Some? <==> Present(f)
    ensures r.Some? ==> r == f
  {
    if Present(f) then f else None
  }

  /** A scalar JSON value as found in a request body (arrays and objects are not
      scalars and are handled where the source handles them). */
  datatype Scalar = Undefined | Null | Bool(b: bool) | Num(n: int) | Str(s: string)

  /** JavaScript truthiness of a scalar. */
  predicate Truthy(v: Scalar) {
    match v
    case Undefined => false
    case Null => false
    case Bool(b) => b
    case Num(n) => n != 0
    case Str(s) => s != ""
  }
}
