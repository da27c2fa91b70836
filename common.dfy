/** Small value wrappers shared by every module of the model. */
module Common {

  /** A field that may be left out of a JSON object (`undefined` in TypeScript). */
  datatype Option<+T> = None | Some(value: T) {
    function GetOr(default: T): T {
      match this
      case Some(v) => v
      case None => default
    }
  }

  /** A field that is always present but may hold `null` (zod's `.nullable()`). */
  datatype Nullable<+T> = Null | NonNull(value: T)

  /** TypeScript's `x ?? null`: an absent value becomes an explicit null. */
  function OrNull<T>(o: Option<T>): (r: Nullable<T>)
    ensures r.NonNull? <==> o.Some?
    ensures o.Some? ==> r.value == o.value
  {
    match o
    case Some(v) => NonNull(v)
    case None => Null
  }
}
