/** How the calculator reads one entry of its input dictionaries. */
module Fields {

  /** The state of one key of a dictionary: missing, mapped to None, or mapped to a value. */
  datatype Field<T> = Absent | Null | Present(value: T)

  datatype Option<T> = None | Some(value: T)

  /** `d.get(key, default)`: a missing key gives the default, a key mapped to None gives None. */
  function Get<T>(f: Field<T>, default: T): (r: Option<T>)
    ensures r.None? <==> f.Null?
    ensures r.Some? ==> r.value == (if f.Present? then f.value else default)
  {
    match f
    case Absent => Some(default)
    case Null => None
    case Present(v) => Some(v)
  }

  /** `d.get(key, fallback) or fallback` on a number: every falsy reading (missing, None, 0)
      gives the fallback, any other value is kept. */
  function OrElse(f: Field<real>, fallback: real): (r: real)
    ensures r == fallback || (f.Present? && r == f.value)
    ensures f.Absent? || f.Null? || f.value == 0.0 ==> r == fallback
    ensures f.Present? && f.value != 0.0 ==> r == f.value
  {
    if f.Present? && f.value != 0.0 then f.value else fallback
  }

  /** The entry is missing, None, or a number that is not negative. */
  predicate NonNegativeField(f: Field<real>) {
    f.Present? ==> f.value >= 0.0
  }
}
