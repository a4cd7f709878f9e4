/**
 * The raw JSON request a client sends: a dictionary from camelCase field
 * names to values, any of which may be `null`.
 */
module Values {
  import opened Wrappers

  datatype Value = Null | Num(x: real) | Flag(b: bool) | Text(s: string)

  type Request = map<string, Value>

  /** Whether the field can be compared with a number: absent, a number or a boolean. */
  predicate Comparable(req: Request, key: string)
  {
    key !in req || req[key].Num? || req[key].Flag?
  }

  /**
   * `student_data.get(key, default)` followed by a numeric comparison. A
   * missing key yields the default; a number or a boolean (Python's `bool` is
   * an `int`) compares as a number; `None` or a string raises `TypeError` at
   * the comparison, modelled as `None`.
   */
  function ReadNumber(req: Request, key: string, default: real): (r: Option<real>)
    ensures key !in req ==> r == Some(default)
    ensures key in req && req[key].Num? ==> r == Some(req[key].x)
    ensures r.Some? <==> Comparable(req, key)
  {
    if key !in req then Some(default)
    else match req[key]
      case Num(x) => Some(x)
      case Flag(b) => Some(if b then 1.0 else 0.0)
      case Null => None
      case Text(_) => None
  }
}
