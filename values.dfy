/**
 * The JSON-shaped values an incident record holds once the platform's REST
 * layer has decoded it, and Python's `str` of the scalar ones.
 */
module Values {
  import opened Wrappers
  import Decimal

  datatype Value =
    | Null
    | Bool(b: bool)
    | Num(n: int)
    | Str(s: string)
    | List(items: seq<Value>)
    | Obj(fields: map<string, Value>)

  /** An incident record (a Python dict keyed by field name). */
  type Record = map<string, Value>

  /** True when `a` and `b` agree at key `k`: both lack it, or both hold the same value there. */
  predicate SameAt(a: Record, b: Record, k: string) {
    (k in a <==> k in b) && (k in a ==> a[k] == b[k])
  }

  /**
   * `str(v)` for the scalar values an incident id can be. Containers are not
   * rendered (None).
   */
  function Render(v: Value): Option<string> {
    match v
    case Null => Some("None")
    case Bool(b) => Some(if b then "True" else "False")
    case Num(n) => Some(Decimal.IntToString(n))
    case Str(s) => Some(s)
    case List(_) => None
    case Obj(_) => None
  }

  /** Distinct integer ids render to distinct strings, so a status message names exactly one incident. */
  lemma RenderNumInjective(a: int, b: int)
    ensures Render(Num(a)) == Render(Num(b)) <==> a == b
  {
    Decimal.IntToStringInjective(a, b);
  }
}
