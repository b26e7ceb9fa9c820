/** The values a validated configuration holds: what YAML produces
    (None, booleans, integers, floats, strings, lists, mappings), the
    tuples the sanitizer writes, and mappings that are either plain
    Python dicts or qmflows `Settings` objects. */
module Values {

  /** A mapping is either a plain `dict` or a `Settings` (a dict subclass). */
  datatype Kind = Plain | Settings

  datatype Value =
    | Null
    | Bool(b: bool)
    | Int(i: int)
    | Real(r: real)
    | Str(s: string)
    | List(items: seq<Value>)
    | Tuple(items: seq<Value>)
    | Dict(kind: Kind, entries: map<string, Value>)
  {
    predicate IsSettings() {
      Dict? && kind == Settings
    }
  }

  /** Python's truth value of an object. */
  predicate Truthy(v: Value) {
    match v
    case Null => false
    case Bool(b) => b
    case Int(i) => i != 0
    case Real(r) => r != 0.0
    case Str(s) => s != ""
    case List(xs) => xs != []
    case Tuple(xs) => xs != []
    case Dict(_, m) => m != map[]
  }

  /** `d.get(k)` on a plain dict: the stored value, or None when absent. */
  function Get(m: map<string, Value>, k: string): Value {
    if k in m then m[k] else Null
  }

  /** No `Settings` object occurs anywhere inside the value: what YAML
      produces and what the audit file can hold. */
  predicate NoSettings(v: Value) {
    match v
    case Dict(kind, m) => kind == Plain && forall k :: k in m ==> NoSettings(m[k])
    case List(xs) => forall i :: 0 <= i < |xs| ==> NoSettings(xs[i])
    case Tuple(xs) => forall i :: 0 <= i < |xs| ==> NoSettings(xs[i])
    case _ => true
  }
}
