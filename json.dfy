/**
 * Decoded JSON/YAML documents and OpenAPI schema fragments, as the untyped
 * `any` / `map[string]any` / `[]any` trees of the Go code and the dict/list
 * trees of the Python code. Numbers are integers only.
 */
module Json {
  import opened Wrappers
  import Strings

  datatype Value =
    | Null
    | Bool(b: bool)
    | Num(n: int)
    | Str(s: string)
    | Arr(items: seq<Value>)
    | Obj(fields: map<string, Value>)

  type Object = map<string, Value>

  // ---- Go reads: `x, _ := m[k].(T)` yields the zero value when the type does not match

  function Lookup(m: Object, k: string): Option<Value> {
    if k in m then Some(m[k]) else None
  }

  /** `m[k].(map[string]any)` */
  function MapAt(m: Object, k: string): Option<Object> {
    if k in m && m[k].Obj? then Some(m[k].fields) else None
  }

  /** `s, _ := m[k].(string)` */
  function StrAt(m: Object, k: string): string {
    if k in m && m[k].Str? then m[k].s else ""
  }

  /** `m[k].(bool)` */
  function BoolAt(m: Object, k: string): Option<bool> {
    if k in m && m[k].Bool? then Some(m[k].b) else None
  }

  /** `m[k].([]any)` */
  function ListAt(m: Object, k: string): Option<seq<Value>> {
    if k in m && m[k].Arr? then Some(m[k].items) else None
  }

  /** `m[k].(map[string]any)` read as a (possibly empty) map: a nil map ranges over nothing. */
  function MapOrEmpty(m: Object, k: string): Object {
    MapAt(m, k).GetOr(map[])
  }

  /** listToSet: the non-empty strings of a list; anything that is not a list gives the empty set. */
  function ListToSet(v: Option<Value>): (r: set<string>)
    ensures v.None? || !v.value.Arr? ==> r == {}
    ensures v.Some? && v.value.Arr? ==>
      forall x :: x in r <==> x != "" && Str(x) in v.value.items
  {
    if v.Some? && v.value.Arr? then
      set i | 0 <= i < |v.value.items| && v.value.items[i].Str? && v.value.items[i].s != "" :: v.value.items[i].s
    else {}
  }

  // ---- Python reads

  /** Python truth value of a decoded document node. */
  predicate Truthy(v: Value) {
    match v
    case Null => false
    case Bool(b) => b
    case Num(n) => n != 0
    case Str(s) => s != ""
    case Arr(items) => items != []
    case Obj(m) => m != map[]
  }

  /** `v or default` */
  function Or(v: Value, default: Value): Value {
    if Truthy(v) then v else default
  }

  /** `d.get(k, default)` on a dict. */
  function GetOr(d: Object, k: string, default: Value): Value {
    if k in d then d[k] else default
  }

  /** Python `key in container` for a str key: dict keys, list elements or a
      substring; any other container raises TypeError (None). */
  function In(key: string, container: Value): Option<bool> {
    match container
    case Obj(m) => Some(key in m)
    case Arr(items) => Some(Str(key) in items)
    case Str(s) => Some(Strings.Contains(s, key))
    case _ => None
  }
}
