/** Source values and the engine's "absent" sentinel.

  A source instance is a tree of values. Only structured objects (pydantic
  model instances) carry named data attributes; `None`, booleans, integers,
  strings, lists and any other opaque object (a `datetime.date`, say) carry none.
  An opaque object records its own truth value: a `date` is true, while `0.0`,
  `Decimal(0)`, `{}`, `()`, `set()` and `b""` are false.
 */
module Values {

  datatype Val =
    | Obj(attrs: map<string, Val>)
    | NoneVal
    | BoolVal(b: bool)
    | IntVal(i: int)
    | StrVal(s: string)
    | ListVal(items: seq<Val>)
    | Opaque(typeName: string, truthy: bool)

  /** A resolved field: a value, or the private sentinel `object()` that the
      engine creates to mean "nothing resolved, let the destination default apply".
      The sentinel is distinct from every value, `None` included. */
  datatype Res = Present(v: Val) | Absent

  /** `getattr(v, name, sentinel)`: the attribute when `v` has it, the sentinel otherwise. */
  function GetAttr(v: Val, name: string): (r: Res)
    ensures r.Present? <==> v.Obj? && name in v.attrs
    ensures r.Present? ==> r.v == v.attrs[name]
  {
    if v.Obj? && name in v.attrs then Present(v.attrs[name]) else Absent
  }

  /** Python truthiness. A pydantic model instance defines neither `__bool__`
      nor `__len__`, so it is always true; an opaque object is as it says.
      `None` and the empty string, list and number are the falsy values the
      mapper meets. */
  predicate Truthy(v: Val): (b: bool)
    ensures b <==> !(v.Opaque? && !v.truthy) && v !in {NoneVal, BoolVal(false), IntVal(0), StrVal(""), ListVal([])}
  {
    match v
    case Obj(_) => true
    case NoneVal => false
    case BoolVal(b) => b
    case IntVal(i) => i != 0
    case StrVal(s) => |s| > 0
    case ListVal(items) => |items| > 0
    case Opaque(_, t) => t
  }
}
