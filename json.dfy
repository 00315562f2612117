/** The loosely typed payloads the pipeline passes between stages: Python values
    as they appear in its dicts. Floats and other Python objects are not part of
    this model. */
module Json {
  import Text

  datatype Value =
    | Null
    | Bool(b: bool)
    | Int(i: int)
    | Str(s: string)
    | List(items: seq<Value>)
    | Obj(fields: map<string, Value>)

  /** A dict with string keys. */
  type Record = map<string, Value>

  /** Python truthiness: None, False, 0, "", [] and {} are false. */
  predicate Truthy(v: Value) {
    match v
    case Null => false
    case Bool(b) => b
    case Int(i) => i != 0
    case Str(s) => s != ""
    case List(items) => items != []
    case Obj(fields) => fields != map[]
  }

  /** `d.get(key, default)`: a present key yields its value, even a falsy one. */
  function Get(d: Record, key: string, default: Value): Value {
    if key in d then d[key] else default
  }

  /** The values `len` accepts. */
  predicate Sized(v: Value) {
    v.Str? || v.List? || v.Obj?
  }

  function Len(v: Value): nat
    requires Sized(v)
  {
    match v
    case Str(s) => |s|
    case List(items) => |items|
    case Obj(fields) => |fields|
  }

  /** The field is absent or holds a string. */
  predicate StrOrAbsent(d: Record, key: string) {
    key !in d || d[key].Str?
  }

  /** The field is absent or holds an integer (a bool counts as 0 or 1). */
  predicate IntOrAbsent(d: Record, key: string) {
    key !in d || d[key].Int? || d[key].Bool?
  }

  /** A value Python compares as an integer: an int, or a bool as 0 or 1. */
  function AsInt(v: Value): int {
    match v
    case Int(i) => i
    case Bool(b) => if b then 1 else 0
    case _ => 0
  }

  /** The field is absent or holds something `len` accepts. */
  predicate SizedOrAbsent(d: Record, key: string) {
    key !in d || Sized(d[key])
  }

  /** The field is absent, None or a string: the values the pipeline uses as
      hashable keys (urls, source ids). */
  predicate KeyOrAbsent(d: Record, key: string) {
    key !in d || d[key].Null? || d[key].Str?
  }

  /** The field is absent or a list of strings. */
  predicate StrListOrAbsent(d: Record, key: string) {
    key !in d || (d[key].List? && forall v :: v in d[key].items ==> v.Str?)
  }

  /** `d.get(key, default)` on a field known to be a string when present. */
  function StrField(d: Record, key: string, default: string): string {
    if key in d && d[key].Str? then d[key].s else default
  }

  /** `d.get(key, default)` on a field known to be an integer when present. */
  function IntField(d: Record, key: string, default: int): int {
    if key in d && (d[key].Int? || d[key].Bool?) then AsInt(d[key]) else default
  }

  /** The strings of a list of values. */
  function Strings(vs: seq<Value>): (r: seq<string>)
    ensures |r| == |vs|
    ensures forall i :: 0 <= i < |vs| && vs[i].Str? ==> r[i] == vs[i].s
  {
    seq(|vs|, i requires 0 <= i < |vs| => if vs[i].Str? then vs[i].s else "")
  }

  /** `d.get(key, [])` on a field known to be a list of strings when present. */
  function StrListField(d: Record, key: string): seq<string> {
    if key in d && d[key].List? then Strings(d[key].items) else []
  }

  function StrValues(ss: seq<string>): (r: seq<Value>)
    ensures |r| == |ss|
    ensures forall i :: 0 <= i < |ss| ==> r[i] == Str(ss[i])
  {
    seq(|ss|, i requires 0 <= i < |ss| => Str(ss[i]))
  }

  /** The values that can be members of a Python set (no lists or dicts). */
  predicate Hashable(v: Value) {
    !v.List? && !v.Obj?
  }

  /** The identity of a hashable value as a set member: Python's `True == 1`
      and `False == 0`, so a bool and the matching integer are one member. */
  function HashKey(v: Value): (k: Value)
    ensures !k.Bool?
    ensures v.Bool? ==> k == Int(if v.b then 1 else 0)
    ensures !v.Bool? ==> k == v
  {
    if v.Bool? then Int(if v.b then 1 else 0) else v
  }

  /** `str(v)`, as an f-string renders a scalar. */
  function Render(v: Value): (r: string)
    requires Hashable(v)
    ensures v.Str? ==> r == v.s
    ensures v.Int? ==> r == Text.IntToDecimal(v.i)
  {
    match v
    case Null => "None"
    case Bool(b) => if b then "True" else "False"
    case Int(i) => Text.IntToDecimal(i)
    case Str(s) => s
  }
}
