/** Python values as the crawler sees them after `json.loads`: the decoded
    bodies of upstream responses, the dictionaries it builds and the cells of
    its tables. `Null` is Python's `None`. */
module Json {

  datatype Option<+T> = None | Some(value: T) {
    function GetOr(default: T): T {
      match this
      case Some(v) => v
      case None => default
    }
  }

  datatype Value =
    | Null
    | Bool(b: bool)
    | Num(n: real)
    | Str(s: string)
    | Arr(elems: seq<Value>)
    | Obj(fields: map<string, Value>)

  /** Python truthiness: `None`, `False`, zero, `""`, `[]` and `{}` are falsy. */
  predicate Truthy(v: Value): (t: bool)
    ensures !t <==> v in {Null, Bool(false), Num(0.0), Str(""), Arr([]), Obj(map[])}
  {
    match v
    case Null => false
    case Bool(b) => b
    case Num(n) => n != 0.0
    case Str(s) => s != ""
    case Arr(xs) => xs != []
    case Obj(m) => m != map[]
  }

  /** `key in v` for a dictionary `v`. */
  predicate HasKey(v: Value, key: string): (h: bool)
    ensures !v.Obj? ==> !h
    ensures v.Obj? ==> (h <==> key in v.fields.Keys)
  {
    v.Obj? && key in v.fields
  }

  /** `v.get(key, default)`: the default only when the key is absent. */
  function GetDefault(v: Value, key: string, default: Value): (r: Value)
    ensures HasKey(v, key) ==> r == v.fields[key]
    ensures !HasKey(v, key) ==> r == default
  {
    if HasKey(v, key) then v.fields[key] else default
  }

  /** `v.get(key)`: `None` when the key is absent. */
  function Get(v: Value, key: string): (r: Value)
    ensures HasKey(v, key) ==> r == v.fields[key]
    ensures !HasKey(v, key) ==> r == Null
  {
    GetDefault(v, key, Null)
  }

  /** `a or b`: the first operand when it is truthy, else the second. */
  function Or(a: Value, b: Value): (r: Value)
    ensures Truthy(a) ==> r == a
    ensures !Truthy(a) ==> r == b
    ensures Truthy(r) <==> Truthy(a) || Truthy(b)
  {
    if Truthy(a) then a else b
  }

  /** The elements a `for` loop (or `extend`, or `update`) visits: the
      elements of a list, and the one-character strings of a string. A
      dictionary, whose keys Python would visit in insertion order, and any
      other value visit nothing here. */
  function Elements(v: Value): (r: seq<Value>)
    ensures v.Arr? ==> r == v.elems
    ensures v.Str? ==> |r| == |v.s| && forall i :: 0 <= i < |r| ==> r[i] == Str([v.s[i]])
    ensures !v.Arr? && !v.Str? ==> r == []
  {
    match v
    case Arr(xs) => xs
    case Str(s) => seq(|s|, i requires 0 <= i < |s| => Str([s[i]]))
    case _ => []
  }

  /** The part of `data and data.get(key)` that the crawler iterates over: the
      elements of `data[key]` when that test passes, `None` when it fails. */
  function NonEmptyField(data: Value, key: string): (r: Option<seq<Value>>)
    ensures r.Some? <==> Truthy(data) && Truthy(Get(data, key))
    ensures r.Some? ==> r.value == Elements(data.fields[key])
  {
    if Truthy(data) && Truthy(Get(data, key)) then Some(Elements(Get(data, key))) else None
  }

  /** `str(v)` inside an f-string: strings as they are, `None` as "None"; every
      other value through `render`, which stands for Python's own `str`. */
  function Format(v: Value, render: Value -> string): (r: string)
    ensures v.Str? ==> r == v.s
    ensures v.Null? ==> r == "None"
  {
    match v
    case Str(s) => s
    case Null => "None"
    case _ => render(v)
  }
}
