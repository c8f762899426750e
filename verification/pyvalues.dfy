/** The values found in the metadata dictionaries the extraction engine
    returns, with the Python operations the downloader applies to them:
    truthiness, `or`, `dict.get`, `str()` and the slice `[:4]`. */
module PyValues {
  import opened Wrappers
  import opened PyText

  datatype Value =
    | Null
    | Boolean(b: bool)
    | Integer(n: int)
    | Text(s: string)
    | List(items: seq<Value>)
    | Dict(fields: map<string, Value>)

  /** A metadata dictionary such as the one `extract_info` returns. */
  type Info = map<string, Value>

  /** Python truthiness. */
  predicate Truthy(v: Value) {
    match v
    case Null => false
    case Boolean(b) => b
    case Integer(n) => n != 0
    case Text(s) => s != ""
    case List(xs) => xs != []
    case Dict(m) => m != map[]
  }

  /** Python's `a or b`: the first operand when it is truthy, else the second. */
  function Or(a: Value, b: Value): (r: Value)
    ensures Truthy(r) <==> Truthy(a) || Truthy(b)
    ensures Truthy(a) ==> r == a
    ensures !Truthy(a) ==> r == b
  {
    if Truthy(a) then a else b
  }

  /** `info.get(key, default)`. */
  function Get(info: Info, key: string, default: Value): (r: Value)
    ensures key in info ==> r == info[key]
    ensures key !in info ==> r == default
  {
    if key in info then info[key] else default
  }

  /** The name Python reports for the type of a value in a `TypeError`. */
  function TypeName(v: Value): string {
    match v
    case Null => "NoneType"
    case Boolean(_) => "bool"
    case Integer(_) => "int"
    case Text(_) => "str"
    case List(_) => "list"
    case Dict(_) => "dict"
  }

  /** `str(v)`. Lists and dictionaries are rendered by a placeholder. */
  function ToStr(v: Value): string {
    match v
    case Null => "None"
    case Boolean(b) => if b then "True" else "False"
    case Integer(n) => IntToString(n)
    case Text(s) => s
    case List(_) => "[...]"
    case Dict(_) => "{...}"
  }

  /** `v[:4]`: the first four characters of a string or items of a list;
      any other value raises. */
  function TakeFour(v: Value): (r: Result<Value>)
    ensures v.Text? ==> r.Success? && r.value.Text? && r.value.s <= v.s
    ensures v.Text? && |v.s| >= 4 ==> r.Success? && |r.value.s| == 4
    ensures v.Text? && |v.s| < 4 ==> r == Success(v)
    ensures v.List? ==> r.Success? && r.value.List? && r.value.items <= v.items
    ensures v.List? && |v.items| >= 4 ==> r.Success? && |r.value.items| == 4
    ensures v.List? && |v.items| < 4 ==> r == Success(v)
    ensures !v.Text? && !v.List? ==> r.Failure?
  {
    match v
    case Text(s) => Success(Text(if |s| <= 4 then s else s[..4]))
    case List(xs) => Success(List(if |xs| <= 4 then xs else xs[..4]))
    case Dict(_) => Failure("unhashable type: 'slice'")
    case _ => Failure("'" + TypeName(v) + "' object is not subscriptable")
  }
}
