/** The Python values that flow through the analyzer: the behavior
    collaborator's result mapping, the attributes of the reasoning
    collaborator's result object, and the serialized projections. */
module Values {
  import opened Outcomes

  /** A JSON-like Python value. Python's `int` and `float` are both `Num`. */
  datatype Value =
    | Null
    | Bool(b: bool)
    | Num(x: real)
    | Str(s: string)
    | List(items: seq<Value>)
    | Dict(entries: map<string, Value>)

  /** A Python `Dict[str, Any]`. */
  type Mapping = map<string, Value>

  /** The number Python arithmetic sees in `v`, or None when `-`, `abs` or `*`
      with a float raises TypeError on it. `bool` is a subclass of `int`,
      so True and False take part in arithmetic as 1 and 0. */
  function AsNumber(v: Value): Option<real> {
    match v
    case Num(x) => Some(x)
    case Bool(b) => Some(if b then 1.0 else 0.0)
    case _ => None
  }

  /** The result object of the reasoning collaborator, seen only through its
      attributes: `hasattr(o, n)` is `n in o.attrs`. */
  datatype ReasoningResult = ReasoningResult(attrs: Mapping)

  /** The attribute holding the mean confidence of the reasoning paths. */
  const AverageConfidence: string := "average_confidence"

  /** Python's `getattr(o, name, default)`. */
  function GetAttr(o: ReasoningResult, name: string, default: Value): Value {
    if name in o.attrs then o.attrs[name] else default
  }
}
