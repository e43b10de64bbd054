/** The small part of Python's value model the diary agents rely on: the
    values a LangGraph state dictionary holds, their truthiness, and the
    dictionary and list operations the agents apply to them. */
module PyValues {

  /** A Python value as it can appear in an agent state. `AIMessage` is the
      response object `llm.invoke` returns; only its `content` is observed. */
  datatype Value =
    | NoneV
    | Bool(b: bool)
    | Str(s: string)
    | AIMessage(content: string)
    | List(items: seq<Value>)
    | Dict(entries: map<string, Value>)

  /** A state dictionary: string keys to values. */
  type State = map<string, Value>

  /** The exceptions the agents can raise. A dictionary indexed with the
      integer `-1` raises `KeyError(-1)`, written here as `KeyError("-1")`. */
  datatype Error = KeyError(key: string) | IndexError | TypeError

  datatype Result<T> = Ok(value: T) | Err(error: Error) {
    predicate IsFailure() { Err? }

    function PropagateFailure<U>(): Result<U>
      requires Err?
    {
      Err(error)
    }

    function Extract(): T
      requires Ok?
    {
      value
    }
  }

  /** Python truthiness: `None`, `False`, the empty string, the empty list
      and the empty dict are false; a response object is always true. */
  predicate Truthy(v: Value) {
    match v
    case NoneV => false
    case Bool(b) => b
    case Str(s) => s != ""
    case AIMessage(_) => true
    case List(items) => items != []
    case Dict(entries) => entries != map[]
  }

  /** `d.get(k, default)` */
  function Get(d: State, k: string, default: Value): Value {
    if k in d then d[k] else default
  }

  /** `d[k]`, which raises `KeyError` for a missing key. */
  function Lookup(d: State, k: string): Result<Value> {
    if k in d then Ok(d[k]) else Err(KeyError(k))
  }

  /** `v[-1]`: the last element of a list, the last character of a string;
      empty sequences raise `IndexError`, a dict raises `KeyError(-1)` and
      every other value is not subscriptable. */
  function LastItem(v: Value): (r: Result<Value>)
    ensures v.List? && v.items != [] ==> r == Ok(v.items[|v.items| - 1])
    ensures v.Str? && v.s != "" ==> r == Ok(Str([v.s[|v.s| - 1]]))
    ensures r.Ok? <==> (v.List? || v.Str?) && Truthy(v)
    ensures r == Err(IndexError) <==> (v.List? || v.Str?) && !Truthy(v)
  {
    match v
    case List(items) => if items == [] then Err(IndexError) else Ok(items[|items| - 1])
    case Str(s) => if s == "" then Err(IndexError) else Ok(Str([s[|s| - 1]]))
    case Dict(_) => Err(KeyError("-1"))
    case _ => Err(TypeError)
  }

  /** `v + [x]`: a new list holding the elements of `v` and then `x`; adding a
      list to anything but a list raises `TypeError`. */
  function AppendItem(v: Value, x: Value): (r: Result<Value>)
    ensures r.Ok? <==> v.List?
    ensures r.Ok? ==> r.value.List? && |r.value.items| == |v.items| + 1
    ensures r.Ok? ==> r.value.items[..|v.items|] == v.items && r.value.items[|v.items|] == x
    ensures r.Err? ==> r.error == TypeError
  {
    match v
    case List(items) => Ok(List(items + [x]))
    case _ => Err(TypeError)
  }
}
