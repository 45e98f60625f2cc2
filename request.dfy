/** The load balancer event and the execution context, as the handler sees
    them. The event is a JSON object decoded into Python values; only the
    distinctions the handler's code is sensitive to are kept: strings, `None`,
    dictionaries (which have `.get`) and everything else. */
module Request {

  /** A decoded JSON value. `Dict` and `Other` carry the text Python's `str()`
      gives for them (the handler only ever needs it, never builds it);
      `Other` stands for numbers, booleans and lists and carries the Python
      type name used in `AttributeError` messages. */
  datatype Value =
    | Null
    | Str(s: string)
    | Dict(entries: map<string, Value>, text: string)
    | Other(typeName: string, text: string)

  /** The event dictionary (lambda_handler.py:45). */
  type Event = map<string, Value>

  /** The attributes of the execution context that the handler reads. */
  datatype Context = Context(
    requestId: string,
    functionName: string,
    functionVersion: string,
    memoryLimitInMb: int)

  /** The empty dictionary `{}` used as a default by `.get`. */
  const EmptyDict: Value := Dict(map[], "{}")

  /** `d.get(key, default)`: an exact-key lookup. */
  function Get(d: map<string, Value>, key: string, default: Value): (v: Value)
    ensures key in d ==> v == d[key]
    ensures key !in d ==> v == default
  {
    if key in d then d[key] else default
  }

  /** `str(v)`. */
  function PyStr(v: Value): (r: string)
    ensures v.Str? ==> r == v.s
    ensures v.Null? ==> r == "None"
  {
    match v
    case Null => "None"
    case Str(s) => s
    case Dict(_, text) => text
    case Other(_, text) => text
  }

  /** `type(v).__name__`. */
  function TypeName(v: Value): string {
    match v
    case Null => "NoneType"
    case Str(_) => "str"
    case Dict(_, _) => "dict"
    case Other(name, _) => name
  }

  /** The message of the `AttributeError` raised by `v.attribute`. */
  function NoAttribute(v: Value, attribute: string): string {
    "'" + TypeName(v) + "' object has no attribute '" + attribute + "'"
  }
}
