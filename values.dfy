/**
 * Shared value types of the label maker: the dynamically typed values that
 * configuration files and format maps hold, the failure-compatible wrappers,
 * and the exceptions the modelled code can raise.
 */
module Values {

  /** A JSON-shaped value, as found in label configurations and format maps. */
  datatype Json =
    | JNull
    | JBool(b: bool)
    | JNum(n: real)
    | JStr(s: string)
    | JList(items: seq<Json>)
    | JObj(fields: map<string, Json>)

  /** A style map: keyword arguments handed to a drawing primitive. */
  type Style = map<string, Json>

  datatype Option<+T> = None | Some(value: T) {
    function GetOr(default: T): T {
      match this
      case Some(v) => v
      case None => default
    }
  }

  /** The exceptions the modelled code raises, plus the one way it can hang. */
  datatype Error =
    | IndexError
    | KeyError(key: string)
    | TypeError
    | AttributeError(name: string)
    | ValueError
    | NameError(name: string)
    | ZeroDivisionError
    | RecursionError
    | AssertionError
    | NonTermination

  datatype Result<+T> = Ok(value: T) | Err(error: Error) {
    predicate IsFailure() {
      Err?
    }

    function PropagateFailure<U>(): Result<U>
      requires Err?
    {
      Err(error)
    }

    function Extract(): T
      requires Ok?
    {
      value
    }
  }

  /** `d.get(key, default)` on a style map. */
  function Get(d: Style, key: string, default: Json): Json {
    if key in d then d[key] else default
  }

  /** A numeric style entry, or the default when the key is absent. */
  function NumberOr(d: Style, key: string, default: real): Result<real> {
    if key !in d then Ok(default)
    else match d[key]
      case JNum(n) => Ok(n)
      case _ => Err(TypeError)
  }

  /** A string style entry, or the default when the key is absent. */
  function StringOr(d: Style, key: string, default: string): Result<string> {
    if key !in d then Ok(default)
    else match d[key]
      case JStr(s) => Ok(s)
      case _ => Err(TypeError)
  }
}
