/** Values and commands that travel over the bridge between the Python
    application and the Android host. */
module BridgeTypes {

  datatype Option<+T> = None | Some(value: T)

  /** The Python values the core inspects: `None`, booleans, integers,
      strings, and any other object, identified by the name of its type. */
  datatype Value =
    | NoneValue
    | BoolValue(b: bool)
    | IntValue(i: int)
    | StrValue(s: string)
    | Object(typeName: string)

  /** Python truthiness, as used by `if result_id:`.  Plain objects are truthy. */
  predicate Truthy(v: Value)
  {
    match v
    case NoneValue => false
    case BoolValue(b) => b
    case IntValue(i) => i != 0
    case StrValue(s) => s != ""
    case Object(_) => true
  }

  /** `type(v).__name__`. */
  function TypeName(v: Value): string
  {
    match v
    case NoneValue => "NoneType"
    case BoolValue(_) => "bool"
    case IntValue(_) => "int"
    case StrValue(_) => "str"
    case Object(t) => t
  }

  /** One positional argument of a queued command.  `Encoded(sig, v)` stands
      for `bridge.msgpack_encoder(sig, v)`, whose encoding is not part of this
      model: the pair it is applied to is kept instead. */
  datatype Arg =
    | Plain(v: Value)
    | Encoded(sig: Option<string>, v: Value)

  /** The command names of `bridge.Command` the core sends itself, and any other. */
  datatype Kind = RESULT | ERROR | Named(name: string)

  /** One `(name, args)` entry of `_bridge_queue`. */
  datatype Command = Command(kind: Kind, args: seq<Arg>)

  /** The RESULT command `handle_event` sends for `resultId`. */
  function ResultCommand(resultId: Value, sig: Option<string>, result: Value): Command
  {
    Command(RESULT, [Plain(resultId), Encoded(sig, result)])
  }

  /** The ERROR command `show_error` and `handle_error` send. */
  function ErrorCommand(msg: string): Command
  {
    Command(ERROR, [Plain(StrValue(msg))])
  }
}
