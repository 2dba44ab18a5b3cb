/**
 * JavaScript values as the interpreters observe them. Effects, commits, states,
 * answers and results are all untyped (`any`) in the library, and two of its
 * tests are observable on them: `=== undefined` and truthiness.
 */
module JsValues {

  /** A JavaScript value. Numbers are modelled as integers. */
  datatype Val =
    | Undefined
    | Null
    | Bool(b: bool)
    | Num(n: int)
    | Str(s: string)
    | Arr(elems: seq<Val>)
    | Obj(fields: map<string, Val>)

  /** JavaScript truthiness: `undefined`, `null`, `false`, `0` and `""` are falsy. */
  predicate Truthy(v: Val) {
    match v
    case Undefined => false
    case Null => false
    case Bool(b) => b
    case Num(n) => n != 0
    case Str(s) => s != ""
    case Arr(_) => true
    case Obj(_) => true
  }

  /** Property read `v.key`; a missing property (or a non-object) reads as undefined. */
  function Get(v: Val, key: string): Val {
    if v.Obj? && key in v.fields then v.fields[key] else Undefined
  }

  /** An object literal with a `type` tag, the shape of every command and commit. */
  function Tagged(tag: string, fields: map<string, Val>): Val {
    Obj(fields["type" := Str(tag)])
  }

  datatype Option<+T> = None | Some(value: T)

  /** The outcome of code that may throw: `Err` carries the thrown error's message. */
  datatype Result<+T> = Ok(value: T) | Err(message: string)
}
