/**
 The JavaScript values the bridge reads out of a parsed frame and writes into an outgoing one.
 Numbers are modelled as integers; `Undefined` stands for a property that is not there.
 */
module Json {

  datatype Value =
    | Undefined
    | Null
    | Bool(b: bool)
    | Num(n: int)
    | Str(s: string)
    | Arr(items: seq<Value>)
    | Obj(fields: map<string, Value>)

  /** JavaScript truthiness: `undefined`, `null`, `false`, `0` and `""` are falsy. */
  predicate Truthy(v: Value)
  {
    match v
    case Undefined => false
    case Null => false
    case Bool(b) => b
    case Num(n) => n != 0
    case Str(s) => s != ""
    case Arr(_) => true
    case Obj(_) => true
  }

  /** Reading any property of `null` or `undefined` throws a TypeError. */
  predicate Nullish(v: Value)
  {
    v.Undefined? || v.Null?
  }

  /**
   `v.key` for a value that is not nullish: the field of an object, `undefined` when the object
   lacks it, and `undefined` for the other values (none of the keys the bridge reads is a
   property of a primitive or an array).
   */
  function Prop(v: Value, key: string): Value
  {
    if v.Obj? && key in v.fields then v.fields[key] else Undefined
  }
}
