/**
 * The JavaScript values the dashboard moves around: cells of a data row,
 * decoded JSON responses and settings entries, with the three operations the
 * code applies to them: truthiness (`||`, `&&`, `!`), property reads on a
 * plain object, and conversion with `String(v)`.
 */
module Values {
  import Text

  datatype Option<+T> = None | Some(value: T)

  datatype Value =
    | Undef
    | Null
    | Bool(b: bool)
    | Num(n: int)
    | Str(s: string)
    | Arr(items: seq<Value>)
    | Obj(fields: map<string, Value>)
      /** A member that every plain object inherits from `Object.prototype`. */
    | Builtin(name: string)

  /** A data row: column name to cell. */
  type Row = map<string, Value>

  /** The property names `Object.prototype` supplies to every object literal. */
  const InheritedKeys: set<string> := {
    "constructor", "hasOwnProperty", "isPrototypeOf", "propertyIsEnumerable",
    "toLocaleString", "toString", "valueOf", "__proto__",
    "__defineGetter__", "__defineSetter__", "__lookupGetter__", "__lookupSetter__"
  }

  predicate Truthy(v: Value) {
    match v
    case Undef => false
    case Null => false
    case Bool(b) => b
    case Num(n) => n != 0
    case Str(s) => s != ""
    case Arr(_) => true
    case Obj(_) => true
    case Builtin(_) => true
  }

  /** `null` or `undefined`: what `?.` and `??` test for. */
  predicate Nullish(v: Value) {
    v.Undef? || v.Null?
  }

  /** `o[k]` on a plain object whose own properties are `o`. */
  function Get(o: map<string, Value>, k: string): (v: Value)
    ensures k in o ==> v == o[k]
    ensures k !in o ==> (Truthy(v) <==> k in InheritedKeys)
  {
    if k in o then o[k] else if k in InheritedKeys then Builtin(k) else Undef
  }

  /** `String(v)`. Inside an array, `null` and `undefined` render as the empty string. */
  function Display(v: Value): string
    decreases v
  {
    match v
    case Undef => "undefined"
    case Null => "null"
    case Bool(b) => if b then "true" else "false"
    case Num(n) => Text.IntToString(n)
    case Str(s) => s
    case Arr(items) =>
      Text.Join(seq(|items|, i requires 0 <= i < |items| =>
                      if Nullish(items[i]) then "" else Display(items[i])), ',')
    case Obj(_) => "[object Object]"
    case Builtin(name) =>
      if name == "__proto__" then "[object Object]" else "function " + name + "() { [native code] }"
  }
}
