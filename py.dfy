/** Python values as the tools see them after JSON decoding, and the
    Python dictionary lookups they perform on them. */
module Py {

  datatype Option<+T> = None | Some(value: T) {
    function GetOr(default: T): T {
      match this
      case Some(v) => v
      case None => default
    }
  }

  /** The exceptions a routine of the source can raise on input it does not expect. */
  datatype PyError = AttributeError(what: string) | TypeError(what: string) | KeyError(key: string)

  /** A value, or the exception raised computing it; `:-` passes the exception on. */
  datatype Result<+T> = Ok(value: T) | Err(error: PyError) {
    predicate IsFailure() { Err? }

    function PropagateFailure<U>(): Result<U>
      requires Err?
    {
      Err(error)
    }

    function Extract(): T
      requires Ok?
    {
      value
    }
  }

  /** A dictionary slot of a typed record: the key is absent, present with
      None, or present with a value. `dict.get(k, d)` tells the first two apart. */
  datatype Slot<+T> = Missing | Null | Has(value: T) {
    /** `d.get(k, default)` for a slot that may hold None. */
    function Get(default: Option<T>): Option<T> {
      match this
      case Missing => default
      case Null => None
      case Has(v) => Some(v)
    }

    /** `bool(d.get(k))`: present, not None, and passes the given truthiness test. */
    predicate TruthyBy(truthy: T -> bool) {
      Has? && truthy(value)
    }
  }

  /** A decoded JSON value (the numbers the tools look at are integers). */
  datatype Json =
    | JNull
    | JBool(b: bool)
    | JNum(n: int)
    | JStr(s: string)
    | JArr(items: seq<Json>)
    | JObj(fields: map<string, Json>)

  /** Python's `bool(v)`. */
  predicate Truthy(v: Json) {
    match v
    case JNull => false
    case JBool(b) => b
    case JNum(n) => n != 0
    case JStr(s) => |s| > 0
    case JArr(xs) => |xs| > 0
    case JObj(m) => |m| > 0
  }

  /** `m.get(k, default)`. */
  function Get(m: map<string, Json>, k: string, default: Json): (v: Json)
    ensures k in m ==> v == m[k]
    ensures k !in m ==> v == default
  {
    if k in m then m[k] else default
  }

  /** `str(s)` inside an f-string for a value that is a string or None. */
  function Shown(v: Option<string>): string {
    match v
    case Some(s) => s
    case None => "None"
  }

  /** `f"{d.get(k, default)}"` for a key whose value is a string or None. */
  function SlotText(s: Slot<string>, default: string): (r: string)
    ensures s.Missing? ==> r == default
    ensures s.Null? ==> r == "None"
    ensures s.Has? ==> r == s.value
  {
    Shown(s.Get(Some(default)))
  }

  /** Python truthiness of an optional string argument. */
  predicate TruthyText(s: Option<string>) {
    s.Some? && s.value != []
  }

  /** A value the source formats or compares as text: a string or None. */
  predicate IsTextOrNull(v: Json) {
    v.JStr? || v.JNull?
  }

  /** A value the source treats as text only when it is truthy: a falsy value or a string. */
  predicate FalsyOrText(v: Json) {
    !Truthy(v) || v.JStr?
  }
}
