/**
 * The slice of the JavaScript value model that the guard engine observes:
 * the `typeof` operator, truthiness (`!value`), loose equality with `null`,
 * `Array.isArray`, the `||` operator, and access to a call's `arguments`.
 */
module JsValues {

  /** A closed stand-in for "any JavaScript value". Numbers keep only what
      truthiness needs: whether they are NaN and, if not, an integer value
      whose zero-ness matters. Objects keep their own enumerable keys. */
  datatype JsValue =
    | Undefined
    | Null
    | Bool(b: bool)
    | Num(n: int, isNaN: bool)
    | Str(s: string)
    | Arr(elems: seq<JsValue>)
    | Obj(keys: seq<string>)
    | Func

  /** The host's uncorrected `typeof` operator: null, arrays and plain
      objects all report "object", and no value reports "null" or "array". */
  function HostTypeof(v: JsValue): (r: string)
    ensures r in {"undefined", "boolean", "number", "string", "object", "function"}
    ensures r == "object" <==> v.Null? || v.Arr? || v.Obj?
  {
    match v
    case Undefined => "undefined"
    case Null => "object"
    case Bool(_) => "boolean"
    case Num(_, _) => "number"
    case Str(_) => "string"
    case Arr(_) => "object"
    case Obj(_) => "object"
    case Func => "function"
  }

  /** The host's truthiness: `!value` is `!Truthy(value)`. */
  predicate Truthy(v: JsValue)
  {
    match v
    case Undefined => false
    case Null => false
    case Bool(b) => b
    case Num(n, nan) => !nan && n != 0
    case Str(s) => s != ""
    case Arr(_) => true
    case Obj(_) => true
    case Func => true
  }

  /** The six falsy values of the host, listed independently of Truthy. */
  predicate IsFalsyValue(v: JsValue)
  {
    v == Undefined || v == Null || v == Bool(false) || v == Str("")
    || (v.Num? && (v.isNaN || v.n == 0))
  }

  /** Truthiness is false exactly on the host's falsy values; in particular
      empty arrays and objects without keys are truthy. */
  lemma FalsyValues(v: JsValue)
    ensures !Truthy(v) <==> IsFalsyValue(v)
    ensures Truthy(Arr([])) && Truthy(Obj([]))
  {
  }

  /** `Array.isArray(value)`: every array is a truthy value that `typeof`
      reports as "object". */
  predicate IsArray(v: JsValue)
    ensures IsArray(v) ==> HostTypeof(v) == "object" && Truthy(v)
  {
    v.Arr?
  }

  /** `value == null` under loose equality: only `null` and `undefined`,
      that is the values `typeof` reports as "undefined" and the one falsy
      value it reports as "object". */
  predicate LooselyEqualsNull(v: JsValue)
    ensures LooselyEqualsNull(v) <==>
      HostTypeof(v) == "undefined" || (HostTypeof(v) == "object" && !Truthy(v))
  {
    v == Null || v == Undefined
  }

  /** The `||` operator: the left operand when it is truthy, else the right. */
  function Or(left: JsValue, right: JsValue): (r: JsValue)
    ensures r == left || r == right
    ensures Truthy(left) ==> r == left
    ensures !Truthy(left) ==> r == right
  {
    if Truthy(left) then left else right
  }

  /** `arguments[i]` of a call: `undefined` when the caller passed fewer. */
  function Arg(arguments: seq<JsValue>, i: nat): (r: JsValue)
    ensures i < |arguments| ==> r == arguments[i]
    ensures |arguments| <= i ==> r == Undefined
  {
    if i < |arguments| then arguments[i] else Undefined
  }

  /** `Array.prototype.slice.call(arguments, i)`: everything from position i. */
  function ArgsFrom(arguments: seq<JsValue>, i: nat): (r: seq<JsValue>)
    ensures |arguments| <= i ==> r == []
    ensures i < |arguments| ==> arguments == arguments[..i] + r
  {
    if i < |arguments| then arguments[i..] else []
  }
}
