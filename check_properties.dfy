/**
 * Properties that relate several guard checks to each other: narrowing
 * checks are idempotent, every resolved tag is told apart by the type
 * checks, and the "not empty" variants are strictly stronger than the
 * plain type checks on exactly the values that can be empty.
 */
module CheckProperties {
  import opened JsValues
  import opened Checks

  /** The narrowing checks the module exports: each returns its value. */
  datatype Narrowing =
    | IsDefCheck
    | IsDefAndNotNullCheck
    | IsStringCheck | IsStringNotEmptyCheck
    | IsArrayCheck | IsArrayNotEmptyCheck
    | IsNumberCheck | IsBooleanCheck | IsFunctionCheck
    | IsObjectCheck | IsObjectNotEmptyCheck

  function Apply(c: Narrowing, arguments: seq<JsValue>): Outcome
  {
    match c
    case IsDefCheck => CheckIsDef(arguments)
    case IsDefAndNotNullCheck => CheckIsDefAndNotNull(arguments)
    case IsStringCheck => CheckIsString(arguments)
    case IsStringNotEmptyCheck => CheckIsStringNotEmpty(arguments)
    case IsArrayCheck => CheckIsArray(arguments)
    case IsArrayNotEmptyCheck => CheckIsArrayNotEmpty(arguments)
    case IsNumberCheck => CheckIsNumber(arguments)
    case IsBooleanCheck => CheckIsBoolean(arguments)
    case IsFunctionCheck => CheckIsFunction(arguments)
    case IsObjectCheck => CheckIsObject(arguments)
    case IsObjectNotEmptyCheck => CheckIsObjectNotEmpty(arguments)
  }

  /** A narrowing check passes its value through unchanged, and whether it
      passes depends on the value alone: re-applying it to its own result,
      with any message and format arguments, gives the same result. */
  lemma NarrowingIdempotent(c: Narrowing, arguments: seq<JsValue>, again: seq<JsValue>)
    requires Apply(c, arguments).Pass?
    requires |again| > 0 && again[0] == Apply(c, arguments).v
    ensures Apply(c, arguments).v == Arg(arguments, 0)
    ensures Apply(c, again) == Apply(c, arguments)
  {
  }

  /** A value whose resolved tag is `t`. */
  function Representative(t: string): (v: JsValue)
    requires t in Tags
    ensures TypeOf(v) == t
  {
    if t == "undefined" then Undefined
    else if t == "null" then Null
    else if t == "boolean" then Bool(true)
    else if t == "number" then Num(0, false)
    else if t == "string" then Str("")
    else if t == "array" then Arr([])
    else if t == "object" then Obj([])
    else Func
  }

  /** Every tag is produced by some value, and the type check for one tag
      tells it apart from every other tag, known or not. */
  lemma TypeChecksDistinguishTags(expected: string, other: string)
    requires expected in Tags
    ensures exists v :: TypeCheck(expected, [v]).Pass? && (TypeCheck(other, [v]).Pass? <==> expected == other)
  {
    var v := Representative(expected);
    assert TypeCheck(expected, [v]).Pass?;
  }

  /** For a tag whose values can be empty, some value passes the plain type
      check and fails the "not empty" one, and some value passes both. */
  lemma NotEmptyIsStricter(expected: string)
    requires expected in EmptiableTags
    ensures exists v :: TypeCheck(expected, [v]).Pass? && TypeCheckNotEmpty(expected, [v]).Fail?
    ensures exists w :: TypeCheckNotEmpty(expected, [w]).Pass?
  {
    var empty := Representative(expected);
    assert TypeCheck(expected, [empty]).Pass? && TypeCheckNotEmpty(expected, [empty]).Fail?;
    var full :=
      if expected == "string" then Str("a")
      else if expected == "array" then Arr([Num(1, false)])
      else Obj(["a"]);
    assert TypeCheckNotEmpty(expected, [full]).Pass?;
  }

  /** For any other tag the "not empty" variant accepts exactly what the type
      check accepts. */
  lemma NotEmptyAgreesOutsideEmptiable(expected: string, arguments: seq<JsValue>)
    requires expected !in EmptiableTags
    ensures TypeCheckNotEmpty(expected, arguments).Pass? <==> TypeCheck(expected, arguments).Pass?
  {
  }

  /** The "not empty" checks do not unwrap an array given as third argument,
      unlike the plain type checks: a failure of `checkIsStringNotEmpty(5,
      m, [x])` keeps `[[x]]` as its format arguments, one of
      `checkIsString(5, m, [x])` keeps `[x]`. */
  lemma FormatArgsWrapping(m: JsValue, x: JsValue)
    ensures CheckIsString([Num(5, false), m, Arr([x])]).args == [x]
    ensures CheckIsStringNotEmpty([Num(5, false), m, Arr([x])]).args == [Arr([x])]
  {
  }

  /** Example calls of the definedness checks: only `undefined` fails
      checkIsDef (lib/checks.js:53), and both `null` and `undefined` fail
      checkIsDefAndNotNull (:64). */
  lemma ExampleDefinednessCalls()
    ensures CheckIsDef([Undefined]) == Fail(IllegalArgument, Str(IsDefMessage), [])
    ensures CheckIsDef([Null]) == Pass(Null)
    ensures CheckIsDef([Num(0, false)]) == Pass(Num(0, false))
    ensures CheckIsDefAndNotNull([Null]).Fail? && CheckIsDefAndNotNull([Undefined]).Fail?
    ensures CheckIsDefAndNotNull([Num(0, false)]) == Pass(Num(0, false))
  {
  }

  /** Example calls of the type checks: the tag comparison (lib/checks.js:91)
      and the emptiness tests (:107-113, :125). */
  lemma ExampleTypeCheckCalls()
    ensures CheckIsString([Str("")]) == Pass(Str(""))
    ensures CheckIsStringNotEmpty([Str("")]) == Fail(IllegalArgument, Str(NotEmptyMessage), [])
    ensures CheckIsStringNotEmpty([Str("a")]) == Pass(Str("a"))
    ensures CheckIsArray([Arr([])]) == Pass(Arr([]))
    ensures CheckIsArrayNotEmpty([Arr([])]).Fail?
    ensures CheckIsArrayNotEmpty([Arr([Num(1, false)])]) == Pass(Arr([Num(1, false)]))
    ensures CheckIsObject([Null]) == Fail(IllegalArgument, Str(TypeMismatchMessage("object", "null")), [])
    ensures CheckIsObject([Arr([Num(1, false), Num(2, false)])]).Fail?
    ensures CheckIsObjectNotEmpty([Obj([])]).Fail?
    ensures CheckIsObjectNotEmpty([Obj(["a"])]) == Pass(Obj(["a"]))
  {
  }

  /** An example call of checkArgument with a falsy value (lib/checks.js:39):
      the message is the template and the third argument its one format
      argument. */
  lemma ExampleArgumentCall()
    ensures CheckArgument([Bool(false), Str("bad value: %s"), Str("x")])
         == Fail(IllegalArgument, Str("bad value: %s"), [Str("x")])
    ensures CheckArgument([Arr([]), Str("bad value: %s"), Str("x")]) == Pass(Undefined)
  {
  }
}
