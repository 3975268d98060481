/**
 * The guard engine of lib/checks.js. Every check receives the `arguments`
 * of its call and either passes a value through or fails with one of two
 * error kinds. A failure carries the message template and its format
 * arguments unresolved: the formatter that turns them into the final
 * message is not part of this model.
 */
module Checks {
  import opened JsValues

  /** The two error classes the engine throws. */
  datatype ErrorKind = IllegalArgument | IllegalState

  /** "Return a value" or "throw an error built from template and args". */
  datatype Outcome =
    | Pass(v: JsValue)
    | Fail(kind: ErrorKind, template: JsValue, args: seq<JsValue>)

  /** Every tag the corrected type resolution can produce. */
  const Tags: set<string> :=
    {"undefined", "null", "boolean", "number", "string", "array", "object", "function"}

  /** The tags whose values can be empty. */
  const EmptiableTags: set<string> := {"string", "array", "object"}

  const IsDefMessage := "Expected value to be defined but was undefined."
  const NotEmptyMessage := "Expected value to not be empty."

  function IsDefAndNotNullMessage(actual: string): string
  {
    "Expected value to be defined and not null but got \"" + actual + "\"."
  }

  function TypeMismatchMessage(expected: string, actual: string): string
  {
    "Expected \"" + expected + "\" but got \"" + actual + "\"."
  }

  // ---------------------------------------------------------------------
  // Failure path
  // ---------------------------------------------------------------------

  /** `failCheck`: a falsy template becomes the empty string, a usable one
      is kept, and the format arguments are passed on as given. */
  function FailCheck(kind: ErrorKind, messageFormat: JsValue, formatArgs: seq<JsValue>): (r: Outcome)
    ensures r.Fail? && r.kind == kind && r.args == formatArgs
    ensures Truthy(messageFormat) ==> r.template == messageFormat
    ensures !Truthy(messageFormat) ==> r.template == Str("")
  {
    Fail(kind, Or(messageFormat, Str("")), formatArgs)
  }

  /** `failArgumentCheck`. */
  function FailArgumentCheck(message: JsValue, formatArgs: seq<JsValue>): (r: Outcome)
    ensures r.Fail? && r.kind == IllegalArgument && r.args == formatArgs
  {
    FailCheck(IllegalArgument, message, formatArgs)
  }

  /** `failStateCheck`. */
  function FailStateCheck(message: JsValue, formatArgs: seq<JsValue>): (r: Outcome)
    ensures r.Fail? && r.kind == IllegalState && r.args == formatArgs
  {
    FailCheck(IllegalState, message, formatArgs)
  }

  // ---------------------------------------------------------------------
  // Plain assertions
  // ---------------------------------------------------------------------

  /** `checkArgument(value, message, ...args)`: returns `undefined` when the
      value is truthy, otherwise fails with IllegalArgument. */
  function CheckArgument(arguments: seq<JsValue>): (r: Outcome)
    ensures r.Pass? <==> !IsFalsyValue(Arg(arguments, 0))
    ensures r.Pass? ==> r.v == Undefined
    ensures r.Fail? ==> r.kind == IllegalArgument && r.args == ArgsFrom(arguments, 2)
    ensures r.Fail? && Truthy(Arg(arguments, 1)) ==> r.template == Arg(arguments, 1)
    ensures r.Fail? && !Truthy(Arg(arguments, 1)) ==> r.template == Str("")
  {
    FalsyValues(Arg(arguments, 0));
    if !Truthy(Arg(arguments, 0)) then
      FailArgumentCheck(Arg(arguments, 1), ArgsFrom(arguments, 2))
    else
      Pass(Undefined)
  }

  /** `checkState(value, message, ...args)`: as CheckArgument, with
      IllegalState. */
  function CheckState(arguments: seq<JsValue>): (r: Outcome)
    ensures r.Pass? <==> !IsFalsyValue(Arg(arguments, 0))
    ensures r.Pass? ==> r.v == Undefined
    ensures r.Fail? ==> r.kind == IllegalState && r.args == ArgsFrom(arguments, 2)
    ensures r.Fail? && Truthy(Arg(arguments, 1)) ==> r.template == Arg(arguments, 1)
    ensures r.Fail? && !Truthy(Arg(arguments, 1)) ==> r.template == Str("")
  {
    FalsyValues(Arg(arguments, 0));
    if !Truthy(Arg(arguments, 0)) then
      FailStateCheck(Arg(arguments, 1), ArgsFrom(arguments, 2))
    else
      Pass(Undefined)
  }

  /** The two plain assertions differ only in the error kind they raise. */
  lemma ArgumentAndStateAgree(arguments: seq<JsValue>)
    ensures CheckArgument(arguments).Pass? <==> CheckState(arguments).Pass?
    ensures CheckArgument(arguments).Fail? ==>
      CheckState(arguments) == CheckArgument(arguments).(kind := IllegalState)
  {
  }

  /** A missing message, or any falsy one, becomes the empty template, and
      the arguments after the second position are the format arguments. */
  lemma MissingMessageIsEmptyTemplate(arguments: seq<JsValue>)
    requires !Truthy(Arg(arguments, 0))
    requires |arguments| < 2 || arguments[1] == Str("") || arguments[1] == Undefined
    ensures CheckArgument(arguments) == Fail(IllegalArgument, Str(""), ArgsFrom(arguments, 2))
    ensures CheckState(arguments) == Fail(IllegalState, Str(""), ArgsFrom(arguments, 2))
    ensures |arguments| <= 2 ==> CheckArgument(arguments).args == []
  {
  }

  // ---------------------------------------------------------------------
  // Type resolution and emptiness
  // ---------------------------------------------------------------------

  /** `typeOf`: `typeof` corrected so that null and arrays get tags of their
      own. Each value has exactly one tag, fixed by its kind of value. */
  function TypeOf(v: JsValue): (r: string)
    ensures r in Tags
    ensures r == "undefined" <==> v.Undefined?
    ensures r == "null" <==> v.Null?
    ensures r == "boolean" <==> v.Bool?
    ensures r == "number" <==> v.Num?
    ensures r == "string" <==> v.Str?
    ensures r == "array" <==> v.Arr?
    ensures r == "object" <==> v.Obj?
    ensures r == "function" <==> v.Func?
    ensures !v.Null? && !v.Arr? ==> r == HostTypeof(v)
  {
    var s := HostTypeof(v);
    if s == "object" then
      if !Truthy(v) then "null"
      else if IsArray(v) then "array"
      else s
    else s
  }

  /** `isEmpty`: true exactly for the empty string, the empty array and an
      object with no own keys, and false for every other tag. */
  function IsEmpty(v: JsValue): (r: bool)
    ensures r <==> v == Str("") || v == Arr([]) || v == Obj([])
    ensures r ==> TypeOf(v) in EmptiableTags
  {
    var t := TypeOf(v);
    if t == "string" && |v.s| == 0 then true
    else if t == "array" && |v.elems| == 0 then true
    else if t == "object" && |v.keys| == 0 then true
    else false
  }

  // ---------------------------------------------------------------------
  // Narrowing checks
  // ---------------------------------------------------------------------

  /** `checkIsDef(value, message, ...args)`: fails only for `undefined`. */
  function CheckIsDef(arguments: seq<JsValue>): (r: Outcome)
    ensures r.Pass? <==> Arg(arguments, 0) != Undefined
    ensures r.Pass? ==> r.v == Arg(arguments, 0)
    ensures r.Fail? ==> r.kind == IllegalArgument && r.args == ArgsFrom(arguments, 2)
    ensures r.Fail? && Truthy(Arg(arguments, 1)) ==> r.template == Arg(arguments, 1)
    ensures r.Fail? && !Truthy(Arg(arguments, 1)) ==> r.template == Str(IsDefMessage)
  {
    var value := Arg(arguments, 0);
    if value != Undefined then Pass(value)
    else FailArgumentCheck(Or(Arg(arguments, 1), Str(IsDefMessage)), ArgsFrom(arguments, 2))
  }

  /** `checkIsDefAndNotNull(value, message, ...args)`: fails exactly for
      `null` and `undefined`; the default message names which of the two. */
  function CheckIsDefAndNotNull(arguments: seq<JsValue>): (r: Outcome)
    ensures r.Pass? <==> !Arg(arguments, 0).Null? && !Arg(arguments, 0).Undefined?
    ensures r.Pass? ==> r.v == Arg(arguments, 0)
    ensures r.Fail? ==> r.kind == IllegalArgument && r.args == ArgsFrom(arguments, 2)
    ensures r.Fail? && Truthy(Arg(arguments, 1)) ==> r.template == Arg(arguments, 1)
    ensures r.Fail? && !Truthy(Arg(arguments, 1)) ==>
      r.template == Str(IsDefAndNotNullMessage(if Arg(arguments, 0).Null? then "null" else "undefined"))
  {
    var value := Arg(arguments, 0);
    if !LooselyEqualsNull(value) then Pass(value)
    else FailArgumentCheck(Or(Arg(arguments, 1), Str(IsDefAndNotNullMessage(TypeOf(value)))),
                           ArgsFrom(arguments, 2))
  }

  /** The format arguments of a failed type check: a third argument that is
      itself an array is the list; otherwise everything from position 2. */
  function TypeCheckFormatArgs(arguments: seq<JsValue>): (r: seq<JsValue>)
    ensures IsArray(Arg(arguments, 2)) ==> r == Arg(arguments, 2).elems
    ensures !IsArray(Arg(arguments, 2)) ==> r == ArgsFrom(arguments, 2)
    ensures |arguments| <= 2 ==> r == []
  {
    var formatArgs := Arg(arguments, 2);
    if IsArray(formatArgs) then formatArgs.elems else ArgsFrom(arguments, 2)
  }

  /** The check returned by the factory `typeCheck(expected)`, applied to a
      call's arguments: passes the value through exactly when its resolved
      tag is `expected`. */
  function TypeCheck(expected: string, arguments: seq<JsValue>): (r: Outcome)
    ensures r.Pass? <==> TypeOf(Arg(arguments, 0)) == expected
    ensures r.Pass? ==> r.v == Arg(arguments, 0)
    ensures expected !in Tags ==> r.Fail?
    ensures r.Fail? ==> r.kind == IllegalArgument && r.args == TypeCheckFormatArgs(arguments)
    ensures r.Fail? && Truthy(Arg(arguments, 1)) ==> r.template == Arg(arguments, 1)
    ensures r.Fail? && !Truthy(Arg(arguments, 1)) ==>
      r.template == Str(TypeMismatchMessage(expected, TypeOf(Arg(arguments, 0))))
  {
    var value := Arg(arguments, 0);
    var t := TypeOf(value);
    if t == expected then Pass(value)
    else FailArgumentCheck(Or(Arg(arguments, 1), Str(TypeMismatchMessage(expected, t))),
                           TypeCheckFormatArgs(arguments))
  }

  /** The check returned by the factory `typeCheckNotEmpty(expected)`: the type
      check runs first (with the trailing arguments wrapped as one array), so
      a wrong type fails with the type-mismatch message; a right-typed empty
      value fails with the emptiness message; anything else passes through. */
  function TypeCheckNotEmpty(expected: string, arguments: seq<JsValue>): (r: Outcome)
    ensures r.Pass? <==> TypeOf(Arg(arguments, 0)) == expected && !IsEmpty(Arg(arguments, 0))
    ensures r.Pass? ==> r.v == Arg(arguments, 0)
    ensures r.Fail? ==> r.kind == IllegalArgument && r.args == ArgsFrom(arguments, 2)
    ensures r.Fail? && Truthy(Arg(arguments, 1)) ==> r.template == Arg(arguments, 1)
    ensures r.Fail? && !Truthy(Arg(arguments, 1)) && TypeOf(Arg(arguments, 0)) != expected ==>
      r.template == Str(TypeMismatchMessage(expected, TypeOf(Arg(arguments, 0))))
    ensures r.Fail? && !Truthy(Arg(arguments, 1)) && TypeOf(Arg(arguments, 0)) == expected ==>
      r.template == Str(NotEmptyMessage)
  {
    var value := Arg(arguments, 0);
    var message := Arg(arguments, 1);
    var formatArgs := ArgsFrom(arguments, 2);
    var typed := TypeCheck(expected, [value, message, Arr(formatArgs)]);
    if typed.Fail? then typed
    else if IsEmpty(value) then FailArgumentCheck(Or(message, Str(NotEmptyMessage)), formatArgs)
    else Pass(value)
  }

  // ---------------------------------------------------------------------
  // The nine exported type checks
  // ---------------------------------------------------------------------

  /** `checkIsString = typeCheck('string')`. */
  function CheckIsString(arguments: seq<JsValue>): (r: Outcome)
    ensures r.Pass? <==> Arg(arguments, 0).Str?
    ensures r.Pass? ==> r.v == Arg(arguments, 0)
  {
    TypeCheck("string", arguments)
  }

  /** `checkIsStringNotEmpty = typeCheckNotEmpty('string')`. */
  function CheckIsStringNotEmpty(arguments: seq<JsValue>): (r: Outcome)
    ensures r.Pass? <==> Arg(arguments, 0).Str? && Arg(arguments, 0).s != ""
    ensures r.Pass? ==> r.v == Arg(arguments, 0)
  {
    TypeCheckNotEmpty("string", arguments)
  }

  /** `checkIsArray = typeCheck('array')`. */
  function CheckIsArray(arguments: seq<JsValue>): (r: Outcome)
    ensures r.Pass? <==> Arg(arguments, 0).Arr?
    ensures r.Pass? ==> r.v == Arg(arguments, 0)
  {
    TypeCheck("array", arguments)
  }

  /** `checkIsArrayNotEmpty = typeCheckNotEmpty('array')`. */
  function CheckIsArrayNotEmpty(arguments: seq<JsValue>): (r: Outcome)
    ensures r.Pass? <==> Arg(arguments, 0).Arr? && Arg(arguments, 0).elems != []
    ensures r.Pass? ==> r.v == Arg(arguments, 0)
  {
    TypeCheckNotEmpty("array", arguments)
  }

  /** `checkIsNumber = typeCheck('number')`: NaN and zero are numbers too. */
  function CheckIsNumber(arguments: seq<JsValue>): (r: Outcome)
    ensures r.Pass? <==> Arg(arguments, 0).Num?
    ensures r.Pass? ==> r.v == Arg(arguments, 0)
  {
    TypeCheck("number", arguments)
  }

  /** `checkIsBoolean = typeCheck('boolean')`. */
  function CheckIsBoolean(arguments: seq<JsValue>): (r: Outcome)
    ensures r.Pass? <==> Arg(arguments, 0).Bool?
    ensures r.Pass? ==> r.v == Arg(arguments, 0)
  {
    TypeCheck("boolean", arguments)
  }

  /** `checkIsFunction = typeCheck('function')`. */
  function CheckIsFunction(arguments: seq<JsValue>): (r: Outcome)
    ensures r.Pass? <==> Arg(arguments, 0).Func?
    ensures r.Pass? ==> r.v == Arg(arguments, 0)
  {
    TypeCheck("function", arguments)
  }

  /** `checkIsObject = typeCheck('object')`: null and arrays are rejected. */
  function CheckIsObject(arguments: seq<JsValue>): (r: Outcome)
    ensures r.Pass? <==> Arg(arguments, 0).Obj?
    ensures r.Pass? ==> r.v == Arg(arguments, 0)
  {
    TypeCheck("object", arguments)
  }

  /** `checkIsObjectNotEmpty = typeCheckNotEmpty('object')`. */
  function CheckIsObjectNotEmpty(arguments: seq<JsValue>): (r: Outcome)
    ensures r.Pass? <==> Arg(arguments, 0).Obj? && Arg(arguments, 0).keys != []
    ensures r.Pass? ==> r.v == Arg(arguments, 0)
  {
    TypeCheckNotEmpty("object", arguments)
  }
}
