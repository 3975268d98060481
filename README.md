# node-precond guard engine, in Dafny

This project models the guard engine of `lib/checks.js` in node-precond, a
design-by-contract library. Each guard takes the `arguments` of its call and
has one of two outcomes. It either passes a value through, or it throws an
`IllegalArgumentError` or `IllegalStateError` built from a message template
and format arguments.

- `js_values.dfy` (module `JsValues`) holds the part of the JavaScript value
  model that the guards observe. `JsValue` is a closed union of undefined,
  null, booleans, numbers, strings, arrays, plain objects (their own keys)
  and functions. The module also defines `typeof`, truthiness, loose equality
  with `null`, `Array.isArray`, the `||` operator, and `arguments[i]` /
  `Array.prototype.slice.call(arguments, i)`.
- `checks.dfy` (module `Checks`) models the failure path (`failCheck`,
  `failArgumentCheck`, `failStateCheck`). It also models `checkArgument`,
  `checkState`, `checkIsDef`, `checkIsDefAndNotNull`, the corrected
  `typeOf`, `isEmpty`, the two factories `typeCheck(expect)` and
  `typeCheckNotEmpty(expect)`, and the nine `checkIs*` exports built from
  them.
- `check_properties.dfy` (module `CheckProperties`) holds properties that
  relate several checks: idempotence of every narrowing check, the type
  checks telling all eight tags apart, how the "not empty" variants relate
  to the plain type checks, and a set of example calls with their outcomes.

A throw is modelled as `Outcome.Fail(kind, template, args)`. The template and
arguments stay unresolved, because the formatter in `lib/sprintf` is not part
of this model. The template is a `JsValue`, as in the source: `message ||
default` keeps any truthy message, whatever its type. Each factory is modelled
uncurried. `typeCheck(expect)(…)` becomes `TypeCheck(expected, arguments)`.

Two points about the code:
- The type resolution yields eight tags: `undefined`, `null`, `boolean`,
  `number`, `string`, `array`, `object` and `function`.
- A plain type check whose third argument is an array uses that array's
  elements as the format arguments (lib/checks.js:97). A "not empty" check
  always hands the inner type check its trailing arguments wrapped in one
  array (lib/checks.js:121-123). So `checkIsStringNotEmpty(5, m, [x])` fails
  with format arguments `[[x]]`, while `checkIsString(5, m, [x])` fails with
  `[x]`. `CheckProperties.FormatArgsWrapping` states this.

## Model

| member | source | states |
|---|---|---|
| `JsValues.FalsyValues` | lib/checks.js:39 | `!value` holds exactly for undefined, null, false, "", 0 and NaN; empty arrays and key-less objects are truthy |
| `JsValues.HostTypeof` | lib/checks.js:76 | `typeof` reports "object" exactly for null, arrays and plain objects, and never "null" or "array" |
| `JsValues.IsArray` | lib/checks.js:80 | `Array.isArray` holds only for values that are truthy and that `typeof` reports as "object" |
| `JsValues.LooselyEqualsNull` | lib/checks.js:64 | `value == null` holds exactly for the values `typeof` reports as "undefined" and the falsy value it reports as "object", i.e. undefined and null |
| `JsValues.Arg` | lib/checks.js:38 | a parameter the caller did not pass reads as undefined; otherwise it is the passed argument at that position |
| `JsValues.Or` | lib/checks.js:17 | `a || b` yields `a` when `a` is truthy and `b` otherwise |
| `JsValues.ArgsFrom` | lib/checks.js:41 | slicing `arguments` from position i gives everything after the first i arguments, and nothing when fewer were passed |
| `Checks.FailCheck` | lib/checks.js:16-28 | the failure has the chosen kind and the given format arguments; a truthy template is kept and a falsy one becomes `''` |
| `Checks.FailArgumentCheck` | lib/checks.js:30-32 | fails with IllegalArgument and the given format arguments |
| `Checks.FailStateCheck` | lib/checks.js:34-36 | fails with IllegalState and the given format arguments |
| `Checks.CheckArgument` | lib/checks.js:38-43 | passes (returning undefined) exactly when the value is not one of the six falsy values; otherwise IllegalArgument with the caller's template (or `''`) and the arguments after the second |
| `Checks.CheckState` | lib/checks.js:45-50 | the same as checkArgument, with IllegalState |
| `Checks.ArgumentAndStateAgree` | lib/checks.js:38-50 | checkArgument and checkState pass on the same calls and their failures differ only in kind |
| `Checks.MissingMessageIsEmptyTemplate` | lib/checks.js:16-18 | a missing, undefined or empty message gives the template `''`, with the arguments after position 2 as format arguments |
| `Checks.TypeOf` | lib/checks.js:73-85 | every value gets exactly one of the eight tags, fixed by its kind; null gives "null" and arrays give "array", never "object"; every other value gets its `typeof` |
| `Checks.IsEmpty` | lib/checks.js:101-117 | true exactly for "", [] and an object with no own keys, and only for string, array or object tags |
| `Checks.CheckIsDef` | lib/checks.js:52-60 | fails exactly for undefined (null and 0 pass) and returns the value unchanged; default message "Expected value to be defined but was undefined.", replaced by a truthy caller message |
| `Checks.CheckIsDefAndNotNull` | lib/checks.js:62-71 | fails exactly for null and undefined and returns every other value unchanged; the default message embeds "null" or "undefined" accordingly |
| `Checks.TypeCheckFormatArgs` | lib/checks.js:97 | an array third argument is the format-argument list; otherwise all arguments from position 2 are |
| `Checks.TypeCheck` | lib/checks.js:87-99 | passes the value unchanged iff its resolved tag equals the expected one (never for an unknown tag); otherwise IllegalArgument with `Expected "<expect>" but got "<type>".` unless a truthy message is given |
| `Checks.TypeCheckNotEmpty` | lib/checks.js:119-133 | passes the value unchanged iff its tag matches and it is not empty; a wrong type fails with the type-mismatch message, a right-typed empty value with "Expected value to not be empty."; format arguments are all arguments from position 2 |
| `Checks.CheckIsString` | lib/checks.js:135 | passes exactly strings (including ""), unchanged |
| `Checks.CheckIsStringNotEmpty` | lib/checks.js:136 | passes exactly non-empty strings, unchanged |
| `Checks.CheckIsArray` | lib/checks.js:137 | passes exactly arrays (including []), unchanged |
| `Checks.CheckIsArrayNotEmpty` | lib/checks.js:138 | passes exactly non-empty arrays, unchanged |
| `Checks.CheckIsNumber` | lib/checks.js:139 | passes exactly numbers (including 0 and NaN), unchanged |
| `Checks.CheckIsBoolean` | lib/checks.js:140 | passes exactly booleans, unchanged |
| `Checks.CheckIsFunction` | lib/checks.js:141 | passes exactly functions, unchanged |
| `Checks.CheckIsObject` | lib/checks.js:142 | passes exactly plain objects (not null, not arrays), unchanged |
| `Checks.CheckIsObjectNotEmpty` | lib/checks.js:143 | passes exactly objects with at least one own key, unchanged |
| `CheckProperties.NarrowingIdempotent` | lib/checks.js:52-143 | every narrowing check returns its argument, and applying it again to its passing result (with any message and arguments) gives the same result |
| `CheckProperties.Representative` | lib/checks.js:75-85 | every one of the eight tags is the resolved tag of some value |
| `CheckProperties.TypeChecksDistinguishTags` | lib/checks.js:87-99 | for any of the eight tags and any other string, a value exists that the first tag's check passes and the second's passes only if the two are equal |
| `CheckProperties.NotEmptyIsStricter` | lib/checks.js:119-133 | for string, array and object, some value passes the type check but fails the "not empty" check, and some value passes the "not empty" check |
| `CheckProperties.NotEmptyAgreesOutsideEmptiable` | lib/checks.js:105-133 | for any other tag, the "not empty" factory accepts exactly what the type check accepts |
| `CheckProperties.FormatArgsWrapping` | lib/checks.js:119-123 | an array third argument is unwrapped by a plain type check but kept wrapped by a "not empty" check |
| `CheckProperties.ExampleDefinednessCalls` | lib/checks.js:52-71 | example calls: checkIsDef(undefined) fails with its default message, checkIsDef(null) and checkIsDef(0) pass; checkIsDefAndNotNull fails for null and undefined and passes 0 |
| `CheckProperties.ExampleTypeCheckCalls` | lib/checks.js:87-143 | example calls: checkIsString("") passes, checkIsStringNotEmpty("") fails with the emptiness message, checkIsObject(null) fails with the mismatch message naming "null", checkIsObject([1,2]) and checkIsObjectNotEmpty({}) fail, non-empty values pass |
| `CheckProperties.ExampleArgumentCall` | lib/checks.js:38-43 | example calls: checkArgument(false, "bad value: %s", "x") fails with that template and format args ["x"]; checkArgument([], …) passes |

## Left out

- Stack-trace capture (`Error.captureStackTrace`, `arguments.callee`, lib/checks.js:20-27): it is host runtime machinery and does not change the outcome or the message.
- The message formatter `lib/sprintf` is not part of this model. A failure keeps its template and format arguments unresolved, so the final message text (for example "bad value: x") is not computed.
- The error classes in `lib/errors` are not part of this model. They are represented by the two-valued `ErrorKind`.
- The `Array.isArray` polyfill (lib/checks.js:10-14): it patches a global at load time. In the model, being an array is a constructor of `JsValue`.
- lib/inherits.js (prototype linking) is not modelled. It rewrites the host's prototype chain, and that has no counterpart in this value model.
- Number semantics: a number keeps only whether it is NaN and an integer stand-in for its value. This is enough for truthiness. Infinities, fractions and negative zero are not distinguished.
- Host values outside the closed union (symbols, bigints, `document.all`) are not modelled.
- The factories return closures in the source. The model applies them directly, as `TypeCheck(expected, arguments)` and `TypeCheckNotEmpty(expected, arguments)`.
