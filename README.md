# Error handler and trace filter of yii1tech/error-handler, in Dafny

This project models two pieces of the yii1tech error-handler extension for
Yii 1 and proves properties of them.

The first piece is `ErrorTraceFilter`. It turns a PHP stack trace into a short
and safe form. It keeps the first `maxTraceSize` frames (10 by default). In each
kept frame it replaces the `args` array by one summary string. The summary
shows at most four arguments and then `...`. Objects show only their class name.
Strings are cut after 64 characters. Nested arrays are summarised the same way,
inside brackets.

The second piece is `ErrorHandler::handleErrorGlobal`, the PHP error handler.
It does one of four things with a PHP error:

- delegates it to the application's `handleError` when conversion is off;
- ignores it when the reporting mask does not cover its level;
- throws it as an `ErrorException` whose trace starts at the caller;
- before PHP 7.4, when a `__toString` frame is on the stack, hands that
  exception to the application's `handleException` instead of throwing it.

Files:

- `php_values.dfy` (module `PhpValues`): PHP values, PHP arrays as ordered
  (key, value) sequences, `array_key_exists`, the "is a list" test, integer to
  string conversion and `implode`.
- `trace_filter.dfy` (module `TraceFilter`): `SimplifyArgument`, the summary
  `Summary` as the specification of `simplifyArguments`, and the class
  `ErrorTraceFilter`. Its `Filter` and `SimplifyArguments` methods are the
  source's loops, each proved equal to the specification.
- `trace_filter_examples.dfy` (module `TraceFilterExamples`): the argument
  fixture of the trace-filter test and the summary it gets at every level.
- `error_handler.dfy` (module `ErrorHandling`): the class `ErrorHandler` with
  its `convertErrorToException` field, the decision method, the conversion
  test of tests/ErrorHandlerTest.php, and a scenario of the `__toString` path
  of src/ErrorHandler.php:80-91. PHP's `&` on the reporting mask is the bitwise and of the two
  64-bit two's complement patterns, computed bit by bit.

Inputs in place of runtime calls:

- `error_reporting()` is the `mask` parameter.
- `debug_backtrace()` is the `backtrace` parameter. Its first frame is the
  handler's own.
- `PHP_VERSION_ID` is the `phpVersionId` parameter.
- `Yii::app()->handleError(...)`, `Yii::app()->handleException(...)` and
  `throw` are the `Outcome` values `Delegated`, `HandedToExceptionHandler` and
  `Thrown`.
- `get_class` is the class name carried in the `Obj` value.

Two consequences of the code are worth stating:

- A masked-out error is only ignored. It is not passed to the application's
  `handleError` (src/ErrorHandler.php:73, 94).
- The exception's trace is the backtrace without its first frame. It is empty
  when the backtrace holds only the handler's frame. The code does not
  guarantee a non-empty trace.

## Model

| member | source | states |
|---|---|---|
| `PhpValues.IsListIffArrayValues` | src/ErrorTraceFilter.php:54 | the list test is `$args !== array_values($args)` negated: an array is a list exactly when renumbering its values gives it back |
| `TraceFilter.ErrorTraceFilter.constructor` | src/ErrorTraceFilter.php:20 | a new filter keeps at most 10 frames |
| `TraceFilter.ErrorTraceFilter.Filter` | src/ErrorTraceFilter.php:28-42 | the result has exactly min(length of the trace, maxTraceSize) frames, and frame i is input frame i simplified, in order |
| `TraceFilter.SimplifiedFrameShape` | src/ErrorTraceFilter.php:33-39 | a simplified frame has the same keys in the same order; every entry except `args` is unchanged; `args` becomes the summary string of its array; a frame without `args` is returned unchanged and gains no `args` key, and a frame changes exactly when it has `args` |
| `TraceFilter.RestrictedTraceShowsArguments` | tests/ErrorTraceFilterTest.php:60-94 | with maxTraceSize = 1, a trace whose first frame has arguments filters to exactly one frame, and that frame's `args` is a string |
| `TraceFilter.ErrorTraceFilter.SimplifyArguments` | src/ErrorTraceFilter.php:50-79 | the count loop, which rewrites entries in place, replaces the fifth by `...`, unsets the rest and implodes, returns exactly the summary `Summary(args)` |
| `TraceFilter.ItemsAt` | src/ErrorTraceFilter.php:52-78 | a summary has min(n, 5) items; item 5 is the bare `...` whatever the fifth entry's key or value; items 1-4 are the first entries' items in order; an empty array gives the empty string |
| `TraceFilter.ItemKeyFormat` | src/ErrorTraceFilter.php:69-75 | items 1-4 under a string key read `'key' => v`; under an integer key they read `k => v` when the array is not a 0..n-1 list, and a bare `v` when it is |
| `TraceFilter.SummaryDeterminedByFirstFour` | src/ErrorTraceFilter.php:54-67 | two arrays with the same first four entries, the same count up to five and the same list-ness have the same summary |
| `TraceFilter.FifthValueNotShown` | src/ErrorTraceFilter.php:59-66 | changing the value of the fifth entry does not change the summary |
| `TraceFilter.LaterEntriesDropped` | src/ErrorTraceFilter.php:59-62 | appending entries after the fifth leaves the summary unchanged, as long as the array's list-ness is unchanged |
| `TraceFilter.SimplifyArgument` | src/ErrorTraceFilter.php:85-106 | the simplified value is always a string or an integer; an integer argument is returned as it is, and an integer result only comes from an integer argument |
| `TraceFilter.StringArgument` | src/ErrorTraceFilter.php:91-96 | a string of more than 64 characters shows its first 64 and `...` inside the quotes; a string of up to 64 characters, 64 included, is quoted in full; a string leaf is at most 69 characters |
| `TraceFilter.ArgumentTexts` | src/ErrorTraceFilter.php:87-103 | an object shows its class name and never its properties; booleans show `true`/`false`; an array shows `[` summary `]`; null shows `null`; a resource shows `resource`; an integer shows its decimal text |
| `TraceFilterExamples.ListArgSummary` | tests/ErrorTraceFilterTest.php:21 | the list `['foo', 'bar']` shows `'foo', 'bar'`, with no keys |
| `TraceFilterExamples.ListWithHolesSummary` | tests/ErrorTraceFilterTest.php:22 | `[9 => 'nine', 5 => 'five']` shows its integer keys |
| `TraceFilterExamples.MixedArraySummary` | tests/ErrorTraceFilterTest.php:23 | `['foo', 'name' => 'bar']` shows `0 => 'foo', 'name' => 'bar'` |
| `TraceFilterExamples.InnerSubSummary` | tests/ErrorTraceFilterTest.php:20-24 | the innermost fixture array, with nested arrays in brackets |
| `TraceFilterExamples.OuterSubSummary` | tests/ErrorTraceFilterTest.php:16-25 | the fixture's 100-character string is cut to 64 characters; null and the resource show as words |
| `TraceFilterExamples.AllTypesOfArgsSummary` | tests/ErrorTraceFilterTest.php:11-27 | the object shows `stdClass`, and the fifth entry `'extra_param'` is shown as the bare `...` |
| `TraceFilterExamples.ClosureArgsSummary` | tests/ErrorTraceFilterTest.php:31-35 | the closure's three positional arguments show without keys |
| `TraceFilterExamples.FixtureSummary` | tests/ErrorTraceFilterTest.php:11-35 | the full summary of the test fixture, every nesting level written out |
| `TraceFilterExamples.LaterKeyChangesKeyStyle` | src/ErrorTraceFilter.php:54 | a list of five values prints bare; adding a sixth entry under key 9 makes the first four print as `k => v`, although the sixth entry itself is dropped |
| `ErrorHandling.ErrorHandler.constructor` | src/ErrorHandler.php:37 | conversion of errors to exceptions is on by default |
| `ErrorHandling.ErrorHandler.HandleErrorGlobal` | src/ErrorHandler.php:65-95 | the handler never returns true. With conversion off it delegates the identical (code, message, file, line). With conversion on and the level masked out, nothing happens. Otherwise it builds an exception with the message, code = severity = the level, file and line, and with the backtrace minus its first frame as trace. That exception goes to the exception handler exactly when the version is below 70400 and a remaining frame's function is `__toString`; in every other case it is thrown |
| `ErrorHandling.HandlerFrameNotScanned` | src/ErrorHandler.php:76-83 | the dropped first frame never takes part in the `__toString` scan: whatever it is, the scanned frames are the callers' frames |
| `ErrorHandling.ReportedBit` | src/ErrorHandler.php:73 | for an error level that is a single bit 2^k, `error_reporting() & $code` is non-zero exactly when bit k of the mask's 64-bit two's complement pattern is set |
| `ErrorHandling.ReportingMask` | src/ErrorHandler.php:73 | `E_USER_WARNING` is reported under `E_ALL` and under -1; a mask of 0 reports no level |
| `ErrorHandling.ConvertUserWarning` | tests/ErrorHandlerTest.php:7-22 | under the reporting level -1 the tests set, `trigger_error('Test message', E_USER_WARNING)` is thrown as an exception with that message and code, whose trace starts at the `trigger_error` frame and keeps its arguments |
| `ErrorHandling.ErrorInsideToString` | src/ErrorHandler.php:80-91 | an error raised under `__toString` on PHP 7.3 reaches the exception handler with its message intact; the same error on PHP 7.4 is thrown with the same exception |

## Left out

- Handler registration (`ErrorHandler::init`, `restore_error_handler`, `set_error_handler`, `YII_ENABLE_ERROR_HANDLER`): process-wide runtime state with no decision logic.
- `setExceptionTrace` works by reflection; the model sets the `trace` field of the exception value instead.
- The framework and runtime calls (`Yii::app()`, `debug_backtrace`, `error_reporting`, `PHP_VERSION_ID`, `get_class`) become inputs and outcome values, as described above.
- Floats and closed resources are not modelled. In PHP they reach `return $value` in `simplifyArgument`.
- Numeric-string keys, which PHP turns into integer keys, are not modelled. A key is whatever the model is given.
- Strings are sequences of characters, one character per byte; `strlen` and `substr` count bytes the same way.
- A frame whose `args` is not an array is excluded by the `requires` of `Filter`. PHP raises a `TypeError` there, because of the `array` type of `simplifyArguments`'s parameter.
- The working copy of the arguments in `SimplifyArguments` is updated by position, not by key. For PHP arrays, whose keys are unique, the two are the same.
- The JSON/HTML presentation, `shouldRenderAsJson` and `ErrorHandler::filterErrorTrace()` are not part of this model.
- The test harness (tests/TestCase.php) is not part of this model.
