/** The error handler's decision for a PHP error: delegate it to the
    application, suppress it, throw it as an `ErrorException`, or hand that
    exception straight to the application's exception handler.

    The calls into the framework and the runtime become data: the reporting
    mask, the captured backtrace and the PHP version id are inputs, and the
    application's `handleError`/`handleException` calls and the `throw` are
    the constructors of `Outcome`. */
module ErrorHandling {
  import opened PhpValues

  /** A PHP integer (64 bits). */
  type PhpInt = x: int | -0x8000_0000_0000_0000 <= x < 0x8000_0000_0000_0000

  const E_USER_WARNING: PhpInt := 512
  const E_ALL: PhpInt := 32767

  /** The first PHP version (7.4.0) that allows throwing from `__toString`. */
  const PHP_7_4: int := 70400

  /** The 64 bits of a PHP integer in two's complement, read as an unsigned number. */
  function Unsigned(x: PhpInt): (u: nat)
    ensures u < 0x1_0000_0000_0000_0000
    ensures x >= 0 ==> u == x
  {
    if x >= 0 then x else x + 0x1_0000_0000_0000_0000
  }

  /** Bitwise and of two unsigned numbers, bit by bit from the lowest. */
  function BitAnd(a: nat, b: nat): (r: nat)
    ensures r <= a && r <= b
  {
    if a == 0 || b == 0 then 0
    else 2 * BitAnd(a / 2, b / 2) + (if a % 2 == 1 && b % 2 == 1 then 1 else 0)
  }

  /** `error_reporting() & $code` is non-zero. */
  predicate Reported(mask: PhpInt, code: PhpInt) {
    BitAnd(Unsigned(mask), Unsigned(code)) != 0
  }

  /** An `ErrorException` with the trace set on it. */
  datatype ErrorException = ErrorException(
    message: string, code: PhpInt, severity: PhpInt, file: string, line: PhpInt, trace: seq<Frame>)

  datatype Outcome =
    | Delegated(code: PhpInt, message: string, file: string, line: PhpInt)
    | Suppressed
    | Thrown(exc: ErrorException)
    | HandedToExceptionHandler(exc: ErrorException)

  /** PHP's `array_shift` on a list, as the remaining list. */
  function ArrayShift(t: seq<Frame>): (r: seq<Frame>)
    ensures |r| == if t == [] then 0 else |t| - 1
    ensures forall j :: 0 <= j < |r| ==> r[j] == t[j + 1]
  {
    if t == [] then [] else t[1..]
  }

  /** `$frame['function'] === '__toString'`; a frame without a 'function'
      entry does not match. */
  predicate IsToStringFrame(f: Frame) {
    var at := IndexOf(f, StrKey("function"));
    at >= 0 && f[at].value == Str("__toString")
  }

  predicate HasToStringFrame(t: seq<Frame>) {
    exists j :: 0 <= j < |t| && IsToStringFrame(t[j])
  }

  class ErrorHandler {
    /** Whether PHP errors are converted into exceptions. */
    var convertErrorToException: bool

    constructor ()
      ensures convertErrorToException
    {
      convertErrorToException := true;
    }

    /** Handles a PHP error raised with `code`, `message`, `file` and `line`,
        under the reporting mask `mask`, with `backtrace` as
        `debug_backtrace()` returns it (the handler's own frame first) on the
        PHP version `phpVersionId`. `handled` is the boolean the handler
        returns; with `Thrown` the handler ends by throwing instead and it is
        not delivered. */
    method HandleErrorGlobal(code: PhpInt, message: string, file: string, line: PhpInt,
                             mask: PhpInt, backtrace: seq<Frame>, phpVersionId: int)
      returns (handled: bool, outcome: Outcome)
      ensures !handled
      ensures !convertErrorToException ==> outcome == Delegated(code, message, file, line)
      ensures convertErrorToException && !Reported(mask, code) ==> outcome == Suppressed
      ensures convertErrorToException && Reported(mask, code) ==>
        (outcome.Thrown? || outcome.HandedToExceptionHandler?) &&
        outcome.exc == ErrorException(message, code, code, file, line, ArrayShift(backtrace))
      ensures outcome.HandedToExceptionHandler? <==>
        convertErrorToException && Reported(mask, code) &&
        phpVersionId < PHP_7_4 && HasToStringFrame(ArrayShift(backtrace))
      ensures outcome.Thrown? <==>
        convertErrorToException && Reported(mask, code) &&
        (phpVersionId >= PHP_7_4 || !HasToStringFrame(ArrayShift(backtrace)))
    {
      if !convertErrorToException {
        return false, Delegated(code, message, file, line);
      }

      if Reported(mask, code) {
        var exception := ErrorException(message, code, code, file, line, []);
        var trace := backtrace;
        trace := ArrayShift(trace);
        exception := exception.(trace := trace);

        if phpVersionId < PHP_7_4 {
          // before PHP 7.4 throwing inside __toString() is a fatal error
          for i := 0 to |trace|
            invariant forall j :: 0 <= j < i ==> !IsToStringFrame(trace[j])
          {
            if IsToStringFrame(trace[i]) {
              return false, HandedToExceptionHandler(exception);
            }
          }
        }

        return false, Thrown(exception);
      }

      return false, Suppressed;
    }
  }

  /** The handler's own frame, dropped before the scan, never decides the
      outcome: whatever frame comes first, the scanned frames are the same. */
  lemma HandlerFrameNotScanned(own: Frame, other: Frame, callers: seq<Frame>)
    ensures ArrayShift([own] + callers) == ArrayShift([other] + callers) == callers
    ensures HasToStringFrame(ArrayShift([own] + callers)) <==> HasToStringFrame(callers)
  {
    assert ([own] + callers)[1..] == callers;
    assert ([other] + callers)[1..] == callers;
  }

  function Pow2(k: nat): (p: nat)
    ensures p >= 1
  {
    if k == 0 then 1 else 2 * Pow2(k - 1)
  }

  /** Bit k of `a`: the lowest bit after k halvings. */
  predicate BitSet(a: nat, k: nat) {
    if k == 0 then a % 2 == 1 else BitSet(a / 2, k - 1)
  }

  /** And-ing with the single bit 2^k keeps bit k of `a`, and nothing else. */
  lemma {:induction false} BitAndPowerOfTwo(a: nat, k: nat)
    ensures BitAnd(a, Pow2(k)) == if BitSet(a, k) then Pow2(k) else 0
  {
    if k > 0 && a > 0 {
      BitAndPowerOfTwo(a / 2, k - 1);
      assert Pow2(k) % 2 == 0 && Pow2(k) / 2 == Pow2(k - 1);
    } else if k > 0 {
      assert !BitSet(a, k) by { ZeroHasNoBits(k); }
    }
  }

  lemma {:induction false} ZeroHasNoBits(k: nat)
    ensures !BitSet(0, k)
  {
    if k > 0 {
      ZeroHasNoBits(k - 1);
    }
  }

  /** An error level is a single bit 2^k; it is reported exactly when bit k
      of the mask (in two's complement) is set. */
  lemma ReportedBit(mask: PhpInt, code: PhpInt, k: nat)
    requires code == Pow2(k)
    ensures Reported(mask, code) <==> BitSet(Unsigned(mask), k)
  {
    BitAndPowerOfTwo(Unsigned(mask), k);
  }

  /** A user warning is reported under `E_ALL` and under -1 (every bit set,
      as the tests set it); a mask of 0 reports nothing. */
  lemma ReportingMask(code: PhpInt)
    ensures Reported(E_ALL, E_USER_WARNING)
    ensures Reported(-1, E_USER_WARNING)
    ensures !Reported(0, code)
  {
    assert E_USER_WARNING == Pow2(9);
    ReportedBit(E_ALL, E_USER_WARNING, 9);
    ReportedBit(-1, E_USER_WARNING, 9);
  }

  /** The conversion test, under the reporting level -1 that the tests set:
      `trigger_error('Test message', E_USER_WARNING)`,
      caught from a backtrace whose frame after the handler's own is
      `trigger_error`, gives an exception with that message and code whose
      trace starts at `trigger_error` and keeps its arguments. */
  method ConvertUserWarning(file: string, line: PhpInt, handlerFrame: Frame, callers: seq<Frame>)
    returns (outcome: Outcome)
    ensures outcome.Thrown?
    ensures outcome.exc.message == "Test message" && outcome.exc.code == E_USER_WARNING
    ensures |outcome.exc.trace| >= 1 && IsTriggerErrorFrame(outcome.exc.trace[0])
  {
    var handler := new ErrorHandler();
    var triggerError := [Entry(StrKey("function"), Str("trigger_error")),
                         Entry(StrKey("args"), Arr([Entry(IntKey(0), Str("Test message")),
                                                    Entry(IntKey(1), Int(E_USER_WARNING as int))]))];
    ReportingMask(E_USER_WARNING);
    var handled;
    handled, outcome := handler.HandleErrorGlobal(E_USER_WARNING, "Test message", file, line,
                                                  -1, [handlerFrame, triggerError] + callers, 80100);
    assert ArrayShift([handlerFrame, triggerError] + callers)[0] == triggerError;
  }

  /** An error raised inside `__toString` on PHP 7.3 is not thrown: the
      exception, with its message intact, goes to the exception handler. On
      PHP 7.4 the same error is thrown. */
  method ErrorInsideToString(message: string, file: string, line: PhpInt,
                             handlerFrame: Frame, callers: seq<Frame>)
    returns (onOldPhp: Outcome, onNewPhp: Outcome)
    ensures onOldPhp.HandedToExceptionHandler? && onOldPhp.exc.message == message
    ensures onNewPhp.Thrown? && onNewPhp.exc == onOldPhp.exc
  {
    var handler := new ErrorHandler();
    var toString := [Entry(StrKey("function"), Str("__toString"))];
    var backtrace := [handlerFrame] + callers + [toString];
    ReportingMask(E_USER_WARNING);
    assert IsToStringFrame(toString);
    ToStringFrameLast(handlerFrame, callers, toString);
    var handled;
    handled, onOldPhp := handler.HandleErrorGlobal(E_USER_WARNING, message, file, line, E_ALL, backtrace, 70300);
    handled, onNewPhp := handler.HandleErrorGlobal(E_USER_WARNING, message, file, line, E_ALL, backtrace, 70400);
  }

  /** A `__toString` frame at the bottom of the backtrace is found by the scan. */
  lemma ToStringFrameLast(handlerFrame: Frame, callers: seq<Frame>, f: Frame)
    requires IsToStringFrame(f)
    ensures HasToStringFrame(ArrayShift([handlerFrame] + callers + [f]))
  {
    assert ArrayShift([handlerFrame] + callers + [f])[|callers|] == f;
  }

  /** The frame's function is `trigger_error` and it has a non-empty 'args' array. */
  predicate IsTriggerErrorFrame(f: Frame) {
    var fn := IndexOf(f, StrKey("function"));
    var args := IndexOf(f, StrKey("args"));
    fn >= 0 && f[fn].value == Str("trigger_error") &&
    args >= 0 && f[args].value.Arr? && f[args].value.entries != []
  }
}
