/**
 * The parts of PHP's value and exception model that the monitor's argument
 * checks and error wrapping depend on.
 */
module Php {
  import opened Wrappers

  /** A PHP value as far as the monitor inspects it. */
  datatype Value =
    | Nil
    | Flag(flag: bool)
    | Integer(integer: int)
    | Decimal(decimal: real)
    | Text(text: string)
    | Lines(lines: seq<string>)
    | Instance(className: string)  // an object of some class

  /** PHP's `is_string($v)`. */
  predicate IsString(v: Value) {
    v.Text?
  }

  /** A raised PHP exception: its class, `getMessage()`, `getCode()` and `getPrevious()`. */
  datatype Throwable = Throwable(className: string, message: string, code: int, previous: Option<Throwable>)

  const InvalidArgumentException := "InvalidArgumentException"
  const LogicException := "DailyDesk\\Monitor\\Exceptions\\LogicException"
  const MonitorException := "DailyDesk\\Monitor\\Exceptions\\MonitorException"

  /** `new InvalidArgumentException($message)`: code 0, no previous exception. */
  function InvalidArgument(message: string): (e: Throwable)
    ensures e.className == InvalidArgumentException && e.message == message && e.code == 0
  {
    Throwable(InvalidArgumentException, message, 0, None)
  }

  /** `new LogicException($message)`: code 0, no previous exception. */
  function Logic(message: string): (e: Throwable)
    ensures e.className == LogicException && e.message == message && e.code == 0
  {
    Throwable(LogicException, message, 0, None)
  }

  /**
   * `new MonitorException($e->getMessage(), $e->getCode()[, $e])`: the domain
   * exception that carries over the message and code of the one it replaces,
   * and links it as the previous exception when `linkPrevious` holds.
   */
  function Rethrown(e: Throwable, linkPrevious: bool): (m: Throwable)
    ensures m.className == MonitorException
    ensures m.message == e.message && m.code == e.code
    ensures m.previous == (if linkPrevious then Some(e) else None)
  {
    Throwable(MonitorException, e.message, e.code, if linkPrevious then Some(e) else None)
  }
}
