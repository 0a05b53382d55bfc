/**
 * `DailyDesk\Monitor\Helper::parseErrorData`: the flat record sent for a
 * captured exception, projected from the error model the base library
 * builds for it.
 */
module Helper {
  import opened Php
  import opened Inspector

  /** The seven keys the projection keeps. */
  const ErrorDataKeys: set<string> := {"message", "class", "file", "line", "code", "stack", "handled"}

  /**
   * `parseErrorData($e, $handled = false)`. `built` is the error the base
   * library's `new Error($e, ...)` builds; `setHandled` then overrides its
   * `handled` flag, and `only([...])` keeps seven keys.
   */
  function ParseErrorData(built: Error, handled: bool := false): (data: map<string, Value>)
    ensures data.Keys == ErrorDataKeys
    ensures "host" !in data && "transaction" !in data && "segment" !in data
    ensures data["handled"] == Flag(handled)
    ensures data["message"] == Text(built.message) && data["class"] == Text(built.className)
    ensures data["file"] == Text(built.file) && data["line"] == Integer(built.line)
    ensures data["code"] == Integer(built.code) && data["stack"] == Lines(built.stack)
  {
    var e := built.(handled := handled);
    map[
      "message" := Text(e.message),
      "class" := Text(e.className),
      "file" := Text(e.file),
      "line" := Integer(e.line),
      "code" := Integer(e.code),
      "stack" := Lines(e.stack),
      "handled" := Flag(e.handled)
    ]
  }

  /** The six fields the projection copies from the built error. */
  predicate SameErrorFields(a: Error, b: Error) {
    a.message == b.message && a.className == b.className && a.file == b.file &&
    a.line == b.line && a.code == b.code && a.stack == b.stack
  }

  /**
   * Two built errors give the same record, for the same `handled`, exactly
   * when they agree on the six copied fields: host, transaction, segment and
   * the built error's own flag are dropped, and nothing else is.
   */
  lemma ParseErrorDataDeterminedBySixFields(a: Error, b: Error, handled: bool)
    ensures ParseErrorData(a, handled) == ParseErrorData(b, handled) <==> SameErrorFields(a, b)
  {
    if ParseErrorData(a, handled) == ParseErrorData(b, handled) {
      var da, db := ParseErrorData(a, handled), ParseErrorData(b, handled);
      assert da["message"] == db["message"] && da["class"] == db["class"] && da["file"] == db["file"];
      assert da["line"] == db["line"] && da["code"] == db["code"] && da["stack"] == db["stack"];
    }
  }

  /** Omitting `handled` is the same as passing false. */
  lemma ParseErrorDataDefaultsToUnhandled(built: Error)
    ensures ParseErrorData(built) == ParseErrorData(built, false)
    ensures ParseErrorData(built)["handled"] == Flag(false)
  {
  }
}
