/** JavaScript values as the inventory front end handles them: values that may
    be missing (`null` / `undefined`), numbers that may be NaN, and the
    truthiness tests (`x || y`, `if (!x)`) the components apply to them. */
module JsValues {

  datatype Option<+T> = None | Some(value: T) {
    function GetOr(default: T): T {
      match this
      case Some(v) => v
      case None => default
    }
  }

  /** A JavaScript number as far as this front end produces one: a finite
      integer, NaN (what `parseInt` returns for text without digits, and what
      arithmetic on a missing value gives), or `undefined` (a record field the
      server did not send). */
  datatype JsNum = Num(n: int) | NaN | Undefined

  /** Truthiness of a value that may be a string, `null` or `undefined`:
      only a non-empty string is truthy. */
  predicate TruthyText(s: Option<string>) {
    s.Some? && s.value != ""
  }

  /** Truthiness of a number: 0, NaN and `undefined` are falsy. */
  predicate TruthyNum(x: JsNum) {
    x.Num? && x.n != 0
  }

  /** `a <= b` on numbers: false as soon as either side is NaN or `undefined`. */
  predicate AtMost(a: JsNum, b: JsNum) {
    a.Num? && b.Num? && a.n <= b.n
  }

  /** `a < 0`: false for NaN and `undefined`. */
  predicate Negative(a: JsNum) {
    a.Num? && a.n < 0
  }

  /** `a + b` on numbers: NaN as soon as either side is not a number. */
  function Plus(a: JsNum, b: JsNum): JsNum {
    if a.Num? && b.Num? then Num(a.n + b.n) else NaN
  }

  /** `200 <= status < 300`: the statuses axios resolves on and `fetch`
      reports as `response.ok`; every other status is an error response. */
  predicate IsSuccessStatus(status: int) {
    200 <= status < 300
  }
}
