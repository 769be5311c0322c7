/** Option and Result values for JavaScript's `null` results and thrown errors,
    and the few kinds of JavaScript argument values the library inspects with `typeof`. */
module Wrappers {

  /** `None` stands for JavaScript `null` (or `undefined` where noted). */
  datatype Option<+T> = None | Some(value: T)

  /** `Err` stands for an exception the JavaScript code throws. */
  datatype Result<+T, +E> = Ok(value: T) | Err(error: E)

  /** An argument of unknown JavaScript type. Numbers are modelled as integers;
      `Other` is any object, boolean or function. */
  datatype JsValue = Undefined | Null | Str(s: string) | Num(n: int) | Other
}
