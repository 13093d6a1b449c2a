/** Character classes shared by the `int()` and `str.format` models. */
module Chars {
  /** An ASCII decimal digit. */
  predicate IsDigit(c: char) { '0' <= c <= '9' }
}
