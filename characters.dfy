/** Character classes shared by the decimal rendering and the handler-name transform. */
module Characters {
  /** An ASCII decimal digit. */
  predicate IsDigit(c: char) {
    '0' <= c <= '9'
  }
}
