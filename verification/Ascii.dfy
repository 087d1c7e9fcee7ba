/** Letters and digits by their ASCII codes. */
module Ascii {

  predicate Lower(c: char) {
    97 <= c as int <= 122
  }

  predicate Letter(c: char) {
    Lower(c) || 65 <= c as int <= 90
  }

  predicate Digit(c: char) {
    48 <= c as int <= 57
  }
}
