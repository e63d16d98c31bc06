/** Codes and guesses are strings of decimal digits. */
module Codes {

  /** The ten decimal digits, in the order of the generator's initial pool. */
  const Digits: string := "0123456789"

  /** An ASCII decimal digit, the class `\d` matches in a JavaScript regular expression. */
  predicate IsDigit(c: char) {
    '0' <= c <= '9'
  }

  predicate AllDigits(s: string) {
    forall i :: 0 <= i < |s| ==> IsDigit(s[i])
  }

  /** No character occurs twice. */
  predicate Distinct(s: string) {
    forall i, j :: 0 <= i < j < |s| ==> s[i] != s[j]
  }

  /** The decimal string of a number 0..9, as string concatenation of a number produces it. */
  function DigitChar(d: int): (c: char)
    requires 0 <= d < 10
    ensures IsDigit(c)
    ensures c == Digits[d]
  {
    (('0' as int) + d) as char
  }

  /** The pool string holds exactly the digit characters. */
  lemma DigitsAreDigits(c: char)
    ensures c in Digits <==> IsDigit(c)
  {
  }

  /** Each digit occurs once in the pool string. */
  lemma DigitsDistinct()
    ensures Distinct(Digits)
  {
  }
}
