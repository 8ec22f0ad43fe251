/** Character classes used by the password generator: the ASCII ranges that
    Python's `string` module exposes, the fixed symbol set, and the
    per-character tests the strength rules apply. */
module CharClasses {

  /** Python's `string.ascii_lowercase`. */
  const AsciiLowercase: string := "abcdefghijklmnopqrstuvwxyz"

  /** Python's `string.ascii_uppercase`. */
  const AsciiUppercase: string := "ABCDEFGHIJKLMNOPQRSTUVWXYZ"

  /** Python's `string.digits`. */
  const Digits: string := "0123456789"

  /** The symbol set, shared by the composer and the strength scorer. */
  const Symbols: string := "!@#$%^&*()-_=+[]{}|;:,.<>/?"

  /** `str.isdigit`, restricted to ASCII. */
  predicate IsDigit(c: char) { '0' <= c <= '9' }

  /** `str.isupper` on one character, restricted to ASCII. */
  predicate IsUpper(c: char) { 'A' <= c <= 'Z' }

  /** `str.islower` on one character, restricted to ASCII. */
  predicate IsLower(c: char) { 'a' <= c <= 'z' }

  /** Membership in the symbol set, as the scorer tests it. */
  predicate IsSymbol(c: char) { c in Symbols }

  /** Some character of `s` satisfies `p` (the specification of `any`). */
  ghost predicate Contains(s: string, p: char -> bool) {
    exists i :: 0 <= i < |s| && p(s[i])
  }

  /** Python's `any(p(c) for c in s)`: a left-to-right scan that stops at
      the first hit. */
  function Any(s: string, p: char -> bool): (found: bool)
    ensures found <==> Contains(s, p)
  {
    if |s| == 0 then false
    else if p(s[0]) then true
    else
      var rest := Any(s[1..], p);
      assert Contains(s[1..], p) ==> Contains(s, p) by {
        if Contains(s[1..], p) {
          var i :| 0 <= i < |s[1..]| && p(s[1..][i]);
          assert s[i + 1] == s[1..][i];
        }
      }
      rest
  }

  /** Each fixed range, as a set of characters, is exactly what the
      matching class test accepts. */
  lemma LowercaseRange(c: char)
    ensures c in AsciiLowercase <==> IsLower(c)
  {
  }

  lemma UppercaseRange(c: char)
    ensures c in AsciiUppercase <==> IsUpper(c)
  {
  }

  lemma DigitRange(c: char)
    ensures c in Digits <==> IsDigit(c)
  {
  }

  /** No symbol is a letter or a digit. */
  lemma SymbolsAreNotAlphanumeric(c: char)
    ensures IsSymbol(c) ==> !IsLower(c) && !IsUpper(c) && !IsDigit(c)
  {
  }
}
