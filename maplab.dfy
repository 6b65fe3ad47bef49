/** `random_string` of maplab/maplab.py: a string of `length` characters,
    each drawn from an alphabet chosen by two flags. The random source is
    modelled as a nondeterministic choice of an index into the alphabet. */
module Maplab {

  /** Python's `string.ascii_lowercase`, `string.ascii_uppercase`, `string.digits`. */
  const AsciiLowercase: string := "abcdefghijklmnopqrstuvwxyz"
  const AsciiUppercase: string := "ABCDEFGHIJKLMNOPQRSTUVWXYZ"
  const Digits: string := "0123456789"

  predicate IsAsciiLower(c: char) { 'a' <= c <= 'z' }
  predicate IsAsciiUpper(c: char) { 'A' <= c <= 'Z' }
  predicate IsDigit(c: char) { '0' <= c <= '9' }

  /** The alphabet `random_string` draws from: lowercase letters, then the
      uppercase ones when `upper`, then the digits when `digits`. */
  function Alphabet(upper: bool, digits: bool): (r: string)
    ensures |r| == 26 + (if upper then 26 else 0) + (if digits then 10 else 0)
    ensures r[..26] == AsciiLowercase
    ensures upper ==> r[26..52] == AsciiUppercase
    ensures digits ==> r[|r| - 10..] == Digits
  {
    AsciiLowercase + (if upper then AsciiUppercase else "") + (if digits then Digits else "")
  }

  lemma LowercaseRange(c: char)
    ensures c in AsciiLowercase <==> IsAsciiLower(c)
  {
  }

  lemma UppercaseRange(c: char)
    ensures c in AsciiUppercase <==> IsAsciiUpper(c)
  {
  }

  lemma DigitsRange(c: char)
    ensures c in Digits <==> IsDigit(c)
  {
  }

  /** Membership in the alphabet, by character class: lowercase letters
      always, uppercase letters exactly when `upper`, digits exactly when
      `digits`, and nothing else. */
  lemma AlphabetMembers(c: char, upper: bool, digits: bool)
    ensures c in Alphabet(upper, digits) <==>
      IsAsciiLower(c) || (upper && IsAsciiUpper(c)) || (digits && IsDigit(c))
  {
    LowercaseRange(c);
    UppercaseRange(c);
    DigitsRange(c);
  }

  /** Every character of `s` could have been drawn from the alphabet. */
  predicate DrawnFrom(s: string, upper: bool, digits: bool) {
    forall k :: 0 <= k < |s| ==> s[k] in Alphabet(upper, digits)
  }

  /** With both flags off, every character is a lowercase ASCII letter. */
  lemma DefaultFlagsLowercase(s: string)
    requires DrawnFrom(s, false, false)
    ensures forall k :: 0 <= k < |s| ==> IsAsciiLower(s[k])
  {
  }

  /** Without `digits`, no digit appears; without `upper`, no uppercase letter. */
  lemma FlagsExclude(s: string, upper: bool, digits: bool)
    requires DrawnFrom(s, upper, digits)
    ensures !digits ==> forall k :: 0 <= k < |s| ==> !IsDigit(s[k])
    ensures !upper ==> forall k :: 0 <= k < |s| ==> !IsAsciiUpper(s[k])
  {
    forall k | 0 <= k < |s| ensures (!digits ==> !IsDigit(s[k])) && (!upper ==> !IsAsciiUpper(s[k])) {
      AlphabetMembers(s[k], upper, digits);
    }
  }

  /** `random_string(length, upper=False, digits=False)`. `range(length)` is
      empty for a negative length, so the result is then "". */
  method RandomString(length: int, upper: bool, digits: bool) returns (s: string)
    ensures |s| == if length < 0 then 0 else length
    ensures DrawnFrom(s, upper, digits)
  {
    var letters := AsciiLowercase;
    if upper {
      letters := letters + AsciiUppercase;
    }
    if digits {
      letters := letters + Digits;
    }
    s := "";
    var n := 0;
    while n < length
      invariant 0 <= n <= (if length < 0 then 0 else length)
      invariant |s| == n
      invariant DrawnFrom(s, upper, digits)
    {
      var i :| 0 <= i < |letters|;
      s := s + [letters[i]];
      n := n + 1;
    }
  }
}
