/**
 * The two character predicates of the .NET runtime that the tokenizer relies on,
 * `char.IsWhiteSpace` and `char.IsDigit`. Their full Unicode tables are outside the
 * model, so they are carried as a value and only their ASCII behaviour is pinned down.
 */
module CharInfo {

  datatype CharClasses = CharClasses(isWhiteSpace: char -> bool, isDigit: char -> bool)

  /** ASCII white space as .NET classifies it: the space and U+0009 through U+000D. */
  predicate IsAsciiWhiteSpace(c: char) {
    c == ' ' || '\t' <= c <= '\r'
  }

  /** The ten ASCII decimal digits. */
  predicate IsAsciiDigit(c: char) {
    '0' <= c <= '9'
  }

  /** The classifier agrees with .NET on every ASCII character. */
  predicate AsciiFacts(cc: CharClasses) {
    forall c: char :: c < '\U{0080}' ==>
      && (cc.isWhiteSpace(c) <==> IsAsciiWhiteSpace(c))
      && (cc.isDigit(c) <==> IsAsciiDigit(c))
  }

  /**
   * A concrete classifier: the exact .NET white-space set, and as decimal digits the
   * ASCII digits plus the Arabic-Indic block U+0660..U+0669 (a sample of the many
   * non-ASCII digit blocks that `char.IsDigit` accepts).
   */
  function Sample(): (cc: CharClasses)
    ensures AsciiFacts(cc)
    ensures cc.isDigit('\U{0660}') && !cc.isWhiteSpace('\U{0660}')
  {
    CharClasses(
      c =>
        || IsAsciiWhiteSpace(c) || c == '\U{0085}' || c == '\U{00A0}' || c == '\U{1680}'
        || '\U{2000}' <= c <= '\U{200A}' || c == '\U{2028}' || c == '\U{2029}'
        || c == '\U{202F}' || c == '\U{205F}' || c == '\U{3000}',
      c => IsAsciiDigit(c) || '\U{0660}' <= c <= '\U{0669}')
  }

  /** Characters outside the Basic Multilingual Plane take two UTF-16 code units. */
  predicate IsSupplementary(c: char) {
    c >= '\U{10000}'
  }

  /** The length .NET reports for a string: its number of UTF-16 code units. */
  function Utf16Length(s: string): (n: nat)
    ensures |s| <= n <= 2 * |s|
    ensures (forall i :: 0 <= i < |s| ==> !IsSupplementary(s[i])) ==> n == |s|
    ensures (forall i :: 0 <= i < |s| ==> IsSupplementary(s[i])) ==> n == 2 * |s|
  {
    if |s| == 0 then 0
    else (if IsSupplementary(s[0]) then 2 else 1) + Utf16Length(s[1..])
  }
}
