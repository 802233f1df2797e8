/** The fixed multi-tap table: each keypad digit and its ordered candidate characters. */
module KeyMapping {
  import opened Wrappers

  /** Digit to candidates; position i is chosen by i + 1 presses (modulo the length). */
  const Default: map<char, string> := map[
    '1' := "&'(",
    '2' := "ABC",
    '3' := "DEF",
    '4' := "GHI",
    '5' := "JKL",
    '6' := "MNO",
    '7' := "PQRS",
    '8' := "TUV",
    '9' := "WXYZ",
    '0' := " "
  ]

  /** Dictionary lookup in the default table. */
  function TryGetMapping(digit: char): (r: Option<string>)
    ensures r.Some? <==> '0' <= digit <= '9'
    ensures r.Some? ==> |r.value| > 0
    ensures r.Some? ==> |r.value| == (if digit == '0' then 1 else if digit == '7' || digit == '9' then 4 else 3)
  {
    if digit in Default then Some(Default[digit]) else None
  }

  /** Every ASCII digit has a non-empty candidate string, and nothing else has one. */
  lemma DefaultKeys()
    ensures forall c :: c in Default <==> '0' <= c <= '9'
    ensures forall c :: c in Default ==> |Default[c]| > 0
  {
  }

  /** A few entries spelled out: the symbol key, the first letter key and the space key. */
  lemma DefaultEntries()
    ensures TryGetMapping('1') == Some("&'(")
    ensures TryGetMapping('2') == Some("ABC")
    ensures TryGetMapping('7') == Some("PQRS")
    ensures TryGetMapping('9') == Some("WXYZ")
    ensures TryGetMapping('0') == Some(" ")
  {
  }
}
