/** What the tokenizer hands to the decoder: a classification and the character it came from. */
module Tokens {

  datatype TokenType = Digit | Pause | Backspace | Send | Unknown

  datatype Token = Token(kind: TokenType, value: char)

  /** The number of Digit tokens in a token sequence. */
  function DigitCount(ts: seq<Token>): nat
  {
    if |ts| == 0 then 0
    else (if ts[0].kind == Digit then 1 else 0) + DigitCount(ts[1..])
  }

  /** Whether a token sequence holds a Send token anywhere. */
  predicate HasSend(ts: seq<Token>) {
    exists i :: 0 <= i < |ts| && ts[i].kind == Send
  }
}
