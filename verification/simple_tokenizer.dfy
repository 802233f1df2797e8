/** Per-character classification of keypad input into tokens. */
module SimpleTokenizer {
  import opened Wrappers
  import opened CharInfo
  import opened Tokens

  /**
   * A tokenizer configuration: the backspace and send characters chosen at
   * construction time, and the runtime's character predicates.
   */
  datatype Tokenizer = Tokenizer(backspace: char, send: char, classes: CharClasses)

  /** The tokenizer built with its default arguments: '*' deletes, '#' sends. */
  function WithDefaults(cc: CharClasses): (tk: Tokenizer)
    ensures tk.backspace == '*' && tk.send == '#' && tk.classes == cc
  {
    Tokenizer('*', '#', cc)
  }

  /**
   * The token type of one character. The tests are tried in a fixed order, so the
   * configured backspace and send characters win even over white space and digits.
   */
  function Classify(tk: Tokenizer, c: char): (k: TokenType)
    ensures k == Backspace <==> c == tk.backspace
    ensures k == Send <==> c != tk.backspace && c == tk.send
    ensures k == Pause <==> c != tk.backspace && c != tk.send && tk.classes.isWhiteSpace(c)
    ensures k == Digit <==>
      c != tk.backspace && c != tk.send && !tk.classes.isWhiteSpace(c) && tk.classes.isDigit(c)
    ensures k == Unknown <==>
      c != tk.backspace && c != tk.send && !tk.classes.isWhiteSpace(c) && !tk.classes.isDigit(c)
  {
    if c == tk.backspace then Backspace
    else if c == tk.send then Send
    else if tk.classes.isWhiteSpace(c) then Pause
    else if tk.classes.isDigit(c) then Digit
    else Unknown
  }

  /** One token per character, in input order, each carrying its character. */
  function TokenizeChars(tk: Tokenizer, s: string): (ts: seq<Token>)
    ensures |ts| == |s|
    ensures forall i :: 0 <= i < |s| ==> ts[i].value == s[i] && ts[i].kind == Classify(tk, s[i])
  {
    if |s| == 0 then [] else [Token(Classify(tk, s[0]), s[0])] + TokenizeChars(tk, s[1..])
  }

  /** Tokenizing a null string yields no tokens. */
  function Tokenize(tk: Tokenizer, input: Option<string>): (ts: seq<Token>)
    ensures input.None? ==> ts == []
    ensures input.Some? ==> |ts| == |input.value|
  {
    match input
    case None => []
    case Some(s) => TokenizeChars(tk, s)
  }

  /**
   * Classification is stateless: tokenizing a concatenation is concatenating the
   * tokenizations, so streaming the input in pieces gives the same tokens.
   */
  lemma {:induction false} TokenizeAppend(tk: Tokenizer, a: string, b: string)
    ensures TokenizeChars(tk, a + b) == TokenizeChars(tk, a) + TokenizeChars(tk, b)
  {
    if |a| == 0 {
      assert a + b == b;
    } else {
      assert (a + b)[1..] == a[1..] + b;
      TokenizeAppend(tk, a[1..], b);
    }
  }

  /**
   * With the default characters and a classifier that agrees with .NET on ASCII:
   * '*' deletes, '#' sends, ASCII white space pauses, '0'..'9' are digits and every
   * other ASCII character is unknown.
   */
  lemma AsciiClassification(cc: CharClasses, c: char)
    requires AsciiFacts(cc)
    requires c < '\U{0080}'
    ensures Classify(WithDefaults(cc), c) ==
      if c == '*' then Backspace
      else if c == '#' then Send
      else if IsAsciiWhiteSpace(c) then Pause
      else if IsAsciiDigit(c) then Digit
      else Unknown
  {
  }
}
