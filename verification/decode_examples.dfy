/**
 * The decoder's documented input/output pairs. Each holds for every classifier that
 * agrees with .NET on ASCII characters, with the default '*' and '#' characters.
 */
module DecodeExamples {
  import opened Wrappers
  import opened CharInfo
  import opened Tokens
  import opened SimpleTokenizer
  import opened OldPhonePadService
  import opened DecodeProperties

  /**
   * Decoding a string is decoding its tokens when the length check passes, as it does
   * for every string of at most half the limit in characters.
   */
  lemma DecodeViaTokens(tk: Tokenizer, s: string, ts: seq<Token>, out: string)
    requires 2 * |s| <= MaxInputLength && TokenizeChars(tk, s) == ts && DecodeTokens(ts) == out
    ensures Decode(tk, Some(s)) == Success(out)
  {
  }

  /** Decoding a sequence cut into pieces of which only the last may hold a Send. */
  lemma DecodeInPieces(a: seq<Token>, b: seq<Token>, c: seq<Token>, d: seq<Token>)
    requires !HasSend(a) && !HasSend(b) && !HasSend(c)
    ensures DecodeTokens(a + b + c + d) ==
      Flush(Process(Process(Process(Process(Init, a), b), c), d)).output
  {
    HasSendAppend(a, b);
    HasSendAppend(a + b, c);
    ProcessAppend(Init, a + b + c, d);
    ProcessAppend(Init, a + b, c);
    ProcessAppend(Init, a, b);
  }

  lemma Example33Tokens(cc: CharClasses)
    requires AsciiFacts(cc)
    ensures TokenizeChars(WithDefaults(cc), "33#") == [Token(Digit, '3'), Token(Digit, '3'), Token(Send, '#')]
  {
  }

  lemma Example33(cc: CharClasses)
    requires AsciiFacts(cc)
    ensures Decode(WithDefaults(cc), Some("33#")) == Success("E")
  {
    Example33Tokens(cc);
    DecodeViaTokens(WithDefaults(cc), "33#", [Token(Digit, '3'), Token(Digit, '3'), Token(Send, '#')], "E");
  }

  lemma ExampleSingleKeyATokens(cc: CharClasses)
    requires AsciiFacts(cc)
    ensures TokenizeChars(WithDefaults(cc), "2#") == [Token(Digit, '2'), Token(Send, '#')]
  {
  }

  lemma ExampleSingleKeyA(cc: CharClasses)
    requires AsciiFacts(cc)
    ensures Decode(WithDefaults(cc), Some("2#")) == Success("A")
  {
    ExampleSingleKeyATokens(cc);
    DecodeViaTokens(WithDefaults(cc), "2#", [Token(Digit, '2'), Token(Send, '#')], "A");
  }

  lemma ExampleSingleKeyCTokens(cc: CharClasses)
    requires AsciiFacts(cc)
    ensures TokenizeChars(WithDefaults(cc), "222#") == [Token(Digit, '2'), Token(Digit, '2'), Token(Digit, '2'), Token(Send, '#')]
  {
  }

  lemma ExampleSingleKeyC(cc: CharClasses)
    requires AsciiFacts(cc)
    ensures Decode(WithDefaults(cc), Some("222#")) == Success("C")
  {
    ExampleSingleKeyCTokens(cc);
    DecodeViaTokens(WithDefaults(cc), "222#", [Token(Digit, '2'), Token(Digit, '2'), Token(Digit, '2'), Token(Send, '#')], "C");
  }

  lemma ExampleSpaceKeyTokens(cc: CharClasses)
    requires AsciiFacts(cc)
    ensures TokenizeChars(WithDefaults(cc), "0#") == [Token(Digit, '0'), Token(Send, '#')]
  {
  }

  lemma ExampleSpaceKey(cc: CharClasses)
    requires AsciiFacts(cc)
    ensures Decode(WithDefaults(cc), Some("0#")) == Success(" ")
  {
    ExampleSpaceKeyTokens(cc);
    DecodeViaTokens(WithDefaults(cc), "0#", [Token(Digit, '0'), Token(Send, '#')], " ");
  }

  lemma ExampleBackspaceOnEmptyTokens(cc: CharClasses)
    requires AsciiFacts(cc)
    ensures TokenizeChars(WithDefaults(cc), "*#") == [Token(Backspace, '*'), Token(Send, '#')]
  {
  }

  /** A backspace with nothing decoded yet is not an error. */
  lemma ExampleBackspaceOnEmpty(cc: CharClasses)
    requires AsciiFacts(cc)
    ensures Decode(WithDefaults(cc), Some("*#")) == Success("")
  {
    ExampleBackspaceOnEmptyTokens(cc);
    DecodeViaTokens(WithDefaults(cc), "*#", [Token(Backspace, '*'), Token(Send, '#')], "");
  }

  lemma ExampleNoSendTokens(cc: CharClasses)
    requires AsciiFacts(cc)
    ensures TokenizeChars(WithDefaults(cc), "22 2") == [Token(Digit, '2'), Token(Digit, '2'), Token(Pause, ' '), Token(Digit, '2')]
  {
  }

  /** Without a Send the pending run is flushed at the end of the input. */
  lemma ExampleNoSend(cc: CharClasses)
    requires AsciiFacts(cc)
    ensures Decode(WithDefaults(cc), Some("22 2")) == Success("BA")
  {
    ExampleNoSendTokens(cc);
    DecodeViaTokens(WithDefaults(cc), "22 2", [Token(Digit, '2'), Token(Digit, '2'), Token(Pause, ' '), Token(Digit, '2')], "BA");
  }

  lemma ExampleWraparoundTokens(cc: CharClasses)
    requires AsciiFacts(cc)
    ensures TokenizeChars(WithDefaults(cc), "2222#") == [Token(Digit, '2'), Token(Digit, '2'), Token(Digit, '2'), Token(Digit, '2'), Token(Send, '#')]
  {
  }

  /** Four presses on a three-letter key wrap round to its first letter. */
  lemma ExampleWraparound(cc: CharClasses)
    requires AsciiFacts(cc)
    ensures Decode(WithDefaults(cc), Some("2222#")) == Success("A")
  {
    ExampleWraparoundTokens(cc);
    DecodeViaTokens(WithDefaults(cc), "2222#", [Token(Digit, '2'), Token(Digit, '2'), Token(Digit, '2'), Token(Digit, '2'), Token(Send, '#')], "A");
  }

  lemma ExampleBackspaceAfterDigitTokens(cc: CharClasses)
    requires AsciiFacts(cc)
    ensures TokenizeChars(WithDefaults(cc), "2*#") == [Token(Digit, '2'), Token(Backspace, '*'), Token(Send, '#')]
  {
  }

  /** A backspace right after a digit deletes the character that digit's run just produced. */
  lemma ExampleBackspaceAfterDigit(cc: CharClasses)
    requires AsciiFacts(cc)
    ensures Decode(WithDefaults(cc), Some("2*#")) == Success("")
  {
    ExampleBackspaceAfterDigitTokens(cc);
    DecodeViaTokens(WithDefaults(cc), "2*#", [Token(Digit, '2'), Token(Backspace, '*'), Token(Send, '#')], "");
  }

  lemma ExampleUnknownSeparatesTokens(cc: CharClasses)
    requires AsciiFacts(cc)
    ensures TokenizeChars(WithDefaults(cc), "2a2#") == [Token(Digit, '2'), Token(Unknown, 'a'), Token(Digit, '2'), Token(Send, '#')]
  {
  }

  /** An unknown character separates two runs of the same key and adds nothing. */
  lemma ExampleUnknownSeparates(cc: CharClasses)
    requires AsciiFacts(cc)
    ensures Decode(WithDefaults(cc), Some("2a2#")) == Success("AA")
  {
    ExampleUnknownSeparatesTokens(cc);
    DecodeViaTokens(WithDefaults(cc), "2a2#", [Token(Digit, '2'), Token(Unknown, 'a'), Token(Digit, '2'), Token(Send, '#')], "AA");
  }

  lemma ExampleSecondSendIgnoredTokens(cc: CharClasses)
    requires AsciiFacts(cc)
    ensures TokenizeChars(WithDefaults(cc), "22##") == [Token(Digit, '2'), Token(Digit, '2'), Token(Send, '#'), Token(Send, '#')]
  {
  }

  /** Only the first Send has an effect. */
  lemma ExampleSecondSendIgnored(cc: CharClasses)
    requires AsciiFacts(cc)
    ensures Decode(WithDefaults(cc), Some("22##")) == Success("B")
  {
    ExampleSecondSendIgnoredTokens(cc);
    DecodeViaTokens(WithDefaults(cc), "22##", [Token(Digit, '2'), Token(Digit, '2'), Token(Send, '#'), Token(Send, '#')], "B");
  }

  lemma Example227Tokens(cc: CharClasses)
    requires AsciiFacts(cc)
    ensures TokenizeChars(WithDefaults(cc), "227*#") == [Token(Digit, '2'), Token(Digit, '2')] + [Token(Digit, '7')] + [Token(Backspace, '*')] + [Token(Send, '#')]
  {
  }

  lemma Example227Piece1()
    ensures Process(Init, [Token(Digit, '2'), Token(Digit, '2')]) == State(Some('2'), 2, "")
  {
  }

  lemma Example227Piece2()
    ensures Process(State(Some('2'), 2, ""), [Token(Digit, '7')]) == State(Some('7'), 1, "B")
  {
  }

  lemma Example227Piece3()
    ensures Process(State(Some('7'), 1, "B"), [Token(Backspace, '*')]) == State(None, 0, "B")
  {
  }

  lemma Example227Piece4()
    ensures Flush(Process(State(None, 0, "B"), [Token(Send, '#')])).output == "B"
  {
  }

  lemma Example227(cc: CharClasses)
    requires AsciiFacts(cc)
    ensures Decode(WithDefaults(cc), Some("227*#")) == Success("B")
  {
    var a, b, c, d := [Token(Digit, '2'), Token(Digit, '2')], [Token(Digit, '7')], [Token(Backspace, '*')], [Token(Send, '#')];
    Example227Tokens(cc);
    DecodeInPieces(a, b, c, d);
    Example227Piece1();
    Example227Piece2();
    Example227Piece3();
    Example227Piece4();
    DecodeViaTokens(WithDefaults(cc), "227*#", a + b + c + d, "B");
  }

  lemma ExampleHelloTokens(cc: CharClasses)
    requires AsciiFacts(cc)
    ensures TokenizeChars(WithDefaults(cc), "4433555 555666#") == [Token(Digit, '4'), Token(Digit, '4'), Token(Digit, '3'), Token(Digit, '3')] + [Token(Digit, '5'), Token(Digit, '5'), Token(Digit, '5'), Token(Pause, ' ')] + [Token(Digit, '5'), Token(Digit, '5'), Token(Digit, '5'), Token(Digit, '6')] + [Token(Digit, '6'), Token(Digit, '6'), Token(Send, '#')]
  {
  }

  lemma ExampleHelloPiece1()
    ensures Process(Init, [Token(Digit, '4'), Token(Digit, '4'), Token(Digit, '3'), Token(Digit, '3')]) == State(Some('3'), 2, "H")
  {
  }

  lemma ExampleHelloPiece2()
    ensures Process(State(Some('3'), 2, "H"), [Token(Digit, '5'), Token(Digit, '5'), Token(Digit, '5'), Token(Pause, ' ')]) == State(None, 0, "HEL")
  {
  }

  lemma ExampleHelloPiece3()
    ensures Process(State(None, 0, "HEL"), [Token(Digit, '5'), Token(Digit, '5'), Token(Digit, '5'), Token(Digit, '6')]) == State(Some('6'), 1, "HELL")
  {
  }

  lemma ExampleHelloPiece4()
    ensures Flush(Process(State(Some('6'), 1, "HELL"), [Token(Digit, '6'), Token(Digit, '6'), Token(Send, '#')])).output == "HELLO"
  {
  }

  lemma ExampleHello(cc: CharClasses)
    requires AsciiFacts(cc)
    ensures Decode(WithDefaults(cc), Some("4433555 555666#")) == Success("HELLO")
  {
    var a, b, c, d := [Token(Digit, '4'), Token(Digit, '4'), Token(Digit, '3'), Token(Digit, '3')], [Token(Digit, '5'), Token(Digit, '5'), Token(Digit, '5'), Token(Pause, ' ')], [Token(Digit, '5'), Token(Digit, '5'), Token(Digit, '5'), Token(Digit, '6')], [Token(Digit, '6'), Token(Digit, '6'), Token(Send, '#')];
    ExampleHelloTokens(cc);
    DecodeInPieces(a, b, c, d);
    ExampleHelloPiece1();
    ExampleHelloPiece2();
    ExampleHelloPiece3();
    ExampleHelloPiece4();
    DecodeViaTokens(WithDefaults(cc), "4433555 555666#", a + b + c + d, "HELLO");
  }

  lemma ExampleTuringTokens(cc: CharClasses)
    requires AsciiFacts(cc)
    ensures TokenizeChars(WithDefaults(cc), "8 88777444666*664#") == [Token(Digit, '8'), Token(Pause, ' '), Token(Digit, '8'), Token(Digit, '8'), Token(Digit, '7')] + [Token(Digit, '7'), Token(Digit, '7'), Token(Digit, '4'), Token(Digit, '4'), Token(Digit, '4')] + [Token(Digit, '6'), Token(Digit, '6'), Token(Digit, '6'), Token(Backspace, '*')] + [Token(Digit, '6'), Token(Digit, '6'), Token(Digit, '4'), Token(Send, '#')]
  {
  }

  lemma ExampleTuringPiece1()
    ensures Process(Init, [Token(Digit, '8'), Token(Pause, ' '), Token(Digit, '8'), Token(Digit, '8'), Token(Digit, '7')]) == State(Some('7'), 1, "TU")
  {
  }

  lemma ExampleTuringPiece2()
    ensures Process(State(Some('7'), 1, "TU"), [Token(Digit, '7'), Token(Digit, '7'), Token(Digit, '4'), Token(Digit, '4'), Token(Digit, '4')]) == State(Some('4'), 3, "TUR")
  {
  }

  lemma ExampleTuringPiece3()
    ensures Process(State(Some('4'), 3, "TUR"), [Token(Digit, '6'), Token(Digit, '6'), Token(Digit, '6'), Token(Backspace, '*')]) == State(None, 0, "TURI")
  {
  }

  lemma ExampleTuringPiece4()
    ensures Flush(Process(State(None, 0, "TURI"), [Token(Digit, '6'), Token(Digit, '6'), Token(Digit, '4'), Token(Send, '#')])).output == "TURING"
  {
  }

  lemma ExampleTuring(cc: CharClasses)
    requires AsciiFacts(cc)
    ensures Decode(WithDefaults(cc), Some("8 88777444666*664#")) == Success("TURING")
  {
    var a, b, c, d := [Token(Digit, '8'), Token(Pause, ' '), Token(Digit, '8'), Token(Digit, '8'), Token(Digit, '7')], [Token(Digit, '7'), Token(Digit, '7'), Token(Digit, '4'), Token(Digit, '4'), Token(Digit, '4')], [Token(Digit, '6'), Token(Digit, '6'), Token(Digit, '6'), Token(Backspace, '*')], [Token(Digit, '6'), Token(Digit, '6'), Token(Digit, '4'), Token(Send, '#')];
    ExampleTuringTokens(cc);
    DecodeInPieces(a, b, c, d);
    ExampleTuringPiece1();
    ExampleTuringPiece2();
    ExampleTuringPiece3();
    ExampleTuringPiece4();
    DecodeViaTokens(WithDefaults(cc), "8 88777444666*664#", a + b + c + d, "TURING");
  }

  lemma ExampleTwoBackspacesTokens(cc: CharClasses)
    requires AsciiFacts(cc)
    ensures TokenizeChars(WithDefaults(cc), "4433555 555666**#") == [Token(Digit, '4'), Token(Digit, '4'), Token(Digit, '3'), Token(Digit, '3')] + [Token(Digit, '5'), Token(Digit, '5'), Token(Digit, '5'), Token(Pause, ' '), Token(Digit, '5')] + [Token(Digit, '5'), Token(Digit, '5'), Token(Digit, '6'), Token(Digit, '6'), Token(Digit, '6')] + [Token(Backspace, '*'), Token(Backspace, '*'), Token(Send, '#')]
  {
  }

  lemma ExampleTwoBackspacesPiece1()
    ensures Process(Init, [Token(Digit, '4'), Token(Digit, '4'), Token(Digit, '3'), Token(Digit, '3')]) == State(Some('3'), 2, "H")
  {
  }

  lemma ExampleTwoBackspacesPiece2()
    ensures Process(State(Some('3'), 2, "H"), [Token(Digit, '5'), Token(Digit, '5'), Token(Digit, '5'), Token(Pause, ' '), Token(Digit, '5')]) == State(Some('5'), 1, "HEL")
  {
  }

  lemma ExampleTwoBackspacesPiece3()
    ensures Process(State(Some('5'), 1, "HEL"), [Token(Digit, '5'), Token(Digit, '5'), Token(Digit, '6'), Token(Digit, '6'), Token(Digit, '6')]) == State(Some('6'), 3, "HELL")
  {
  }

  lemma ExampleTwoBackspacesPiece4()
    ensures Flush(Process(State(Some('6'), 3, "HELL"), [Token(Backspace, '*'), Token(Backspace, '*'), Token(Send, '#')])).output == "HEL"
  {
  }

  /** Consecutive backspaces delete one character each. */
  lemma ExampleTwoBackspaces(cc: CharClasses)
    requires AsciiFacts(cc)
    ensures Decode(WithDefaults(cc), Some("4433555 555666**#")) == Success("HEL")
  {
    var a, b, c, d := [Token(Digit, '4'), Token(Digit, '4'), Token(Digit, '3'), Token(Digit, '3')], [Token(Digit, '5'), Token(Digit, '5'), Token(Digit, '5'), Token(Pause, ' '), Token(Digit, '5')], [Token(Digit, '5'), Token(Digit, '5'), Token(Digit, '6'), Token(Digit, '6'), Token(Digit, '6')], [Token(Backspace, '*'), Token(Backspace, '*'), Token(Send, '#')];
    ExampleTwoBackspacesTokens(cc);
    DecodeInPieces(a, b, c, d);
    ExampleTwoBackspacesPiece1();
    ExampleTwoBackspacesPiece2();
    ExampleTwoBackspacesPiece3();
    ExampleTwoBackspacesPiece4();
    DecodeViaTokens(WithDefaults(cc), "4433555 555666**#", a + b + c + d, "HEL");
  }

  /**
   * `char.IsDigit` accepts non-ASCII decimal digits that the key table does not list;
   * their run is dropped without a character and decoding carries on.
   */
  lemma ExampleUnmappedDigit()
    ensures Decode(WithDefaults(Sample()), Some("\U{0660}\U{0660}2#")) == Success("A")
  {
    var cc := Sample();
    DecodeViaTokens(WithDefaults(cc), "\U{0660}\U{0660}2#", [Token(Digit, '\U{0660}'), Token(Digit, '\U{0660}'), Token(Digit, '2'), Token(Send, '#')], "A");
  }

  /**
   * Input length is counted in UTF-16 code units: 100 000 of them are accepted, one more
   * is refused, and null is refused.
   */
  lemma ExampleLengthLimit(tk: Tokenizer, s: string)
    ensures Utf16Length(s) == MaxInputLength ==> Decode(tk, Some(s)).Success?
    ensures Utf16Length(s) == MaxInputLength + 1 ==> Decode(tk, Some(s)) == Failure(InputTooLarge)
    ensures Decode(tk, None) == Failure(ArgumentNull)
  {
  }

  /** 100 000 characters of the Basic Multilingual Plane are accepted. */
  lemma ExampleLengthLimitBmp(tk: Tokenizer)
    ensures Decode(tk, Some(seq(MaxInputLength, _ => '2'))).Success?
  {
  }

  /**
   * 50 001 characters outside the Basic Multilingual Plane are 100 002 UTF-16 code
   * units, so they are refused although there are fewer than 100 000 of them.
   */
  lemma ExampleLengthLimitSupplementary(tk: Tokenizer)
    ensures Decode(tk, Some(seq(50_001, _ => '\U{1F600}'))) == Failure(InputTooLarge)
  {
  }
}
