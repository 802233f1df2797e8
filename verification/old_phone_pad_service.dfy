/**
 * The decode engine: a run of equal digits accumulates a press count, and the run is
 * turned into one character (or dropped) whenever it is flushed.
 */
module OldPhonePadService {
  import opened Wrappers
  import opened Tokens
  import opened SimpleTokenizer
  import opened GroupResolver
  import opened CharInfo
  import KeyMapping

  /** Inputs with more UTF-16 code units are refused before any token is read. */
  const MaxInputLength: nat := 100_000

  /** The two argument exceptions `Decode` throws. */
  datatype DecodeError = ArgumentNull | InputTooLarge

  /** The locals of one decode call: the current run and the output buffer. */
  datatype State = State(currentDigit: Option<char>, count: int, output: string)

  /** A run is either absent with no presses, or present with at least one press. */
  predicate Valid(s: State) {
    s.count >= 0 && (s.currentDigit.Some? <==> s.count > 0)
  }

  /** No run in progress. */
  predicate Idle(s: State) {
    s.currentDigit.None? && s.count == 0
  }

  /** Characters a state may still add: one if a run is in progress. */
  function Pending(s: State): nat {
    if s.currentDigit.Some? then 1 else 0
  }

  const Init: State := State(None, 0, [])

  /**
   * Ends the current run: the run's character, if the key table yields one, is
   * appended; a run whose digit has no candidates is dropped. Without a run nothing
   * changes.
   */
  function Flush(s: State): (r: State)
    ensures s.currentDigit.None? ==> r == s
    ensures s.currentDigit.Some? ==> Idle(r)
    ensures Valid(s) ==> Idle(r)
    ensures |s.output| <= |r.output| <= |s.output| + Pending(s)
    ensures r.output[..|s.output|] == s.output
    ensures s.currentDigit.Some? && s.currentDigit.value in KeyMapping.Default && s.count > 0 ==>
      var keys := KeyMapping.Default[s.currentDigit.value];
      r.output == s.output + [keys[(s.count - 1) % |keys|]]
    ensures s.currentDigit.Some? && (s.currentDigit.value !in KeyMapping.Default || s.count <= 0) ==>
      r.output == s.output
  {
    if s.currentDigit.Some? then
      var ch := Resolve(KeyMapping.Default, s.currentDigit.value, s.count);
      KeyMapping.DefaultKeys();
      var out := if ch.Some? then s.output + [ch.value] else s.output;
      State(None, 0, out)
    else
      s
  }

  /** Removes the last character of the buffer, if there is one. */
  function DropLast(out: string): (r: string)
    ensures |out| > 0 ==> r + [out[|out| - 1]] == out
    ensures |out| == 0 ==> r == out
  {
    if |out| > 0 then out[..|out| - 1] else out
  }

  /**
   * The effect of one token before the first Send. A digit extends or starts a run;
   * every other token flushes, and a backspace then deletes the last character.
   */
  function Step(s: State, t: Token): (r: State)
    ensures Valid(s) ==> Valid(r)
    ensures t.kind == Digit ==> r.currentDigit == Some(t.value)
    ensures t.kind != Digit && Valid(s) ==> Idle(r)
    ensures |r.output| + Pending(r) <= |s.output| + Pending(s) + (if t.kind == Digit then 1 else 0)
  {
    match t.kind
    case Digit =>
      if s.currentDigit.None? then State(Some(t.value), 1, s.output)
      else if s.currentDigit.value == t.value then s.(count := s.count + 1)
      else Flush(s).(currentDigit := Some(t.value), count := 1)
    case Pause => Flush(s)
    case Backspace =>
      var f := Flush(s);
      f.(output := DropLast(f.output))
    case Send => Flush(s)
    case Unknown => Flush(s)
  }

  /**
   * The token loop: tokens are stepped through in order until the first Send, which
   * flushes and leaves the loop; the rest of the sequence is not looked at.
   */
  function Process(s: State, ts: seq<Token>): (r: State)
    ensures Valid(s) ==> Valid(r)
    ensures |r.output| + Pending(r) <= |s.output| + Pending(s) + DigitCount(ts)
    decreases |ts|
  {
    if |ts| == 0 then s
    else if ts[0].kind == Send then Flush(s)
    else Process(Step(s, ts[0]), ts[1..])
  }

  /** Runs the loop from the initial state and flushes whatever run is left at the end. */
  function DecodeTokens(ts: seq<Token>): (out: string)
    ensures |out| <= DigitCount(ts)
  {
    Flush(Process(Init, ts)).output
  }

  /**
   * `Decode`: a null input and an input of more than 100 000 UTF-16 code units are
   * refused; any other input decodes to a string no longer than its number of digit tokens.
   */
  function Decode(tk: Tokenizer, input: Option<string>): (r: Result<string, DecodeError>)
    ensures r == Failure(ArgumentNull) <==> input.None?
    ensures r == Failure(InputTooLarge) <==> input.Some? && Utf16Length(input.value) > MaxInputLength
    ensures r.Success? <==> input.Some? && Utf16Length(input.value) <= MaxInputLength
    ensures r.Success? ==> |r.value| <= DigitCount(Tokenize(tk, input)) <= |input.value|
  {
    if input.None? then Failure(ArgumentNull)
    else if Utf16Length(input.value) > MaxInputLength then Failure(InputTooLarge)
    else
      var ts := Tokenize(tk, input);
      DigitCountBound(ts);
      Success(DecodeTokens(ts))
  }

  lemma {:induction false} DigitCountBound(ts: seq<Token>)
    ensures DigitCount(ts) <= |ts|
  {
    if |ts| > 0 {
      DigitCountBound(ts[1..]);
    }
  }

  /** The flush local function, on the decoder's three locals. */
  method FlushRun(currentDigit: Option<char>, count: int, sb: string)
    returns (currentDigit': Option<char>, count': int, sb': string)
    ensures State(currentDigit', count', sb') == Flush(State(currentDigit, count, sb))
  {
    currentDigit', count', sb' := currentDigit, count, sb;
    if currentDigit.Some? {
      var ch := Resolve(KeyMapping.Default, currentDigit.value, count);
      if ch.Some? {
        sb' := sb + [ch.value];
      }
      currentDigit' := None;
      count' := 0;
    }
  }

  /**
   * The decoder as a loop over the tokens with mutable locals; the Send case leaves the
   * loop early, and the run still pending afterwards is flushed.
   */
  method DecodeLoop(tk: Tokenizer, input: Option<string>) returns (r: Result<string, DecodeError>)
    ensures r == Decode(tk, input)
  {
    if input.None? {
      return Failure(ArgumentNull);
    }
    if Utf16Length(input.value) > MaxInputLength {
      return Failure(InputTooLarge);
    }
    var tokens := Tokenize(tk, input);
    var sb: string := [];
    var currentDigit: Option<char> := None;
    var count: int := 0;
    var i := 0;
    while i < |tokens|
      invariant 0 <= i <= |tokens|
      invariant 0 <= count <= i
      invariant Valid(State(currentDigit, count, sb))
      invariant Process(State(currentDigit, count, sb), tokens[i..]) == Process(Init, tokens)
    {
      var token := tokens[i];
      ghost var before := State(currentDigit, count, sb);
      assert tokens[i..][0] == token && tokens[i..][1..] == tokens[i + 1..];
      match token.kind {
        case Digit =>
          if currentDigit.None? {
            currentDigit, count := Some(token.value), 1;
          } else if currentDigit.value == token.value {
            // the count never exceeds the 100 000 accepted characters, so C#'s int does not wrap
            assert count + 1 <= MaxInputLength < 0x8000_0000;
            count := count + 1;
          } else {
            currentDigit, count, sb := FlushRun(currentDigit, count, sb);
            currentDigit, count := Some(token.value), 1;
          }
        case Pause =>
          currentDigit, count, sb := FlushRun(currentDigit, count, sb);
        case Backspace =>
          currentDigit, count, sb := FlushRun(currentDigit, count, sb);
          if |sb| > 0 {
            sb := sb[..|sb| - 1];
          }
        case Send =>
          currentDigit, count, sb := FlushRun(currentDigit, count, sb);
          assert State(currentDigit, count, sb) == Process(Init, tokens);
          break;
        case Unknown =>
          currentDigit, count, sb := FlushRun(currentDigit, count, sb);
      }
      assert State(currentDigit, count, sb) == Step(before, token);
      i := i + 1;
    }
    currentDigit, count, sb := FlushRun(currentDigit, count, sb);
    return Success(sb);
  }
}
