/** Properties of the decode engine over whole token sequences. */
module DecodeProperties {
  import opened Wrappers
  import opened Tokens
  import opened GroupResolver
  import opened OldPhonePadService
  import KeyMapping

  /** A token is a separator when it only ends the current run. */
  predicate IsSeparator(t: Token) {
    t.kind == Pause || t.kind == Unknown
  }

  lemma HasSendTail(ts: seq<Token>)
    requires |ts| > 0 && ts[0].kind != Send
    ensures HasSend(ts) <==> HasSend(ts[1..])
  {
    if HasSend(ts) {
      var i :| 0 <= i < |ts| && ts[i].kind == Send;
      assert ts[1..][i - 1].kind == Send;
    }
    if HasSend(ts[1..]) {
      var i :| 0 <= i < |ts[1..]| && ts[1..][i].kind == Send;
      assert ts[i + 1].kind == Send;
    }
  }

  lemma HasSendAppend(p: seq<Token>, q: seq<Token>)
    ensures HasSend(p + q) <==> HasSend(p) || HasSend(q)
  {
    if HasSend(p) {
      var i :| 0 <= i < |p| && p[i].kind == Send;
      assert (p + q)[i].kind == Send;
    }
    if HasSend(q) {
      var i :| 0 <= i < |q| && q[i].kind == Send;
      assert (p + q)[|p| + i].kind == Send;
    }
    if HasSend(p + q) {
      var i :| 0 <= i < |p + q| && (p + q)[i].kind == Send;
      if i < |p| {
        assert p[i].kind == Send;
      } else {
        assert q[i - |p|].kind == Send;
      }
    }
  }

  /** Before any Send the loop is a left fold: a sequence can be processed piece by piece. */
  lemma {:induction false} ProcessAppend(s: State, p: seq<Token>, q: seq<Token>)
    requires !HasSend(p)
    ensures Process(s, p + q) == Process(Process(s, p), q)
    decreases |p|
  {
    if |p| == 0 {
      assert p + q == q;
    } else {
      assert (p + q)[0] == p[0];
      assert (p + q)[1..] == p[1..] + q;
      assert p[0].kind != Send by {
        assert !(p[0].kind == Send);
      }
      HasSendTail(p);
      ProcessAppend(Step(s, p[0]), p[1..], q);
    }
  }

  /** Once a Send has been read, whatever follows it is never looked at. */
  lemma {:induction false} ProcessAfterSend(s: State, p: seq<Token>, q: seq<Token>)
    requires HasSend(p)
    ensures Process(s, p + q) == Process(s, p)
    decreases |p|
  {
    assert |p| > 0;
    assert (p + q)[0] == p[0];
    if p[0].kind != Send {
      assert (p + q)[1..] == p[1..] + q;
      HasSendTail(p);
      ProcessAfterSend(Step(s, p[0]), p[1..], q);
    }
  }

  /** Processing one more token: ignored after a Send, otherwise one more step. */
  lemma ProcessSnoc(s: State, ts: seq<Token>, t: Token)
    ensures Process(s, ts + [t]) ==
      if HasSend(ts) then Process(s, ts)
      else if t.kind == Send then Flush(Process(s, ts))
      else Step(Process(s, ts), t)
  {
    if HasSend(ts) {
      ProcessAfterSend(s, ts, [t]);
    } else {
      ProcessAppend(s, ts, [t]);
    }
  }

  lemma FlushIdempotent(s: State)
    ensures Flush(Flush(s)) == Flush(s)
  {
  }

  /**
   * Only the first Send matters: decoding stops there, the run pending at the Send is
   * flushed exactly as at the end of the stream, and everything after it is ignored.
   */
  lemma FirstSendOnly(p: seq<Token>, t: Token, q: seq<Token>)
    requires !HasSend(p) && t.kind == Send
    ensures DecodeTokens(p + [t] + q) == DecodeTokens(p)
  {
    assert HasSend(p + [t]) by {
      assert (p + [t])[|p|].kind == Send;
    }
    ProcessAfterSend(Init, p + [t], q);
    ProcessSnoc(Init, p, t);
    FlushIdempotent(Process(Init, p));
  }

  /** A trailing separator changes nothing: the end of the stream flushes just as it does. */
  lemma TrailingSeparator(ts: seq<Token>, t: Token)
    requires IsSeparator(t)
    ensures DecodeTokens(ts + [t]) == DecodeTokens(ts)
  {
    ProcessSnoc(Init, ts, t);
    FlushIdempotent(Process(Init, ts));
  }

  /**
   * Equal effect of one token in the middle of a sequence: if `a` and `b` act alike on
   * every state they can meet, swapping one for the other does not change the result.
   */
  lemma ReplaceStep(p: seq<Token>, a: seq<Token>, b: seq<Token>, q: seq<Token>)
    requires !HasSend(a) && !HasSend(b)
    requires forall s: State :: Process(s, a) == Process(s, b)
    ensures DecodeTokens(p + a + q) == DecodeTokens(p + b + q)
  {
    assert p + a + q == p + (a + q);
    assert p + b + q == p + (b + q);
    if HasSend(p) {
      ProcessAfterSend(Init, p, a + q);
      ProcessAfterSend(Init, p, b + q);
    } else {
      ProcessAppend(Init, p, a + q);
      ProcessAppend(Init, p, b + q);
      ProcessAppend(Process(Init, p), a, q);
      ProcessAppend(Process(Init, p), b, q);
    }
  }

  lemma NoSendSingle(t: Token)
    requires t.kind != Send
    ensures !HasSend([t])
  {
  }

  lemma NoSendPair(t: Token, u: Token)
    requires t.kind != Send && u.kind != Send
    ensures !HasSend([t, u])
  {
  }

  /** A second separator right after a first one changes nothing. */
  lemma RepeatedSeparator(p: seq<Token>, t: Token, u: Token, q: seq<Token>)
    requires IsSeparator(t) && IsSeparator(u)
    ensures DecodeTokens(p + [t, u] + q) == DecodeTokens(p + [t] + q)
  {
    NoSendPair(t, u);
    NoSendSingle(t);
    forall s: State ensures Process(s, [t, u]) == Process(s, [t]) {
      assert [t, u][1..] == [u];
      FlushIdempotent(s);
    }
    ReplaceStep(p, [t, u], [t], q);
  }

  /** An unknown character separates runs exactly like a pause and contributes no character. */
  lemma UnknownActsAsPause(p: seq<Token>, u: Token, w: Token, q: seq<Token>)
    requires u.kind == Unknown && w.kind == Pause
    ensures DecodeTokens(p + [u] + q) == DecodeTokens(p + [w] + q)
  {
    NoSendSingle(u);
    NoSendSingle(w);
    ReplaceStep(p, [u], [w], q);
  }

  /**
   * A backspace deletes the last decoded character, counting the run it ends, and does
   * nothing when there is no character yet.
   */
  lemma BackspaceDeletesLast(p: seq<Token>, t: Token)
    requires !HasSend(p) && t.kind == Backspace
    ensures |DecodeTokens(p)| > 0 ==> DecodeTokens(p + [t]) + [DecodeTokens(p)[|DecodeTokens(p)| - 1]] == DecodeTokens(p)
    ensures |DecodeTokens(p)| == 0 ==> DecodeTokens(p + [t]) == []
  {
    ProcessSnoc(Init, p, t);
  }

  /** Pressing the digit of the current run again only raises its count. */
  lemma SameDigitIncrements(p: seq<Token>, t: Token)
    requires !HasSend(p) && t.kind == Digit
    requires Process(Init, p).currentDigit == Some(t.value)
    ensures Process(Init, p + [t]).currentDigit == Some(t.value)
    ensures Process(Init, p + [t]).count == Process(Init, p).count + 1
    ensures Process(Init, p + [t]).output == Process(Init, p).output
  {
    ProcessSnoc(Init, p, t);
  }

  /** A different digit flushes the current run and starts a new run of one press. */
  lemma NewDigitStartsRun(p: seq<Token>, t: Token)
    requires !HasSend(p) && t.kind == Digit
    requires Process(Init, p).currentDigit != Some(t.value)
    ensures Process(Init, p + [t]).currentDigit == Some(t.value)
    ensures Process(Init, p + [t]).count == 1
    ensures Process(Init, p + [t]).output == Flush(Process(Init, p)).output
  {
    ProcessSnoc(Init, p, t);
  }

  /** A run of a digit the key table does not know contributes no character. */
  lemma UnmappedDigitDropped(p: seq<Token>, t: Token)
    requires !HasSend(p) && t.kind == Digit && t.value !in KeyMapping.Default
    ensures DecodeTokens(p + [t]) == DecodeTokens(p)
  {
    ProcessSnoc(Init, p, t);
  }

  /** `k` presses of the same digit in a row. */
  function Presses(d: char, k: nat): (ts: seq<Token>)
    ensures |ts| == k && DigitCount(ts) == k && !HasSend(ts)
    ensures forall i :: 0 <= i < k ==> ts[i] == Token(Digit, d)
  {
    if k == 0 then [] else [Token(Digit, d)] + Presses(d, k - 1)
  }

  /** From a state with no run of `d`, `k` presses of `d` form one run of count `k`. */
  lemma {:induction false} RunAccumulates(s: State, d: char, k: nat)
    requires k >= 1 && s.currentDigit != Some(d)
    ensures Process(s, Presses(d, k)) == State(Some(d), k, Flush(s).output)
  {
    if k == 1 {
      assert Presses(d, 1) == [Token(Digit, d)];
    } else {
      assert Presses(d, k) == Presses(d, k - 1) + [Token(Digit, d)];
      RunAccumulates(s, d, k - 1);
      ProcessSnoc(s, Presses(d, k - 1), Token(Digit, d));
    }
  }

  /** Pressing a mapped key `k` times decodes to its candidate at `(k - 1) mod length`. */
  lemma PressesDecode(d: char, k: nat)
    requires '0' <= d <= '9' && k >= 1
    ensures d in KeyMapping.Default
    ensures DecodeTokens(Presses(d, k)) == [KeyMapping.Default[d][(k - 1) % |KeyMapping.Default[d]|]]
  {
    KeyMapping.DefaultKeys();
    RunAccumulates(Init, d, k);
  }

  /** The characters any key can produce. */
  function Alphabet(): set<char> {
    set d, c | d in KeyMapping.Default && c in KeyMapping.Default[d] :: c
  }

  predicate KeypadText(out: string) {
    forall i :: 0 <= i < |out| ==> out[i] in Alphabet()
  }

  lemma FlushKeypad(s: State)
    requires KeypadText(s.output)
    ensures KeypadText(Flush(s).output)
  {
    var r := Flush(s);
    if |r.output| > |s.output| {
      assert r.output[|s.output|] in KeyMapping.Default[s.currentDigit.value];
    }
  }

  lemma StepKeypad(s: State, t: Token)
    requires KeypadText(s.output)
    ensures KeypadText(Step(s, t).output)
  {
    FlushKeypad(s);
  }

  lemma {:induction false} ProcessKeypad(s: State, ts: seq<Token>)
    requires KeypadText(s.output)
    ensures KeypadText(Process(s, ts).output)
    decreases |ts|
  {
    if |ts| > 0 {
      if ts[0].kind == Send {
        FlushKeypad(s);
      } else {
        StepKeypad(s, ts[0]);
        ProcessKeypad(Step(s, ts[0]), ts[1..]);
      }
    }
  }

  /** Decoded text only ever holds characters from the key table. */
  lemma OutputIsKeypadText(ts: seq<Token>)
    ensures KeypadText(DecodeTokens(ts))
  {
    ProcessKeypad(Init, ts);
    FlushKeypad(Process(Init, ts));
  }

  /** The run invariant holds at every point of the loop and after the final flush. */
  lemma RunInvariant(ts: seq<Token>)
    ensures Valid(Process(Init, ts))
    ensures Idle(Flush(Process(Init, ts)))
  {
  }
}
