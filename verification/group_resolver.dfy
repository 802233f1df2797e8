/** Choosing the character for a run of presses on one key, with wraparound. */
module GroupResolver {
  import opened Wrappers
  import KeyMapping

  /**
   * The character selected by pressing `digit` `presses` times, looked up in `keys`.
   * There is none when the key is missing or has no candidates, or the press count
   * is not positive; otherwise the count cycles through the candidates.
   */
  function Resolve(keys: map<char, string>, digit: char, presses: int): (r: Option<char>)
    ensures r.Some? <==> digit in keys && |keys[digit]| > 0 && presses > 0
    ensures r.Some? ==> r.value in keys[digit]
    ensures r.Some? ==> r.value == keys[digit][(presses - 1) % |keys[digit]|]
  {
    if digit !in keys || |keys[digit]| == 0 then None
    else if presses <= 0 then None
    else
      var idx := (presses - 1) % |keys[digit]|;
      Some(keys[digit][idx])
  }

  /** One press selects the first candidate. */
  lemma ResolveFirst(keys: map<char, string>, digit: char)
    requires digit in keys && |keys[digit]| > 0
    ensures Resolve(keys, digit, 1) == Some(keys[digit][0])
  {
  }

  /** Pressing a key once more than it has candidates comes back round to the same one. */
  lemma Wraparound(keys: map<char, string>, digit: char, presses: int)
    requires digit in keys && presses >= 1
    ensures Resolve(keys, digit, presses + |keys[digit]|) == Resolve(keys, digit, presses)
  {
    var n := |keys[digit]|;
    if n > 0 {
      assert (presses + n - 1) % n == (presses - 1) % n by {
        ModShift(presses - 1, n);
      }
    }
  }

  lemma ModShift(a: int, n: int)
    requires a >= 0 && n > 0
    ensures (a + n) % n == a % n
  {
    var q, r := a / n, a % n;
    assert a + n == (q + 1) * n + r;
    ModUnique(a + n, n, q + 1, r);
  }

  /** The remainder is determined by any quotient/remainder decomposition. */
  lemma ModUnique(x: int, n: int, q: int, r: int)
    requires n > 0 && 0 <= r < n && x == q * n + r
    ensures x % n == r
  {
    var q', r' := x / n, x % n;
    assert (q - q') * n == r' - r;
    if q > q' {
      assert (q - q') * n >= n by { MulAtLeast(q - q', n); }
    } else if q < q' {
      assert (q' - q) * n >= n by { MulAtLeast(q' - q, n); }
    }
  }

  lemma MulAtLeast(k: int, n: int)
    requires k >= 1 && n > 0
    ensures k * n >= n
  {
  }

  /** Any number of full cycles of extra presses selects the same candidate. */
  lemma {:induction false} WraparoundCycles(keys: map<char, string>, digit: char, presses: int, k: nat)
    requires digit in keys && presses >= 1
    ensures Resolve(keys, digit, presses + k * |keys[digit]|) == Resolve(keys, digit, presses)
  {
    if k > 0 {
      var n := |keys[digit]|;
      WraparoundCycles(keys, digit, presses, k - 1);
      assert presses + k * n == (presses + (k - 1) * n) + n;
      Wraparound(keys, digit, presses + (k - 1) * n);
    }
  }

  /** With the default table every ASCII digit resolves for any positive press count. */
  lemma DefaultResolvesAsciiDigits(digit: char, presses: int)
    requires '0' <= digit <= '9' && presses >= 1
    ensures Resolve(KeyMapping.Default, digit, presses).Some?
  {
    KeyMapping.DefaultKeys();
  }

  /** With the default table, four presses of a three-letter key select its first letter. */
  lemma FourPressesOnThreeLetterKey()
    ensures Resolve(KeyMapping.Default, '2', 4) == Some('A')
    ensures Resolve(KeyMapping.Default, '7', 4) == Some('S')
    ensures Resolve(KeyMapping.Default, '7', 5) == Some('P')
  {
    Wraparound(KeyMapping.Default, '2', 1);
  }
}
