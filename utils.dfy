/** The string test from src/utils.ts: `isAlpha` matches `/^[a-zA-Z]+$/`. */
module Utils {
  /** One character of the class `[a-zA-Z]`. */
  predicate IsAsciiLetter(c: char) {
    'a' <= c <= 'z' || 'A' <= c <= 'Z'
  }

  /**
   * The anchored match of one or more ASCII letters: the string is not empty
   * and every character of it is a letter.
   */
  function IsAlpha(s: string): (r: bool)
    ensures r <==> |s| > 0 && forall i :: 0 <= i < |s| ==> IsAsciiLetter(s[i])
  {
    |s| > 0 && IsAsciiLetter(s[0]) && (|s| == 1 || IsAlpha(s[1..]))
  }

  /** Joining two letter strings gives a letter string, and every non-empty piece of one is one. */
  lemma IsAlphaConcat(a: string, b: string)
    requires a != [] && b != []
    ensures IsAlpha(a + b) <==> IsAlpha(a) && IsAlpha(b)
  {
    assert forall i :: 0 <= i < |a| ==> a[i] == (a + b)[i];
    assert forall i :: 0 <= i < |b| ==> b[i] == (a + b)[|a| + i];
  }

  /**
   * Any character outside the class, wherever it stands, makes the match fail:
   * digits, the underscore, the colon and blanks among them.
   */
  lemma NonLettersRejected(c: char)
    requires !IsAsciiLetter(c)
    ensures !IsAlpha([c])
    ensures forall s: string, t: string :: !IsAlpha(s + [c] + t)
  {
    assert [c][0] == c;
    forall s: string, t: string ensures !IsAlpha(s + [c] + t) {
      assert (s + [c] + t)[|s|] == c;
    }
  }

  /** The names that mark labels and mnemonics: plain words pass, names with an underscore or a digit do not. */
  lemma Examples()
    ensures IsAlpha("LDM") && IsAlpha("loop") && IsAlpha("Start")
    ensures !IsAlpha("") && !IsAlpha("ADD_ADDRESS") && !IsAlpha("l1") && !IsAlpha("end:")
  {
    assert "ADD_ADDRESS"[3] == '_';
    assert "l1"[1] == '1';
    assert "end:"[3] == ':';
  }
}
