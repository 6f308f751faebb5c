// A value that may be missing.

module Wrappers {
  datatype Option<+T> = None | Some(value: T)
}

// C strings. A string holds the characters before the terminator, so a pointer into a text is
// the text from there on, and the character at the terminator is `'\0'`.
module CStrings {
  function At(s: string): char {
    if s == "" then '\0' else s[0]
  }

  predicate IsDigit(c: char) {
    '0' <= c <= '9'
  }

  predicate AllDigits(s: string) {
    forall k :: 0 <= k < |s| ==> IsDigit(s[k])
  }

  // The number that a text stands for, whatever its characters.
  function Value(s: string): int {
    if s == "" then 0 else 10 * Value(s[..|s| - 1]) + (s[|s| - 1] as int - '0' as int)
  }

  function Ten(k: nat): (r: nat)
    ensures r > 0
  {
    if k == 0 then 1 else 10 * Ten(k - 1)
  }

  // A first character adds its digit times a power of ten.
  lemma {:induction false} ValueFront(s: string)
    requires s != ""
    ensures Value(s) == (s[0] as int - '0' as int) * Ten(|s| - 1) + Value(s[1..])
  {
    var last := |s| - 1;
    if last == 0 {
      assert s[..0] == "";
    } else {
      ValueFront(s[..last]);
      assert s[..last][1..] == s[1..][..last - 1];
      TenTimes(s[0] as int - '0' as int, Ten(last - 1));
    }
  }

  lemma TenTimes(d: int, p: int)
    ensures 10 * (d * p) == d * (10 * p)
  {
  }

  // A C string in a buffer.
  ghost predicate Holds(out: array<char>, text: string)
    reads out
  {
    |text| < out.Length && out[..|text|] == text && out[|text|] == '\0'
  }
}
