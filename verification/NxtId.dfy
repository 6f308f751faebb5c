// Account ids as decimal text modulo 2^64 (utils/jl777str.h:69-146), and the satoshi amounts that
// utils/cJSON.c:691-719 writes and reads the same way.

module NxtIdSpec {
  import opened Words
  import opened CStrings

  function Digit(n: nat): (c: char)
    requires n < 10
    ensures '0' <= c <= '9' && c as int - '0' as int == n
  {
    ('0' as int + n) as char
  }

  // The text of an id; 0 has none.
  function Expand(x: nat): (s: string)
    ensures AllDigits(s) && (s == "" <==> x == 0)
  {
    if x == 0 then "" else Expand(x / 10) + [Digit(x % 10)]
  }

  // What `calc_nxt64bits` returns.
  function Calc(s: string): U64 {
    if |s| >= 22 || !AllDigits(s) then 0 else Value(s) % TWO_64
  }

  lemma {:induction false} ValueBack(x: nat)
    ensures Value(Expand(x)) == x
  {
    if x > 0 {
      ValueBack(x / 10);
      assert Expand(x)[..|Expand(x)| - 1] == Expand(x / 10);
    }
  }

  lemma {:induction false} ExpandLength(x: nat, k: nat)
    ensures x < Ten(k) <==> |Expand(x)| <= k
  {
    if x == 0 {
    } else if k > 0 {
      ExpandLength(x / 10, k - 1);
      assert x < 10 * Ten(k - 1) <==> x / 10 < Ten(k - 1);
    }
  }

  lemma TenTwenty()
    ensures Ten(18) == 1_000_000_000_000_000_000
    ensures Ten(19) == 10_000_000_000_000_000_000 && Ten(20) == 100_000_000_000_000_000_000
  {
    assert Ten(6) == 1_000_000 by { assert Ten(3) == 1000; }
    assert Ten(12) == 1_000_000_000_000 by { assert Ten(9) == 1_000_000_000; }
    assert Ten(15) == 1_000_000_000_000_000;
  }

  // An id survives its text, which has at most 20 digits.
  lemma CalcExpand(x: U64)
    ensures |Expand(x)| <= 20 && Calc(Expand(x)) == x
  {
    TenTwenty();
    ExpandLength(x, 20);
    ValueBack(x);
  }

  // Canonical text is the text of its value.
  lemma {:induction false} ExpandBack(s: string)
    requires AllDigits(s) && (s == "" || s[0] != '0')
    ensures Value(s) >= 0 && Expand(Value(s)) == s && (s != "" ==> Value(s) > 0)
  {
    if s != "" {
      var last := |s| - 1;
      ExpandBack(s[..last]);
      assert s == s[..last] + [s[last]];
      var v, d := Value(s[..last]), s[last] as int - '0' as int;
      assert (10 * v + d) / 10 == v && (10 * v + d) % 10 == d;
      if last == 0 { assert d > 0; }
    }
  }

  lemma {:induction false} ExpandIsCanonical(x: nat)
    ensures x > 0 ==> Expand(x)[0] != '0'
  {
    if x > 0 { ExpandIsCanonical(x / 10); }
  }

  lemma CalcIs(s: string)
    requires AllDigits(s) && |s| < 22
    ensures Calc(s) == Value(s) % TWO_64 < TWO_64
  {
  }

  lemma SmallMod(x: nat)
    requires x < TWO_64
    ensures x % TWO_64 == x
  {
  }

  // The comparison with which `calc_nxt64bits` checks itself finds no difference exactly when the
  // text has no leading zero and its value fits 64 bits.
  lemma SelfCheckExact(s: string)
    requires AllDigits(s) && |s| < 22
    ensures s == Expand(Calc(s)) <==> (s == "" || s[0] != '0') && Value(s) < TWO_64
  {
    hide Expand, Value, Calc;
    CalcIs(s);
    if s == "" || s[0] != '0' {
      ExpandBack(s);
      ValueBack(Calc(s));
      if Value(s) < TWO_64 { SmallMod(Value(s)); }
    } else {
      ExpandIsCanonical(Calc(s));
    }
  }

  lemma {:induction false} ValueOfDigits(s: string)
    requires AllDigits(s)
    ensures 0 <= Value(s) < Ten(|s|)
  {
    if s != "" { ValueOfDigits(s[..|s| - 1]); }
  }

  // ------------------------------------------------------------------ satoshi amounts

  // `sprintf("%ld")` of an unsigned amount: from 2^63 on it has a minus sign.
  function SatoshiText(x: U64): string {
    if x == 0 then "0"
    else if x < TWO_63 then Expand(x)
    else "-" + Expand(TWO_64 - x)
  }

  const TWO_63: nat := 0x8000_0000_0000_0000

  // `get_satoshi_obj` weighs every character as a digit.
  function ReadSatoshis(s: string): U64 {
    Value(s) % TWO_64
  }

  lemma NegativeValue(y: nat)
    ensures Value("-" + Expand(y)) == y - 3 * Ten(|Expand(y)|)
  {
    var s := "-" + Expand(y);
    ValueFront(s);
    assert s[1..] == Expand(y);
    ValueBack(y);
  }

  const ODD_ONE: nat := 12670116110564327424

  // An amount is read back as it was written exactly when it is below 2^63, but for one.
  lemma SatoshisBack(x: U64)
    ensures ReadSatoshis(SatoshiText(x)) == x <==> x < TWO_63 || x == ODD_ONE
  {
    hide Expand, Value, Ten;
    if x == 0 {
      ZeroText();
    } else if x < TWO_63 {
      ValueBack(x);
      SmallMod(x);
    } else {
      NegativeValue(TWO_64 - x);
      LargeAmount(TWO_64 - x, |Expand(TWO_64 - x)|);
    }
  }

  lemma ZeroText()
    ensures Value("0") == 0
  {
    assert "0"[..0] == "";
  }

  // A minus sign counts as -3 times a power of ten.
  lemma LargeAmount(y: nat, n: nat)
    requires 0 < y <= TWO_63 && n == |Expand(y)|
    ensures (y - 3 * Ten(n)) % TWO_64 == TWO_64 - y <==> TWO_64 - y == ODD_ONE
  {
    hide Expand, Ten;
    TenTwenty();
    ExpandLength(y, 18);
    ExpandLength(y, 19);
    ExpandLength(y, n);
    if n <= 18 {
      TenGrows(n, 18);
      BelowMod(y - 3 * Ten(n));
    } else {
      assert n == 19;
      TwiceBelow(y - 30_000_000_000_000_000_000);
    }
  }

  lemma BelowMod(v: int)
    requires v < 0 <= v + TWO_64
    ensures v % TWO_64 == v + TWO_64
  {
  }

  lemma TwiceBelow(v: int)
    requires v + TWO_64 < 0 <= v + 2 * TWO_64
    ensures v % TWO_64 == v + 2 * TWO_64
  {
  }

  lemma {:induction false} TenGrows(j: nat, k: nat)
    requires j <= k
    ensures Ten(j) <= Ten(k)
  {
    if j < k { TenGrows(j, k - 1); }
  }
}

module NxtId {
  import opened Words
  import opened CStrings
  import opened NxtIdSpec

  // `expand_nxt64bits`: the digits are found from the last to the first.
  method ExpandNxt64bits(NXTaddr: array<char>, nxt64bits: U64) returns (n: nat)
    requires NXTaddr.Length >= 21
    modifies NXTaddr
    ensures n == |Expand(nxt64bits)| <= 20 && NXTaddr[..n] == Expand(nxt64bits) && NXTaddr[n] == '\0'
  {
    hide Expand, Calc, Reversed;
    CalcExpand(nxt64bits);
    var rev := new char[64];
    n := DigitsBackwards(rev, nxt64bits);
    ghost var digits := rev[..n];
    var i := 0;
    while i < n
      invariant 0 <= i <= n && rev[..n] == digits && NXTaddr[..i] == Reversed(digits)[..i]
    {
      ReversedAt(digits, i);
      NXTaddr[i] := rev[n - 1 - i];
      i := i + 1;
    }
    NXTaddr[n] := '\0';
    assert NXTaddr[..n] == Reversed(digits)[..n] == Reversed(digits);
  }

  method DigitsBackwards(rev: array<char>, nxt64bits: U64) returns (n: nat)
    requires rev.Length >= |Expand(nxt64bits)|
    modifies rev
    ensures n == |Expand(nxt64bits)| && Reversed(rev[..n]) == Expand(nxt64bits)
  {
    hide Reversed, Digit;
    var left: nat := nxt64bits;
    n := 0;
    NothingReversed();
    assert rev[..0] == "" && Expand(left) + "" == Expand(left);
    while left != 0
      invariant n + |Expand(left)| == |Expand(nxt64bits)|
      invariant Expand(left) + Reversed(rev[..n]) == Expand(nxt64bits)
      decreases left
    {
      var c := Digit(left % 10);
      ghost var was := rev[..n];
      rev[n] := c;
      assert rev[..n + 1] == was + [c];
      ReversedAppends(was, c);
      assert Expand(left / 10) + [c] + Reversed(was) == Expand(left / 10) + ([c] + Reversed(was));
      left := left / 10;
      n := n + 1;
    }
    assert "" + Reversed(rev[..n]) == Reversed(rev[..n]);
  }

  lemma NothingReversed()
    ensures Reversed("") == ""
  {
  }

  function Reversed(s: string): (r: string)
    ensures |r| == |s|
  {
    if s == "" then "" else [s[|s| - 1]] + Reversed(s[..|s| - 1])
  }

  lemma ReversedAppends(s: string, c: char)
    ensures Reversed(s + [c]) == [c] + Reversed(s)
  {
    assert (s + [c])[..|s|] == s;
  }

  lemma {:induction false} ReversedAt(s: string, i: nat)
    requires i < |s|
    ensures Reversed(s)[i] == s[|s| - 1 - i]
  {
    if i > 0 { ReversedAt(s[..|s| - 1], i - 1); }
  }

  datatype Verdict = TooLong | IsZero | IllegalChar | Agrees | Differs

  // `calc_nxt64bits`, with the message that it prints, if any.
  method CalcNxt64bits(NXTaddr: string) returns (nxt64bits: U64, verdict: Verdict)
    ensures nxt64bits == Calc(NXTaddr)
    ensures verdict == TooLong <==> |NXTaddr| >= 22
    ensures verdict == IllegalChar <==> |NXTaddr| < 22 && !AllDigits(NXTaddr)
    ensures verdict == IsZero <==> NXTaddr == "0"
    ensures verdict == Agrees <==> |NXTaddr| < 22 && AllDigits(NXTaddr) && NXTaddr != "0"
                                   && (NXTaddr == "" || NXTaddr[0] != '0') && Value(NXTaddr) < TWO_64
  {
    var n := |NXTaddr|;
    if n >= 22 {
      return 0, TooLong;
    } else if NXTaddr == "0" {
      ZeroText();
      return 0, IsZero;
    }
    var mult: U64 := 1;
    nxt64bits := 0;
    var i := n;
    assert NXTaddr[n..] == "";
    while i > 0
      invariant 0 <= i <= n && AllDigits(NXTaddr[i..])
      invariant nxt64bits == Value(NXTaddr[i..]) % TWO_64 && mult == Ten(n - i) % TWO_64
    {
      i := i - 1;
      var c := NXTaddr[i];
      if c < '0' || c > '9' {
        return 0, IllegalChar;
      }
      ValueFront(NXTaddr[i..]);
      assert NXTaddr[i..][1..] == NXTaddr[i + 1..];
      var d := c as int - '0' as int;
      ModStep(Value(NXTaddr[i + 1..]), Ten(n - i - 1), d);
      nxt64bits := (nxt64bits + mult * d) % TWO_64;
      mult := mult * 10 % TWO_64;
    }
    assert NXTaddr[0..] == NXTaddr;
    SelfCheckExact(NXTaddr);
    var difference := CmpNxt64bits(NXTaddr, nxt64bits);
    verdict := if difference then Differs else Agrees;
  }

  // `cmp_nxt64bits`; whether there is a difference.
  method CmpNxt64bits(str: string, nxt64bits: U64) returns (differs: bool)
    ensures differs <==> str != Expand(nxt64bits)
  {
    if nxt64bits == 0 && str == "" {
      return false;
    }
    var expanded := new char[64];
    var n := ExpandNxt64bits(expanded, nxt64bits);
    differs := str != expanded[..n];
  }

  // `get_satoshi_obj`, on the text of the field.
  method GetSatoshis(numstr: string) returns (satoshis: U64)
    ensures satoshis == ReadSatoshis(numstr)
  {
    var n := |numstr|;
    var mult: U64 := 1;
    satoshis := 0;
    var i := n;
    assert numstr[n..] == "";
    while i > 0
      invariant 0 <= i <= n
      invariant satoshis == Value(numstr[i..]) % TWO_64 && mult == Ten(n - i) % TWO_64
    {
      i := i - 1;
      ValueFront(numstr[i..]);
      assert numstr[i..][1..] == numstr[i + 1..];
      var d := numstr[i] as int - '0' as int;
      ModStep(Value(numstr[i + 1..]), Ten(n - i - 1), d);
      satoshis := (satoshis + mult * d) % TWO_64;
      mult := mult * 10 % TWO_64;
    }
    assert numstr[0..] == numstr;
  }

  lemma ModStep(value: int, power: nat, d: int)
    ensures (value % TWO_64 + power % TWO_64 * d) % TWO_64 == (d * power + value) % TWO_64
    ensures power % TWO_64 * 10 % TWO_64 == 10 * power % TWO_64
  {
    var p, v, r := power / TWO_64, value / TWO_64, power % TWO_64;
    assert power == p * TWO_64 + r;
    Distribute(d, p, r, v, value % TWO_64);
    ModShift(d * p + v, value % TWO_64 + r * d);
    ModShift(10 * p, r * 10);
  }

  lemma Distribute(d: int, p: int, r: int, v: int, low: int)
    ensures d * (p * TWO_64 + r) + (v * TWO_64 + low) == (d * p + v) * TWO_64 + (low + r * d)
  {
    assert d * (p * TWO_64 + r) == d * p * TWO_64 + r * d;
  }
}
