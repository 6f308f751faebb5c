// What `parse_number` (utils/cJSON.c:101-118) reads: decimal fractions and powers of ten, exactly.

module JsonNumbers {
  import opened CStrings
  import opened JsonSpec
  import opened JsonRoundTrip
  import opened Wrappers

  // An exponent: its letter, its sign if it has one, and its digits.
  datatype Power = Power(letter: char, sign: string, digits: string)

  predicate WellFormed(p: Power) {
    p.letter in "eE" && p.sign in {"", "+", "-"} && p.digits != "" && AllDigits(p.digits)
  }

  function PowerText(p: Option<Power>): string {
    match p case None => "" case Some(q) => [q.letter] + q.sign + q.digits
  }

  function FractionText(fraction: string): string {
    if fraction == "" then "" else "." + fraction
  }

  function NumberText(negative: bool, whole: nat, fraction: string, p: Option<Power>): string {
    (if negative then "-" else "") + Digits(whole) + FractionText(fraction) + PowerText(p)
  }

  // How many tens the number is multiplied by, and divided by.
  function Up(p: Option<Power>): nat
    requires p.Some? ==> WellFormed(p.value)
  {
    if p.Some? && p.value.sign != "-" then Magnitude(p.value.digits) else 0
  }

  function Down(p: Option<Power>): nat
    requires p.Some? ==> WellFormed(p.value)
  {
    if p.Some? && p.value.sign == "-" then Magnitude(p.value.digits) else 0
  }

  function Magnitude(digits: string): (n: nat)
    requires AllDigits(digits)
    ensures n == Value(digits)
  {
    ValueIsNatural(digits);
    Value(digits)
  }

  lemma {:induction false} ValueIsNatural(digits: string)
    requires AllDigits(digits)
    ensures Value(digits) >= 0
  {
    if digits != "" { ValueIsNatural(digits[..|digits| - 1]); }
  }

  // ------------------------------------------------------------------------ digits

  lemma {:induction false} ReadDigitsIs(digits: string, tail: string, n: nat)
    requires AllDigits(digits) && !IsDigit(At(tail))
    ensures Value(digits) >= 0
    ensures ReadDigits(digits + tail, n) == (n * Ten(|digits|) + Value(digits), tail)
  {
    ValueIsNatural(digits);
    if digits == "" {
      assert digits + tail == tail;
    } else {
      var d := digits[0] as int - '0' as int;
      assert (digits + tail)[1..] == digits[1..] + tail;
      ReadDigitsIs(digits[1..], tail, n * 10 + d);
      ValueFront(digits);
      Shifted(n, d, Ten(|digits| - 1));
    }
  }

  lemma Shifted(n: int, d: int, p: int)
    ensures (n * 10 + d) * p == n * (10 * p) + d * p
  {
  }

  // Without and with a leading zero.
  lemma WholePart(whole: nat, rest: string)
    requires !IsDigit(At(rest))
    ensures ReadWhole(Digits(whole) + rest) == (whole, rest)
  {
    DigitsThen(whole, rest);
    var s := Digits(whole) + rest;
    if whole == 0 {
      assert s[1..] == rest;
    }
  }

  lemma FractionPart(fraction: string, rest: string, n: nat)
    requires AllDigits(fraction) && !IsDigit(At(rest)) && At(rest) != '.'
    ensures ReadFraction(FractionText(fraction) + rest, n) == (Significand(n, fraction), |fraction|, rest)
  {
    ReadDigitsIs(fraction, rest, n);
    if fraction == "" {
      NoFraction(rest, n);
    } else {
      hide ReadDigits, Ten, Value;
      Dotted(fraction, rest);
    }
  }

  lemma Dotted(fraction: string, rest: string)
    requires fraction != ""
    ensures var s := FractionText(fraction) + rest;
            s[0] == '.' && |s| == 1 + |fraction| + |rest| && s[1] == fraction[0] && s[1..] == fraction + rest
  {
  }

  lemma NoFraction(rest: string, n: nat)
    ensures FractionText("") + rest == rest && n * Ten(0) + Value("") == n
  {
  }

  lemma FirstOfFraction(fraction: string, rest: string)
    requires !IsDigit(At(rest))
    ensures !IsDigit(At(FractionText(fraction) + rest))
  {
    if fraction == "" { assert FractionText(fraction) + rest == rest; }
  }

  lemma InParts(a: string, b: string, c: string, d: string)
    ensures a + b + c + d == a + (b + (c + d))
  {
  }

  lemma PowerPart(p: Option<Power>, tail: string)
    requires (p.Some? ==> WellFormed(p.value)) && Delimits(tail)
    ensures ReadPower(PowerText(p) + tail) == (Up(p) - Down(p), tail)
    ensures var s := PowerText(p) + tail; !IsDigit(At(s)) && At(s) != '.'
  {
    if p.None? {
      assert "" + tail == tail;
    } else {
      var q := p.value;
      ReadDigitsIs(q.digits, tail, 0);
      hide ReadDigits, Ten, Value;
      PowerStarts(q, tail);
    }
  }

  // The text of an exponent, character by character.
  lemma PowerStarts(q: Power, tail: string)
    requires WellFormed(q)
    ensures var s, t := PowerText(Some(q)) + tail, q.digits + tail;
            && At(s) == q.letter
            && (q.sign == "" ==> s[1..] == t && IsDigit(At(t)))
            && (q.sign != "" ==> |s| >= 2 && At(s[1..]) == q.sign[0] && s[2..] == t)
  {
    var s, t := PowerText(Some(q)) + tail, q.digits + tail;
    assert t[0] == q.digits[0];
    if q.sign == "" {
      assert s[1..] == t;
    } else {
      assert s[1..][0] == q.sign[0] && s[2..] == t;
    }
  }

  // ----------------------------------------------------------------------- powers

  lemma PowerOfNext(e: int)
    ensures Pow10(e + 1) == 10.0 * Pow10(e)
  {
  }

  lemma {:induction false} PowersCancel(up: nat, down: nat)
    ensures Pow10(up - down) * (Ten(down) as real) == Ten(up) as real
  {
    if down > 0 {
      PowersCancel(up, down - 1);
      PowerOfNext(up - down);
      TenReal(down);
      Regrouped(Pow10(up - down), Ten(down - 1) as real);
    } else if up > 0 {
      PowersCancel(up - 1, 0);
      PowerOfNext(up - 1);
      TenReal(up);
    }
  }

  lemma TenReal(k: nat)
    requires k > 0
    ensures Ten(k) as real == 10.0 * (Ten(k - 1) as real)
  {
  }

  lemma Regrouped(x: real, t: real)
    ensures x * (10.0 * t) == (10.0 * x) * t
  {
  }

  lemma {:induction false} TensAdd(a: nat, b: nat)
    ensures Ten(a + b) == Ten(a) * Ten(b)
  {
    if b > 0 {
      TensAdd(a, b - 1);
      assert Ten(a) * (10 * Ten(b - 1)) == 10 * (Ten(a) * Ten(b - 1));
    }
  }

  // ------------------------------------------------------------------- the number

  // The number of all the digits.
  function Significand(whole: nat, fraction: string): nat
    requires AllDigits(fraction)
  {
    ValueIsNatural(fraction);
    whole * Ten(|fraction|) + Value(fraction)
  }

  lemma UnsignedIs(whole: nat, fraction: string, p: Option<Power>, tail: string)
    requires AllDigits(fraction) && (p.Some? ==> WellFormed(p.value)) && Delimits(tail)
    ensures ReadUnsigned(Digits(whole) + FractionText(fraction) + PowerText(p) + tail)
         == (Scaled(Significand(whole, fraction), Up(p) - Down(p) - |fraction|), tail)
  {
    hide *;
    var r2 := PowerText(p) + tail;
    var r1 := FractionText(fraction) + r2;
    PowerPart(p, tail);
    FractionPart(fraction, r2, whole);
    FirstOfFraction(fraction, r2);
    WholePart(whole, r1);
    InParts(Digits(whole), FractionText(fraction), PowerText(p), tail);
    assert Digits(whole) + FractionText(fraction) + PowerText(p) + tail == Digits(whole) + r1;
    Composed(Digits(whole) + r1, whole, r1, Significand(whole, fraction), |fraction|, r2, Up(p) - Down(p), tail);
  }

  lemma Composed(s: string, n: nat, t: string, m: nat, decimals: nat, u: string, exponent: int, rest: string)
    requires ReadWhole(s) == (n, t) && ReadFraction(t, n) == (m, decimals, u) && ReadPower(u) == (exponent, rest)
    ensures ReadUnsigned(s) == (Scaled(m, exponent - decimals), rest)
  {
    hide ReadWhole, ReadFraction, ReadPower, Scaled;
  }

  // `x` is the integer `m`, times `up`, divided by `decimals` and by `down`.
  predicate Means(x: real, m: int, up: nat, decimals: nat, down: nat) {
    (x * (decimals as real)) * (down as real) == (m * up) as real
  }

  lemma ScaledMeans(m: nat, up: nat, down: nat, f: nat)
    ensures Means(Scaled(m, up - down - f), m, Ten(up), Ten(f), Ten(down))
  {
    hide Pow10, Ten;
    PowersCancel(up, f + down);
    TensAdd(f, down);
    var p, a, b := Pow10(up - down - f), Ten(f) as real, Ten(down) as real;
    assert Ten(f + down) as real == a * b;
    Associate(m as real, p, a, b);
  }

  lemma Associate(m: real, p: real, a: real, b: real)
    ensures ((m * p) * a) * b == m * (p * (a * b))
  {
  }

  lemma NegatedMeans(x: real, m: int, up: nat, decimals: nat, down: nat)
    requires Means(x, m, up, decimals, down)
    ensures Means(-x, -m, up, decimals, down)
  {
    Negated(x, decimals as real, down as real);
    assert -m * up == -(m * up);
  }

  lemma Negated(x: real, a: real, b: real)
    ensures ((-x) * a) * b == -((x * a) * b)
  {
  }

  // A number in any of JSON's forms is the number of all its digits, divided by as many tens as its
  // fraction has digits, and multiplied or divided by the tens that its exponent says.
  lemma NumberMeans(negative: bool, whole: nat, fraction: string, p: Option<Power>, tail: string)
    requires AllDigits(fraction) && (p.Some? ==> WellFormed(p.value)) && Delimits(tail)
    ensures var r := Parse(NumberText(negative, whole, fraction, p) + tail);
            var n := whole * Ten(|fraction|) + Value(fraction);
            && r.Got? && r.value.Number? && r.rest == tail
            && Means(r.value.value, if negative then -n else n, Ten(Up(p)), Ten(|fraction|), Ten(Down(p)))
  {
    hide *;
    var n, u := Significand(whole, fraction), Digits(whole) + FractionText(fraction) + PowerText(p) + tail;
    UnsignedIs(whole, fraction, p, tail);
    ScaledMeans(n, Up(p), Down(p), |fraction|);
    ParseIs(negative, whole, fraction, p, tail, u);
    SignificandIs(whole, fraction);
    if negative { NegatedMeans(ReadUnsigned(u).0, n, Ten(Up(p)), Ten(|fraction|), Ten(Down(p))); }
  }

  // Whatever follows it, such a text is read as the same number.
  lemma NumeralReads(negative: bool, whole: nat, fraction: string, p: Option<Power>) returns (x: real)
    requires AllDigits(fraction) && (p.Some? ==> WellFormed(p.value))
    ensures forall tail :: Delimits(tail) ==> Parse(NumberText(negative, whole, fraction, p) + tail) == Got(Number(x), tail)
  {
    hide *;
    var y := Scaled(Significand(whole, fraction), Up(p) - Down(p) - |fraction|);
    x := if negative then -y else y;
    forall tail | Delimits(tail) ensures Parse(NumberText(negative, whole, fraction, p) + tail) == Got(Number(x), tail) {
      UnsignedIs(whole, fraction, p, tail);
      ParseIs(negative, whole, fraction, p, tail, Digits(whole) + FractionText(fraction) + PowerText(p) + tail);
    }
  }

  lemma SignificandIs(whole: nat, fraction: string)
    requires AllDigits(fraction)
    ensures Significand(whole, fraction) == whole * Ten(|fraction|) + Value(fraction)
  {
  }

  lemma ParseIs(negative: bool, whole: nat, fraction: string, p: Option<Power>, tail: string, u: string)
    requires u == Digits(whole) + FractionText(fraction) + PowerText(p) + tail
    ensures var (x, rest) := ReadUnsigned(u);
            Parse(NumberText(negative, whole, fraction, p) + tail) == Got(Number(if negative then -x else x), rest)
  {
    hide ReadUnsigned, StartsWith, ParseString, ParseItems, ParseMembers, Digits, FractionText, PowerText;
    var s := NumberText(negative, whole, fraction, p) + tail;
    DigitsThen(whole, "");
    assert u[0] == Digits(whole)[0];
    if negative {
      assert s == "-" + u;
      assert s[1..] == u;
    } else {
      assert s == u;
    }
    NoKeyword(s);
    assert ReadNumber(s) == (if negative then -ReadUnsigned(u).0 else ReadUnsigned(u).0, ReadUnsigned(u).1);
  }

  // ---------------------------------------------------------------------- amounts

  // A number with at least `k` digits.
  function Padded(n: nat, k: nat): (s: string)
    requires n < Ten(k)
    ensures |s| == k && AllDigits(s)
    decreases k
  {
    if k == 0 then "" else Padded(n / 10, k - 1) + [HexDigit(n % 10)]
  }

  lemma {:induction false} PaddedValue(n: nat, k: nat)
    requires n < Ten(k)
    ensures Value(Padded(n, k)) == n
    decreases k
  {
    if k > 0 {
      PaddedValue(n / 10, k - 1);
      PaddedNext(n, k);
      DigitOf(n % 10);
      ValueNext(Padded(n / 10, k - 1), HexDigit(n % 10));
      hide *;
    }
  }

  lemma PaddedNext(n: nat, k: nat)
    requires k > 0 && n < Ten(k)
    ensures n / 10 < Ten(k - 1) && Padded(n, k) == Padded(n / 10, k - 1) + [HexDigit(n % 10)]
  {
    hide HexDigit;
  }

  lemma ValueNext(s: string, c: char)
    ensures Value(s + [c]) == 10 * Value(s) + (c as int - '0' as int)
  {
    assert (s + [c])[..|s|] == s;
  }

  lemma DigitOf(d: nat)
    requires d < 10
    ensures HexDigit(d) as int - '0' as int == d
  {
  }

  // The amount of an output: satoshis written as coins with eight decimals are read back exactly
  // (multigateway/bitcoin.h:207 multiplies by 10^8).
  lemma AmountsAreExact(satoshis: nat, tail: string)
    requires Delimits(tail)
    ensures 100_000_000 == Ten(8)
    ensures var r := Parse(Digits(satoshis / 100_000_000) + "." + Padded(satoshis % 100_000_000, 8) + tail);
            r.Got? && r.value.Number? && r.rest == tail && r.value.value * 100_000_000.0 == satoshis as real
  {
    EightTens();
    hide *;
    var whole, part := satoshis / 100_000_000, satoshis % 100_000_000;
    var fraction := Padded(part, 8);
    PaddedValue(part, 8);
    NumberMeans(false, whole, fraction, None, tail);
    SameText(whole, fraction, tail);
    assert whole * 100_000_000 + part == satoshis;
    MeansAmount(Parse(Digits(whole) + "." + fraction + tail).value.value, satoshis);
  }

  lemma MeansAmount(x: real, m: int)
    requires Means(x, m, 1, 100_000_000, 1)
    ensures x * 100_000_000.0 == m as real
  {
  }

  lemma SameText(whole: nat, fraction: string, tail: string)
    requires fraction != ""
    ensures NumberText(false, whole, fraction, None) + tail == Digits(whole) + "." + fraction + tail
    ensures Down(None) == Up(None) == 0 && Ten(0) == 1
  {
    hide Digits;
  }

  lemma EightTens()
    ensures Ten(8) == 100_000_000
  {
    assert Ten(4) == 10_000;
  }
}
