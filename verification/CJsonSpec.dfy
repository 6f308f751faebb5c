// What utils/cJSON.c prints and parses, as functions on C strings. Numbers are exact.

module JsonSpec {
  import opened CStrings

  datatype Json =
    | Null
    | False
    | True
    | Number(value: real)
    | String(chars: string)
    | Array(items: seq<Json>)
    | Object(members: seq<Member>)

  datatype Member = Member(name: string, item: Json)

  // `skip`
  function Skip(s: string): (r: string)
    ensures |r| <= |s|
  {
    if s != "" && s[0] as int <= 32 then Skip(s[1..]) else s
  }

  // --------------------------------------------------------------------- strings

  function HexDigit(n: nat): char
    requires n < 16
  {
    "0123456789abcdef"[n]
  }

  // One digit of `parse_hex4`; -1 when it is none.
  function HexValue(c: char): (v: int)
    ensures -1 <= v < 16
  {
    if '0' <= c <= '9' then c as int - '0' as int
    else if 'A' <= c <= 'F' then 10 + c as int - 'A' as int
    else if 'a' <= c <= 'f' then 10 + c as int - 'a' as int
    else -1
  }

  // `parse_hex4`: 0 as soon as a character is not a digit.
  function Hex4(s: string): (h: nat)
    requires |s| >= 4
    ensures h < 0x1_0000
  {
    var a, b, c, d := HexValue(s[0]), HexValue(s[1]), HexValue(s[2]), HexValue(s[3]);
    if a < 0 || b < 0 || c < 0 || d < 0 then 0 else ((a * 16 + b) * 16 + c) * 16 + d
  }

  // The letter of a two-character escape, or 'u'.
  function EscapeLetter(c: char): char {
    if c == '\\' then '\\'
    else if c == '\"' then '\"'
    else if c == 8 as char then 'b'
    else if c == 12 as char then 'f'
    else if c == '\n' then 'n'
    else if c == '\r' then 'r'
    else if c == '\t' then 't'
    else 'u'
  }

  predicate Plain(c: char) {
    c as int > 31 && c != '\"' && c != '\\'
  }

  // What `print_string_ptr` writes for one character.
  function Escape(c: char): string {
    if Plain(c) then [c]
    else if EscapeLetter(c) != 'u' then ['\\', EscapeLetter(c)]
    else "\\u00" + [HexDigit(c as int / 16), HexDigit(c as int % 16)]
  }

  function EscapeAll(s: string): string {
    if s == "" then "" else Escape(s[0]) + EscapeAll(s[1..])
  }

  function StringText(s: string): string {
    "\"" + EscapeAll(s) + "\""
  }

  // The character that a two-character escape stands for.
  function Unletter(c: char): char {
    if c == 'b' then 8 as char
    else if c == 'f' then 12 as char
    else if c == 'n' then '\n'
    else if c == 'r' then '\r'
    else if c == 't' then '\t'
    else c
  }

  // Section 3 of RFC 3629. A byte is a character below 256.
  function Utf8(uc: nat): (s: string)
    requires uc < 0x11_0000
    ensures 1 <= |s| <= 4
  {
    if uc < 0x80 then [uc as char]
    else if uc < 0x800 then [(0xc0 + uc / 0x40) as char, (0x80 + uc % 0x40) as char]
    else if uc < 0x1_0000 then [(0xe0 + uc / 0x1000) as char, (0x80 + uc / 0x40 % 0x40) as char, (0x80 + uc % 0x40) as char]
    else [(0xf0 + uc / 0x4_0000) as char, (0x80 + uc / 0x1000 % 0x40) as char, (0x80 + uc / 0x40 % 0x40) as char,
          (0x80 + uc % 0x40) as char]
  }

  // Reading a character back by the bits of its first byte.
  function FromUtf8(s: string): nat
    requires s != "" && forall k :: 0 <= k < |s| ==> s[k] as int < 0x100
    requires |s| >= (if s[0] as int < 0x80 then 1 else if s[0] as int < 0xe0 then 2 else if s[0] as int < 0xf0 then 3 else 4)
  {
    var b := s[0] as int;
    if b < 0x80 then b
    else if b < 0xe0 then b % 0x20 * 0x40 + s[1] as int % 0x40
    else if b < 0xf0 then (b % 0x10 * 0x40 + s[1] as int % 0x40) * 0x40 + s[2] as int % 0x40
    else ((b % 8 * 0x40 + s[1] as int % 0x40) * 0x40 + s[2] as int % 0x40) * 0x40 + s[3] as int % 0x40
  }

  predicate HighSurrogate(uc: nat) {
    0xd800 <= uc <= 0xdbff
  }

  predicate LowSurrogate(uc: nat) {
    0xdc00 <= uc <= 0xdfff
  }

  // `parse_string` after the opening quote: the characters, and what follows the closing quote.
  // `Ill` when an escape runs past the terminator.
  datatype Unescaped = Chars(out: string, rest: string) | Ill

  function Before(s: string, u: Unescaped): (r: Unescaped)
    ensures r.Chars? <==> u.Chars?
    ensures r.Chars? ==> r.out == s + u.out && r.rest == u.rest
  {
    if u.Ill? then Ill else Chars(s + u.out, u.rest)
  }

  // One escape, from its backslash: what it stands for, and how long it is; 0 when it is ill.
  function EscapeValue(s: string): (r: (string, nat))
    requires s != "" && s[0] == '\\'
    ensures r.1 <= |s| && |r.0| <= 4
  {
    if |s| < 2 then ("", 0)
    else if s[1] != 'u' then ([Unletter(s[1])], 2)
    else if |s| < 6 then ("", 0)
    else
      var uc := Hex4(s[2..]);
      if LowSurrogate(uc) || uc == 0 then ("", 6)
      else if !HighSurrogate(uc) then (Utf8(uc), 6)
      else if |s| < 8 || s[6] != '\\' || s[7] != 'u' then ("", 6)
      else if |s| < 12 then ("", 0)
      else
        var uc2 := Hex4(s[8..]);
        if !LowSurrogate(uc2) then ("", 12)
        else (Utf8(0x1_0000 + uc % 0x400 * 0x400 + uc2 % 0x400), 12)
  }

  function Unescape(s: string): (u: Unescaped)
    ensures u.Chars? ==> |u.rest| <= |s|
    decreases |s|
  {
    if s == "" then Chars("", "")
    else if s[0] == '\"' then Chars("", s[1..])
    else if s[0] != '\\' then Before([s[0]], Unescape(s[1..]))
    else
      var (out, n) := EscapeValue(s);
      if n == 0 then Ill else Before(out, Unescape(s[n..]))
  }

  // What the first loop of `parse_string` counts, and whether it stops inside the text.
  function Length(s: string): nat {
    if s == "" || s[0] == '\"' then 0
    else if s[0] == '\\' then 1 + (if |s| < 2 then 0 else Length(s[2..]))
    else 1 + Length(s[1..])
  }

  predicate Scannable(s: string) {
    s == "" || s[0] == '\"' || (if s[0] == '\\' then |s| >= 2 && Scannable(s[2..]) else Scannable(s[1..]))
  }

  // Both loops stop inside the text, and what the second one writes fits the buffer that the
  // first one measured.
  predicate Fits(s: string) {
    Scannable(s) && Unescape(s).Chars? && |Unescape(s).out| <= Length(s)
  }

  // --------------------------------------------------------------------- numbers

  function Digits(n: nat): (s: string)
    ensures s != ""
  {
    if n < 10 then [HexDigit(n)] else Digits(n / 10) + [HexDigit(n % 10)]
  }

  // `%ld`
  function Decimal(n: int): string {
    if n < 0 then "-" + Digits(-n) else Digits(n)
  }

  // Digits as far as they go, after the number `n`.
  function ReadDigits(s: string, n: nat): (r: (nat, string))
    ensures |r.1| <= |s| && (s != "" && IsDigit(s[0]) ==> |r.1| < |s|)
  {
    if s == "" || !IsDigit(s[0]) then (n, s) else ReadDigits(s[1..], n * 10 + (s[0] as int - '0' as int))
  }

  function Pow10(e: int): real
    decreases if e < 0 then -e else e
  {
    if e == 0 then 1.0 else if e > 0 then 10.0 * Pow10(e - 1) else Pow10(e + 1) / 10.0
  }

  function Scaled(m: nat, e: int): real {
    m as real * Pow10(e)
  }

  // The digits before the point, which start with no more than one zero.
  function ReadWhole(s: string): (r: (nat, string))
    ensures |r.1| <= |s| && (IsDigit(At(s)) ==> |r.1| < |s|)
  {
    var t := if At(s) == '0' then s[1..] else s;
    if '1' <= At(t) <= '9' then ReadDigits(t, 0) else (0, t)
  }

  // A fraction after the number `n`: the number with its digits, how many there are, and what follows.
  function ReadFraction(s: string, n: nat): (r: (nat, nat, string))
    ensures |r.2| <= |s|
  {
    if At(s) == '.' && |s| > 1 && IsDigit(s[1]) then
      var (m, t) := ReadDigits(s[1..], n);
      (m, |s| - 1 - |t|, t)
    else (n, 0, s)
  }

  // The exponent, if there is one, and what follows.
  function ReadPower(s: string): (r: (int, string))
    ensures |r.1| <= |s|
  {
    if At(s) != 'e' && At(s) != 'E' then (0, s)
    else if At(s[1..]) == '-' then var (k, t) := ReadDigits(s[2..], 0); (-(k as int), t)
    else ReadDigits(if At(s[1..]) == '+' then s[2..] else s[1..], 0)
  }

  // `parse_number` after the sign.
  function ReadUnsigned(s: string): (r: (real, string))
    ensures |r.1| <= |s| && (IsDigit(At(s)) ==> |r.1| < |s|)
  {
    var (n, t) := ReadWhole(s);
    var (m, decimals, u) := ReadFraction(t, n);
    var (exponent, rest) := ReadPower(u);
    (Scaled(m, exponent - decimals), rest)
  }

  // `parse_number`
  function ReadNumber(s: string): (r: (real, string))
    ensures |r.1| <= |s| && (At(s) == '-' || IsDigit(At(s)) ==> |r.1| < |s|)
  {
    if At(s) == '-' then var (x, rest) := ReadUnsigned(s[1..]); (-x, rest) else ReadUnsigned(s)
  }

  // ---------------------------------------------------------------------- printing

  function Tabs(n: int): (s: string)
    ensures |s| == if n < 0 then 0 else n
  {
    if n <= 0 then "" else Tabs(n - 1) + "\t"
  }

  // The entries of an array from entry `i` on, and the closing bracket.
  function ArrayRest(entries: seq<string>, i: nat, fmt: bool): string
    requires i < |entries|
    decreases |entries| - i
  {
    entries[i] + if i == |entries| - 1 then "]" else "," + (if fmt then " " else "") + ArrayRest(entries, i + 1, fmt)
  }

  function ArrayText(entries: seq<string>, fmt: bool): string {
    if entries == [] then "[]" else "[" + ArrayRest(entries, 0, fmt)
  }

  // The same of an object that stands at `depth`.
  function ObjectRest(names: seq<string>, entries: seq<string>, i: nat, depth: nat, fmt: bool): string
    requires |names| == |entries| && i < |entries|
    decreases |entries| - i
  {
    (if fmt then Tabs(depth + 1) else "") + names[i] + ":" + (if fmt then "\t" else "") + entries[i]
    + (if i == |entries| - 1 then "" else ",") + (if fmt then "\n" else "")
    + (if i == |entries| - 1 then (if fmt then Tabs(depth) else "") + "}" else ObjectRest(names, entries, i + 1, depth, fmt))
  }

  function ObjectText(names: seq<string>, entries: seq<string>, depth: nat, fmt: bool): string
    requires |names| == |entries|
  {
    if entries == [] then "{" + (if fmt then "\n" + Tabs(depth - 1) else "") + "}"
    else "{" + (if fmt then "\n" else "") + ObjectRest(names, entries, 0, depth, fmt)
  }

  const INT_MAX := 0x7fff_ffff
  const INT_MIN := -0x8000_0000

  predicate IsCString(s: string) {
    '\0' !in s
  }

  // A tree whose numbers are 32-bit integers.
  predicate Printable(t: Json) {
    match t
    case Number(x) => x == x.Floor as real && INT_MIN <= x.Floor <= INT_MAX
    case String(chars) => IsCString(chars)
    case Array(items) => forall k :: 0 <= k < |items| ==> Printable(items[k])
    case Object(members) => forall k :: 0 <= k < |members| ==> IsCString(members[k].name) && Printable(members[k].item)
    case _ => true
  }

  // `print_value`
  function Print(t: Json, depth: nat, fmt: bool): string
    requires Printable(t)
  {
    match t
    case Null => "null"
    case False => "false"
    case True => "true"
    case Number(x) => Decimal(x.Floor)
    case String(chars) => StringText(chars)
    case Array(items) =>
      ArrayText(seq(|items|, (k: nat) requires k < |items| => Print(items[k], depth + 1, fmt)), fmt)
    case Object(members) =>
      ObjectText(seq(|members|, (k: nat) requires k < |members| => StringText(members[k].name)),
                 seq(|members|, (k: nat) requires k < |members| => Print(members[k].item, depth + 1, fmt)), depth, fmt)
  }

  // ----------------------------------------------------------------------- parsing

  // `Bad` carries the error pointer; `Undefined` says that the program leaves its text or a buffer.
  datatype Parsed<T> = Got(value: T, rest: string) | Bad(ep: string) | Undefined

  predicate StartsWith(s: string, word: string) {
    |word| <= |s| && s[..|word|] == word
  }

  function ParseString(s: string): (r: Parsed<string>)
    ensures r.Got? ==> |r.rest| < |s|
  {
    if At(s) != '\"' then Bad(s)
    else if Fits(s[1..]) then Got(Unescape(s[1..]).out, Unescape(s[1..]).rest)
    else Undefined
  }

  function Parse(s: string): (r: Parsed<Json>)
    ensures r.Got? ==> |r.rest| < |s|
    decreases |s|, 1
  {
    if StartsWith(s, "null") then Got(Null, s[4..])
    else if StartsWith(s, "false") then Got(False, s[5..])
    else if StartsWith(s, "true") then Got(True, s[4..])
    else if At(s) == '\"' then
      match ParseString(s)
      case Got(chars, rest) => Got(String(chars), rest)
      case Bad(ep) => Bad(ep)
      case Undefined => Undefined
    else if At(s) == '-' || IsDigit(At(s)) then var (x, rest) := ReadNumber(s); Got(Number(x), rest)
    else if At(s) == '[' then
      if At(Skip(s[1..])) == ']' then Got(Array([]), Skip(s[1..])[1..])
      else
        match ParseItems(s[1..])
        case Got(items, rest) => Got(Array(items), rest)
        case Bad(ep) => Bad(ep)
        case Undefined => Undefined
    else if At(s) == '{' then
      if At(Skip(s[1..])) == '}' then Got(Object([]), Skip(s[1..])[1..])
      else
        match ParseMembers(s[1..])
        case Got(members, rest) => Got(Object(members), rest)
        case Bad(ep) => Bad(ep)
        case Undefined => Undefined
    else Bad(s)
  }

  // The items of an array, after its bracket or a comma.
  function ParseItems(s: string): (r: Parsed<seq<Json>>)
    ensures r.Got? ==> |r.rest| < |s|
    decreases |s|, 2
  {
    match Parse(Skip(s))
    case Bad(ep) => Bad(ep)
    case Undefined => Undefined
    case Got(item, rest) =>
      var after := Skip(rest);
      if At(after) == ',' then
        match ParseItems(after[1..])
        case Got(items, end) => Got([item] + items, end)
        case Bad(ep) => Bad(ep)
        case Undefined => Undefined
      else if At(after) == ']' then Got([item], after[1..])
      else Bad(after)
  }

  function ParseMember(s: string): (r: Parsed<Member>)
    ensures r.Got? ==> |r.rest| < |s|
    decreases |s|, 2
  {
    match ParseString(Skip(s))
    case Bad(ep) => Bad(ep)
    case Undefined => Undefined
    case Got(name, rest) =>
      var after := Skip(rest);
      if At(after) != ':' then Bad(after)
      else
        match Parse(Skip(after[1..]))
        case Bad(ep) => Bad(ep)
        case Undefined => Undefined
        case Got(item, end) => Got(Member(name, item), end)
  }

  function ParseMembers(s: string): (r: Parsed<seq<Member>>)
    ensures r.Got? ==> |r.rest| < |s|
    decreases |s|, 3
  {
    match ParseMember(s)
    case Bad(ep) => Bad(ep)
    case Undefined => Undefined
    case Got(member, rest) =>
      var after := Skip(rest);
      if At(after) == ',' then
        match ParseMembers(after[1..])
        case Got(members, end) => Got([member] + members, end)
        case Bad(ep) => Bad(ep)
        case Undefined => Undefined
      else if At(after) == '}' then Got([member], after[1..])
      else Bad(after)
  }

  // `cJSON_ParseWithOpts`
  function ParseText(s: string, wholeText: bool): Parsed<Json> {
    match Parse(Skip(s))
    case Got(item, rest) => if wholeText && Skip(rest) != "" then Bad(Skip(rest)) else Got(item, if wholeText then Skip(rest) else rest)
    case Bad(ep) => Bad(ep)
    case Undefined => Undefined
  }
}

// When `parse_string` stays inside its text and its buffer.
module JsonEscapes {
  import opened JsonSpec

  // Four characters that `\u` may skip without leaving the string.
  predicate Skippable(s: string) {
    |s| >= 4 && forall k :: 0 <= k < 4 ==> s[k] != '\"' && s[k] != '\\'
  }

  // Every backslash has a character after it, and every `\u` four that stay in the string.
  predicate WellEscaped(s: string) {
    s == "" || s[0] == '\"' ||
    if s[0] == '\\' then |s| >= 2 && (s[1] == 'u' ==> Skippable(s[2..])) && WellEscaped(s[2..])
    else WellEscaped(s[1..])
  }

  // What `n` skippable characters add.
  lemma {:induction false} LengthSkips(s: string, n: nat)
    requires n <= |s| && forall k :: 0 <= k < n ==> s[k] != '\"' && s[k] != '\\'
    ensures Length(s) == n + Length(s[n..])
    ensures WellEscaped(s) ==> WellEscaped(s[n..])
  {
    if n == 0 {
      assert s[0..] == s;
    } else {
      LengthSkips(s[1..], n - 1);
      assert s[1..][n - 1..] == s[n..];
    }
  }

  // The characters that an escape gives are no more than it is counted for.
  lemma EscapeFits(s: string)
    requires s != "" && s[0] == '\\' && WellEscaped(s)
    ensures var e := EscapeValue(s);
            e.1 > 0 && WellEscaped(s[e.1..]) && |e.0| + Length(s[e.1..]) <= Length(s)
  {
    hide Hex4, Utf8;
    if s[1] == 'u' {
      LengthSkips(s[2..], 4);
      assert s[2..][4..] == s[6..];
      if EscapeValue(s).1 > 6 {
        LengthSkips(s[8..], 4);
        assert s[8..][4..] == s[12..] && s[6..][2..] == s[8..] && s[6..][0] == '\\';
      } else {
        ShortUtf8(s);
      }
    }
  }

  lemma ShortUtf8(s: string)
    requires s != "" && s[0] == '\\' && EscapeValue(s).1 == 6
    ensures |EscapeValue(s).0| <= 3
  {
    hide Hex4;
  }

  // Such text stays inside itself and its buffer.
  lemma {:induction false} WellEscapedFits(s: string)
    requires WellEscaped(s)
    ensures Fits(s)
    decreases |s|
  {
    hide EscapeValue;
    if s != "" && s[0] == '\\' {
      EscapeFits(s);
      WellEscapedFits(s[EscapeValue(s).1..]);
      WellEscapedScans(s);
    } else if s != "" && s[0] != '\"' {
      WellEscapedFits(s[1..]);
    }
  }

  lemma {:induction false} WellEscapedScans(s: string)
    requires WellEscaped(s)
    ensures Scannable(s)
    decreases |s|
  {
    if s != "" && s[0] == '\\' {
      WellEscapedScans(s[2..]);
    } else if s != "" && s[0] != '\"' {
      WellEscapedScans(s[1..]);
    }
  }

  // A `\u` before the closing quote: the first loop stops at that quote, the second one skips it.
  lemma OverrunExists()
    ensures var s := "\\u\"abcde"; Scannable(s) && Unescape(s) == Chars("de", "") && Length(s) == 1
    ensures ParseString("\"\\u\"abcde") == Undefined
  {
    var s := "\\u\"abcde";
    assert s[2..] == "\"abcde" && HexValue(s[2..][0]) == -1;
    assert s[6..] == "de" && "de"[1..] == "e" && "e"[1..] == "";
    assert Unescape("e") == Chars("e", "");
    assert Unescape("de") == Chars("de", "");
    assert ("\"\\u\"abcde")[1..] == s;
  }
}
