// Parsing undoes printing, and an escape stands for the UTF-8 of its character.

module JsonRoundTrip {
  import opened CStrings
  import opened JsonSpec
  import opened JsonEscapes

  // ---------------------------------------------------------------------- strings

  lemma HexBack(n: nat)
    requires n < 16
    ensures HexValue(HexDigit(n)) == n && HexDigit(n) != '\"' && HexDigit(n) != '\\'
  {
  }

  lemma LetterBack(c: char)
    requires c != '\0' && !Plain(c)
    ensures EscapeLetter(c) != 'u' ==> Unletter(EscapeLetter(c)) == c
    ensures EscapeLetter(c) == 'u' ==> 0 < c as int < 32
  {
  }

  lemma EscapeBack(c: char, tail: string)
    requires c != '\0' && !Plain(c)
    ensures |Escape(c)| > 0 && Escape(c)[0] == '\\' && EscapeValue(Escape(c) + tail) == ([c], |Escape(c)|)
  {
    hide HexValue, HexDigit, EscapeLetter, Unletter;
    LetterBack(c);
    if EscapeLetter(c) == 'u' {
      ZeroDigits();
      HexBack(c as int / 16);
      HexBack(c as int % 16);
      var s := Escape(c) + tail;
      assert s[2..][0] == '0' && s[2..][1] == '0';
    }
  }

  lemma ZeroDigits()
    ensures HexValue('0') == 0
  {
  }

  lemma UnescapeOne(c: char, tail: string)
    requires c != '\0'
    ensures Unescape(Escape(c) + tail) == Before([c], Unescape(tail))
  {
    hide EscapeValue, Unescape;
    var s := Escape(c) + tail;
    UnescapeStep(s);
    if Plain(c) {
      assert s[1..] == tail;
    } else {
      hide Escape;
      EscapeBack(c, tail);
      assert s[|Escape(c)|..] == tail;
    }
  }

  lemma UnescapeStep(s: string)
    requires s != ""
    ensures Unescape(s) ==
            if s[0] == '\"' then Chars("", s[1..])
            else if s[0] != '\\' then Before([s[0]], Unescape(s[1..]))
            else if EscapeValue(s).1 == 0 then Ill else Before(EscapeValue(s).0, Unescape(s[EscapeValue(s).1..]))
  {
    hide EscapeValue;
  }

  // Control characters, quotes and backslashes come back.
  lemma {:induction false} UnescapeBack(s: string, rest: string)
    requires IsCString(s)
    ensures Unescape(EscapeAll(s) + "\"" + rest) == Chars(s, rest)
  {
    hide Unescape, Escape;
    if s == "" {
      UnescapeStep("\"" + rest);
      assert EscapeAll(s) + "\"" + rest == "\"" + rest;
    } else {
      var tail := EscapeAll(s[1..]) + "\"" + rest;
      UnescapeBack(s[1..], rest);
      UnescapeOne(s[0], tail);
      assert EscapeAll(s) + "\"" + rest == Escape(s[0]) + tail;
    }
  }

  // What is printed is scanned as it was printed.
  lemma {:induction false} PrintedIsWellEscaped(s: string, rest: string)
    requires IsCString(s)
    ensures WellEscaped(EscapeAll(s) + "\"" + rest)
  {
    hide Escape, WellEscaped;
    if s == "" {
      assert EscapeAll(s) + "\"" + rest == "\"" + rest;
      ClosedIsWellEscaped(rest);
    } else {
      var tail := EscapeAll(s[1..]) + "\"" + rest;
      PrintedIsWellEscaped(s[1..], rest);
      EscapeIsWellEscaped(s[0], tail);
      assert EscapeAll(s) + "\"" + rest == Escape(s[0]) + tail;
    }
  }

  lemma ClosedIsWellEscaped(rest: string)
    ensures WellEscaped("\"" + rest)
  {
  }

  lemma EscapeIsWellEscaped(c: char, tail: string)
    requires c != '\0' && WellEscaped(tail)
    ensures WellEscaped(Escape(c) + tail)
  {
    hide HexValue, HexDigit, EscapeLetter, Skippable;
    var s := Escape(c) + tail;
    if Plain(c) {
      assert s[1..] == tail;
    } else if EscapeLetter(c) != 'u' {
      assert s[2..] == tail;
    } else {
      LetterBack(c);
      var d, e := HexDigit(c as int / 16), HexDigit(c as int % 16);
      HexBack(c as int / 16);
      HexBack(c as int % 16);
      FourPlain('0', '0', d, e, tail);
      assert s == ['\\', 'u'] + (['0', '0', d, e] + tail);
      EscapedFour(['0', '0', d, e] + tail);
    }
  }

  lemma EscapedFour(tail: string)
    requires WellEscaped(tail) && Skippable(tail)
    ensures WellEscaped(['\\', 'u'] + tail)
  {
    assert (['\\', 'u'] + tail)[2..] == tail;
  }

  lemma OnePlain(a: char, tail: string)
    requires WellEscaped(tail) && a != '\"' && a != '\\'
    ensures WellEscaped([a] + tail)
  {
    assert ([a] + tail)[1..] == tail;
  }

  lemma FourPlain(a: char, b: char, c: char, d: char, tail: string)
    requires WellEscaped(tail)
    requires forall k :: 0 <= k < 4 ==> [a, b, c, d][k] != '\"' && [a, b, c, d][k] != '\\'
    ensures WellEscaped([a, b, c, d] + tail) && Skippable([a, b, c, d] + tail)
  {
    hide WellEscaped;
    var s := [a, b, c, d];
    assert s[0] == a && s[1] == b && s[2] == c && s[3] == d;
    OnePlain(d, tail);
    OnePlain(c, [d] + tail);
    OnePlain(b, [c] + ([d] + tail));
    OnePlain(a, [b] + ([c] + ([d] + tail)));
    assert s + tail == [a] + ([b] + ([c] + ([d] + tail)));
  }

  lemma PrintedFits(s: string, rest: string)
    requires IsCString(s)
    ensures Fits(EscapeAll(s) + "\"" + rest)
  {
    PrintedIsWellEscaped(s, rest);
    WellEscapedFits(EscapeAll(s) + "\"" + rest);
  }

  // ------------------------------------------------------------------------ UTF-8

  // A Unicode scalar value, which is a code point that is no surrogate.
  predicate Scalar(uc: nat) {
    uc < 0x11_0000 && !(0xd800 <= uc <= 0xdfff)
  }

  // A hexadecimal digit of either case.
  predicate IsHex(c: char, v: nat) {
    v < 16 && (c == HexDigit(v) || c == "0123456789ABCDEF"[v])
  }

  // Exactly the hexadecimal digits are read, and as what they are.
  lemma HexIsRead(c: char, v: nat)
    ensures HexValue(c) == v <==> IsHex(c, v)
  {
    if '0' <= c <= '9' {
      assert HexDigit(c as int - '0' as int) == c;
    } else if 'A' <= c <= 'F' {
      assert "0123456789ABCDEF"[10 + c as int - 'A' as int] == c;
    } else if 'a' <= c <= 'f' {
      assert HexDigit(10 + c as int - 'a' as int) == c;
    }
  }

  // Four hexadecimal digits, of either case, whose number is `h`.
  ghost predicate Spells(s: string, h: nat) {
    && |s| == 4
    && exists a: nat, b: nat, c: nat, d: nat ::
         && IsHex(s[0], a) && IsHex(s[1], b) && IsHex(s[2], c) && IsHex(s[3], d)
         && h == ((a * 16 + b) * 16 + c) * 16 + d
  }

  // How JSON writes a scalar value: one `\u` escape, or the two of a surrogate pair.
  ghost predicate IsEscapeOf(s: string, uc: nat)
    requires Scalar(uc)
  {
    if uc < 0x1_0000 then |s| == 6 && s[..2] == "\\u" && Spells(s[2..], uc)
    else
      && |s| == 12 && s[..2] == "\\u" && s[6..8] == "\\u"
      && Spells(s[2..6], 0xd800 + (uc - 0x1_0000) / 0x400) && Spells(s[8..], 0xdc00 + uc % 0x400)
  }

  lemma Hex4Back(s: string, h: nat, tail: string)
    requires Spells(s, h)
    ensures Hex4(s + tail) == h
  {
    hide HexValue, IsHex;
    var a: nat, b: nat, c: nat, d: nat :|
      && IsHex(s[0], a) && IsHex(s[1], b) && IsHex(s[2], c) && IsHex(s[3], d)
      && h == ((a * 16 + b) * 16 + c) * 16 + d;
    HexIsRead(s[0], a);
    HexIsRead(s[1], b);
    HexIsRead(s[2], c);
    HexIsRead(s[3], d);
    assert (s + tail)[..4] == s;
  }

  lemma OneEscape(uc: nat, digits: string, tail: string)
    requires Scalar(uc) && 0 < uc < 0x1_0000 && Spells(digits, uc)
    ensures EscapeValue("\\u" + digits + tail) == (Utf8(uc), 6)
  {
    hide Hex4, Utf8;
    var s := "\\u" + digits + tail;
    Hex4Back(digits, uc, tail);
    assert s[2..] == digits + tail;
  }

  lemma TwoEscapes(uc: nat, high: nat, low: nat, first: string, second: string, tail: string)
    requires 0x1_0000 <= uc < 0x11_0000 && HighSurrogate(high) && LowSurrogate(low)
    requires 0x1_0000 + high % 0x400 * 0x400 + low % 0x400 == uc
    requires Spells(first, high) && Spells(second, low)
    ensures EscapeValue("\\u" + first + "\\u" + second + tail) == (Utf8(uc), 12)
  {
    hide Hex4, Utf8;
    var rest := "\\u" + second + tail;
    var s := "\\u" + first + "\\u" + second + tail;
    Hex4Back(first, high, rest);
    Hex4Back(second, low, tail);
    hide Spells;
    assert s[2..] == first + rest;
    assert s[8..] == second + tail;
    assert s[6] == rest[0] && s[7] == rest[1];
  }

  // Every escape gives the bytes of its character, surrogate pairs included, whatever the case of
  // its digits.
  lemma EscapesAreUtf8(uc: nat, escape: string, tail: string)
    requires Scalar(uc) && uc != 0 && IsEscapeOf(escape, uc)
    ensures Unescape(escape + tail) == Before(Utf8(uc), Unescape(tail))
  {
    hide Unescape, EscapeValue, Utf8, Spells;
    var s := escape + tail;
    UnescapeStep(s);
    if uc < 0x1_0000 {
      assert s == "\\u" + escape[2..] + tail;
      OneEscape(uc, escape[2..], tail);
      assert s[6..] == tail;
    } else {
      var high, low := 0xd800 + (uc - 0x1_0000) / 0x400, 0xdc00 + uc % 0x400;
      SurrogateParts(uc);
      assert s == "\\u" + escape[2..6] + "\\u" + escape[8..] + tail;
      TwoEscapes(uc, high, low, escape[2..6], escape[8..], tail);
      assert s[12..] == tail;
    }
  }

  lemma SurrogateParts(uc: nat)
    requires 0x1_0000 <= uc < 0x11_0000
    ensures var high, low := 0xd800 + (uc - 0x1_0000) / 0x400, 0xdc00 + uc % 0x400;
            && HighSurrogate(high) && LowSurrogate(low)
            && 0x1_0000 + high % 0x400 * 0x400 + low % 0x400 == uc
  {
    var v := uc - 0x1_0000;
    assert v / 0x400 < 0x400 && uc % 0x400 == v % 0x400;
  }

  // The encoding can be read back, in as many bytes as section 3 of RFC 3629 gives it.
  lemma Utf8Back(uc: nat)
    requires uc < 0x11_0000
    ensures forall k :: 0 <= k < |Utf8(uc)| ==> Utf8(uc)[k] as int < 0x100
    ensures |Utf8(uc)| == if uc < 0x80 then 1 else if uc < 0x800 then 2 else if uc < 0x1_0000 then 3 else 4
    ensures FromUtf8(Utf8(uc)) == uc
  {
    if uc < 0x80 {
    } else if uc < 0x800 {
      TwoBytes(uc);
    } else if uc < 0x1_0000 {
      ThreeBytes(uc);
    } else {
      FourBytes(uc);
    }
  }

  lemma TwoBytes(uc: nat)
    requires 0x80 <= uc < 0x800
    ensures FromUtf8(Utf8(uc)) == uc
  {
  }

  lemma ThreeBytes(uc: nat)
    requires 0x800 <= uc < 0x1_0000
    ensures FromUtf8(Utf8(uc)) == uc
  {
    var q := uc / 0x40;
    assert q / 0x40 == uc / 0x1000;
    assert (0xe0 + uc / 0x1000) % 0x10 == uc / 0x1000;
  }

  lemma FourBytes(uc: nat)
    requires 0x1_0000 <= uc < 0x11_0000
    ensures FromUtf8(Utf8(uc)) == uc
  {
    var q := uc / 0x40;
    assert q / 0x40 == uc / 0x1000 && q / 0x40 / 0x40 == uc / 0x4_0000;
    assert (0xf0 + uc / 0x4_0000) % 8 == uc / 0x4_0000;
  }

  // ---------------------------------------------------------------------- numbers

  // What may follow a number.
  predicate Delimits(post: string) {
    var c := At(post);
    !IsDigit(c) && c != '.' && c != 'e' && c != 'E'
  }

  lemma {:induction false} DigitsThen(n: nat, rest: string)
    ensures ReadDigits(Digits(n) + rest, 0) == ReadDigits(rest, n)
    ensures IsDigit(Digits(n)[0]) && (n > 0 ==> Digits(n)[0] != '0')
  {
    if n < 10 {
      assert (Digits(n) + rest)[1..] == rest;
    } else {
      var tail := [HexDigit(n % 10)] + rest;
      DigitsThen(n / 10, tail);
      assert Digits(n) + rest == Digits(n / 10) + tail;
      assert tail[1..] == rest;
    }
  }

  lemma NumberBack(n: int, post: string)
    requires Delimits(post)
    ensures ReadNumber(Decimal(n) + post) == (n as real, post)
  {
    hide ReadUnsigned, Digits;
    var m := if n < 0 then -n else n;
    PositiveBack(m, post);
    var s := Digits(m) + post;
    if n < 0 {
      assert Decimal(n) + post == "-" + s;
      assert ("-" + s)[1..] == s;
    }
  }

  lemma PositiveBack(m: nat, post: string)
    requires Delimits(post)
    ensures ReadUnsigned(Digits(m) + post) == (m as real, post)
    ensures IsDigit(Digits(m)[0])
  {
    var s := Digits(m) + post;
    DigitsThen(m, post);
    assert ReadDigits(post, m) == (m, post);
    assert Pow10(0) == 1.0;
    if m == 0 {
      assert s[1..] == post;
    }
    hide ReadDigits, Pow10, Digits;
  }

  // ------------------------------------------------------------------------ trees

  predicate Blank(s: string) {
    forall k :: 0 <= k < |s| ==> s[k] as int <= 32
  }

  lemma {:induction false} SkipBlank(lead: string, s: string)
    requires Blank(lead) && At(s) as int > 32
    ensures Skip(lead + s) == s
  {
    if lead == "" {
      assert lead + s == s;
    } else {
      assert (lead + s)[1..] == lead[1..] + s;
      SkipBlank(lead[1..], s);
    }
  }

  lemma {:induction false} TabsBlank(n: int)
    ensures Blank(Tabs(n))
  {
    if n > 0 { TabsBlank(n - 1); }
  }

  // What a printed value starts with.
  predicate Opens(c: char) {
    c as int > 32 && c != ']' && c != '}'
  }

  lemma PrintOpens(t: Json, depth: nat, fmt: bool)
    requires Printable(t)
    ensures Print(t, depth, fmt) != "" && Opens(Print(t, depth, fmt)[0])
  {
    if t.Number? {
      var n := t.value.Floor;
      DigitsThen(if n < 0 then -n else n, "");
    }
  }

  function Entries(items: seq<Json>, depth: nat, fmt: bool): (r: seq<string>)
    requires forall k :: 0 <= k < |items| ==> Printable(items[k])
    ensures |r| == |items|
  {
    seq(|items|, (k: nat) requires k < |items| => Print(items[k], depth, fmt))
  }

  function Names(members: seq<Member>): (r: seq<string>)
    ensures |r| == |members|
  {
    seq(|members|, (k: nat) requires k < |members| => StringText(members[k].name))
  }

  function Items(members: seq<Member>): (r: seq<Json>)
    ensures |r| == |members|
  {
    seq(|members|, (k: nat) requires k < |members| => members[k].item)
  }

  lemma PrintArray(t: Json, depth: nat, fmt: bool)
    requires t.Array? && Printable(t)
    ensures Print(t, depth, fmt) == ArrayText(Entries(t.items, depth + 1, fmt), fmt)
  {
    assert seq(|t.items|, (k: nat) requires k < |t.items| => Print(t.items[k], depth + 1, fmt)) == Entries(t.items, depth + 1, fmt);
  }

  lemma PrintObject(t: Json, depth: nat, fmt: bool)
    requires t.Object? && Printable(t)
    ensures Print(t, depth, fmt) == ObjectText(Names(t.members), Entries(Items(t.members), depth + 1, fmt), depth, fmt)
  {
    var members := t.members;
    assert seq(|members|, (k: nat) requires k < |members| => Print(members[k].item, depth + 1, fmt))
        == Entries(Items(members), depth + 1, fmt);
    assert seq(|members|, (k: nat) requires k < |members| => StringText(members[k].name)) == Names(members);
  }

  // The parse of what starts with a printed value.
  lemma {:induction false} ParseBack(t: Json, depth: nat, fmt: bool, post: string)
    requires Printable(t) && Delimits(post)
    ensures Parse(Print(t, depth, fmt) + post) == Got(t, post)
    decreases t, 1, 0
  {
    hide Parse, Decimal, StringText;
    match t {
      case Null => KeywordsBack(post);
      case False => KeywordsBack(post);
      case True => KeywordsBack(post);
      case Number(x) => ParseNumberBack(x.Floor, post);
      case String(chars) => ParseStringBack(chars, post);
      case Array(items) => ParseArrayBack(t, depth, fmt, post);
      case Object(members) => ParseObjectBack(t, depth, fmt, post);
    }
  }

  // A text that starts like no keyword.
  lemma NoKeyword(s: string)
    requires s != "" && s[0] != 'n' && s[0] != 'f' && s[0] != 't'
    ensures !StartsWith(s, "null") && !StartsWith(s, "false") && !StartsWith(s, "true")
  {
    StartsOtherwise(s, "null");
    StartsOtherwise(s, "false");
    StartsOtherwise(s, "true");
  }

  lemma StartsOtherwise(s: string, word: string)
    requires s != "" && word != "" && s[0] != word[0]
    ensures !StartsWith(s, word)
  {
    if |word| <= |s| { assert s[..|word|][0] == s[0]; }
  }

  lemma Starts(word: string, post: string)
    ensures StartsWith(word + post, word) && (word + post)[|word|..] == post
  {
    assert (word + post)[..|word|] == word;
  }

  lemma KeywordsBack(post: string)
    ensures Parse("null" + post) == Got(Null, post)
    ensures Parse("false" + post) == Got(False, post)
    ensures Parse("true" + post) == Got(True, post)
  {
    hide StartsWith, ParseItems, ParseMembers, ParseString, ReadNumber;
    Starts("null", post);
    Starts("false", post);
    Starts("true", post);
    StartsOtherwise("false" + post, "null");
    StartsOtherwise("true" + post, "null");
    StartsOtherwise("true" + post, "false");
  }

  lemma ParseNumberBack(n: int, post: string)
    requires Delimits(post)
    ensures Parse(Decimal(n) + post) == Got(Number(n as real), post)
  {
    hide ReadNumber, StartsWith, ParseString, ParseItems, ParseMembers;
    NumberBack(n, post);
    DigitsThen(if n < 0 then -n else n, "");
    NoKeyword(Decimal(n) + post);
  }

  lemma ParseStringBack(chars: string, post: string)
    requires IsCString(chars)
    ensures ParseString(StringText(chars) + post) == Got(chars, post)
    ensures Parse(StringText(chars) + post) == Got(String(chars), post)
  {
    hide Unescape, StartsWith, EscapeAll, ParseItems, ParseMembers;
    var s := StringText(chars) + post;
    UnescapeBack(chars, post);
    assert s[1..] == EscapeAll(chars) + "\"" + post;
    PrintedFits(chars, post);
    NoKeyword(s);
  }

  lemma ParseArrayBack(t: Json, depth: nat, fmt: bool, post: string)
    requires t.Array? && Printable(t)
    ensures Parse(Print(t, depth, fmt) + post) == Got(t, post)
    decreases t, 0, |if t.Array? then t.items else []| + 2
  {
    hide Print, ParseItems, ParseMembers, ParseString, ReadNumber, StartsWith, ArrayRest;
    var s, items := Print(t, depth, fmt) + post, t.items;
    PrintArray(t, depth, fmt);
    assert s[0] == '[';
    NoKeyword(s);
    if items == [] {
      SkipBlank("", "]" + post);
      assert s[1..] == "" + ("]" + post) && ("]" + post)[1..] == post;
    } else {
      ParseFullArrayBack(t, depth, fmt, post);
    }
  }

  lemma ParseFullArrayBack(t: Json, depth: nat, fmt: bool, post: string)
    requires t.Array? && Printable(t) && t.items != []
    ensures var s := Print(t, depth, fmt) + post;
            At(Skip(s[1..])) != ']' && ParseItems(s[1..]) == Got(t.items, post)
    decreases t, 0, |if t.Array? then t.items else []| + 1
  {
    hide Print, ParseItems, ArrayRest;
    PrintArray(t, depth, fmt);
    var s, entries := Print(t, depth, fmt) + post, Entries(t.items, depth + 1, fmt);
    var body := ArrayRest(entries, 0, fmt) + post;
    assert s[1..] == body;
    ParseItemsBack(t, depth, fmt, 0, "", post);
    assert "" + ArrayRest(entries, 0, fmt) + post == body == "" + body;
    FirstEntry(entries, fmt, post, t.items[0], depth + 1);
    SkipBlank("", body);
    assert t.items[0..] == t.items;
  }

  lemma FirstEntry(entries: seq<string>, fmt: bool, post: string, first: Json, depth: nat)
    requires entries != [] && Printable(first) && entries[0] == Print(first, depth, fmt)
    ensures At(ArrayRest(entries, 0, fmt) + post) == Print(first, depth, fmt)[0] && Opens(At(ArrayRest(entries, 0, fmt) + post))
  {
    PrintOpens(first, depth, fmt);
    hide Print;
  }

  // One item and what follows it.
  lemma ItemsStep(s: string, lead: string, entry: string, item: Json, after: string)
    requires Blank(lead) && At(entry + after) as int > 32 && Parse(entry + after) == Got(item, after)
    requires s == lead + (entry + after) && At(after) as int > 32
    ensures At(after) == ']' ==> ParseItems(s) == Got([item], after[1..])
    ensures At(after) == ',' && ParseItems(after[1..]).Got? ==>
              ParseItems(s) == Got([item] + ParseItems(after[1..]).value, ParseItems(after[1..]).rest)
  {
    hide Parse;
    SkipBlank(lead, entry + after);
    SkipBlank("", after);
    assert "" + after == after;
  }

  lemma ParseItemsBack(t: Json, depth: nat, fmt: bool, i: nat, lead: string, post: string)
    requires t.Array? && Printable(t) && i < |t.items| && Blank(lead)
    ensures ParseItems(lead + ArrayRest(Entries(t.items, depth + 1, fmt), i, fmt) + post) == Got(t.items[i..], post)
    decreases t, 0, |if t.Array? then t.items else []| - i
  {
    hide Print, Parse, ParseItems;
    var items := t.items;
    var entries := Entries(items, depth + 1, fmt);
    var s := lead + ArrayRest(entries, i, fmt) + post;
    var entry := Print(items[i], depth + 1, fmt);
    PrintOpens(items[i], depth + 1, fmt);
    if i == |items| - 1 {
      var after := "]" + post;
      ParseBack(items[i], depth + 1, fmt, after);
      assert s == lead + (entry + after);
      ItemsStep(s, lead, entry, items[i], after);
      assert after[1..] == post;
      assert items[i..] == [items[i]];
    } else {
      var sep := if fmt then " " else "";
      var more := sep + ArrayRest(entries, i + 1, fmt) + post;
      var after := "," + more;
      ParseBack(items[i], depth + 1, fmt, after);
      ParseItemsBack(t, depth, fmt, i + 1, sep, post);
      assert s == lead + (entry + after);
      assert after[1..] == more;
      ItemsStep(s, lead, entry, items[i], after);
      assert items[i..] == [items[i]] + items[i + 1..];
    }
  }

  lemma ParseObjectBack(t: Json, depth: nat, fmt: bool, post: string)
    requires t.Object? && Printable(t)
    ensures Parse(Print(t, depth, fmt) + post) == Got(t, post)
    decreases t, 0, |if t.Object? then t.members else []| + 1
  {
    hide Print, ParseItems, ParseMembers, ParseString, ReadNumber, StartsWith, ObjectRest, Tabs;
    var s, members := Print(t, depth, fmt) + post, t.members;
    var names, entries := Names(members), Entries(Items(members), depth + 1, fmt);
    PrintObject(t, depth, fmt);
    assert s[0] == '{';
    NoKeyword(s);
    if members == [] {
      var lead := if fmt then "\n" + Tabs(depth - 1) else "";
      TabsBlank(depth - 1);
      assert s[1..] == lead + ("}" + post);
      SkipBlank(lead, "}" + post);
      assert ("}" + post)[1..] == post;
    } else {
      var lead := if fmt then "\n" else "";
      var body := ObjectRest(names, entries, 0, depth, fmt) + post;
      assert s[1..] == lead + ObjectRest(names, entries, 0, depth, fmt) + post == lead + body;
      ParseMembersBack(t, depth, fmt, 0, lead, post);
      FirstName(names, entries, depth, fmt, lead, post, members[0].name);
      assert members[0..] == members;
    }
  }

  lemma FirstName(names: seq<string>, entries: seq<string>, depth: nat, fmt: bool, lead: string, post: string, name: string)
    requires names != [] && |names| == |entries| && names[0] == StringText(name) && Blank(lead)
    ensures At(Skip(lead + (ObjectRest(names, entries, 0, depth, fmt) + post))) == '\"'
  {
    var tabs := if fmt then Tabs(depth + 1) else "";
    TabsBlank(depth + 1);
    var whole := ObjectRest(names, entries, 0, depth, fmt);
    assert tabs <= whole;
    var tail := whole[|tabs|..];
    assert whole == tabs + tail && tail[0] == '\"';
    assert lead + (whole + post) == (lead + tabs) + (tail + post);
    SkipBlank(lead + tabs, tail + post);
  }

  lemma MembersStep(s: string, member: Member, between: string, after: string)
    requires ParseMember(s) == Got(member, between + after) && Blank(between) && At(after) as int > 32
    ensures At(after) == '}' ==> ParseMembers(s) == Got([member], after[1..])
    ensures At(after) == ',' && ParseMembers(after[1..]).Got? ==>
              ParseMembers(s) == Got([member] + ParseMembers(after[1..]).value, ParseMembers(after[1..]).rest)
  {
    hide ParseMember;
    SkipBlank(between, after);
  }

  lemma ParseMembersBack(t: Json, depth: nat, fmt: bool, i: nat, lead: string, post: string)
    requires t.Object? && Printable(t) && i < |t.members| && Blank(lead)
    ensures ParseMembers(lead + ObjectRest(Names(t.members), Entries(Items(t.members), depth + 1, fmt), i, depth, fmt) + post)
         == Got(t.members[i..], post)
    decreases t, 0, |if t.Object? then t.members else []| - i
  {
    hide Print, Parse, ParseMember, ParseMembers, StringText, Tabs, MemberText, ObjectRest;
    var members := t.members;
    var names, entries := Names(members), Entries(Items(members), depth + 1, fmt);
    var whole := ObjectRest(names, entries, i, depth, fmt);
    var tabs, newline := if fmt then Tabs(depth + 1) else "", if fmt then "\n" else "";
    TabsBlank(depth + 1);
    TabsBlank(depth);
    if i == |members| - 1 {
      var close := newline + (if fmt then Tabs(depth) else "");
      LastMember(names, entries, depth, fmt, lead, post);
      var after := close + ("}" + post);
      ParseMemberBack(t, depth, fmt, i, lead + tabs, after);
      MembersStep(lead + whole + post, members[i], close, "}" + post);
      assert ("}" + post)[1..] == post;
      assert members[i..] == [members[i]];
    } else {
      var more := newline + ObjectRest(names, entries, i + 1, depth, fmt) + post;
      OtherMember(names, entries, i, depth, fmt, lead, post);
      var after := "," + more;
      ParseMemberBack(t, depth, fmt, i, lead + tabs, after);
      ParseMembersBack(t, depth, fmt, i + 1, newline, post);
      assert "" + after == after && after[1..] == more;
      MembersStep(lead + whole + post, members[i], "", after);
      assert members[i..] == [members[i]] + members[i + 1..];
    }
  }

  lemma LastMember(names: seq<string>, entries: seq<string>, depth: nat, fmt: bool, lead: string, post: string)
    requires |names| == |entries| > 0
    ensures var i, newline := |entries| - 1, if fmt then "\n" else "";
            && lead + ObjectRest(names, entries, i, depth, fmt) + post
               == lead + (if fmt then Tabs(depth + 1) else "") + MemberText(names[i], entries[i], fmt)
                  + (newline + (if fmt then Tabs(depth) else "") + ("}" + post))
  {
    hide Tabs;
    var i := |entries| - 1;
    var tail := (if fmt then Tabs(depth) else "") + "}";
    assert ObjectRest(names, entries, i, depth, fmt)
        == (if fmt then Tabs(depth + 1) else "") + MemberText(names[i], entries[i], fmt) + (if fmt then "\n" else "") + tail;
  }

  lemma OtherMember(names: seq<string>, entries: seq<string>, i: nat, depth: nat, fmt: bool, lead: string, post: string)
    requires |names| == |entries| && i + 1 < |entries|
    ensures var newline := if fmt then "\n" else "";
            lead + ObjectRest(names, entries, i, depth, fmt) + post
            == lead + (if fmt then Tabs(depth + 1) else "") + MemberText(names[i], entries[i], fmt)
               + ("," + (newline + ObjectRest(names, entries, i + 1, depth, fmt) + post))
  {
    hide Tabs, ObjectRest, MemberText;
    OtherMemberText(names, entries, i, depth, fmt);
    Regroup(lead, if fmt then Tabs(depth + 1) else "", MemberText(names[i], entries[i], fmt),
            if fmt then "\n" else "", ObjectRest(names, entries, i + 1, depth, fmt), post);
  }

  lemma OtherMemberText(names: seq<string>, entries: seq<string>, i: nat, depth: nat, fmt: bool)
    requires |names| == |entries| && i + 1 < |entries|
    ensures ObjectRest(names, entries, i, depth, fmt)
         == (if fmt then Tabs(depth + 1) else "") + MemberText(names[i], entries[i], fmt) + ","
            + (if fmt then "\n" else "") + ObjectRest(names, entries, i + 1, depth, fmt)
  {
    hide Tabs;
  }

  lemma Regroup(a: string, b: string, c: string, d: string, e: string, f: string)
    ensures a + (b + c + "," + d + e) + f == a + b + c + ("," + (d + e + f))
  {
  }

  function MemberText(name: string, entry: string, fmt: bool): string {
    name + ":" + (if fmt then "\t" else "") + entry
  }

  lemma ParseMemberBack(t: Json, depth: nat, fmt: bool, i: nat, lead: string, after: string)
    requires t.Object? && Printable(t) && i < |t.members| && Blank(lead) && Delimits(after)
    ensures ParseMember(lead + MemberText(StringText(t.members[i].name), Print(t.members[i].item, depth + 1, fmt), fmt) + after)
         == Got(t.members[i], after)
    decreases t, 0, 0
  {
    hide Print, Parse, ParseString, EscapeAll;
    var name, item := t.members[i].name, t.members[i].item;
    var entry, tab := Print(item, depth + 1, fmt), if fmt then "\t" else "";
    var colon := ":" + (tab + (entry + after));
    var s := lead + MemberText(StringText(name), entry, fmt) + after;
    assert s == lead + (StringText(name) + colon);
    SkipBlank(lead, StringText(name) + colon);
    ParseStringBack(name, colon);
    SkipBlank("", colon);
    assert "" + colon == colon && colon[1..] == tab + (entry + after);
    PrintOpens(item, depth + 1, fmt);
    SkipBlank(tab, entry + after);
    ParseBack(item, depth + 1, fmt, after);
  }

  // Parsing a printed tree gives the tree back, in both print modes, whatever blanks surround it,
  // and leaves nothing of the text.
  lemma PrintThenParse(t: Json, fmt: bool, wholeText: bool, lead: string)
    requires Printable(t) && Blank(lead)
    ensures ParseText(lead + Print(t, 0, fmt), wholeText) == Got(t, "")
  {
    hide Parse, Print;
    PrintOpens(t, 0, fmt);
    SkipBlank(lead, Print(t, 0, fmt));
    ParseBack(t, 0, fmt, "");
    assert Print(t, 0, fmt) + "" == Print(t, 0, fmt);
  }
}
