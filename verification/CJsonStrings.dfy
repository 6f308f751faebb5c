// The loops of `print_string_ptr` and `parse_string` (utils/cJSON.c:145-253), on buffers of the
// lengths that they compute.

module JsonStrings {
  import opened CStrings
  import opened JsonSpec
  import opened Wrappers

  // --------------------------------------------------------------- print_string_ptr

  // The first loop's count.
  function Counted(c: char): nat {
    if c in "\"\\\n\r\t" || c == 8 as char || c == 12 as char then 2 else if c as int < 32 then 6 else 1
  }

  lemma CountedIsLength(c: char)
    ensures Counted(c) == |Escape(c)|
  {
  }

  lemma EscapeAllStep(s: string, i: nat)
    requires i < |s|
    ensures EscapeAll(s[i..]) == Escape(s[i]) + EscapeAll(s[i + 1..])
  {
    assert s[i..][1..] == s[i + 1..];
  }

  // Appends to a buffer.
  method Put(out: array<char>, at: nat, s: string) returns (ptr: nat)
    requires at + |s| <= out.Length
    modifies out
    ensures ptr == at + |s| && out[..ptr] == old(out[..at]) + s
  {
    ptr := at;
    var i := 0;
    while i < |s|
      invariant 0 <= i <= |s| && ptr == at + i && out[..ptr] == old(out[..at]) + s[..i]
    {
      out[ptr] := s[i];
      ptr, i := ptr + 1, i + 1;
    }
  }

  // Every byte is written inside the buffer, which is filled exactly.
  method PrintStringPtr(str: string) returns (out: array<char>)
    requires IsCString(str)
    ensures fresh(out) && Holds(out, StringText(str)) && out.Length == |StringText(str)| + 1
  {
    hide Escape, EscapeLetter;
    var len, i := 0, 0;
    while i < |str|
      invariant 0 <= i <= |str| && len + |EscapeAll(str[i..])| == |EscapeAll(str)|
    {
      EscapeAllStep(str, i);
      CountedIsLength(str[i]);
      len := len + Counted(str[i]);
      i := i + 1;
    }
    assert str[i..] == "";
    out := new char[len + 3];
    var ptr := 0;
    out[0] := '\"';
    ptr, i := 1, 0;
    while i < |str|
      invariant 0 <= i <= |str| && ptr + |EscapeAll(str[i..])| == len + 1
      invariant out[..ptr] + EscapeAll(str[i..]) == "\"" + EscapeAll(str)
    {
      EscapeAllStep(str, i);
      ghost var was := out[..ptr];
      ptr := PutEscaped(out, ptr, str[i]);
      assert was + (Escape(str[i]) + EscapeAll(str[i + 1..])) == out[..ptr] + EscapeAll(str[i + 1..]);
      i := i + 1;
    }
    assert str[i..] == "";
    out[ptr] := '\"';
    ptr := ptr + 1;
    out[ptr] := '\0';
    assert out[..ptr] == StringText(str);
  }

  // Lines 234-249: one character.
  method PutEscaped(out: array<char>, at: nat, token: char) returns (ptr: nat)
    requires at + |Escape(token)| <= out.Length
    modifies out
    ensures ptr == at + |Escape(token)| && out[..ptr] == old(out[..at]) + Escape(token)
  {
    ptr := at;
    if token as int > 31 && token != '\"' && token != '\\' {
      out[ptr] := token;
      ptr := ptr + 1;
    } else {
      out[ptr] := '\\';
      ptr := ptr + 1;
      match token {
        case '\\' => out[ptr] := '\\'; ptr := ptr + 1;
        case '\"' => out[ptr] := '\"'; ptr := ptr + 1;
        case '\n' => out[ptr] := 'n'; ptr := ptr + 1;
        case '\r' => out[ptr] := 'r'; ptr := ptr + 1;
        case '\t' => out[ptr] := 't'; ptr := ptr + 1;
        case _ =>
          if token == 8 as char {
            out[ptr] := 'b';
            ptr := ptr + 1;
          } else if token == 12 as char {
            out[ptr] := 'f';
            ptr := ptr + 1;
          } else {
            ptr := Put(out, ptr, "u00" + [HexDigit(token as int / 16), HexDigit(token as int % 16)]);
          }
      }
    }
  }

  // ------------------------------------------------------------------- parse_string

  // Line 165, the first loop; none when it leaves the text.
  method ScanString(str: string) returns (len: Option<nat>)
    requires str != ""
    ensures len == if Scannable(str[1..]) then Some(Length(str[1..])) else None
  {
    var ptr, count := 1, 0;
    while ptr < |str| && str[ptr] != '\"'
      invariant 1 <= ptr <= |str| + 1
      invariant ptr <= |str| ==> count + Length(str[ptr..]) == Length(str[1..])
      invariant Scannable(str[1..]) == (ptr <= |str| && Scannable(str[ptr..]))
    {
      var next := if str[ptr] == '\\' then ptr + 2 else ptr + 1;
      if next <= |str| { assert str[ptr..][next - ptr..] == str[next..]; }
      count := count + 1;
      ptr := next;
    }
    return if ptr <= |str| then Some(count) else None;
  }

  const FIRST_BYTE_MARK := [0, 0, 0xc0, 0xe0, 0xf0]

  // Lines 197-205: the bytes are written from the last to the first, falling through, if there is
  // room for them. `| 0x80` with `& 0xBF`, and `| firstByteMark`, are sums here, as the bits do not
  // overlap.
  method Transcode(out: array<char>, at: nat, code: nat) returns (inside: bool, ptr2: nat)
    requires code < 0x11_0000 && at <= out.Length
    modifies out
    ensures inside == (at + |Utf8(code)| <= out.Length)
    ensures inside ==> ptr2 == at + |Utf8(code)| && out[..ptr2] == old(out[..at]) + Utf8(code)
  {
    var uc := code;
    var len := if uc < 0x80 then 1 else if uc < 0x800 then 2 else if uc < 0x1_0000 then 3 else 4;
    ptr2 := at + len;
    if ptr2 > out.Length {
      return false, at;
    }
    if len >= 4 {
      ptr2 := ptr2 - 1;
      out[ptr2] := (0x80 + uc % 0x40) as char;
      uc := uc / 0x40;
    }
    if len >= 3 {
      ptr2 := ptr2 - 1;
      out[ptr2] := (0x80 + uc % 0x40) as char;
      uc := uc / 0x40;
    }
    if len >= 2 {
      ptr2 := ptr2 - 1;
      out[ptr2] := (0x80 + uc % 0x40) as char;
      uc := uc / 0x40;
    }
    ptr2 := ptr2 - 1;
    Shifts(code);
    out[ptr2] := (uc + FIRST_BYTE_MARK[len]) as char;
    return true, ptr2 + len;
  }

  lemma Shifts(uc: nat)
    ensures uc / 0x40 / 0x40 == uc / 0x1000 && uc / 0x40 / 0x40 / 0x40 == uc / 0x4_0000
  {
  }

  // Writes one character, if there is room for it.
  method Write(out: array<char>, at: nat, c: char) returns (inside: bool, ptr2: nat)
    requires at <= out.Length
    modifies out
    ensures inside == (at < out.Length)
    ensures inside ==> ptr2 == at + 1 && out[..ptr2] == old(out[..at]) + [c]
  {
    if at == out.Length {
      return false, at;
    }
    out[at] := c;
    return true, at + 1;
  }

  // Lines 176-209: one escape, whose backslash is at `at`, as long as it stays inside the text and
  // the buffer.
  method ReadEscape(str: string, at: nat, out: array<char>, to: nat) returns (inside: bool, ptr: nat, ptr2: nat)
    requires at < |str| && str[at] == '\\' && to <= out.Length
    modifies out
    ensures inside == (EscapeValue(str[at..]).1 > 0 && to + |EscapeValue(str[at..]).0| <= out.Length)
    ensures inside ==> ptr == at + EscapeValue(str[at..]).1 && ptr2 == to + |EscapeValue(str[at..]).0|
    ensures inside ==> out[..ptr2] == old(out[..to]) + EscapeValue(str[at..]).0
  {
    hide Utf8, Hex4;
    inside, ptr, ptr2 := true, at + 1, to;
    if ptr == |str| {
      return false, ptr, ptr2;
    }
    match str[ptr] {
      case 'b' => inside, ptr2 := Write(out, ptr2, 8 as char);
      case 'f' => inside, ptr2 := Write(out, ptr2, 12 as char);
      case 'n' => inside, ptr2 := Write(out, ptr2, '\n');
      case 'r' => inside, ptr2 := Write(out, ptr2, '\r');
      case 't' => inside, ptr2 := Write(out, ptr2, '\t');
      case 'u' => {
        inside, ptr, ptr2 := ReadUnicode(str, at, out, to);
        return;
      }
      case _ => inside, ptr2 := Write(out, ptr2, str[ptr]);
    }
    ptr := ptr + 1;
  }

  // Lines 184-206.
  method ReadUnicode(str: string, at: nat, out: array<char>, to: nat) returns (inside: bool, ptr: nat, ptr2: nat)
    requires at + 1 < |str| && str[at] == '\\' && str[at + 1] == 'u' && to <= out.Length
    modifies out
    ensures inside == (EscapeValue(str[at..]).1 > 0 && to + |EscapeValue(str[at..]).0| <= out.Length)
    ensures inside ==> ptr == at + EscapeValue(str[at..]).1 && ptr2 == to + |EscapeValue(str[at..]).0|
    ensures inside ==> out[..ptr2] == old(out[..to]) + EscapeValue(str[at..]).0
  {
    hide Utf8, Hex4;
    inside, ptr, ptr2 := true, at + 1, to;
    assert str[at..][2..] == str[at + 2..];
    if ptr + 5 > |str| {
      return false, ptr, ptr2;
    }
    var uc := Hex4(str[ptr + 1..]);
    ptr := ptr + 4;
    if 0xdc00 <= uc <= 0xdfff || uc == 0 {
    } else if 0xd800 <= uc <= 0xdbff {
      if ptr + 2 >= |str| || str[ptr + 1] != '\\' || str[ptr + 2] != 'u' {
      } else {
        assert str[at..][8..] == str[at + 8..];
        if ptr + 7 > |str| {
          return false, ptr, ptr2;
        }
        var uc2 := Hex4(str[ptr + 3..]);
        ptr := ptr + 6;
        if uc2 < 0xdc00 || uc2 > 0xdfff {
        } else {
          inside, ptr2 := Transcode(out, ptr2, 0x1_0000 + (uc % 0x400 * 0x400 + uc2 % 0x400));
        }
      }
    } else {
      inside, ptr2 := Transcode(out, ptr2, uc);
    }
    ptr := ptr + 1;
  }

  // The whole of `parse_string`, on any text: `Undefined` as soon as the next access would lie
  // outside the text or the buffer that the first loop measured.
  method ReadString(str: string) returns (r: Parsed<string>)
    ensures r == ParseString(str)
  {
    hide Unescape, EscapeValue, Scannable, Length;
    if str == "" || str[0] != '\"' {
      return Bad(str);
    }
    var len := ScanString(str);
    if len == None {
      return Undefined;
    }
    var out := new char[len.value + 1];
    var inside, ptr, ptr2 := true, 1, 0;
    BeforeNothing(Unescape(str[1..]));
    while ptr < |str| && str[ptr] != '\"'
      invariant 1 <= ptr <= |str| && 0 <= ptr2 <= out.Length
      invariant Unescape(str[1..]) == Before(out[..ptr2], Unescape(str[ptr..]))
    {
      UnescapeAt(str, ptr);
      ghost var was := out[..ptr2];
      if str[ptr] != '\\' {
        BeforeTwice(was, [str[ptr]], Unescape(str[ptr + 1..]));
        inside, ptr2 := Write(out, ptr2, str[ptr]);
        ptr := ptr + 1;
      } else {
        ghost var e := EscapeValue(str[ptr..]);
        if e.1 > 0 {
          assert str[ptr..][e.1..] == str[ptr + e.1..];
          BeforeTwice(was, e.0, Unescape(str[ptr + e.1..]));
        }
        inside, ptr, ptr2 := ReadEscape(str, ptr, out, ptr2);
      }
      if !inside {
        return Undefined;
      }
    }
    UnescapeEnd(str[ptr..]);
    ghost var chars := out[..ptr2];
    assert chars + "" == chars;
    if ptr2 == out.Length {
      return Undefined;
    }
    out[ptr2] := '\0';
    if ptr < |str| {
      assert str[ptr..][1..] == str[ptr + 1..];
      ptr := ptr + 1;
    }
    assert out[..ptr2] == chars;
    r := Got(out[..ptr2], str[ptr..]);
  }

  lemma BeforeNothing(u: Unescaped)
    ensures Before("", u) == u
  {
    if u.Chars? { assert "" + u.out == u.out; }
  }

  lemma BeforeTwice(a: string, b: string, u: Unescaped)
    ensures Before(a, Before(b, u)) == Before(a + b, u)
  {
    if u.Chars? { assert a + (b + u.out) == a + b + u.out; }
  }

  // One turn of the second loop.
  lemma UnescapeAt(str: string, ptr: nat)
    requires ptr < |str| && str[ptr] != '\"'
    ensures str[ptr] != '\\' ==> Unescape(str[ptr..]) == Before([str[ptr]], Unescape(str[ptr + 1..]))
    ensures str[ptr] == '\\' ==> var e := EscapeValue(str[ptr..]);
                                 Unescape(str[ptr..]) == if e.1 == 0 then Ill else Before(e.0, Unescape(str[ptr..][e.1..]))
  {
    hide EscapeValue;
    assert str[ptr..][1..] == str[ptr + 1..];
  }

  lemma UnescapeEnd(s: string)
    requires s == "" || s[0] == '\"'
    ensures Unescape(s) == Chars("", if s == "" then "" else s[1..])
  {
  }
}
