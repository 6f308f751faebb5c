// The printers, the parsers and the minifier of utils/cJSON.c as the program runs them: buffers of
// the lengths it computes, loops over children, a minifier that rewrites its text in place.

module CJson {
  import opened CStrings
  import opened JsonSpec
  import opened JsonRoundTrip
  import opened JsonMinify
  import opened JsonStrings

  // ---------------------------------------------------------------------- printing

  lemma {:induction false} DigitsShort(n: nat, bound: nat)
    requires n < Power(bound)
    ensures |Digits(n)| <= bound + 1
    decreases bound
  {
    if n >= 10 { DigitsShort(n / 10, bound - 1); }
  }

  function Power(k: nat): nat {
    if k == 0 then 10 else 10 * Power(k - 1)
  }

  lemma PowerNineteen()
    ensures Power(19) > 0x8000_0000_0000_0000
  {
    PowersOfTen(1);
    PowersOfTen(5);
    PowersOfTen(9);
    PowersOfTen(13);
    assert Power(19) == 100 * Power(17);
  }

  lemma PowersOfTen(k: nat)
    ensures Power(k + 4) == 10000 * Power(k)
  {
    assert Power(k + 2) == 100 * Power(k);
  }

  // Line 129: the text of a 32-bit number, of any number of 64 bits even, fits 22 bytes.
  method PrintNumber(n: int) returns (text: string)
    requires -0x8000_0000_0000_0000 <= n < 0x8000_0000_0000_0000
    ensures text == Decimal(n)
  {
    var str := new char[22];
    PowerNineteen();
    DigitsShort(if n < 0 then -n else n, 19);
    var ptr := StrCpy(str, 0, Decimal(n));
    text := str[..ptr];
  }

  // `strcpy`, which writes the terminator too.
  method StrCpy(out: array<char>, at: nat, s: string) returns (ptr: nat)
    requires at + |s| < out.Length
    modifies out
    ensures ptr == at + |s| && out[..ptr] == old(out[..at]) + s && out[ptr] == '\0'
  {
    ptr := Put(out, at, s);
    ghost var was := out[..ptr];
    out[ptr] := '\0';
    assert out[..ptr] == was;
  }

  // One character.
  method Write(out: array<char>, at: nat, c: char) returns (ptr: nat)
    requires at < out.Length
    modifies out
    ensures ptr == at + 1 && out[..ptr] == old(out[..at]) + [c]
  {
    out[at] := c;
    ptr := at + 1;
  }

  method WriteTabs(out: array<char>, at: nat, n: int) returns (ptr: nat)
    requires at + |Tabs(n)| <= out.Length
    modifies out
    ensures ptr == at + |Tabs(n)| && out[..ptr] == old(out[..at]) + Tabs(n)
  {
    ptr := at;
    var i := 0;
    while i < n
      invariant 0 <= i && (n > 0 ==> i <= n) && (n <= 0 ==> i == 0) && ptr == at + i
      invariant out[..ptr] == old(out[..at]) + Tabs(i)
    {
      ptr := Write(out, ptr, '\t');
      i := i + 1;
    }
    assert Tabs(n) == Tabs(i);
  }

  // The room that the entries of an array are given.
  function Room(entries: seq<string>, extra: nat): nat {
    if entries == [] then 0 else Room(entries[..|entries| - 1], extra) + |entries[|entries| - 1]| + extra
  }

  lemma RoomStarts(entries: seq<string>, extra: nat)
    ensures Room(entries[..0], extra) == 0
  {
  }

  lemma RoomStep(entries: seq<string>, i: nat, extra: nat)
    requires i < |entries|
    ensures Room(entries[..i + 1], extra) == Room(entries[..i], extra) + |entries[i]| + extra
  {
    assert entries[..i + 1][..i] == entries[..i];
  }

  lemma {:induction false} RoomGrows(entries: seq<string>, i: nat, extra: nat)
    requires i <= |entries|
    ensures Room(entries[..i], extra) <= Room(entries, extra)
    decreases |entries| - i
  {
    if i == |entries| {
      assert entries[..i] == entries;
    } else {
      RoomStep(entries, i, extra);
      RoomGrows(entries, i + 1, extra);
    }
  }

  function Unit(fmt: bool): nat {
    if fmt then 1 else 0
  }

  // Lines 401-402: one entry of an array and what separates it from the next.
  function EntryText(entry: string, last: bool, fmt: bool): string {
    entry + if last then "" else "," + if fmt then " " else ""
  }

  // What is left of an array from entry `i` on.
  function ArrayFrom(entries: seq<string>, i: nat, fmt: bool): string
    requires i <= |entries|
  {
    if i == |entries| then "]" else ArrayRest(entries, i, fmt)
  }

  lemma NextEntry(entries: seq<string>, i: nat, fmt: bool)
    requires i < |entries|
    ensures ArrayFrom(entries, i, fmt) == EntryText(entries[i], i == |entries| - 1, fmt) + ArrayFrom(entries, i + 1, fmt)
  {
  }

  method ComposeEntry(out: array<char>, at: nat, entry: string, last: bool, fmt: bool) returns (ptr: nat)
    requires at + |entry| + 2 + Unit(fmt) < out.Length
    modifies out
    ensures ptr <= at + |entry| + 2 + Unit(fmt)
    ensures out[..ptr] == old(out[..at]) + EntryText(entry, last, fmt)
  {
    ghost var start := out[..at];
    ptr := StrCpy(out, at, entry);
    if !last {
      ptr := Write(out, ptr, ',');
      if fmt {
        ptr := Write(out, ptr, ' ');
      }
      ghost var now := out[..ptr];
      out[ptr] := '\0';
      assert out[..ptr] == now == start + EntryText(entry, last, fmt);
    } else {
      assert out[..ptr] == start + EntryText(entry, last, fmt);
    }
  }

  // Lines 396-406: the output of an array, in `len` bytes.
  method ComposeArray(entries: seq<string>, len: nat, fmt: bool) returns (text: string)
    requires entries != [] && len == 5 + Room(entries, 2 + Unit(fmt))
    ensures text == ArrayText(entries, fmt)
  {
    hide Room, ArrayRest, EntryText, ArrayFrom, ArrayText;
    var out, n, extra := new char[len], |entries|, 2 + Unit(fmt);
    var ptr := Write(out, 0, '[');
    ghost var opening := out[..ptr];
    out[ptr] := '\0';
    ArrayOpens(entries, extra, fmt);
    assert out[..ptr] == opening == "[";
    var i := 0;
    while i < n
      invariant 0 <= i <= n && 0 <= ptr <= 1 + Room(entries[..i], extra) < len - 3
      invariant out[..ptr] + ArrayFrom(entries, i, fmt) == ArrayText(entries, fmt)
    {
      RoomStep(entries, i, extra);
      RoomGrows(entries, i + 1, extra);
      NextEntry(entries, i, fmt);
      ghost var was, next := out[..ptr], ArrayFrom(entries, i + 1, fmt);
      ptr := ComposeEntry(out, ptr, entries[i], i == n - 1, fmt);
      assert was + (EntryText(entries[i], i == n - 1, fmt) + next) == out[..ptr] + next;
      i := i + 1;
    }
    ArrayCloses(entries, fmt);
    text := CloseArray(out, ptr);
  }

  method CloseArray(out: array<char>, at: nat) returns (text: string)
    requires at + 2 <= out.Length
    modifies out
    ensures text == old(out[..at]) + "]"
  {
    var ptr := Write(out, at, ']');
    ghost var now := out[..ptr];
    out[ptr] := '\0';
    assert out[..ptr] == now;
    text := out[..ptr];
  }

  lemma ArrayOpens(entries: seq<string>, extra: nat, fmt: bool)
    requires entries != []
    ensures Room(entries[..0], extra) == 0 && "[" + ArrayFrom(entries, 0, fmt) == ArrayText(entries, fmt)
  {
  }

  lemma ArrayCloses(entries: seq<string>, fmt: bool)
    ensures ArrayFrom(entries, |entries|, fmt) == "]"
  {
  }

  // The room for the members of an object whose members stand at `depth`.
  function Extra(depth: nat, fmt: bool): nat {
    2 + if fmt then 2 + depth else 0
  }

  function Pairs(names: seq<string>, entries: seq<string>): (r: seq<string>)
    requires |names| == |entries|
    ensures |r| == |names|
  {
    seq(|names|, (k: nat) requires k < |names| => names[k] + entries[k])
  }

  lemma PairAt(names: seq<string>, entries: seq<string>, i: nat)
    requires i < |names| == |entries|
    ensures |Pairs(names, entries)[i]| == |names[i]| + |entries[i]|
  {
  }

  // Lines 495-510. `depth` is already that of the members.
  method ComposeObject(names: seq<string>, entries: seq<string>, len: nat, depth: nat, fmt: bool) returns (text: string)
    requires |names| == |entries| > 0 && depth > 0
    requires len == 7 + (if fmt then depth else 0) + Room(Pairs(names, entries), Extra(depth, fmt))
    ensures text == ObjectText(names, entries, depth - 1, fmt)
  {
    hide ObjectRest, ObjectText, Tabs, Room, MemberLine, ObjectFrom, Extra, Pairs;
    var out, n, extra := new char[len], |entries|, Extra(depth, fmt);
    ghost var pairs := Pairs(names, entries);
    var ptr := OpenObject(out, fmt);
    ObjectOpens(names, entries, extra, depth, fmt);
    var i := 0;
    while i < n
      invariant 0 <= i <= n && 0 <= ptr <= 1 + Unit(fmt) + Room(pairs[..i], extra) < len
      invariant out[..ptr] + ObjectFrom(names, entries, i, depth - 1, fmt) == ObjectText(names, entries, depth - 1, fmt)
    {
      RoomStep(pairs, i, extra);
      RoomGrows(pairs, i + 1, extra);
      PairAt(names, entries, i);
      NextMember(names, entries, i, depth - 1, fmt);
      ghost var was, next := out[..ptr], ObjectFrom(names, entries, i + 1, depth - 1, fmt);
      ptr := ComposeMember(out, ptr, names[i], entries[i], i == n - 1, depth, fmt);
      assert was + (MemberLine(names[i], entries[i], i == n - 1, depth, fmt) + next) == out[..ptr] + next;
      i := i + 1;
    }
    RoomGrows(pairs, n, extra);
    text := CloseObject(out, ptr, depth, fmt);
    ObjectCloses(names, entries, depth - 1, fmt);
  }

  // Line 496.
  method OpenObject(out: array<char>, fmt: bool) returns (ptr: nat)
    requires out.Length > 2
    modifies out
    ensures ptr == 1 + Unit(fmt) && out[..ptr] == "{" + if fmt then "\n" else ""
  {
    ptr := Write(out, 0, '{');
    if fmt {
      ptr := Write(out, ptr, '\n');
    }
    ghost var opening := out[..ptr];
    out[ptr] := '\0';
    assert out[..ptr] == opening;
  }

  // Lines 509-510.
  method CloseObject(out: array<char>, at: nat, depth: nat, fmt: bool) returns (text: string)
    requires depth > 0 && at + (if fmt then depth else 0) + 2 < out.Length
    modifies out
    ensures text == old(out[..at]) + ((if fmt then Tabs(depth - 1) else "") + "}")
  {
    hide Tabs;
    TabsLength(depth - 1);
    var ptr := at;
    if fmt {
      ptr := WriteTabs(out, ptr, depth - 1);
    }
    ptr := Write(out, ptr, '}');
    ghost var now := out[..ptr];
    out[ptr] := '\0';
    assert out[..ptr] == now;
    text := out[..ptr];
  }

  lemma ObjectOpens(names: seq<string>, entries: seq<string>, extra: nat, depth: nat, fmt: bool)
    requires |names| == |entries| > 0 && depth > 0
    ensures Room(Pairs(names, entries)[..0], extra) == 0
    ensures "{" + (if fmt then "\n" else "") + ObjectFrom(names, entries, 0, depth - 1, fmt)
         == ObjectText(names, entries, depth - 1, fmt)
  {
    hide ObjectRest;
  }

  lemma ObjectCloses(names: seq<string>, entries: seq<string>, depth: nat, fmt: bool)
    requires |names| == |entries|
    ensures ObjectFrom(names, entries, |entries|, depth, fmt) == (if fmt then Tabs(depth) else "") + "}"
  {
  }

  lemma TabsLength(n: nat)
    ensures |Tabs(n)| == n
  {
  }

  // One line of an object.
  function MemberLine(name: string, entry: string, last: bool, depth: nat, fmt: bool): string {
    (if fmt then Tabs(depth) else "") + name + ":" + (if fmt then "\t" else "") + entry
    + (if last then "" else ",") + (if fmt then "\n" else "")
  }

  // What is left of an object from member `i` on.
  function ObjectFrom(names: seq<string>, entries: seq<string>, i: nat, depth: nat, fmt: bool): string
    requires |names| == |entries| && i <= |entries|
  {
    if i == |entries| then (if fmt then Tabs(depth) else "") + "}" else ObjectRest(names, entries, i, depth, fmt)
  }

  lemma NextMember(names: seq<string>, entries: seq<string>, i: nat, depth: nat, fmt: bool)
    requires |names| == |entries| && i < |entries|
    ensures ObjectFrom(names, entries, i, depth, fmt)
         == MemberLine(names[i], entries[i], i == |entries| - 1, depth + 1, fmt) + ObjectFrom(names, entries, i + 1, depth, fmt)
  {
    hide Tabs;
  }

  // Lines 499-504.
  method ComposeMember(out: array<char>, at: nat, name: string, entry: string, last: bool, depth: nat, fmt: bool)
    returns (ptr: nat)
    requires at + |name| + |entry| + Extra(depth, fmt) < out.Length
    modifies out
    ensures ptr <= at + |name| + |entry| + Extra(depth, fmt)
    ensures out[..ptr] == old(out[..at]) + MemberLine(name, entry, last, depth, fmt)
  {
    hide Tabs, MemberStart;
    TabsLength(depth);
    MemberStartLength(name, depth, fmt);
    ghost var start := out[..at];
    ptr := ComposeStart(out, at, name, depth, fmt);
    ptr := StrCpy(out, ptr, entry);
    if !last {
      ptr := Write(out, ptr, ',');
    }
    if fmt {
      ptr := Write(out, ptr, '\n');
    }
    ghost var now := out[..ptr];
    out[ptr] := '\0';
    MemberInParts(start, name, entry, last, depth, fmt);
    assert out[..ptr] == now;
  }

  // What comes before the value.
  function MemberStart(name: string, depth: nat, fmt: bool): string {
    (if fmt then Tabs(depth) else "") + name + ":" + (if fmt then "\t" else "")
  }

  lemma MemberStartLength(name: string, depth: nat, fmt: bool)
    ensures |MemberStart(name, depth, fmt)| == |name| + 1 + if fmt then depth + 1 else 0
  {
    TabsLength(depth);
    hide Tabs;
  }

  lemma MemberInParts(start: string, name: string, entry: string, last: bool, depth: nat, fmt: bool)
    ensures start + MemberStart(name, depth, fmt) + entry + (if last then "" else ",") + (if fmt then "\n" else "")
         == start + MemberLine(name, entry, last, depth, fmt)
    ensures forall s: string :: s + "" == s
  {
    hide Tabs;
  }

  method ComposeStart(out: array<char>, at: nat, name: string, depth: nat, fmt: bool) returns (ptr: nat)
    requires at + |MemberStart(name, depth, fmt)| <= out.Length
    modifies out
    ensures ptr == at + |MemberStart(name, depth, fmt)|
    ensures out[..ptr] == old(out[..at]) + MemberStart(name, depth, fmt)
  {
    hide Tabs;
    TabsLength(depth);
    ptr := at;
    if fmt {
      ptr := WriteTabs(out, ptr, depth);
    }
    ptr := StrCpy(out, ptr, name);
    ptr := Write(out, ptr, ':');
    if fmt {
      ptr := Write(out, ptr, '\t');
    }
  }

  // Lines 456-464.
  method EmptyObject(depth: nat, fmt: bool) returns (text: string)
    ensures text == ObjectText([], [], depth, fmt)
  {
    hide Tabs;
    var out := new char[if fmt then depth + 4 else 3];
    var ptr := Write(out, 0, '{');
    if fmt {
      ptr := Write(out, ptr, '\n');
      TabsRoom(depth);
      ptr := WriteTabs(out, ptr, depth - 1);
    }
    ptr := Write(out, ptr, '}');
    ghost var now := out[..ptr];
    out[ptr] := '\0';
    assert out[..ptr] == now;
    text := out[..ptr];
  }

  lemma TabsRoom(depth: nat)
    ensures |Tabs(depth - 1)| <= depth
  {
  }

  // `print_value`: the text, made with no write outside a buffer, at any depth in both modes.
  method PrintValue(t: Json, depth: nat, fmt: bool) returns (text: string)
    requires Printable(t)
    ensures text == Print(t, depth, fmt)
    decreases t, 1
  {
    match t {
      case Null => text := "null";
      case False => text := "false";
      case True => text := "true";
      case Number(x) => text := PrintNumber(x.Floor);
      case String(chars) => {
        var out := PrintStringPtr(chars);
        text := out[..out.Length - 1];
      }
      case Array(items) => text := PrintArrayText(t, depth, fmt);
      case Object(members) => text := PrintObjectText(t, depth, fmt);
    }
  }

  // `print_array`
  method PrintArrayText(t: Json, depth: nat, fmt: bool) returns (text: string)
    requires t.Array? && Printable(t)
    ensures text == Print(t, depth, fmt)
    decreases t, 0
  {
    hide Print;
    PrintArray(t, depth, fmt);
    var items := t.items;
    if items == [] {
      return "[]";
    }
    var entries: seq<string>, len, i := [], 5, 0;
    ghost var all := Entries(items, depth + 1, fmt);
    while i < |items|
      invariant 0 <= i <= |items| && entries == all[..i] && len == 5 + Room(entries, 2 + Unit(fmt))
    {
      var ret := PrintValue(items[i], depth + 1, fmt);
      RoomStep(all, i, 2 + Unit(fmt));
      entries := entries + [ret];
      len := len + |ret| + 2 + (if fmt then 1 else 0);
      i := i + 1;
    }
    assert entries == all;
    text := ComposeArray(entries, len, fmt);
  }

  // `print_object`
  method PrintObjectText(t: Json, depth: nat, fmt: bool) returns (text: string)
    requires t.Object? && Printable(t)
    ensures text == Print(t, depth, fmt)
    decreases t, 0
  {
    hide Print, ObjectText, StringText, Room;
    PrintObject(t, depth, fmt);
    var members := t.members;
    if members == [] {
      text := EmptyObject(depth, fmt);
      assert Names(members) == [] && Entries(Items(members), depth + 1, fmt) == [];
      return;
    }
    var names: seq<string>, entries: seq<string>, len, i := [], [], 7, 0;
    var inner := depth + 1;
    if fmt {
      len := len + inner;
    }
    ghost var start := len;
    ghost var allNames, all := Names(members), Entries(Items(members), inner, fmt);
    ghost var pairs := Pairs(allNames, all);
    RoomStarts(pairs, Extra(inner, fmt));
    while i < |members|
      invariant 0 <= i <= |members| && names == allNames[..i] && entries == all[..i]
      invariant len == start + Room(pairs[..i], Extra(inner, fmt))
    {
      var out := PrintStringPtr(members[i].name);
      var str := out[..out.Length - 1];
      var ret := PrintValue(members[i].item, inner, fmt);
      RoomStep(pairs, i, Extra(inner, fmt));
      names, entries := names + [str], entries + [ret];
      len := len + |ret| + |str| + 2 + (if fmt then 2 + inner else 0);
      i := i + 1;
    }
    assert names == allNames && entries == all && pairs[..i] == pairs;
    text := ComposeObject(names, entries, len, inner, fmt);
  }

  // ----------------------------------------------------------------------- parsing

  // `skip`
  method SkipBlanks(start: string) returns (r: string)
    ensures r == Skip(start)
  {
    r := start;
    while r != "" && r[0] as int <= 32
      invariant Skip(r) == Skip(start)
      decreases |r|
    {
      r := r[1..];
    }
  }

  // `do n=(n*10.0)+(*num++ -'0'); while (*num>='0' && *num<='9');`, when there is a first digit.
  method ReadMore(num: string, n0: real, ghost k0: nat) returns (n: real, rest: string, ghost k: nat)
    requires n0 == k0 as real
    ensures (k, rest) == ReadDigits(num, k0) && n == k as real
  {
    n, rest, k := n0, num, k0;
    while IsDigit(At(rest))
      invariant n == k as real && ReadDigits(rest, k) == ReadDigits(num, k0)
      decreases |rest|
    {
      n := n * 10.0 + (rest[0] as int - '0' as int) as real;
      k := k * 10 + (rest[0] as int - '0' as int);
      rest := rest[1..];
    }
  }

  // `parse_number`; `pow` is exact.
  method ParseNumber(num: string) returns (n: real, rest: string)
    ensures (n, rest) == ReadNumber(num)
  {
    hide ReadWhole, ReadFraction, ReadPower, Pow10;
    var sign, scale, exponent := 1.0, 0, 0;
    ghost var k: nat := 0;
    rest := num;
    if At(rest) == '-' {
      sign, rest := -1.0, rest[1..];
    }
    n, rest, k := ParseWhole(rest);
    n, scale, rest, k := ParseFraction(rest, n, k);
    exponent, rest := ParsePower(rest);
    SignLast(sign, n, Pow10(scale + exponent));
    n := sign * n * Pow10(scale + exponent);
    assert n == if sign == 1.0 then Scaled(k, scale + exponent) else -Scaled(k, scale + exponent);
  }

  // Lines 106-107.
  method ParseWhole(num: string) returns (n: real, rest: string, ghost k: nat)
    ensures (k, rest) == ReadWhole(num) && n == k as real
  {
    hide ReadDigits;
    n, rest, k := 0.0, num, 0;
    if At(rest) == '0' {
      rest := rest[1..];
    }
    if '1' <= At(rest) <= '9' {
      n, rest, k := ReadMore(rest, n, k);
    }
  }

  // Line 108.
  method ParseFraction(num: string, n0: real, ghost k0: nat) returns (n: real, scale: int, rest: string, ghost k: nat)
    requires n0 == k0 as real
    ensures (k, -scale, rest) == ReadFraction(num, k0) && n == k as real
  {
    hide ReadDigits;
    n, scale, rest, k := n0, 0, num, k0;
    if At(num) == '.' && |num| > 1 && IsDigit(num[1]) {
      n, rest, k := ReadMore(num[1..], n, k);
      scale := |rest| - (|num| - 1);
    }
  }

  // Lines 109-112.
  method ParsePower(num: string) returns (exponent: int, rest: string)
    ensures (exponent, rest) == ReadPower(num)
  {
    hide ReadDigits;
    var subscale: int, signsubscale: int := 0, 1;
    rest := num;
    if At(rest) == 'e' || At(rest) == 'E' {
      rest := rest[1..];
      if At(rest) == '+' {
        rest := rest[1..];
      } else if At(rest) == '-' {
        signsubscale, rest := -1, rest[1..];
      }
      assert |num| >= 2 ==> num[1..][1..] == num[2..];
      subscale, rest := ReadExponent(rest);
    }
    exponent := subscale * signsubscale;
  }

  // The digits of the exponent.
  method ReadExponent(num: string) returns (subscale: nat, rest: string)
    ensures (subscale, rest) == ReadDigits(num, 0)
  {
    subscale, rest := 0, num;
    while IsDigit(At(rest))
      invariant ReadDigits(rest, subscale) == ReadDigits(num, 0)
      decreases |rest|
    {
      subscale := subscale * 10 + (rest[0] as int - '0' as int);
      rest := rest[1..];
    }
  }

  lemma SignLast(sign: real, n: real, p: real)
    ensures sign == 1.0 ==> sign * n * p == n * p
    ensures sign == -1.0 ==> sign * n * p == -(n * p)
  {
  }

  // `parse_value`, on any text; `Undefined` when a string leaves the text or its buffer.
  method ParseValue(value: string) returns (r: Parsed<Json>)
    ensures r == Parse(value)
    decreases |value|, 1
  {
    hide Unescape, ReadNumber, ParseItems, ParseMembers;
    if StartsWith(value, "null") {
      return Got(Null, value[4..]);
    }
    if StartsWith(value, "false") {
      return Got(False, value[5..]);
    }
    if StartsWith(value, "true") {
      return Got(True, value[4..]);
    }
    if At(value) == '\"' {
      var s := ReadString(value);
      return match s case Got(chars, rest) => Got(String(chars), rest) case Bad(ep) => Bad(ep) case Undefined => Undefined;
    }
    if At(value) == '-' || IsDigit(At(value)) {
      var x, rest := ParseNumber(value);
      return Got(Number(x), rest);
    }
    if At(value) == '[' {
      r := ParseArray(value);
      return;
    }
    if At(value) == '{' {
      r := ParseObject(value);
      return;
    }
    return Bad(value);
  }

  lemma {:induction false} SkipTwice(s: string)
    ensures Skip(Skip(s)) == Skip(s)
    ensures Skip(s) != "" ==> Skip(s)[0] as int > 32
  {
    if s != "" && s[0] as int <= 32 { SkipTwice(s[1..]); }
  }

  function Prepend<T>(a: seq<T>, r: Parsed<seq<T>>): Parsed<seq<T>> {
    if r.Got? then Got(a + r.value, r.rest) else r
  }

  lemma PrependTwice<T>(a: seq<T>, b: seq<T>, r: Parsed<seq<T>>)
    ensures Prepend(a, Prepend(b, r)) == Prepend(a + b, r)
  {
    if r.Got? { assert a + (b + r.value) == a + b + r.value; }
  }

  // What is left to do once `items` are read and `after` follows them.
  function ItemsFrom(items: seq<Json>, after: string): Parsed<seq<Json>> {
    if At(after) == ',' then Prepend(items, ParseItems(after[1..]))
    else if At(after) == ']' then Got(items, after[1..]) else Bad(after)
  }

  function MembersFrom(members: seq<Member>, after: string): Parsed<seq<Member>> {
    if At(after) == ',' then Prepend(members, ParseMembers(after[1..]))
    else if At(after) == '}' then Got(members, after[1..]) else Bad(after)
  }

  // One more item.
  lemma ItemsTurn(items: seq<Json>, s: string)
    ensures Prepend(items, ParseItems(s)) ==
            match Parse(Skip(s))
            case Got(item, rest) => ItemsFrom(items + [item], Skip(rest))
            case Bad(ep) => Bad(ep)
            case Undefined => Undefined
  {
    hide Parse;
    match Parse(Skip(s)) {
      case Got(item, rest) =>
        var after := Skip(rest);
        if At(after) == ',' { PrependTwice(items, [item], ParseItems(after[1..])); }
      case Bad(ep) =>
      case Undefined =>
    }
  }

  lemma MembersTurn(members: seq<Member>, s: string)
    ensures Prepend(members, ParseMembers(s)) ==
            match ParseMember(s)
            case Got(member, rest) => MembersFrom(members + [member], Skip(rest))
            case Bad(ep) => Bad(ep)
            case Undefined => Undefined
  {
    hide ParseMember;
    match ParseMember(s) {
      case Got(member, rest) =>
        var after := Skip(rest);
        if At(after) == ',' { PrependTwice(members, [member], ParseMembers(after[1..])); }
      case Bad(ep) =>
      case Undefined =>
    }
  }

  lemma PrependNothing<T>(r: Parsed<seq<T>>)
    ensures Prepend([], r) == r
  {
    if r.Got? { assert [] + r.value == r.value; }
  }

  // `parse_array`
  method ParseArray(value: string) returns (r: Parsed<Json>)
    requires At(value) == '['
    ensures r == Parse(value)
    decreases |value|, 0
  {
    ArrayIs(value);
    hide Parse, ParseItems, ItemsFrom;
    var v := SkipBlanks(value[1..]);
    if At(v) == ']' {
      return Got(Array([]), v[1..]);
    }
    SkipTwice(value[1..]);
    PrependNothing(ParseItems(value[1..]));
    ItemsTurn([], value[1..]);
    var s := SkipBlanks(v);
    var child := ParseValue(s);
    if !child.Got? {
      return child;
    }
    var items := [child.value];
    v := SkipBlanks(child.rest);
    while At(v) == ','
      invariant |v| < |value| && ParseItems(value[1..]) == ItemsFrom(items, v)
      decreases |v|
    {
      CommaIs(items, v);
      ItemsTurn(items, v[1..]);
      s := SkipBlanks(v[1..]);
      child := ParseValue(s);
      if !child.Got? {
        return child;
      }
      items := items + [child.value];
      v := SkipBlanks(child.rest);
    }
    NoCommaIs(items, v);
    if At(v) == ']' {
      return Got(Array(items), v[1..]);
    }
    return Bad(v);
  }

  lemma CommaIs(items: seq<Json>, v: string)
    requires At(v) == ','
    ensures ItemsFrom(items, v) == Prepend(items, ParseItems(v[1..]))
  {
  }

  lemma NoCommaIs(items: seq<Json>, v: string)
    requires At(v) != ','
    ensures ItemsFrom(items, v) == if At(v) == ']' then Got(items, v[1..]) else Bad(v)
  {
  }

  lemma ArrayIs(value: string)
    requires At(value) == '['
    ensures Parse(value) ==
            if At(Skip(value[1..])) == ']' then Got(Array([]), Skip(value[1..])[1..])
            else
              match ParseItems(value[1..])
              case Got(items, rest) => Got(Array(items), rest)
              case Bad(ep) => Bad(ep)
              case Undefined => Undefined
  {
    hide ParseItems, ParseMembers;
    NoKeyword(value);
  }

  lemma ObjectIs(value: string)
    requires At(value) == '{'
    ensures Parse(value) ==
            if At(Skip(value[1..])) == '}' then Got(Object([]), Skip(value[1..])[1..])
            else
              match ParseMembers(value[1..])
              case Got(members, rest) => Got(Object(members), rest)
              case Bad(ep) => Bad(ep)
              case Undefined => Undefined
  {
    hide ParseItems, ParseMembers;
    NoKeyword(value);
  }

  // A name, a colon and a value: what the loop of `parse_object` does each time.
  method ParseOneMember(start: string) returns (r: Parsed<Member>)
    ensures r == ParseMember(start)
    decreases |start|, 2
  {
    hide Parse, ParseString;
    var s := SkipBlanks(start);
    var name := ReadString(s);
    if !name.Got? {
      return match name case Bad(ep) => Bad(ep) case _ => Undefined;
    }
    var v := SkipBlanks(name.rest);
    if At(v) != ':' {
      return Bad(v);
    }
    s := SkipBlanks(v[1..]);
    var item := ParseValue(s);
    if !item.Got? {
      return match item case Bad(ep) => Bad(ep) case _ => Undefined;
    }
    return Got(Member(name.value, item.value), item.rest);
  }

  // `parse_object`
  method ParseObject(value: string) returns (r: Parsed<Json>)
    requires At(value) == '{'
    ensures r == Parse(value)
    decreases |value|, 0
  {
    ObjectIs(value);
    hide Parse, ParseMember, ParseMembers, MembersFrom;
    var v := SkipBlanks(value[1..]);
    if At(v) == '}' {
      return Got(Object([]), v[1..]);
    }
    PrependNothing(ParseMembers(value[1..]));
    MembersTurn([], value[1..]);
    var child := ParseOneMember(value[1..]);
    if !child.Got? {
      return match child case Bad(ep) => Bad(ep) case _ => Undefined;
    }
    var members := [child.value];
    v := SkipBlanks(child.rest);
    while At(v) == ','
      invariant |v| < |value| && ParseMembers(value[1..]) == MembersFrom(members, v)
      decreases |v|
    {
      MemberCommaIs(members, v);
      MembersTurn(members, v[1..]);
      child := ParseOneMember(v[1..]);
      if !child.Got? {
        return match child case Bad(ep) => Bad(ep) case _ => Undefined;
      }
      members := members + [child.value];
      v := SkipBlanks(child.rest);
    }
    NoMemberCommaIs(members, v);
    if At(v) == '}' {
      return Got(Object(members), v[1..]);
    }
    return Bad(v);
  }

  lemma MemberCommaIs(members: seq<Member>, v: string)
    requires At(v) == ','
    ensures MembersFrom(members, v) == Prepend(members, ParseMembers(v[1..]))
  {
  }

  lemma NoMemberCommaIs(members: seq<Member>, v: string)
    requires At(v) != ','
    ensures MembersFrom(members, v) == if At(v) == '}' then Got(members, v[1..]) else Bad(v)
  {
  }

  // ---------------------------------------------------------------------- minifying

  // What is left of the text when `json` has come to `r`.
  ghost predicate Unread(a: array<char>, text: string, r: nat)
    reads a
  {
    IsCString(text) && |text| < a.Length && r <= |text| && a[r..|text|] == text[r..] && a[|text|] == '\0'
  }

  lemma UnreadAt(a: array<char>, text: string, r: nat)
    requires Unread(a, text, r)
    ensures a[r] == At(text[r..]) && (a[r] == '\0' <==> r == |text|)
    ensures r < |text| ==> a[r] == text[r] && Unread(a, text, r + 1) && a[r + 1] == At(text[r + 1..])
  {
    if r < |text| {
      assert a[r..|text|][0] == a[r];
      assert a[r + 1..|text|] == a[r..|text|][1..];
      if r + 1 < |text| { assert a[r + 1..|text|][0] == a[r + 1]; }
    }
  }

  // `*into++=*json++`
  method CopyOne(a: array<char>, ghost text: string, json: nat, into: nat) returns (json': nat, into': nat)
    requires Unread(a, text, json) && into <= json < |text|
    modifies a
    ensures json' == json + 1 && into' == into + 1 && Unread(a, text, json')
    ensures a[..into'] == old(a[..into]) + [text[json]] && a[|text| + 1..] == old(a[|text| + 1..])
  {
    assert a[json..|text|][0] == a[json];
    a[into] := a[json];
    json', into' := json + 1, into + 1;
    assert a[json'..|text|] == old(a[json..|text|])[1..] == text[json'..];
  }

  // The branches of the loop.
  lemma MinifyAt(text: string, json: nat)
    requires json < |text| && Minify(text[json..]).Kept?
    ensures var s, c, t := text[json..], text[json], text[json + 1..];
            if IsSpace(c) then Minify(s) == Minify(t)
            else if c == '/' && At(t) == '/' then Minify(s) == Minify(AfterLine(t))
            else if c == '/' && At(t) == '*' then ClosedComment(t) && Minify(s) == Minify(AfterComment(t))
            else if c == '\"' then ClosedLiteral(t) && Minify(s) == Keep("\"" + Literal(t).0, Minify(Literal(t).1))
            else Minify(s) == Keep([c], Minify(t))
  {
    hide Literal, ClosedLiteral, ClosedComment, AfterComment, AfterLine;
    assert text[json..][1..] == text[json + 1..] && text[json..][..1] == [text[json]];
  }

  // A comment to the end of the line.
  method SkipLine(a: array<char>, ghost text: string, start: nat) returns (json: nat)
    requires Unread(a, text, start) && start < |text| && text[start] == '/'
    ensures Unread(a, text, json) && start < json && text[json..] == AfterLine(text[start + 1..])
  {
    UnreadAt(a, text, start);
    json := start + 1;
    UnreadAt(a, text, json);
    while a[json] != '\0' && a[json] != '\n'
      invariant start < json && Unread(a, text, json) && AfterLine(text[json..]) == AfterLine(text[start + 1..])
      invariant a[json] == At(text[json..]) && (a[json] == '\0' <==> json == |text|)
      decreases |text| - json
    {
      UnreadAt(a, text, json);
      assert text[json..][1..] == text[json + 1..];
      json := json + 1;
      UnreadAt(a, text, json);
    }
  }

  // A comment that is closed.
  method SkipComment(a: array<char>, ghost text: string, start: nat) returns (json: nat)
    requires Unread(a, text, start) && start < |text| && text[start] == '/' && ClosedComment(text[start + 1..])
    ensures Unread(a, text, json) && start < json && text[json..] == AfterComment(text[start + 1..])
  {
    UnreadAt(a, text, start);
    json := start + 1;
    UnreadAt(a, text, json);
    while a[json] != '\0' && !(a[json] == '*' && a[json + 1] == '/')
      invariant start < json && Unread(a, text, json) && ClosedComment(text[json..])
      invariant AfterComment(text[json..]) == AfterComment(text[start + 1..])
      invariant a[json] == At(text[json..]) && (a[json] == '\0' <==> json == |text|)
      invariant json < |text| ==> a[json + 1] == At(text[json + 1..])
      decreases |text| - json
    {
      UnreadAt(a, text, json);
      assert text[json..][1..] == text[json + 1..];
      json := json + 1;
      UnreadAt(a, text, json);
    }
    UnreadAt(a, text, json);
    assert text[json..][1..] == text[json + 1..];
    assert text[json..][2..] == text[json + 2..];
    UnreadAt(a, text, json + 1);
    json := json + 2;
  }

  // One character of a string, with the backslash before it.
  method CopyLiteralChar(a: array<char>, ghost text: string, start: nat, to: nat) returns (json: nat, into: nat)
    requires Unread(a, text, start) && to <= start < |text| && text[start] != '\"' && ClosedLiteral(text[start..])
    modifies a
    ensures start < json <= |text| < a.Length && into <= json && Unread(a, text, json) && ClosedLiteral(text[json..])
    ensures Literal(text[json..]).1 == Literal(text[start..]).1
    ensures a[..into] + Literal(text[json..]).0 == old(a[..to]) + Literal(text[start..]).0
    ensures a[|text| + 1..] == old(a[|text| + 1..])
  {
    hide Literal, ClosedLiteral;
    json, into := start, to;
    UnreadAt(a, text, json);
    LiteralAt(text, json);
    ghost var was := a[..into];
    if a[json] == '\\' {
      assert was + ([text[json]] + ([text[json + 1]] + Literal(text[json + 2..]).0))
          == was + [text[json]] + [text[json + 1]] + Literal(text[json + 2..]).0;
      json, into := CopyOne(a, text, json, into);
    } else {
      assert was + ([text[json]] + Literal(text[json + 1..]).0) == was + [text[json]] + Literal(text[json + 1..]).0;
    }
    json, into := CopyOne(a, text, json, into);
  }

  // A string, with its quotes.
  method CopyLiteral(a: array<char>, ghost text: string, start: nat, to: nat) returns (json: nat, into: nat)
    requires Unread(a, text, start) && to <= start < |text| && text[start] == '\"' && ClosedLiteral(text[start + 1..])
    modifies a
    ensures Unread(a, text, json) && start < json && into <= json
    ensures text[json..] == Literal(text[start + 1..]).1
    ensures a[..into] == old(a[..to]) + ("\"" + Literal(text[start + 1..]).0) && a[|text| + 1..] == old(a[|text| + 1..])
  {
    hide Unread, Literal, ClosedLiteral;
    UnreadInside(a, text, start);
    ghost var whole := old(a[..to]) + ("\"" + Literal(text[start + 1..]).0);
    json, into := CopyOne(a, text, start, to);
    UnreadAt(a, text, json);
    assert a[..into] + Literal(text[json..]).0 == whole;
    while a[json] != '\0' && a[json] != '\"'
      invariant start < json <= |text| < a.Length && into <= json && Unread(a, text, json) && ClosedLiteral(text[json..])
      invariant Literal(text[json..]).1 == Literal(text[start + 1..]).1
      invariant a[..into] + Literal(text[json..]).0 == whole
      invariant a[json] == At(text[json..]) && (a[json] == '\0' <==> json == |text|)
      invariant a[|text| + 1..] == old(a[|text| + 1..])
      decreases |text| - json
    {
      UnreadAt(a, text, json);
      json, into := CopyLiteralChar(a, text, json, into);
      UnreadAt(a, text, json);
    }
    LiteralAt(text, json);
    UnreadAt(a, text, json);
    json, into := CopyOne(a, text, json, into);
  }

  lemma LiteralAt(text: string, json: nat)
    requires json <= |text| && ClosedLiteral(text[json..])
    ensures json < |text|
    ensures text[json] == '\"' ==> Literal(text[json..]) == ("\"", text[json + 1..])
    ensures text[json] == '\\' ==>
              && json + 2 <= |text| && ClosedLiteral(text[json + 2..])
              && Literal(text[json..]) == ([text[json]] + ([text[json + 1]] + Literal(text[json + 2..]).0), Literal(text[json + 2..]).1)
    ensures text[json] != '\"' && text[json] != '\\' ==>
              && ClosedLiteral(text[json + 1..])
              && Literal(text[json..]) == ([text[json]] + Literal(text[json + 1..]).0, Literal(text[json + 1..]).1)
  {
    var s := text[json..];
    assert s[1..] == text[json + 1..];
    if s[0] == '\\' {
      assert s[2..] == text[json + 2..] && s[..2] == [text[json], text[json + 1]];
      assert [text[json], text[json + 1]] + Literal(s[2..]).0 == [text[json]] + ([text[json + 1]] + Literal(s[2..]).0);
    } else {
      assert s[..1] == [text[json]];
    }
  }

  // `cJSON_Minify`: the text is rewritten over itself, and what is written never passes what is
  // still to be read.
  method MinifyInPlace(a: array<char>, ghost text: string) returns (into: nat)
    requires Unread(a, text, 0) && Minify(text).Kept?
    modifies a
    ensures Holds(a, Minify(text).out) && into == |Minify(text).out| <= |text|
    ensures a[|text| + 1..] == old(a[|text| + 1..])
  {
    hide Minify, Literal, ClosedComment, ClosedLiteral, AfterComment, AfterLine, Unread;
    ghost var whole := Minify(text).out;
    var json := 0;
    into := 0;
    UnreadInside(a, text, 0);
    assert text[0..] == text && a[..0] + whole == whole;
    UnreadAt(a, text, json);
    while a[json] != '\0'
      invariant 0 <= into <= json <= |text| < a.Length && Unread(a, text, json)
      invariant Minify(text[json..]).Kept? && a[..into] + Minify(text[json..]).out == whole
      invariant a[json] == '\0' <==> json == |text|
      invariant a[|text| + 1..] == old(a[|text| + 1..])
      decreases |text| - json
    {
      MinifyAt(text, json);
      UnreadAt(a, text, json);
      ghost var was, rest := a[..into], text[json + 1..];
      if a[json] == ' ' || a[json] == '\t' || a[json] == '\r' || a[json] == '\n' {
        json := json + 1;
      } else if a[json] == '/' && a[json + 1] == '/' {
        json := SkipLine(a, text, json);
      } else if a[json] == '/' && a[json + 1] == '*' {
        json := SkipComment(a, text, json);
      } else if a[json] == '\"' {
        assert was + ("\"" + Literal(rest).0 + Minify(Literal(rest).1).out) == was + ("\"" + Literal(rest).0) + Minify(Literal(rest).1).out;
        json, into := CopyLiteral(a, text, json, into);
      } else {
        assert was + ([text[json]] + Minify(rest).out) == was + [text[json]] + Minify(rest).out;
        json, into := CopyOne(a, text, json, into);
      }
      UnreadInside(a, text, json);
      UnreadAt(a, text, json);
    }
    MinifyNothing(text[json..]);
    assert a[..into] == whole;
    a[into] := '\0';
    assert a[..into] == whole;
  }

  lemma UnreadInside(a: array<char>, text: string, r: nat)
    requires Unread(a, text, r)
    ensures r <= |text| < a.Length
  {
  }

  lemma MinifyNothing(s: string)
    requires s == ""
    ensures Minify(s) == Kept("")
  {
  }
}
