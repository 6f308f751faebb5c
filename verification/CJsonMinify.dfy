// `cJSON_Minify` (utils/cJSON.c:586-601): what it keeps of a text, that it takes the formatted
// print of a tree to the unformatted one, and that it can be done in place.

module JsonMinify {
  import opened CStrings
  import opened JsonSpec
  import opened JsonRoundTrip

  // `Overrun` when a comment or a string is not closed: the program then reads on past the
  // terminator.
  datatype Minified = Kept(out: string) | Overrun

  function Keep(s: string, m: Minified): (r: Minified)
    ensures r.Kept? <==> m.Kept?
    ensures r.Kept? ==> r.out == s + m.out
  {
    if m.Overrun? then Overrun else Kept(s + m.out)
  }

  predicate IsSpace(c: char) {
    c == ' ' || c == '\t' || c == '\r' || c == '\n'
  }

  // A `//` comment ends before the line break.
  function AfterLine(s: string): (r: string)
    ensures |r| <= |s|
  {
    if s == "" || s[0] == '\n' then s else AfterLine(s[1..])
  }

  // A closed `/*` comment, from the point where its end is looked for.
  predicate ClosedComment(s: string) {
    s != "" && ((s[0] == '*' && |s| > 1 && s[1] == '/') || ClosedComment(s[1..]))
  }

  function AfterComment(s: string): (r: string)
    requires ClosedComment(s)
    ensures |r| < |s|
  {
    if s[0] == '*' && |s| > 1 && s[1] == '/' then s[2..] else AfterComment(s[1..])
  }

  // A string literal after its opening quote: what is copied, and what follows.
  predicate ClosedLiteral(s: string) {
    s != "" && (s[0] == '\"' || (if s[0] == '\\' then |s| > 1 && ClosedLiteral(s[2..]) else ClosedLiteral(s[1..])))
  }

  function Literal(s: string): (r: (string, string))
    requires ClosedLiteral(s)
    ensures |r.1| < |s|
  {
    if s[0] == '\"' then ("\"", s[1..])
    else
      var n := if s[0] == '\\' then 2 else 1;
      var (kept, rest) := Literal(s[n..]);
      (s[..n] + kept, rest)
  }

  function Minify(s: string): Minified
    decreases |s|
  {
    if s == "" then Kept("")
    else if IsSpace(s[0]) then Minify(s[1..])
    else if s[0] == '/' && At(s[1..]) == '/' then Minify(AfterLine(s[1..]))
    else if s[0] == '/' && At(s[1..]) == '*' then
      if ClosedComment(s[1..]) then Minify(AfterComment(s[1..])) else Overrun
    else if s[0] == '\"' then
      if ClosedLiteral(s[1..]) then var (kept, rest) := Literal(s[1..]); Keep("\"" + kept, Minify(rest)) else Overrun
    else Keep(s[..1], Minify(s[1..]))
  }

  // ------------------------------------------------------------- printed trees

  predicate Copied(s: string) {
    forall k :: 0 <= k < |s| ==> !IsSpace(s[k]) && s[k] != '/' && s[k] != '\"'
  }

  lemma {:induction false} CopiesText(s: string, post: string)
    requires Copied(s)
    ensures Minify(s + post) == Keep(s, Minify(post))
  {
    if s == "" {
      assert s + post == post;
      assert Minify(post).Kept? ==> "" + Minify(post).out == Minify(post).out;
    } else {
      CopiesText(s[1..], post);
      assert (s + post)[1..] == s[1..] + post && (s + post)[..1] == s[..1];
      assert Minify(post).Kept? ==> s[..1] + (s[1..] + Minify(post).out) == s + Minify(post).out;
    }
  }

  lemma {:induction false} DropsBlank(s: string, post: string)
    requires forall k :: 0 <= k < |s| ==> IsSpace(s[k])
    ensures Minify(s + post) == Minify(post)
  {
    if s == "" {
      assert s + post == post;
    } else {
      DropsBlank(s[1..], post);
      assert (s + post)[1..] == s[1..] + post;
    }
  }

  lemma KeepTwice(a: string, b: string, m: Minified)
    ensures Keep(a, Keep(b, m)) == Keep(a + b, m)
  {
    if m.Kept? { assert a + (b + m.out) == (a + b) + m.out; }
  }

  // An escaped character holds no quote that ends the literal.
  lemma LiteralOne(c: char, tail: string)
    requires ClosedLiteral(tail)
    ensures var s := Escape(c) + tail;
            ClosedLiteral(s) && Literal(s) == (Escape(c) + Literal(tail).0, Literal(tail).1)
  {
    hide Literal, ClosedLiteral;
    if Plain(c) {
      LiteralPlain([c], tail);
    } else if EscapeLetter(c) != 'u' {
      LiteralPair(EscapeLetter(c), tail);
    } else {
      HexPlain(c as int / 16);
      HexPlain(c as int % 16);
      var four := "00" + [HexDigit(c as int / 16), HexDigit(c as int % 16)];
      LiteralPlain(four, tail);
      LiteralPair('u', four + tail);
      assert ['\\', 'u'] + (four + tail) == Escape(c) + tail;
      assert ['\\', 'u'] + (four + Literal(tail).0) == Escape(c) + Literal(tail).0;
    }
  }

  lemma LiteralPair(c: char, tail: string)
    requires ClosedLiteral(tail)
    ensures var s := ['\\', c] + tail;
            ClosedLiteral(s) && Literal(s) == (['\\', c] + Literal(tail).0, Literal(tail).1)
  {
    var s := ['\\', c] + tail;
    assert s[2..] == tail && s[..2] == ['\\', c];
  }

  lemma HexPlain(n: nat)
    requires n < 16
    ensures Plain(HexDigit(n))
  {
  }

  lemma {:induction false} LiteralPlain(s: string, tail: string)
    requires ClosedLiteral(tail) && forall k :: 0 <= k < |s| ==> Plain(s[k])
    ensures ClosedLiteral(s + tail) && Literal(s + tail) == (s + Literal(tail).0, Literal(tail).1)
  {
    if s == "" {
      assert s + tail == tail && "" + Literal(tail).0 == Literal(tail).0;
    } else {
      LiteralPlain(s[1..], tail);
      assert (s + tail)[1..] == s[1..] + tail && (s + tail)[..1] + s[1..] == s;
      assert (s + tail)[..1] + (s[1..] + Literal(tail).0) == s + Literal(tail).0;
    }
  }

  lemma LiteralEnd(post: string)
    ensures ClosedLiteral("\"" + post) && Literal("\"" + post) == ("\"", post)
  {
    assert ("\"" + post)[1..] == post;
  }

  lemma {:induction false} LiteralText(chars: string, post: string)
    ensures var s := EscapeAll(chars) + "\"" + post;
            ClosedLiteral(s) && Literal(s) == (EscapeAll(chars) + "\"", post)
  {
    hide Escape, Literal, ClosedLiteral;
    if chars == "" {
      LiteralEnd(post);
      assert EscapeAll(chars) + "\"" + post == "\"" + post && EscapeAll(chars) + "\"" == "\"";
    } else {
      var more := EscapeAll(chars[1..]);
      LiteralText(chars[1..], post);
      LiteralOne(chars[0], more + "\"" + post);
      assert EscapeAll(chars) + "\"" + post == Escape(chars[0]) + (more + "\"" + post);
      assert EscapeAll(chars) + "\"" == Escape(chars[0]) + (more + "\"");
    }
  }

  lemma KeepsString(chars: string, post: string)
    ensures Minify(StringText(chars) + post) == Keep(StringText(chars), Minify(post))
  {
    hide EscapeAll, Literal, ClosedLiteral;
    LiteralText(chars, post);
    assert (StringText(chars) + post)[1..] == EscapeAll(chars) + "\"" + post;
    assert "\"" + (EscapeAll(chars) + "\"") == StringText(chars);
  }

  lemma {:induction false} DigitsCopied(n: nat)
    ensures Copied(Digits(n))
  {
    if n >= 10 { DigitsCopied(n / 10); }
  }

  lemma {:induction false} TabsSpace(n: int)
    ensures forall k :: 0 <= k < |Tabs(n)| ==> IsSpace(Tabs(n)[k])
  {
    if n > 0 { TabsSpace(n - 1); }
  }

  // ... of a tree within a text.
  lemma {:induction false} MinifyTree(t: Json, depth: nat, fmt: bool, post: string)
    requires Printable(t)
    ensures Minify(Print(t, depth, fmt) + post) == Keep(Print(t, depth, false), Minify(post))
    decreases t, 1, 0
  {
    hide Minify, StringText;
    match t {
      case Null => CopiesText("null", post);
      case False => CopiesText("false", post);
      case True => CopiesText("true", post);
      case Number(x) =>
        DigitsCopied(if x.Floor < 0 then -x.Floor else x.Floor);
        CopiesText(Decimal(x.Floor), post);
      case String(chars) => KeepsString(chars, post);
      case Array(items) => MinifyArray(t, depth, fmt, post);
      case Object(members) => MinifyObject(t, depth, fmt, post);
    }
  }

  lemma MinifyArray(t: Json, depth: nat, fmt: bool, post: string)
    requires t.Array? && Printable(t)
    ensures Minify(Print(t, depth, fmt) + post) == Keep(Print(t, depth, false), Minify(post))
    decreases t, 0, |if t.Array? then t.items else []| + 1
  {
    hide Minify, Print, ArrayRest;
    PrintArray(t, depth, fmt);
    PrintArray(t, depth, false);
    var entries, bare := Entries(t.items, depth + 1, fmt), Entries(t.items, depth + 1, false);
    if t.items == [] {
      CopiesText("[]", post);
    } else {
      MinifyItems(t, depth, fmt, 0, post);
      var rest := ArrayRest(entries, 0, fmt) + post;
      assert Print(t, depth, fmt) + post == "[" + rest;
      CopiesText("[", rest);
      KeepTwice("[", ArrayRest(bare, 0, false), Minify(post));
    }
  }

  lemma MinifyItems(t: Json, depth: nat, fmt: bool, i: nat, post: string)
    requires t.Array? && Printable(t) && i < |t.items|
    ensures Minify(ArrayRest(Entries(t.items, depth + 1, fmt), i, fmt) + post)
         == Keep(ArrayRest(Entries(t.items, depth + 1, false), i, false), Minify(post))
    decreases t, 0, |if t.Array? then t.items else []| - i
  {
    hide Minify, Print;
    var items := t.items;
    var entries, bare := Entries(items, depth + 1, fmt), Entries(items, depth + 1, false);
    if i == |items| - 1 {
      var after := "]" + post;
      assert ArrayRest(entries, i, fmt) + post == entries[i] + after;
      MinifyTree(items[i], depth + 1, fmt, after);
      CopiesText("]", post);
      KeepTwice(bare[i], "]", Minify(post));
    } else {
      var sep, more := if fmt then " " else "", ArrayRest(entries, i + 1, fmt) + post;
      var after := "," + (sep + more);
      assert ArrayRest(entries, i, fmt) + post == entries[i] + after;
      MinifyTree(items[i], depth + 1, fmt, after);
      CopiesText(",", sep + more);
      DropsBlank(sep, more);
      MinifyItems(t, depth, fmt, i + 1, post);
      var m, tail := Minify(post), ArrayRest(bare, i + 1, false);
      KeepTwice(",", tail, m);
      KeepTwice(bare[i], "," + tail, m);
      assert bare[i] + ("," + tail) == ArrayRest(bare, i, false);
    }
  }

  lemma MinifyObject(t: Json, depth: nat, fmt: bool, post: string)
    requires t.Object? && Printable(t)
    ensures Minify(Print(t, depth, fmt) + post) == Keep(Print(t, depth, false), Minify(post))
    decreases t, 0, |if t.Object? then t.members else []| + 1
  {
    hide Minify, Print, ObjectRest, Tabs;
    PrintObject(t, depth, fmt);
    PrintObject(t, depth, false);
    var members := t.members;
    var names, entries, bare := Names(members), Entries(Items(members), depth + 1, fmt), Entries(Items(members), depth + 1, false);
    if members == [] {
      var lead := if fmt then "\n" + Tabs(depth - 1) else "";
      TabsSpace(depth - 1);
      assert Print(t, depth, fmt) + post == "{" + (lead + ("}" + post));
      CopiesText("{", lead + ("}" + post));
      DropsBlank(lead, "}" + post);
      CopiesText("}", post);
      KeepTwice("{", "}", Minify(post));
    } else {
      var lead, rest := if fmt then "\n" else "", ObjectRest(names, entries, 0, depth, fmt) + post;
      MinifyMembers(t, depth, fmt, 0, post);
      assert Print(t, depth, fmt) + post == "{" + (lead + rest);
      CopiesText("{", lead + rest);
      DropsBlank(lead, rest);
      KeepTwice("{", ObjectRest(names, bare, 0, depth, false), Minify(post));
    }
  }

  // One member, up to what follows its value.
  lemma MinifyMember(t: Json, depth: nat, fmt: bool, i: nat, after: string)
    requires t.Object? && Printable(t) && i < |t.members|
    ensures var name, item := StringText(t.members[i].name), t.members[i].item;
            && Minify((if fmt then Tabs(depth + 1) else "") + MemberText(name, Print(item, depth + 1, fmt), fmt) + after)
               == Keep(MemberText(name, Print(item, depth + 1, false), false), Minify(after))
    decreases t, 0, 0
  {
    hide Minify, Print, StringText, Tabs;
    var name, item := StringText(t.members[i].name), t.members[i].item;
    var tabs, tab := if fmt then Tabs(depth + 1) else "", if fmt then "\t" else "";
    var entry, bare := Print(item, depth + 1, fmt), Print(item, depth + 1, false);
    var value := entry + after;
    assert tabs + MemberText(name, entry, fmt) + after == tabs + (name + (":" + (tab + value)));
    TabsSpace(depth + 1);
    DropsBlank(tabs, name + (":" + (tab + value)));
    KeepsString(t.members[i].name, ":" + (tab + value));
    CopiesText(":", tab + value);
    DropsBlank(tab, value);
    MinifyTree(item, depth + 1, fmt, after);
    KeepTwice(":", bare, Minify(after));
    KeepTwice(name, ":" + bare, Minify(after));
    assert name + (":" + bare) == MemberText(name, bare, false);
  }

  lemma MinifyMembers(t: Json, depth: nat, fmt: bool, i: nat, post: string)
    requires t.Object? && Printable(t) && i < |t.members|
    ensures Minify(ObjectRest(Names(t.members), Entries(Items(t.members), depth + 1, fmt), i, depth, fmt) + post)
         == Keep(ObjectRest(Names(t.members), Entries(Items(t.members), depth + 1, false), i, depth, false), Minify(post))
    decreases t, 0, |if t.Object? then t.members else []| - i
  {
    hide Minify, Print, ObjectRest, MemberText, StringText, Tabs;
    var members := t.members;
    var names, entries, bare := Names(members), Entries(Items(members), depth + 1, fmt), Entries(Items(members), depth + 1, false);
    var tabs, newline := if fmt then Tabs(depth + 1) else "", if fmt then "\n" else "";
    var whole, m := ObjectRest(names, entries, i, depth, fmt), Minify(post);
    assert "" + whole == whole;
    assert "" + ObjectRest(names, bare, i, depth, false) + "" == ObjectRest(names, bare, i, depth, false);
    if i == |members| - 1 {
      var close := newline + (if fmt then Tabs(depth) else "");
      LastMember(names, entries, depth, fmt, "", post);
      LastMember(names, bare, depth, false, "", "");
      MinifyMember(t, depth, fmt, i, close + ("}" + post));
      TabsSpace(depth);
      DropsBlank(close, "}" + post);
      CopiesText("}", post);
      KeepTwice(MemberText(names[i], bare[i], false), "}", m);
      assert "" + tabs == tabs;
      LastUnformatted(MemberText(names[i], bare[i], false));
    } else {
      var more := ObjectRest(names, entries, i + 1, depth, fmt) + post;
      var tail := ObjectRest(names, bare, i + 1, depth, false);
      OtherMember(names, entries, i, depth, fmt, "", post);
      OtherMember(names, bare, i, depth, false, "", "");
      assert newline + ObjectRest(names, entries, i + 1, depth, fmt) + post == newline + more;
      MinifyMember(t, depth, fmt, i, "," + (newline + more));
      CopiesText(",", newline + more);
      DropsBlank(newline, more);
      MinifyMembers(t, depth, fmt, i + 1, post);
      KeepTwice(",", tail, m);
      KeepTwice(MemberText(names[i], bare[i], false), "," + tail, m);
      assert "" + tabs == tabs;
      OtherUnformatted(MemberText(names[i], bare[i], false), tail);
    }
  }

  lemma LastUnformatted(member: string)
    ensures "" + "" + member + ("" + "" + ("}" + "")) == member + "}"
  {
  }

  lemma OtherUnformatted(member: string, tail: string)
    ensures "" + "" + member + ("," + ("" + tail + "")) == member + ("," + tail)
  {
  }

  // Minifying either print of a tree gives its unformatted print.
  lemma MinifyPrint(t: Json, fmt: bool)
    requires Printable(t)
    ensures Minify(Print(t, 0, fmt)) == Kept(Print(t, 0, false))
  {
    assert Minify("") == Kept("");
    hide Print, Minify;
    MinifyTree(t, 0, fmt, "");
    assert Print(t, 0, fmt) + "" == Print(t, 0, fmt) && Print(t, 0, false) + "" == Print(t, 0, false);
  }
}
