// JSON as other programs write it: blanks may stand before and after every token
// (utils/cJSON.c:324-350 and 411-444 skip them).

module JsonBlanks {
  import opened CStrings
  import opened JsonSpec
  import opened JsonRoundTrip
  import opened JsonNumbers
  import opened Wrappers

  // A tree with the text of its leaves, and the blanks.
  datatype Doc =
    | Plain(text: string, value: Json)
    | List(inner: string, entries: seq<Entry>)      // `inner` stands in an empty pair of brackets
    | Table(inner: string, fields: seq<Field>)

  datatype Entry = Entry(before: string, doc: Doc, after: string)

  datatype Field = Field(before: string, name: string, beforeColon: string, afterColon: string, doc: Doc, after: string)

  // The text of a leaf, whatever follows it.
  ghost predicate Reads(text: string, value: Json) {
    text != "" && Opens(text[0]) && forall post :: Delimits(post) ==> Parse(text + post) == Got(value, post)
  }

  // Keywords, strings and integers as cJSON prints them, and numbers in any of JSON's forms.
  lemma LeavesRead(t: Json)
    requires Printable(t) && !t.Array? && !t.Object?
    ensures Reads(Print(t, 0, false), t)
  {
    hide Parse, Print;
    PrintOpens(t, 0, false);
    forall post | Delimits(post) ensures Parse(Print(t, 0, false) + post) == Got(t, post) { ParseBack(t, 0, false, post); }
  }

  lemma NumeralsRead(negative: bool, whole: nat, fraction: string, p: Option<Power>) returns (x: real)
    requires AllDigits(fraction) && (p.Some? ==> WellFormed(p.value))
    ensures Reads(NumberText(negative, whole, fraction, p), Number(x))
  {
    hide Parse, Delimits, FractionText, PowerText, Digits;
    x := NumeralReads(negative, whole, fraction, p);
    DigitsThen(whole, "");
    var text := NumberText(negative, whole, fraction, p);
    assert !negative ==> text[0] == Digits(whole)[0];
  }

  ghost predicate WellSpaced(d: Doc) {
    match d
    case Plain(text, value) => Reads(text, value)
    case List(inner, entries) =>
      Blank(inner)
      && forall k :: 0 <= k < |entries| ==> Blank(entries[k].before) && Blank(entries[k].after) && WellSpaced(entries[k].doc)
    case Table(inner, fields) =>
      Blank(inner)
      && forall k :: 0 <= k < |fields| ==>
           && Blank(fields[k].before) && Blank(fields[k].beforeColon) && Blank(fields[k].afterColon) && Blank(fields[k].after)
           && IsCString(fields[k].name) && WellSpaced(fields[k].doc)
  }

  // Pieces with commas between them.
  function Join(pieces: seq<string>, i: nat): string
    requires i < |pieces|
    decreases |pieces| - i
  {
    pieces[i] + if i == |pieces| - 1 then "" else "," + Join(pieces, i + 1)
  }

  function EntryText(e: Entry, text: string): string {
    e.before + text + e.after
  }

  function FieldText(f: Field, text: string): string {
    f.before + StringText(f.name) + f.beforeColon + ":" + f.afterColon + text + f.after
  }

  function Text(d: Doc): string {
    match d
    case Plain(text, _) => text
    case List(inner, entries) =>
      if entries == [] then "[" + inner + "]"
      else "[" + Join(seq(|entries|, (k: nat) requires k < |entries| => EntryText(entries[k], Text(entries[k].doc))), 0) + "]"
    case Table(inner, fields) =>
      if fields == [] then "{" + inner + "}"
      else "{" + Join(seq(|fields|, (k: nat) requires k < |fields| => FieldText(fields[k], Text(fields[k].doc))), 0) + "}"
  }

  // What it is without them.
  function Tree(d: Doc): Json {
    match d
    case Plain(_, value) => value
    case List(_, entries) => Array(seq(|entries|, (k: nat) requires k < |entries| => Tree(entries[k].doc)))
    case Table(_, fields) => Object(seq(|fields|, (k: nat) requires k < |fields| => Member(fields[k].name, Tree(fields[k].doc))))
  }

  function EntryTexts(entries: seq<Entry>): (r: seq<string>)
    ensures |r| == |entries|
  {
    seq(|entries|, (k: nat) requires k < |entries| => EntryText(entries[k], Text(entries[k].doc)))
  }

  function FieldTexts(fields: seq<Field>): (r: seq<string>)
    ensures |r| == |fields|
  {
    seq(|fields|, (k: nat) requires k < |fields| => FieldText(fields[k], Text(fields[k].doc)))
  }

  function Trees(entries: seq<Entry>): (r: seq<Json>)
    ensures |r| == |entries|
  {
    seq(|entries|, (k: nat) requires k < |entries| => Tree(entries[k].doc))
  }

  function Members(fields: seq<Field>): (r: seq<Member>)
    ensures |r| == |fields|
  {
    seq(|fields|, (k: nat) requires k < |fields| => Member(fields[k].name, Tree(fields[k].doc)))
  }

  lemma TextOpens(d: Doc)
    requires WellSpaced(d)
    ensures Text(d) != "" && Opens(Text(d)[0])
  {
    hide Parse, Delimits;
  }

  // A blank, or what follows blanks, ends a number.
  lemma BlankDelimits(blank: string, after: string)
    requires Blank(blank) && Delimits(after)
    ensures Delimits(blank + after)
  {
    if blank == "" {
      assert blank + after == after;
    } else {
      assert (blank + after)[0] == blank[0];
    }
  }

  // Whatever blanks stand in the text of a tree, parsing it gives the tree and what follows.
  lemma {:induction false} ParseSpaced(d: Doc, post: string)
    requires WellSpaced(d) && Delimits(post)
    ensures Parse(Text(d) + post) == Got(Tree(d), post)
    decreases d, 1, 0
  {
    hide Parse, Print, Text, Tree;
    match d {
      case Plain(text, value) => PlainIs(d);
      case List(inner, entries) =>
        ListParts(d);
        if entries == [] { EmptyList(inner, post); } else { ParseList(d, post); }
      case Table(inner, fields) =>
        TableParts(d);
        if fields == [] { EmptyTable(inner, post); } else { ParseTable(d, post); }
    }
  }

  lemma PlainIs(d: Doc)
    requires d.Plain?
    ensures Text(d) == d.text && Tree(d) == d.value
  {
  }

  lemma ListParts(d: Doc)
    requires d.List? && WellSpaced(d)
    ensures d.entries == [] ==> Text(d) == "[" + d.inner + "]" && Tree(d) == Array([])
    ensures d.entries != [] ==> Text(d) == "[" + Join(EntryTexts(d.entries), 0) + "]" && Tree(d) == Array(Trees(d.entries))
  {
    hide Print, Join, EntryText;
    if d.entries == [] { assert Trees(d.entries) == []; }
    assert Tree(d) == Array(Trees(d.entries));
  }

  lemma TableParts(d: Doc)
    requires d.Table? && WellSpaced(d)
    ensures d.fields == [] ==> Text(d) == "{" + d.inner + "}" && Tree(d) == Object([])
    ensures d.fields != [] ==> Text(d) == "{" + Join(FieldTexts(d.fields), 0) + "}" && Tree(d) == Object(Members(d.fields))
  {
    hide Print, Join, FieldText;
    if d.fields == [] { assert Members(d.fields) == []; }
    assert Tree(d) == Object(Members(d.fields));
  }

  lemma EmptyList(inner: string, post: string)
    requires Blank(inner)
    ensures Parse("[" + inner + "]" + post) == Got(Array([]), post)
  {
    hide ParseItems, ParseMembers, ParseString, ReadNumber, StartsWith;
    var s := "[" + inner + "]" + post;
    NoKeyword(s);
    SkipBlank(inner, "]" + post);
    assert s[1..] == inner + ("]" + post) && ("]" + post)[1..] == post;
  }

  lemma EmptyTable(inner: string, post: string)
    requires Blank(inner)
    ensures Parse("{" + inner + "}" + post) == Got(Object([]), post)
  {
    hide ParseItems, ParseMembers, ParseString, ReadNumber, StartsWith;
    var s := "{" + inner + "}" + post;
    NoKeyword(s);
    SkipBlank(inner, "}" + post);
    assert s[1..] == inner + ("}" + post) && ("}" + post)[1..] == post;
  }

  lemma ListIs(body: string, items: seq<Json>, post: string)
    requires At(Skip(body + "]" + post)) != ']' && ParseItems(body + "]" + post) == Got(items, post)
    ensures Parse("[" + body + "]" + post) == Got(Array(items), post)
  {
    hide ParseItems, ParseMembers, ParseString, ReadNumber, StartsWith;
    var s := "[" + body + "]" + post;
    assert s[1..] == body + "]" + post;
    NoKeyword(s);
  }

  lemma TableIs(body: string, members: seq<Member>, post: string)
    requires At(Skip(body + "}" + post)) != '}' && ParseMembers(body + "}" + post) == Got(members, post)
    ensures Parse("{" + body + "}" + post) == Got(Object(members), post)
  {
    hide ParseItems, ParseMembers, ParseString, ReadNumber, StartsWith;
    var s := "{" + body + "}" + post;
    assert s[1..] == body + "}" + post;
    NoKeyword(s);
  }

  lemma ParseList(d: Doc, post: string)
    requires d.List? && d.entries != [] && WellSpaced(d)
    ensures Parse(Text(d) + post) == Got(Tree(d), post)
    decreases d, 0, |if d.List? then d.entries else []| + 1
  {
    hide Text, Tree, Parse, Join, ParseItems, Print, EntryTexts, Trees;
    ParseEntries(d, 0, post);
    FirstEntryOpens(d, post);
    ListParts(d);
    assert Trees(d.entries)[0..] == Trees(d.entries);
    ListIs(Join(EntryTexts(d.entries), 0), Trees(d.entries), post);
  }

  lemma FirstEntryOpens(d: Doc, post: string)
    requires d.List? && d.entries != [] && WellSpaced(d)
    ensures At(Skip(Join(EntryTexts(d.entries), 0) + "]" + post)) != ']'
  {
    var e := d.entries[0];
    var text := Text(e.doc);
    TextOpens(e.doc);
    var whole := Join(EntryTexts(d.entries), 0) + "]" + post;
    hide Text, Join;
    assert e.before + text <= whole by { StartsWithEntry(d.entries, post); }
    var tail := whole[|e.before + text|..];
    assert whole == e.before + (text + tail);
    assert (text + tail)[0] == text[0];
    SkipBlank(e.before, text + tail);
  }

  lemma StartsWithEntry(entries: seq<Entry>, post: string)
    requires entries != []
    ensures entries[0].before + Text(entries[0].doc) <= Join(EntryTexts(entries), 0) + "]" + post
  {
    hide Text;
  }

  // One item, its blanks, and what follows it.
  lemma SpacedItem(s: string, before: string, text: string, item: Json, blank: string, after: string)
    requires Blank(before) && Blank(blank) && At(text + (blank + after)) as int > 32 && At(after) as int > 32
    requires Parse(text + (blank + after)) == Got(item, blank + after) && s == before + (text + (blank + after))
    ensures At(after) == ']' ==> ParseItems(s) == Got([item], after[1..])
    ensures At(after) == ',' && ParseItems(after[1..]).Got? ==>
              ParseItems(s) == Got([item] + ParseItems(after[1..]).value, ParseItems(after[1..]).rest)
  {
    hide Parse;
    SkipBlank(before, text + (blank + after));
    SkipBlank(blank, after);
  }

  lemma ParseEntries(d: Doc, i: nat, post: string)
    requires d.List? && WellSpaced(d) && i < |d.entries|
    ensures ParseItems(Join(EntryTexts(d.entries), i) + "]" + post) == Got(Trees(d.entries)[i..], post)
    decreases d, 0, |if d.List? then d.entries else []| - i
  {
    hide Parse, ParseItems, Text, Tree, Join, Print, EntryTexts;
    var entries, e := d.entries, d.entries[i];
    var text, tree := Text(e.doc), Tree(e.doc);
    var last := i == |entries| - 1;
    var after := if last then "]" + post else "," + (Join(EntryTexts(entries), i + 1) + "]" + post);
    TextOpens(e.doc);
    BlankDelimits(e.after, after);
    ParseSpaced(e.doc, e.after + after);
    if !last { ParseEntries(d, i + 1, post); }
    JoinedEntry(entries, i, post);
    var s := Join(EntryTexts(entries), i) + "]" + post;
    assert (text + (e.after + after))[0] == text[0];
    SpacedItem(s, e.before, text, tree, e.after, after);
    if last {
      assert after[1..] == post;
      assert Trees(entries)[i..] == [tree];
    } else {
      assert after[1..] == Join(EntryTexts(entries), i + 1) + "]" + post;
      assert Trees(entries)[i..] == [tree] + Trees(entries)[i + 1..];
    }
  }

  lemma JoinedEntry(entries: seq<Entry>, i: nat, post: string)
    requires i < |entries| && forall k :: 0 <= k < |entries| ==> WellSpaced(entries[k].doc)
    ensures var e := entries[i];
            var after := if i == |entries| - 1 then "]" + post else "," + (Join(EntryTexts(entries), i + 1) + "]" + post);
            Join(EntryTexts(entries), i) + "]" + post == e.before + (Text(e.doc) + (e.after + after))
  {
    hide Text;
  }

  // The same of a table.
  lemma ParseTable(d: Doc, post: string)
    requires d.Table? && d.fields != [] && WellSpaced(d)
    ensures Parse(Text(d) + post) == Got(Tree(d), post)
    decreases d, 0, |if d.Table? then d.fields else []| + 1
  {
    hide Text, Tree, Parse, Join, ParseMembers, Print, FieldTexts, Members;
    ParseFields(d, 0, post);
    FirstFieldOpens(d.fields, post);
    TableParts(d);
    assert Members(d.fields)[0..] == Members(d.fields);
    TableIs(Join(FieldTexts(d.fields), 0), Members(d.fields), post);
  }

  lemma FirstFieldOpens(fields: seq<Field>, post: string)
    requires fields != [] && Blank(fields[0].before) && forall k :: 0 <= k < |fields| ==> WellSpaced(fields[k].doc)
    ensures At(Skip(Join(FieldTexts(fields), 0) + "}" + post)) != '}'
  {
    var f := fields[0];
    hide Text, EscapeAll, Join;
    var tail := StartsWithField(fields, post);
    SkipBlank(f.before, "\"" + tail);
  }

  lemma StartsWithField(fields: seq<Field>, post: string) returns (tail: string)
    requires fields != [] && forall k :: 0 <= k < |fields| ==> WellSpaced(fields[k].doc)
    ensures Join(FieldTexts(fields), 0) + "}" + post == fields[0].before + ("\"" + tail)
  {
    hide Text, EscapeAll, Join;
    var f := fields[0];
    var text := Text(f.doc);
    JoinedField(fields, 0, post);
    var after := if |fields| == 1 then "}" + post else "," + (Join(FieldTexts(fields), 1) + "}" + post);
    var rest := f.beforeColon + (":" + (f.afterColon + (text + (f.after + after))));
    tail := EscapeAll(f.name) + "\"" + rest;
    assert StringText(f.name) + rest == "\"" + tail;
  }

  lemma ParseFields(d: Doc, i: nat, post: string)
    requires d.Table? && WellSpaced(d) && i < |d.fields|
    ensures ParseMembers(Join(FieldTexts(d.fields), i) + "}" + post) == Got(Members(d.fields)[i..], post)
    decreases d, 0, |if d.Table? then d.fields else []| - i
  {
    hide Parse, ParseMembers, ParseMember, Text, Tree, Join, Print, StringText, FieldTexts;
    var fields, f := d.fields, d.fields[i];
    var text, member := Text(f.doc), Member(f.name, Tree(f.doc));
    var last := i == |fields| - 1;
    var after := if last then "}" + post else "," + (Join(FieldTexts(fields), i + 1) + "}" + post);
    TextOpens(f.doc);
    BlankDelimits(f.after, after);
    ParseSpaced(f.doc, f.after + after);
    if !last { ParseFields(d, i + 1, post); }
    JoinedField(fields, i, post);
    var s := Join(FieldTexts(fields), i) + "}" + post;
    SpacedField(f, text, Tree(f.doc), f.after + after);
    MembersStep(s, member, f.after, after);
    if last {
      assert after[1..] == post;
      assert Members(fields)[i..] == [member];
    } else {
      assert after[1..] == Join(FieldTexts(fields), i + 1) + "}" + post;
      assert Members(fields)[i..] == [member] + Members(fields)[i + 1..];
    }
  }

  lemma JoinedField(fields: seq<Field>, i: nat, post: string)
    requires i < |fields| && forall k :: 0 <= k < |fields| ==> WellSpaced(fields[k].doc)
    ensures var f := fields[i];
            var after := if i == |fields| - 1 then "}" + post else "," + (Join(FieldTexts(fields), i + 1) + "}" + post);
            Join(FieldTexts(fields), i) + "}" + post == Spelled(f, Text(f.doc), f.after + after)
  {
    hide Text, StringText;
  }

  // A field and what follows it, token by token.
  function Spelled(f: Field, text: string, after: string): string {
    f.before + (StringText(f.name) + (f.beforeColon + (":" + (f.afterColon + (text + after)))))
  }

  lemma SpacedField(f: Field, text: string, tree: Json, after: string)
    requires Blank(f.before) && Blank(f.beforeColon) && Blank(f.afterColon) && IsCString(f.name)
    requires text != "" && Opens(text[0]) && Parse(text + after) == Got(tree, after)
    ensures ParseMember(Spelled(f, text, after)) == Got(Member(f.name, tree), after)
  {
    hide Parse, ParseString, EscapeAll;
    var value := text + after;
    var colon := ":" + (f.afterColon + value);
    var rest := f.beforeColon + colon;
    assert value[0] == text[0];
    SkipBlank(f.before, StringText(f.name) + rest);
    ParseStringBack(f.name, rest);
    SkipBlank(f.beforeColon, colon);
    assert colon[1..] == f.afterColon + value;
    SkipBlank(f.afterColon, value);
  }

  // The whole of a text, with blanks before and after it as well.
  lemma BlanksDoNotMatter(d: Doc, lead: string, trail: string)
    requires WellSpaced(d) && Blank(lead) && Blank(trail)
    ensures ParseText(lead + Text(d) + trail, true) == Got(Tree(d), "")
  {
    TextOpens(d);
    NothingDelimits(trail);
    ParseSpaced(d, trail);
    hide Parse, Text, Tree;
    assert lead + Text(d) + trail == lead + (Text(d) + trail);
    assert (Text(d) + trail)[0] == Text(d)[0];
    SkipBlank(lead, Text(d) + trail);
    SkipAll(trail);
  }

  lemma NothingDelimits(trail: string)
    requires Blank(trail)
    ensures Delimits(trail)
  {
  }

  lemma {:induction false} SkipAll(s: string)
    requires Blank(s)
    ensures Skip(s) == ""
  {
    if s != "" { SkipAll(s[1..]); }
  }
}
