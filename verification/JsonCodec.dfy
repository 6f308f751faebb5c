// The dictionary codec (utils/jsoncodec.h:27-138, utils/jl777str.h:161-172 and 336-350). A byte
// is a character below 256; zlib is a pair of functions that obeys its contract.

module JsonCodecSpec {
  import opened Wrappers
  import opened CStrings

  // A dictionary has a place for 128 words; a missing one is empty.
  type Dictionary = d: seq<string> | |d| <= 128

  function Word(dict: Dictionary, i: nat): string {
    if i < |dict| then dict[i] else ""
  }

  // ------------------------------------------------------------------- stripping

  predicate Stripped(c: char) {
    c == ' ' || c == '\n' || c == '\r' || c == '\t' || c == '\"'
  }

  // `stripstr`
  function Strip(s: string): (r: string)
    ensures |r| <= |s|
  {
    if s == "" then "" else Strip(s[..|s| - 1]) + if Stripped(s[|s| - 1]) then "" else [s[|s| - 1]]
  }

  // ---------------------------------------------------------------- substitution

  // A quoted name with its colon, as the expansion writes it.
  function Quoted(word: string): string {
    "\"" + word + "\":"
  }

  // Line 41 for one word: it stands at the beginning, with its quotes and a colon.
  predicate Matches(s: string, word: string) {
    |word| + 3 <= |s| && s[..|word| + 3] == Quoted(word)
  }

  // The first word that matches. The search ends at a word of no length.
  function Find(s: string, dict: Dictionary, j: nat): (r: Option<nat>)
    ensures r.Some? ==> r.value < |dict| && dict[r.value] != "" && Matches(s, dict[r.value])
    decreases |dict| - j
  {
    if j >= |dict| || dict[j] == "" then None
    else if Matches(s, dict[j]) then Some(j)
    else Find(s, dict, j + 1)
  }

  // `0x80 | j`
  function Code(j: nat): char
    requires j < 128
  {
    (128 + j) as char
  }

  // The word that begins the text, when it begins with one quote.
  function Named(s: string, dict: Dictionary): (r: Option<nat>)
    ensures r.Some? ==> r.value < |dict| && Matches(s, dict[r.value]) && |dict[r.value]| + 3 <= |s|
  {
    if At(s) == '\"' && At(s[1..]) != '\"' then Find(s, dict, 0) else None
  }

  // Lines 36-54.
  function Substitute(s: string, dict: Dictionary): (r: string)
    ensures |r| <= |s|
    decreases |s|
  {
    if s == "" then ""
    else
      var j := Named(s, dict);
      if j.Some? then [Code(j.value)] + Substitute(s[|dict[j.value]| + 3..], dict)
      else s[..1] + Substitute(s[1..], dict)
  }

  // Lines 71-85.
  function ExpandOne(c: char, dict: Dictionary): string {
    if c as int >= 128 then Quoted(Word(dict, c as int % 128)) else [c]
  }

  function Expand(s: string, dict: Dictionary): string {
    if s == "" then "" else ExpandOne(s[0], dict) + Expand(s[1..], dict)
  }

  predicate SevenBit(s: string) {
    forall k :: 0 <= k < |s| ==> s[k] as int < 128
  }

  lemma ExpandStep(c: char, s: string, dict: Dictionary)
    ensures Expand([c] + s, dict) == ExpandOne(c, dict) + Expand(s, dict)
  {
    assert ([c] + s)[1..] == s;
  }

  lemma CodeExpands(j: nat, dict: Dictionary)
    requires j < |dict|
    ensures ExpandOne(Code(j), dict) == Quoted(dict[j])
  {
    hide Quoted;
    assert (128 + j) % 128 == j;
  }

  // Expanding after one step of the substitution.
  lemma ExpandAfterStep(s: string, dict: Dictionary)
    requires s != ""
    ensures var j := Named(s, dict);
            && (j.Some? ==> Expand(Substitute(s, dict), dict)
                            == s[..|dict[j.value]| + 3] + Expand(Substitute(s[|dict[j.value]| + 3..], dict), dict))
            && (j.None? ==> Expand(Substitute(s, dict), dict) == ExpandOne(s[0], dict) + Expand(Substitute(s[1..], dict), dict))
  {
    hide Expand, Named, Quoted, ExpandOne, Code;
    var j := Named(s, dict);
    if j.Some? {
      CodeExpands(j.value, dict);
      ExpandStep(Code(j.value), Substitute(s[|dict[j.value]| + 3..], dict), dict);
    } else {
      ExpandStep(s[0], Substitute(s[1..], dict), dict);
      assert s[..1] == [s[0]];
    }
  }

  // Expanding what was substituted gives the text back.
  lemma {:induction false} ExpandSubstitute(s: string, dict: Dictionary)
    requires SevenBit(s)
    ensures Expand(Substitute(s, dict), dict) == s
    decreases |s|
  {
    hide Expand, Substitute, Named, Matches;
    if s == "" {
      NothingExpands(dict);
    } else {
      var j := Named(s, dict);
      var n := if j.Some? then |dict[j.value]| + 3 else 1;
      ExpandAfterStep(s, dict);
      ExpandSubstitute(s[n..], dict);
      assert s[..1] == [s[0]] && s == s[..n] + s[n..];
    }
  }

  lemma NothingExpands(dict: Dictionary)
    ensures Substitute("", dict) == "" && Expand("", dict) == ""
  {
  }

  // Expansion never shortens, and a character that is no 7-bit one makes it longer.
  lemma {:induction false} ExpandSubstituteGrows(s: string, dict: Dictionary)
    requires forall k :: 0 <= k < |dict| ==> SevenBit(dict[k])
    ensures |Expand(Substitute(s, dict), dict)| >= |s|
    ensures !SevenBit(s) ==> |Expand(Substitute(s, dict), dict)| > |s|
    decreases |s|
  {
    hide Expand, Substitute, Named, SevenBit, Matches, ExpandOne;
    if s == "" {
      NothingSevenBit();
    } else {
      var j := Named(s, dict);
      ExpandAfterStep(s, dict);
      if j.Some? {
        ExpandSubstituteGrows(s[|dict[j.value]| + 3..], dict);
        MatchIsSevenBit(s, dict[j.value]);
      } else {
        ExpandSubstituteGrows(s[1..], dict);
        OneExpands(s[0], dict);
        if s[0] as int < 128 { TailSevenBit(s); }
      }
    }
  }

  lemma OneExpands(c: char, dict: Dictionary)
    ensures |ExpandOne(c, dict)| >= (if c as int < 128 then 1 else 3)
  {
  }

  lemma NothingSevenBit()
    ensures SevenBit("")
  {
  }

  lemma TailSevenBit(s: string)
    requires s != "" && s[0] as int < 128
    ensures SevenBit(s[1..]) ==> SevenBit(s)
  {
    if SevenBit(s[1..]) {
      JoinSevenBit(s[..1], s[1..]);
      assert s[..1] + s[1..] == s;
    }
  }

  lemma JoinSevenBit(a: string, b: string)
    requires SevenBit(a) && SevenBit(b)
    ensures SevenBit(a + b)
  {
  }

  lemma MatchIsSevenBit(s: string, word: string)
    requires SevenBit(word) && Matches(s, word)
    ensures SevenBit(s[|word| + 3..]) ==> SevenBit(s)
  {
    var n := |word| + 3;
    if SevenBit(s[n..]) {
      JoinSevenBit(s[..n], s[n..]);
      assert s[..n] + s[n..] == s;
    }
  }

  // With a 7-bit dictionary, exactly the 7-bit texts survive.
  lemma SurvivesExactly(s: string, dict: Dictionary)
    requires forall k :: 0 <= k < |dict| ==> SevenBit(dict[k])
    ensures Expand(Substitute(s, dict), dict) == s <==> SevenBit(s)
  {
    if SevenBit(s) {
      ExpandSubstitute(s, dict);
    } else {
      ExpandSubstituteGrows(s, dict);
    }
  }

  // --------------------------------------------------------------- the whole codec

  lemma {:induction false} StripKeeps(s: string)
    ensures forall k :: 0 <= k < |Strip(s)| ==> !Stripped(Strip(s)[k])
    ensures SevenBit(s) ==> SevenBit(Strip(s))
  {
    if s != "" { StripKeeps(s[..|s| - 1]); }
  }

  lemma {:induction false} StripAgain(s: string)
    requires forall k :: 0 <= k < |s| ==> !Stripped(s[k])
    ensures Strip(s) == s
  {
    if s != "" {
      StripAgain(s[..|s| - 1]);
      assert s == s[..|s| - 1] + [s[|s| - 1]];
    }
  }

  // Stripping takes the quotes, so no word is ever found in stripped text.
  lemma {:induction false} NothingSubstituted(s: string, dict: Dictionary)
    requires forall k :: 0 <= k < |s| ==> s[k] != '\"'
    ensures Substitute(s, dict) == s
    decreases |s|
  {
    if s != "" {
      NothingSubstituted(s[1..], dict);
      assert s[..1] + s[1..] == s;
    }
  }

  // `compress2` into a buffer of a given size, and `uncompress` of a stretch of memory into one.
  datatype Zlib = Zlib(compress: string -> string, uncompress: (nat, string) -> Option<string>)

  // The end of the stream is found whatever follows it, and not in less than the stream.
  ghost predicate Lawful(z: Zlib) {
    && (forall x: string, junk: string, cap: nat :: |x| <= cap ==> z.uncompress(cap, z.compress(x) + junk) == Some(x))
    && (forall x: string, cap: nat, n: nat :: n < |z.compress(x)| ==> z.uncompress(cap, z.compress(x)[..n]) == None)
  }

  datatype Compressed = Compressed(encoded: string, sublen: nat, origlen: nat)

  // `encode_json`: the buffer has the length of the original text.
  function Encode(z: Zlib, text: string, dict: Dictionary): Option<Compressed> {
    var substr := Substitute(Strip(text), dict);
    var encoded := z.compress(substr);
    if |encoded| <= |text| then Some(Compressed(encoded, |substr|, |text|)) else None
  }

  // What lies at `encoded` for `n` bytes. `uncompress` is told the length of the substituted text
  // where it wants that of the compressed one, so it may see what follows in memory.
  function Memory(c: Compressed, n: nat, beyond: string): string {
    (c.encoded + beyond)[..if n <= |c.encoded| + |beyond| then n else |c.encoded| + |beyond|]
  }

  // `decode_json`
  function Decode(z: Zlib, c: Compressed, dict: Dictionary, beyond: string): Option<string> {
    var raw := z.uncompress(c.sublen, Memory(c, c.sublen, beyond));
    if raw.None? then None else Some(Expand(raw.value, dict))
  }

  // `clonestr` takes the empty string for something else.
  function Clone(s: string): string {
    if s == "" then "<nullstr>" else s
  }

  // `compare_jsontext` returns 0. Each copy is stripped to its own length.
  predicate SameJson(a: string, b: string) {
    Strip(Clone(a)) == Strip(Clone(b))
  }

  // Two texts compare equal when they strip to the same, and the empty one when the other strips to
  // the text that stands for it.
  lemma SameJsonExactly(a: string, b: string)
    ensures SameJson(a, b) <==>
            if a != "" && b != "" then Strip(a) == Strip(b) else a == b || Strip(if a == "" then b else a) == "<nullstr>"
  {
    StripClone();
    hide Strip;
  }

  // Decoding gives the stripped text, within the buffer of `origlen + 1` bytes, and it succeeds
  // exactly when compression made the stripped text no longer.
  lemma DecodeEncode(z: Zlib, text: string, dict: Dictionary, beyond: string)
    requires Lawful(z) && SevenBit(text)
    ensures var c, stripped := Encode(z, text, dict), Strip(text);
            && (c.Some? <==> |z.compress(stripped)| <= |text|)
            && (c.Some? ==>
                  && c.value.sublen == |stripped| && c.value.origlen == |text|
                  && Decode(z, c.value, dict, beyond)
                     == (if |z.compress(stripped)| <= |stripped| then Some(stripped) else None)
                  && |stripped| + 1 <= c.value.origlen + 1)
  {
    hide Expand, Substitute, Strip;
    StripKeeps(text);
    NothingSubstituted(Strip(text), dict);
    var stripped := Strip(text);
    ExpandSubstitute(stripped, dict);
    if Encode(z, text, dict).Some? {
      var c := Encode(z, text, dict).value;
      var memory := Memory(c, c.sublen, beyond);
      if |c.encoded| <= c.sublen {
        assert memory == c.encoded + memory[|c.encoded|..];
      } else {
        assert memory == c.encoded[..c.sublen];
      }
    }
  }

  // A lawful compressor leaves nothing of nothing.
  lemma NeverEmpty(z: Zlib, x: string)
    requires Lawful(z)
    ensures z.compress(x) != ""
  {
    var y := x + "a";
    assert z.uncompress(|y|, z.compress(x) + z.compress(y)) == Some(x);
    assert z.uncompress(|y|, z.compress(y) + "") == Some(y);
    assert z.compress(y) + "" == z.compress(y) == "" + z.compress(y);
  }

  // What is decoded compares equal to the original.
  lemma DecodedIsSameJson(z: Zlib, text: string, dict: Dictionary, beyond: string)
    requires Lawful(z) && SevenBit(text)
    requires Encode(z, text, dict).Some? && Decode(z, Encode(z, text, dict).value, dict, beyond).Some?
    ensures SameJson(text, Decode(z, Encode(z, text, dict).value, dict, beyond).value)
  {
    hide Encode, Decode, Lawful, Strip;
    DecodeEncode(z, text, dict, beyond);
    NeverEmpty(z, Strip(text));
    StripKeeps(text);
    StripAgain(Strip(text));
    assert Strip(text) != "" && text != "";
  }

  // By itself, though, a text that is all blanks differs from what it strips to.
  lemma StrippedIsSameJson(text: string)
    ensures SameJson(text, Strip(text)) <==> text == "" || Strip(text) != ""
  {
    hide Strip;
    StripKeeps(text);
    StripAgain(Strip(text));
    assert Strip("") == "" by { StripNothing(); }
    StripClone();
  }

  lemma StripNothing()
    ensures Strip("") == ""
  {
  }

  lemma StripClone()
    ensures Strip("<nullstr>") == "<nullstr>"
  {
    StripsNothing("<nullstr>");
  }

  lemma {:induction false} StripsNothing(s: string)
    requires forall k :: 0 <= k < |s| ==> !Stripped(s[k])
    ensures Strip(s) == s
  {
    if s != "" { StripsNothing(s[..|s| - 1]); }
  }
}

module JsonCodec {
  import opened JsonCodecSpec
  import opened Wrappers
  import opened CStrings

  // `stripstr`, in place. What is kept is written no further than what is read.
  method StripStr(buf: array<char>, len: nat) returns (j: nat)
    requires len < buf.Length
    modifies buf
    ensures j <= len && buf[..j] == Strip(old(buf[..len])) && buf[j] == '\0'
  {
    ghost var text := buf[..len];
    var i := 0;
    j := 0;
    assert text[..0] == "";
    while i < len
      invariant 0 <= i <= len && j <= i && buf[..j] == Strip(text[..i]) && buf[i..len] == text[i..]
    {
      assert buf[i..len][0] == buf[i] && text[..i + 1][..i] == text[..i];
      var c := buf[i];
      ghost var was := buf[..j];
      buf[j] := c;
      assert buf[..j] == was && buf[..j + 1] == was + [c];
      if buf[j] != ' ' && buf[j] != '\n' && buf[j] != '\r' && buf[j] != '\t' && buf[j] != '\"' {
        j := j + 1;
      }
      i := i + 1;
      assert buf[i..len] == text[i - 1..][1..] == text[i..];
    }
    assert text[..len] == text;
    buf[j] := '\0';
  }

  // `clonestr`
  method CloneStr(str: string) returns (clone: array<char>, len: nat)
    ensures fresh(clone) && len < clone.Length && clone[..len] == Clone(str)
  {
    var s := str;
    if s == "" {
      s := "<nullstr>";
    }
    len := |s|;
    clone := new char[len + 1];
    var i := 0;
    while i < len
      invariant 0 <= i <= len && clone[..i] == s[..i]
    {
      clone[i] := s[i];
      i := i + 1;
    }
    clone[len] := '\0';
    assert clone[..len] == s[..len] == s;
  }

  // `compare_jsontext`; `strcmp` tells the texts apart.
  method CompareJsontext(jsonA: string, jsonB: string) returns (retval: int)
    ensures retval == 0 <==> SameJson(jsonA, jsonB)
  {
    hide Strip, Clone;
    var strA, lenA := CloneStr(jsonA);
    var strB, lenB := CloneStr(jsonB);
    lenA := StripStr(strA, lenA);
    lenB := StripStr(strB, lenB);
    if lenA == lenB {
      retval := if strA[..lenA] == strB[..lenB] then 0 else 1;
    } else {
      retval := lenA as int - lenB as int;
    }
  }

  // Whether a word stands after the quote at `i`, as `strncmp` and the two tests find it.
  predicate WordAt(src: string, i: nat, word: string)
    requires i < |src|
  {
    && i + 1 + |word| + 2 <= |src| && src[i + 1..i + 1 + |word|] == word
    && src[i + 1 + |word|] == '\"' && src[i + 2 + |word|] == ':'
  }

  lemma WordAtMatches(src: string, i: nat, word: string)
    requires i < |src| && src[i] == '\"'
    ensures WordAt(src, i, word) <==> Matches(src[i..], word)
  {
    var s, n := src[i..], |word| + 3;
    if n <= |s| {
      assert s[..n] == [s[0]] + src[i + 1..i + 1 + |word|] + [src[i + 1 + |word|]] + [src[i + 2 + |word|]];
      if s[..n] == Quoted(word) {
        assert s[..n][1..1 + |word|] == word && s[..n][1 + |word|] == '\"' && s[..n][2 + |word|] == ':';
      }
    }
  }

  // Lines 40-47.
  method FindWord(src: string, i: nat, dict: Dictionary) returns (found: Option<nat>)
    requires i < |src| && src[i] == '\"'
    ensures found == Find(src[i..], dict, 0)
  {
    var j := 0;
    while j < |dict| && j < 128 && |dict[j]| > 0
      invariant 0 <= j <= |dict| && Find(src[i..], dict, j) == Find(src[i..], dict, 0)
      decreases |dict| - j
    {
      WordAtMatches(src, i, dict[j]);
      if WordAt(src, i, dict[j]) {
        return Some(j);
      }
      j := j + 1;
    }
    return None;
  }

  // Lines 36-55, from the stripped text to a buffer of its length and one.
  method SubstituteWords(src: string, dict: Dictionary) returns (substr: array<char>, k: nat)
    ensures fresh(substr) && substr.Length == |src| + 1
    ensures k == |Substitute(src, dict)| && substr[..k] == Substitute(src, dict) && substr[k] == '\0'
  {
    hide Substitute, Matches, Named;
    NothingLeft(dict);
    substr := new char[|src| + 1];
    var i := 0;
    k := 0;
    assert src[0..] == src && substr[..0] + Substitute(src, dict) == Substitute(src, dict);
    while i < |src|
      invariant 0 <= i <= |src| && k + |Substitute(src[i..], dict)| <= |src|
      invariant substr[..k] + Substitute(src[i..], dict) == Substitute(src, dict)
    {
      SubstituteAt(src, i, dict);
      ghost var was := substr[..k];
      var word := NamedWord(src, i, dict);
      if word.Some? {
        i := i + |dict[word.value]| + 3;
        substr[k] := Code(word.value);
      } else {
        substr[k] := src[i];
        i := i + 1;
      }
      assert substr[..k + 1] == was + [substr[k]];
      assert was + ([substr[k]] + Substitute(src[i..], dict)) == was + [substr[k]] + Substitute(src[i..], dict);
      k := k + 1;
    }
    assert src[i..] == "" && substr[..k] + "" == substr[..k];
    substr[k] := '\0';
    assert substr[..k] == Substitute(src, dict);
  }

  lemma NothingLeft(dict: Dictionary)
    ensures Substitute("", dict) == ""
  {
  }

  // Line 38.
  method NamedWord(src: string, i: nat, dict: Dictionary) returns (word: Option<nat>)
    requires i < |src|
    ensures word == Named(src[i..], dict)
  {
    if src[i] == '\"' && (i + 1 == |src| || src[i + 1] != '\"') {
      NamedIsFound(src, i, dict);
      word := FindWord(src, i, dict);
    } else {
      NamedIsNone(src, i, dict);
      word := None;
    }
  }

  lemma SubstituteAt(src: string, i: nat, dict: Dictionary)
    requires i < |src|
    ensures var j := Named(src[i..], dict);
            if j.Some? then
              && i + |dict[j.value]| + 3 <= |src|
              && Substitute(src[i..], dict) == [Code(j.value)] + Substitute(src[i + |dict[j.value]| + 3..], dict)
            else Substitute(src[i..], dict) == [src[i]] + Substitute(src[i + 1..], dict)
  {
    hide Find;
    var j := Named(src[i..], dict);
    if j.Some? {
      assert src[i..][|dict[j.value]| + 3..] == src[i + |dict[j.value]| + 3..];
    } else {
      assert src[i..][1..] == src[i + 1..] && src[i..][..1] == [src[i]];
    }
  }

  lemma NamedIsFound(src: string, i: nat, dict: Dictionary)
    requires i < |src| && src[i] == '\"' && (i + 1 == |src| || src[i + 1] != '\"')
    ensures Named(src[i..], dict) == Find(src[i..], dict, 0)
  {
    hide Find;
    assert src[i..][1..] == src[i + 1..];
  }

  lemma NamedIsNone(src: string, i: nat, dict: Dictionary)
    requires i < |src| && !(src[i] == '\"' && (i + 1 == |src| || src[i + 1] != '\"'))
    ensures Named(src[i..], dict) == None
  {
    assert src[i..][1..] == src[i + 1..];
  }

  // Lines 71-85, into a buffer that has the room.
  method ExpandWords(raw: string, dict: Dictionary, decoded: array<char>) returns (j: nat)
    requires |Expand(raw, dict)| < decoded.Length
    modifies decoded
    ensures j == |Expand(raw, dict)| && decoded[..j] == Expand(raw, dict) && decoded[j] == '\0'
  {
    hide ExpandOne;
    var i := 0;
    j := 0;
    assert raw[0..] == raw && decoded[..0] + Expand(raw, dict) == Expand(raw, dict);
    while i < |raw|
      invariant 0 <= i <= |raw| && j + |Expand(raw[i..], dict)| == |Expand(raw, dict)|
      invariant decoded[..j] + Expand(raw[i..], dict) == Expand(raw, dict)
    {
      assert raw[i..][1..] == raw[i + 1..];
      ghost var was := decoded[..j];
      j := WriteOne(raw[i], dict, decoded, j);
      assert was + (ExpandOne(raw[i], dict) + Expand(raw[i + 1..], dict)) == decoded[..j] + Expand(raw[i + 1..], dict);
      i := i + 1;
    }
    assert raw[i..] == "";
    decoded[j] := '\0';
  }

  method WriteOne(c: char, dict: Dictionary, decoded: array<char>, at: nat) returns (j: nat)
    requires at + |ExpandOne(c, dict)| <= decoded.Length
    modifies decoded
    ensures j == at + |ExpandOne(c, dict)| && decoded[..j] == old(decoded[..at]) + ExpandOne(c, dict)
  {
    hide Word;
    j := at;
    if c as int >= 128 {
      j := WriteQuoted(Word(dict, c as int % 128), decoded, at);
    } else {
      decoded[j] := c;
      j := j + 1;
    }
  }

  method WriteQuoted(word: string, decoded: array<char>, at: nat) returns (j: nat)
    requires at + |word| + 3 <= decoded.Length
    modifies decoded
    ensures j == at + |word| + 3 && decoded[..j] == old(decoded[..at]) + Quoted(word)
  {
    ghost var start := decoded[..at];
    decoded[at] := '\"';
    j := at + 1;
    var k := 0;
    assert decoded[..j] == start + "\"" + word[..0];
    while k < |word|
      invariant 0 <= k <= |word| && j == at + 1 + k && decoded[..j] == start + "\"" + word[..k]
    {
      decoded[j] := word[k];
      j, k := j + 1, k + 1;
    }
    ghost var now := decoded[..j];
    decoded[j] := '\"';
    decoded[j + 1] := ':';
    j := j + 2;
    assert decoded[..j] == now + "\":";
    assert now == start + "\"" + word;
  }
}
