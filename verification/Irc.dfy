/** The IRC line: message tags, prefix, command and parameters, and the 350-byte text split. */
module Irc {
  import opened Common
  import Text
  import Utf8

  // ----- Tag value escaping -----

  function EscapeChar(c: char): string {
    if c == ';' then "\\:"
    else if c == ' ' then "\\s"
    else if c == '\\' then "\\\\"
    else if c == '\r' then "\\r"
    else if c == '\n' then "\\n"
    else [c]
  }

  function Escape(value: string): string {
    if value == "" then "" else EscapeChar(value[0]) + Escape(value[1..])
  }

  /** The character an escape stands for; an unknown escape stands for itself. */
  function Unescaped(c: char): char {
    if c == ':' then ';'
    else if c == 's' then ' '
    else if c == 'r' then '\r'
    else if c == 'n' then '\n'
    else c
  }

  /** `escaped` says a backslash was just read; a trailing one is kept. */
  function UnescapeFrom(value: string, escaped: bool): string {
    if value == "" then (if escaped then "\\" else "")
    else if escaped then [Unescaped(value[0])] + UnescapeFrom(value[1..], false)
    else if value[0] == '\\' then UnescapeFrom(value[1..], true)
    else [value[0]] + UnescapeFrom(value[1..], false)
  }

  function Unescape(value: string): string {
    UnescapeFrom(value, false)
  }

  method UnescapeTag(value: string) returns (result: string)
    ensures result == Unescape(value)
  {
    result := "";
    var escaped := false;
    for i := 0 to |value|
      invariant result + UnescapeFrom(value[i..], escaped) == Unescape(value)
    {
      var c := value[i];
      ghost var before := result;
      ghost var was := escaped;
      assert value[i..][1..] == value[i + 1..];
      if escaped {
        result := result + [Unescaped(c)];
        escaped := false;
      } else if c == '\\' {
        escaped := true;
      } else {
        result := result + [c];
      }
      UnescapeStep(before, value[i..], was, result, escaped);
    }
    if escaped {
      result := result + "\\";
    }
  }

  /** Moving one finished character from the rest to the result changes nothing. */
  lemma UnescapeStep(before: string, value: string, was: bool, result: string, escaped: bool)
    requires value != ""
    requires escaped == (!was && value[0] == '\\')
    requires result == if was then before + [Unescaped(value[0])] else if escaped then before else before + [value[0]]
    ensures result + UnescapeFrom(value[1..], escaped) == before + UnescapeFrom(value, was)
  {
    var rest := UnescapeFrom(value[1..], escaped);
    if was {
      assert before + ([Unescaped(value[0])] + rest) == before + [Unescaped(value[0])] + rest;
    } else if !escaped {
      assert before + ([value[0]] + rest) == before + [value[0]] + rest;
    }
  }

  lemma UnescapeFirst(c: char, rest: string)
    ensures Unescape(EscapeChar(c) + rest) == [c] + Unescape(rest)
  {
    var e := EscapeChar(c);
    var s := e + rest;
    assert s[0] == e[0];
    if |e| == 2 {
      var t := s[1..];
      assert t[0] == e[1] && t[1..] == rest;
      assert UnescapeFrom(s, false) == UnescapeFrom(t, true);
      assert UnescapeFrom(t, true) == [Unescaped(e[1])] + UnescapeFrom(rest, false);
    } else {
      assert s[1..] == rest;
    }
  }

  lemma {:induction false} UnescapeEscaped(value: string)
    ensures Unescape(Escape(value)) == value
  {
    if value != "" {
      UnescapeEscaped(value[1..]);
      UnescapeFirst(value[0], Escape(value[1..]));
      assert value == [value[0]] + value[1..];
    }
  }

  /** An escape stands for the character it is written for, or for itself; a backslash at the end is kept. */
  lemma UnescapeMeans(c: char, rest: string)
    ensures c != '\\' ==> Unescape([c] + rest) == [c] + Unescape(rest)
    ensures var s := Unescape(['\\', c] + rest);
      && s != "" && s[1..] == Unescape(rest)
      && (forall d :: EscapeChar(d) == ['\\', c] ==> s[0] == d)
      && ((forall d :: EscapeChar(d) != ['\\', c]) ==> s[0] == c)
    ensures Unescape("\\") == "\\"
  {
    assert ([c] + rest)[1..] == rest;
    var s := ['\\', c] + rest;
    assert s[1..] == [c] + rest;
    assert UnescapeFrom([c] + rest, true) == [Unescaped(c)] + Unescape(rest);
    if Unescaped(c) != c {
      assert EscapeChar(Unescaped(c)) == ['\\', c];
    }
    assert "\\"[1..] == "";
  }

  /** The characters escaping removes from a value. */
  predicate IsDelimiter(c: char) {
    c == ';' || c == ' ' || c == '\r' || c == '\n'
  }

  lemma {:induction false} EscapedHasNoDelimiter(value: string)
    ensures forall i :: 0 <= i < |Escape(value)| ==> !IsDelimiter(Escape(value)[i])
  {
    if value != "" {
      EscapedHasNoDelimiter(value[1..]);
    }
  }

  // ----- The size of an escaped value -----

  function Count(s: string, c: char): nat {
    if s == "" then 0 else (if s[0] == c then 1 else 0) + Count(s[1..], c)
  }

  const ESCAPED_CHARS: string := "\\; \r\n"

  method TagWireSize(value: string) returns (size: nat)
    ensures size == Utf8.Size(Escape(value))
  {
    size := Utf8.Size(value);
    for i := 0 to |ESCAPED_CHARS|
      invariant size == Utf8.Size(value) + CountAll(value, ESCAPED_CHARS[..i])
    {
      assert ESCAPED_CHARS[..i + 1] == ESCAPED_CHARS[..i] + [ESCAPED_CHARS[i]];
      CountAllSnoc(value, ESCAPED_CHARS[..i], ESCAPED_CHARS[i]);
      size := size + Count(value, ESCAPED_CHARS[i]);
    }
    assert ESCAPED_CHARS[..|ESCAPED_CHARS|] == ESCAPED_CHARS;
    EscapedSize(value);
  }

  function CountAll(s: string, chars: string): nat {
    if chars == "" then 0 else CountAll(s, chars[..|chars| - 1]) + Count(s, chars[|chars| - 1])
  }

  lemma CountAllSnoc(s: string, chars: string, c: char)
    ensures CountAll(s, chars + [c]) == CountAll(s, chars) + Count(s, c)
  {
    assert (chars + [c])[..|chars|] == chars;
  }

  lemma CountEscaped(s: string)
    ensures CountAll(s, ESCAPED_CHARS)
         == Count(s, '\\') + Count(s, ';') + Count(s, ' ') + Count(s, '\r') + Count(s, '\n')
  {
    assert ESCAPED_CHARS[..4] == "\\; \r" && ESCAPED_CHARS[..4][..3] == "\\; ";
    assert ESCAPED_CHARS[..4][..3][..2] == "\\;" && ESCAPED_CHARS[..4][..3][..2][..1] == "\\";
    assert ESCAPED_CHARS[..4][..3][..2][..1][..0] == "";
    CountAllSnoc(s, "", '\\');
    CountAllSnoc(s, "\\", ';');
    CountAllSnoc(s, "\\;", ' ');
    CountAllSnoc(s, "\\; ", '\r');
    CountAllSnoc(s, "\\; \r", '\n');
    assert "\\; \r" + ['\n'] == ESCAPED_CHARS;
  }

  lemma {:induction false} EscapedSize(value: string)
    ensures Utf8.Size(Escape(value)) == Utf8.Size(value) + CountAll(value, ESCAPED_CHARS)
  {
    CountEscaped(value);
    if value != "" {
      EscapedSize(value[1..]);
      CountEscaped(value[1..]);
      Utf8.EncodeAppend(EscapeChar(value[0]), Escape(value[1..]));
      EscapedCharSize(value[0]);
    }
  }

  lemma EscapedCharSize(c: char)
    ensures Utf8.Size(EscapeChar(c)) == |Utf8.EncodeChar(c)| + if EscapeChar(c) == [c] then 0 else 1
  {
    var e := EscapeChar(c);
    assert e[1..] == "" || e[1..][1..] == "";
    assert Utf8.Encode(e) == Utf8.EncodeChar(e[0]) + Utf8.Encode(e[1..]);
  }

  // ----- Reading a line -----

  datatype Parted = Parted(head: string, found: bool, tail: string)

  /** str.partition on one character. */
  function PartitionChar(s: string, c: char): (p: Parted)
    ensures |p.head| <= |s|
    ensures p.found ==> |p.tail| < |s|
  {
    if s == "" then Parted("", false, "")
    else if s[0] == c then Parted("", true, s[1..])
    else
      var p := PartitionChar(s[1..], c);
      Parted([s[0]] + p.head, p.found, p.tail)
  }

  /** str.partition on the two characters that open the trailing parameter. */
  function PartitionTrailing(s: string): Parted {
    if |s| < 2 then Parted(s, false, "")
    else if s[0] == ' ' && s[1] == ':' then Parted("", true, s[2..])
    else
      var p := PartitionTrailing(s[1..]);
      Parted([s[0]] + p.head, p.found, p.tail)
  }

  /** str.split on one character. */
  function Split(s: string, c: char): (parts: seq<string>)
    ensures parts != []
    decreases |s|
  {
    var p := PartitionChar(s, c);
    if p.found then [p.head] + Split(p.tail, c) else [s]
  }

  function StripLineEnd(s: string): string {
    if s != "" && (s[|s| - 1] == '\r' || s[|s| - 1] == '\n') then StripLineEnd(s[..|s| - 1]) else s
  }

  /** str.upper on ASCII letters. */
  function Upper(s: string): string {
    seq(|s|, i requires 0 <= i < |s| =>
      if 'a' <= s[i] <= 'z' then (s[i] as int - 32) as char else s[i])
  }

  type TagMap = map<string, Option<string>>

  datatype Line = Line(tags: TagMap, prefix: Option<string>, command: string, params: seq<string>)

  datatype IrcError = EmptyLine

  function AddPair(tags: TagMap, pair: string): TagMap {
    var p := PartitionChar(pair, '=');
    tags[p.head := if p.found then Some(Unescape(p.tail)) else None]
  }

  /** A later pair replaces an earlier one with the same key. */
  function TagsOf(pairs: seq<string>): TagMap {
    if pairs == [] then map[] else AddPair(TagsOf(pairs[..|pairs| - 1]), pairs[|pairs| - 1])
  }

  function AfterTags(rest: string): (TagMap, string) {
    if rest != "" && rest[0] == '@' then
      var p := PartitionChar(rest, ' ');
      (TagsOf(Split(if p.head == "" then "" else p.head[1..], ';')), p.tail)
    else (map[], rest)
  }

  function AfterPrefix(rest: string): (Option<string>, string) {
    if rest != "" && rest[0] == ':' then
      var p := PartitionChar(rest[1..], ' ');
      (Some(p.head), p.tail)
    else (None, rest)
  }

  function Finish(tags: TagMap, prefix: Option<string>, rest: string): Result<Line, IrcError> {
    var p := PartitionTrailing(rest);
    var pieces := Text.Words(p.head);
    if pieces == [] then Err(EmptyLine)
    else Ok(Line(tags, prefix, Upper(pieces[0]), pieces[1..] + if p.found then [p.tail] else []))
  }

  function ParseLine(raw: string): Result<Line, IrcError> {
    var (tags, body) := AfterTags(StripLineEnd(raw));
    var (prefix, rest) := AfterPrefix(body);
    Finish(tags, prefix, rest)
  }

  method ReadPairs(pairs: seq<string>) returns (tags: TagMap)
    ensures tags == TagsOf(pairs)
  {
    tags := map[];
    for i := 0 to |pairs|
      invariant tags == TagsOf(pairs[..i])
    {
      assert pairs[..i + 1][..i] == pairs[..i];
      var p := PartitionChar(pairs[i], '=');
      if p.found {
        var value := UnescapeTag(p.tail);
        tags := tags[p.head := Some(value)];
      } else {
        tags := tags[p.head := None];
      }
    }
    assert pairs[..|pairs|] == pairs;
  }

  method ParseIrcLine(raw: string) returns (line: Result<Line, IrcError>)
    ensures line == ParseLine(raw)
  {
    var rest := StripLineEnd(raw);
    var tags: TagMap := map[];
    if rest != "" && rest[0] == '@' {
      var block := PartitionChar(rest, ' ');
      rest := block.tail;
      tags := ReadPairs(Split(if block.head == "" then "" else block.head[1..], ';'));
    }
    var prefix := None;
    if rest != "" && rest[0] == ':' {
      var p := PartitionChar(rest[1..], ' ');
      prefix, rest := Some(p.head), p.tail;
    }
    line := ReadRest(tags, prefix, rest);
  }

  method ReadRest(tags: TagMap, prefix: Option<string>, rest: string) returns (line: Result<Line, IrcError>)
    ensures line == Finish(tags, prefix, rest)
  {
    var parted := PartitionTrailing(rest);
    var pieces := Text.Words(parted.head);
    if pieces == [] {
      return Err(EmptyLine);
    }
    var params := pieces[1..];
    if parted.found {
      params := params + [parted.tail];
    } else {
      assert params + [] == params;
    }
    return Ok(Line(tags, prefix, Upper(pieces[0]), params));
  }

  // ----- Writing a line -----

  /** Tags in their dictionary order. */
  datatype Tag = Tag(key: string, value: string)

  function FormatPair(t: Tag): string {
    t.key + "=" + Escape(t.value)
  }

  function JoinPairs(tags: seq<Tag>): string {
    if tags == [] then ""
    else if |tags| == 1 then FormatPair(tags[0])
    else FormatPair(tags[0]) + ";" + JoinPairs(tags[1..])
  }

  function FormatTags(tags: seq<Tag>): string {
    "@" + JoinPairs(tags) + " "
  }

  /** The dictionary itself. */
  function AsMap(tags: seq<Tag>): TagMap {
    if tags == [] then map[] else AsMap(tags[..|tags| - 1])[tags[|tags| - 1].key := Some(tags[|tags| - 1].value)]
  }

  /** A key that neither ends its pair, its block, nor itself early. */
  predicate LegalKey(key: string) {
    forall i :: 0 <= i < |key| ==> key[i] != ';' && key[i] != '=' && key[i] != ' '
  }

  /** A command or middle parameter: one word that cannot be read as a prefix or trailing parameter. */
  predicate LegalWord(w: string) {
    Text.IsWord(w) && w[0] != ':'
  }

  predicate LegalWords(words: seq<string>) {
    words != [] && forall i :: 0 <= i < |words| ==> LegalWord(words[i])
  }

  /** A line as a client writes it, or as a server relays it: a command and its middle words, and a trailing text. */
  function FormatLine(tags: seq<Tag>, prefix: Option<string>, words: seq<string>, text: Option<string>): string {
    (if tags == [] then "" else FormatTags(tags)) + FormatBody(prefix, FormatRest(words, text))
  }

  function FormatBody(prefix: Option<string>, rest: string): string {
    if prefix.Some? then ":" + prefix.value + " " + rest else rest
  }

  function FormatRest(words: seq<string>, text: Option<string>): string {
    Text.JoinWords(words) + if text.Some? then " :" + text.value else ""
  }

  // ----- Reading undoes writing -----

  lemma {:induction false} PartitionAt(head: string, c: char, tail: string)
    requires c !in head
    ensures PartitionChar(head + [c] + tail, c) == Parted(head, true, tail)
  {
    var s := head + [c] + tail;
    if head == "" {
      assert s[1..] == tail;
    } else {
      assert s[1..] == head[1..] + [c] + tail;
      PartitionAt(head[1..], c, tail);
      assert head == [head[0]] + head[1..];
    }
  }

  lemma {:induction false} PartitionMissing(s: string, c: char)
    requires c !in s
    ensures PartitionChar(s, c) == Parted(s, false, "")
  {
    if s != "" {
      PartitionMissing(s[1..], c);
      assert s == [s[0]] + s[1..];
    }
  }

  predicate NoTrailing(m: string) {
    forall i :: 0 <= i < |m| && m[i] == ' ' ==> i + 1 < |m| && m[i + 1] != ':'
  }

  lemma {:induction false} TrailingAt(m: string, t: string)
    requires NoTrailing(m)
    ensures PartitionTrailing(m + " :" + t) == Parted(m, true, t)
  {
    var s := m + " :" + t;
    if m == "" {
      assert s[2..] == t;
    } else {
      assert s[1] == if |m| > 1 then m[1] else ' ';
      assert s[1..] == m[1..] + " :" + t;
      assert NoTrailing(m[1..]) by {
        assert forall i :: 0 <= i < |m[1..]| ==> m[1..][i] == m[i + 1];
      }
      TrailingAt(m[1..], t);
      assert m == [m[0]] + m[1..];
    }
  }

  lemma {:induction false} TrailingMissing(m: string)
    requires NoTrailing(m)
    ensures PartitionTrailing(m) == Parted(m, false, "")
  {
    if |m| >= 2 {
      assert NoTrailing(m[1..]) by {
        assert forall i :: 0 <= i < |m[1..]| ==> m[1..][i] == m[i + 1];
      }
      TrailingMissing(m[1..]);
      assert m == [m[0]] + m[1..];
    }
  }

  lemma PairIsClean(t: Tag)
    requires LegalKey(t.key)
    ensures ';' !in FormatPair(t) && ' ' !in FormatPair(t)
  {
    EscapedHasNoDelimiter(t.value);
  }

  lemma PairReads(tags: TagMap, t: Tag)
    requires LegalKey(t.key)
    ensures AddPair(tags, FormatPair(t)) == tags[t.key := Some(t.value)]
  {
    PartitionAt(t.key, '=', Escape(t.value));
    UnescapeEscaped(t.value);
  }

  function Pairs(tags: seq<Tag>): seq<string> {
    seq(|tags|, i requires 0 <= i < |tags| => FormatPair(tags[i]))
  }

  predicate LegalTags(tags: seq<Tag>) {
    forall i :: 0 <= i < |tags| ==> LegalKey(tags[i].key)
  }

  lemma {:induction false} JoinedIsClean(tags: seq<Tag>)
    requires LegalTags(tags)
    ensures ' ' !in JoinPairs(tags)
  {
    if tags != [] {
      PairIsClean(tags[0]);
      JoinedIsClean(tags[1..]);
    }
  }

  lemma {:induction false} SplitJoined(tags: seq<Tag>)
    requires tags != [] && LegalTags(tags)
    ensures Split(JoinPairs(tags), ';') == Pairs(tags)
  {
    PairIsClean(tags[0]);
    if |tags| == 1 {
      PartitionMissing(FormatPair(tags[0]), ';');
    } else {
      PartitionAt(FormatPair(tags[0]), ';', JoinPairs(tags[1..]));
      SplitJoined(tags[1..]);
      assert Pairs(tags) == [FormatPair(tags[0])] + Pairs(tags[1..]);
    }
  }

  lemma {:induction false} PairsRead(tags: seq<Tag>)
    requires LegalTags(tags)
    ensures TagsOf(Pairs(tags)) == AsMap(tags)
  {
    if tags != [] {
      var init := tags[..|tags| - 1];
      PairsRead(init);
      assert Pairs(tags)[..|tags| - 1] == Pairs(init);
      PairReads(AsMap(init), tags[|tags| - 1]);
    }
  }

  lemma TagsReadBack(tags: seq<Tag>, body: string)
    requires tags != [] && LegalTags(tags)
    ensures AfterTags(FormatTags(tags) + body) == (AsMap(tags), body)
  {
    var head := "@" + JoinPairs(tags);
    JoinedIsClean(tags);
    PartitionAt(head, ' ', body);
    assert head[1..] == JoinPairs(tags);
    SplitJoined(tags);
    PairsRead(tags);
  }

  lemma PrefixReadsBack(prefix: Option<string>, rest: string)
    requires prefix.Some? ==> ' ' !in prefix.value
    requires rest != "" && rest[0] != ':'
    ensures AfterPrefix(FormatBody(prefix, rest)) == (prefix, rest)
  {
    if prefix.Some? {
      var s := ":" + prefix.value + " " + rest;
      assert s[1..] == prefix.value + " " + rest;
      PartitionAt(prefix.value, ' ', rest);
    }
  }

  lemma {:induction false} WordLengthAt(a: string, rest: string)
    requires forall i :: 0 <= i < |a| ==> !Text.IsSpace(a[i])
    requires rest == "" || Text.IsSpace(rest[0])
    ensures Text.WordLength(a + rest) == |a|
  {
    if a == "" {
      assert a + rest == rest;
    } else {
      assert (a + rest)[1..] == a[1..] + rest;
      WordLengthAt(a[1..], rest);
    }
  }

  lemma OneWord(b: string)
    requires Text.IsWord(b)
    ensures Text.Words(b) == [b]
  {
    WordLengthAt(b, "");
    assert b + "" == b;
    assert b[..|b|] == b && b[|b|..] == "";
  }

  lemma FirstWord(a: string, rest: string)
    requires Text.IsWord(a) && rest != "" && !Text.IsSpace(rest[0])
    ensures Text.Words(a + " " + rest) == [a] + Text.Words(rest)
  {
    var s := a + " " + rest;
    assert s == a + (" " + rest);
    WordLengthAt(a, " " + rest);
    assert s[0] == a[0] && s[|a| + 1] == rest[0];
    assert s[..|a|] == a && s[|a| + 1..] == rest;
    Text.WordsSplit(s, |a|);
  }

  /** Words set apart by spaces: no space leads or ends them, and no colon follows one. */
  lemma {:induction false} SpacedIsTight(words: seq<string>)
    requires LegalWords(words)
    ensures var s := Text.JoinWords(words);
      s != "" && NoTrailing(s) && s[0] == words[0][0] && !Text.IsSpace(s[0]) && !Text.IsSpace(s[|s| - 1])
  {
    if |words| == 1 {
      assert forall i :: 0 <= i < |words[0]| ==> !Text.IsSpace(words[0][i]);
    } else {
      SpacedIsTight(words[1..]);
      TightAfter(words[0], Text.JoinWords(words[1..]));
    }
  }

  lemma TightAfter(a: string, rest: string)
    requires LegalWord(a) && rest != "" && NoTrailing(rest) && rest[0] != ':' && rest[0] != ' '
    ensures NoTrailing(a + " " + rest) && (a + " " + rest)[0] == a[0]
    ensures (a + " " + rest)[|a + " " + rest| - 1] == rest[|rest| - 1]
  {
    var s := a + " " + rest;
    forall i | 0 <= i < |s| && s[i] == ' ' ensures i + 1 < |s| && s[i + 1] != ':' {
      if i > |a| {
        assert s[i] == rest[i - |a| - 1];
      }
    }
  }

  lemma {:induction false} SpacedReadsBack(words: seq<string>)
    requires LegalWords(words)
    ensures Text.Words(Text.JoinWords(words)) == words
  {
    if |words| == 1 {
      OneWord(words[0]);
    } else {
      SpacedReadsBack(words[1..]);
      SpacedIsTight(words[1..]);
      FirstWord(words[0], Text.JoinWords(words[1..]));
      assert words == [words[0]] + words[1..];
    }
  }

  lemma RestParts(words: seq<string>, text: Option<string>)
    requires LegalWords(words)
    ensures PartitionTrailing(FormatRest(words, text))
         == Parted(Text.JoinWords(words), text.Some?, if text.Some? then text.value else "")
  {
    var m := Text.JoinWords(words);
    SpacedIsTight(words);
    if text.Some? {
      TrailingAt(m, text.value);
      assert FormatRest(words, text) == m + " :" + text.value;
    } else {
      TrailingMissing(m);
      assert FormatRest(words, text) == m;
    }
  }

  lemma RestReadsBack(tags: TagMap, prefix: Option<string>, words: seq<string>, text: Option<string>)
    requires LegalWords(words)
    ensures Finish(tags, prefix, FormatRest(words, text))
         == Ok(Line(tags, prefix, Upper(words[0]), words[1..] + if text.Some? then [text.value] else []))
  {
    RestParts(words, text);
    SpacedReadsBack(words);
  }

  lemma NothingStripped(front: string, words: seq<string>, text: Option<string>)
    requires LegalWords(words)
    requires text.Some? && text.value != "" ==>
      text.value[|text.value| - 1] != '\r' && text.value[|text.value| - 1] != '\n'
    ensures StripLineEnd(front + FormatRest(words, text)) == front + FormatRest(words, text)
  {
    var rest := FormatRest(words, text);
    var s := front + rest;
    SpacedIsTight(words);
    assert s[|s| - 1] == rest[|rest| - 1];
  }

  /** A line without tags that does not begin like one with them. */
  lemma NoTagsReadBack(body: string)
    requires body != "" && body[0] != '@'
    ensures AfterTags(body) == (map[], body)
  {
  }

  /** A written line reads back as the same tags, source, command, middle words and trailing text. */
  lemma LineRoundTrip(tags: seq<Tag>, prefix: Option<string>, words: seq<string>, text: Option<string>)
    requires LegalTags(tags) && LegalWords(words)
    requires prefix.Some? ==> ' ' !in prefix.value
    requires tags == [] && prefix.None? ==> words[0][0] != '@'
    requires text.Some? && text.value != "" ==>
      text.value[|text.value| - 1] != '\r' && text.value[|text.value| - 1] != '\n'
    ensures ParseLine(FormatLine(tags, prefix, words, text))
         == Ok(Line(AsMap(tags), prefix, Upper(words[0]), words[1..] + if text.Some? then [text.value] else []))
  {
    var rest := FormatRest(words, text);
    var body := FormatBody(prefix, rest);
    LineIsStripped(tags, prefix, words, text);
    if tags == [] {
      assert "" + body == body;
      NoTagsReadBack(body);
    } else {
      TagsReadBack(tags, body);
    }
    PrefixReadsBack(prefix, rest);
    RestReadsBack(AsMap(tags), prefix, words, text);
  }

  lemma LineIsStripped(tags: seq<Tag>, prefix: Option<string>, words: seq<string>, text: Option<string>)
    requires LegalWords(words)
    requires text.Some? && text.value != "" ==>
      text.value[|text.value| - 1] != '\r' && text.value[|text.value| - 1] != '\n'
    ensures StripLineEnd(FormatLine(tags, prefix, words, text)) == FormatLine(tags, prefix, words, text)
  {
    var block := if tags == [] then "" else FormatTags(tags);
    var source := if prefix.Some? then ":" + prefix.value + " " else "";
    Regroup(block, source, FormatRest(words, text));
    assert FormatBody(prefix, FormatRest(words, text)) == source + FormatRest(words, text);
    SpacedIsTight(words);
    NothingStripped(block + source, words, text);
  }

  lemma Regroup(a: string, b: string, rest: string)
    ensures a + (b + rest) == a + b + rest
  {
  }

  predicate Blank(s: string) {
    forall i :: 0 <= i < |s| ==> Text.IsSpace(s[i])
  }

  /** A line is refused exactly when there is nothing but spaces before its trailing text. */
  lemma EmptyIff(tags: TagMap, prefix: Option<string>, rest: string)
    ensures Finish(tags, prefix, rest) == Err(EmptyLine) <==> Blank(PartitionTrailing(rest).head)
  {
    BlankIff(PartitionTrailing(rest).head);
  }

  lemma {:induction false} BlankIff(s: string)
    ensures Text.StripLeft(s) == "" <==> Blank(s)
  {
    if s != "" && Text.IsSpace(s[0]) {
      var rest := s[1..];
      BlankIff(rest);
      if Blank(rest) {
        forall i | 0 <= i < |s| ensures Text.IsSpace(s[i]) {
          if i > 0 {
            assert s[i] == rest[i - 1];
          }
        }
      }
      if Blank(s) {
        forall i | 0 <= i < |rest| ensures Text.IsSpace(rest[i]) {
          assert rest[i] == s[i + 1];
        }
      }
    }
  }

  /** Without tags the block still reads as one nameless tag. */
  lemma EmptyTagsReadBack(body: string)
    ensures AfterTags(FormatTags([]) + body) == (map["" := None], body)
  {
    PartitionAt("@", ' ', body);
    assert "@"[1..] == "";
    assert Split("", ';') == [""];
    PartitionMissing("", '=');
    assert TagsOf([""]) == AddPair(TagsOf([""][..0]), "");
  }

  /** The tag block reads back as the tags that were written exactly when there are any. */
  lemma TagsRoundTripIff(tags: seq<Tag>, body: string)
    requires LegalTags(tags)
    ensures AfterTags(FormatTags(tags) + body) == (AsMap(tags), body) <==> tags != []
  {
    if tags == [] {
      EmptyTagsReadBack(body);
      assert "" in AfterTags(FormatTags(tags) + body).0;
    } else {
      TagsReadBack(tags, body);
    }
  }

  const PROTOCOL_TAG: string := "+trevarj.github.io/agentwire"

  /** A protocol value reaches the other side of the line unchanged. */
  lemma ProtocolValueSurvives(value: string, prefix: Option<string>, command: string, target: string)
    requires prefix.Some? ==> ' ' !in prefix.value
    requires LegalWord(command) && LegalWord(target)
    ensures ParseLine(FormatLine([Tag(PROTOCOL_TAG, value)], prefix, [command, target], None))
         == Ok(Line(map[PROTOCOL_TAG := Some(value)], prefix, Upper(command), [target]))
  {
    var tags := [Tag(PROTOCOL_TAG, value)];
    ProtocolTagIsLegal();
    LineRoundTrip(tags, prefix, [command, target], None);
    OneTag(PROTOCOL_TAG, value);
    assert [command, target][1..] + [] == [target];
  }

  lemma ProtocolTagIsLegal()
    ensures LegalKey(PROTOCOL_TAG)
  {
  }

  lemma OneTag(key: string, value: string)
    ensures AsMap([Tag(key, value)]) == map[key := Some(value)]
  {
    var tags := [Tag(key, value)];
    assert AsMap(tags[..0]) == map[];
  }

  // ----- Splitting text into pieces of at most 350 bytes -----

  const PIECE_BYTES: nat := 350

  function Pieces(logical: string): seq<string>
    decreases |logical|
  {
    if Utf8.Size(logical) <= PIECE_BYTES then [if logical == "" then " " else logical]
    else
      var k := Utf8.Fit(logical, PIECE_BYTES);
      [logical[..k]] + if k == 0 then [] else Pieces(logical[k..])
  }

  method SplitLogical(logical: string) returns (lines: seq<string>)
    ensures lines == Pieces(logical)
  {
    lines := [];
    ghost var rest := logical;
    var encoded := Utf8.Encode(logical);
    while |encoded| > PIECE_BYTES
      invariant encoded == Utf8.Encode(rest)
      invariant Pieces(logical) == lines + Pieces(rest)
      decreases |encoded|
    {
      var piece := Utf8.DecodeIgnore(encoded[..PIECE_BYTES]);
      PieceIsFit(rest);
      PiecesNext(lines, rest, piece);
      lines := lines + [piece];
      encoded := encoded[Utf8.Size(piece)..];
      rest := rest[|piece|..];
    }
    Utf8.RoundTrip(rest);
    var last := Utf8.DecodeStrict(encoded).value;
    lines := lines + [if last == "" then " " else last];
  }

  lemma PiecesNext(lines: seq<string>, rest: string, piece: string)
    requires Utf8.Size(rest) > PIECE_BYTES && Utf8.Fit(rest, PIECE_BYTES) > 0
    requires piece == rest[..Utf8.Fit(rest, PIECE_BYTES)]
    ensures lines + Pieces(rest) == lines + [piece] + Pieces(rest[|piece|..])
  {
    var more := Pieces(rest[|piece|..]);
    assert Pieces(rest) == [piece] + more;
    assert lines + ([piece] + more) == lines + [piece] + more;
  }

  /** One cut takes the longest prefix that fits, which is 347 to 350 bytes, and leaves the rest encoded. */
  lemma PieceIsFit(s: string)
    requires Utf8.Size(s) > PIECE_BYTES
    ensures var k := Utf8.Fit(s, PIECE_BYTES); var piece := Utf8.DecodeIgnore(Utf8.Encode(s)[..PIECE_BYTES]);
      && 0 < k < |s| && piece == s[..k] && PIECE_BYTES - 3 <= Utf8.Size(piece) <= PIECE_BYTES
      && Utf8.Encode(s)[Utf8.Size(piece)..] == Utf8.Encode(s[k..])
  {
    var k := Utf8.Fit(s, PIECE_BYTES);
    Utf8.CutDecodes(s, PIECE_BYTES);
    FitBounds(s);
    EncodedRest(s, k);
  }

  lemma FitBounds(s: string)
    requires Utf8.Size(s) > PIECE_BYTES
    ensures var k := Utf8.Fit(s, PIECE_BYTES);
      0 < k < |s| && PIECE_BYTES - 3 <= Utf8.Size(s[..k]) <= PIECE_BYTES
  {
    Utf8.FitIsLongest(s, PIECE_BYTES);
    assert s[..|s|] == s;
    assert s[..0] == "";
  }

  lemma EncodedRest(s: string, k: nat)
    requires k <= |s|
    ensures Utf8.Size(s[..k]) <= Utf8.Size(s)
    ensures Utf8.Encode(s[k..]) == Utf8.Encode(s)[Utf8.Size(s[..k])..]
  {
    assert s == s[..k] + s[k..];
    Utf8.EncodeAppend(s[..k], s[k..]);
  }

  /** The pieces are the text, each within bounds, and each but the last too full for the next character. */
  lemma {:induction false} PiecesAreTheText(logical: string)
    requires logical != ""
    ensures Flatten(Pieces(logical)) == logical
    ensures forall i :: 0 <= i < |Pieces(logical)| ==> 1 <= Utf8.Size(Pieces(logical)[i]) <= PIECE_BYTES
    ensures forall i :: 0 <= i < |Pieces(logical)| - 1 ==> Utf8.Size(Pieces(logical)[i]) >= PIECE_BYTES - 3
    decreases |logical|
  {
    if Utf8.Size(logical) <= PIECE_BYTES {
      Utf8.SizeAtLeastLength(logical);
      assert Flatten([logical]) == logical + Flatten([]);
    } else {
      var k := Utf8.Fit(logical, PIECE_BYTES);
      PieceIsFit(logical);
      PiecesAreTheText(logical[k..]);
      assert Pieces(logical)[1..] == Pieces(logical[k..]);
      assert logical == logical[..k] + logical[k..];
    }
  }

  // ----- Cutting a text into logical lines -----

  /** Where Python's splitlines ends a line. */
  predicate IsBreak(c: char) {
    var p := c as int;
    10 <= p <= 13 || 28 <= p <= 30 || p == 0x85 || p == 0x2028 || p == 0x2029
  }

  function FirstBreak(text: string, k: nat): (i: nat)
    requires k <= |text|
    ensures k <= i <= |text| && (i < |text| ==> IsBreak(text[i]))
    ensures forall j :: k <= j < i ==> !IsBreak(text[j])
    decreases |text| - k
  {
    if k == |text| || IsBreak(text[k]) then k else FirstBreak(text, k + 1)
  }

  /** Carriage return and line feed together end one line. */
  function BreakSize(text: string, i: nat): (n: nat)
    requires i < |text|
    ensures 1 <= n <= |text| - i
  {
    if text[i] == '\r' && i + 1 < |text| && text[i + 1] == '\n' then 2 else 1
  }

  function SplitLines(text: string): seq<string>
    decreases |text|
  {
    var i := FirstBreak(text, 0);
    if text == "" then []
    else if i == |text| then [text]
    else [text[..i]] + SplitLines(text[i + BreakSize(text, i)..])
  }

  /** An empty text is one empty line. */
  function Logicals(text: string): seq<string> {
    if SplitLines(text) == [] then [text] else SplitLines(text)
  }

  function AllPieces(logicals: seq<string>): seq<string>
    decreases |logicals|
  {
    if logicals == [] then [] else AllPieces(logicals[..|logicals| - 1]) + Pieces(logicals[|logicals| - 1])
  }

  method SplitText(text: string) returns (lines: seq<string>)
    ensures lines == AllPieces(Logicals(text))
  {
    var logicals := Logicals(text);
    lines := [];
    for i := 0 to |logicals|
      invariant lines == AllPieces(logicals[..i])
    {
      var pieces := SplitLogical(logicals[i]);
      assert logicals[..i + 1][..i] == logicals[..i];
      lines := lines + pieces;
    }
    assert logicals[..|logicals|] == logicals;
  }

  predicate Unbroken(s: string) {
    forall i :: 0 <= i < |s| ==> !IsBreak(s[i])
  }

  /** The text without its line ends. */
  function Kept(text: string): string {
    if text == "" then "" else (if IsBreak(text[0]) then "" else [text[0]]) + Kept(text[1..])
  }

  lemma {:induction false} KeptAppend(a: string, b: string)
    ensures Kept(a + b) == Kept(a) + Kept(b)
  {
    if a == "" {
      assert a + b == b;
    } else {
      assert (a + b)[1..] == a[1..] + b;
      KeptAppend(a[1..], b);
    }
  }

  lemma {:induction false} UnbrokenIsKept(s: string)
    requires Unbroken(s)
    ensures Kept(s) == s
  {
    if s != "" {
      UnbrokenIsKept(s[1..]);
    }
  }

  lemma {:induction false} BrokenIsDropped(s: string)
    requires forall i :: 0 <= i < |s| ==> IsBreak(s[i])
    ensures Kept(s) == ""
  {
    if s != "" {
      BrokenIsDropped(s[1..]);
    }
  }

  /** A line, its end, and the rest. */
  lemma KeptCut(line: string, end: string, rest: string)
    requires Unbroken(line) && forall j :: 0 <= j < |end| ==> IsBreak(end[j])
    ensures Kept(line + end + rest) == line + Kept(rest)
  {
    KeptAppend(line + end, rest);
    KeptAppend(line, end);
    UnbrokenIsKept(line);
    BrokenIsDropped(end);
    assert line + "" == line;
  }

  lemma CutLine(text: string, i: nat) returns (line: string, end: string, rest: string)
    requires i == FirstBreak(text, 0) < |text|
    ensures text == line + end + rest && line == text[..i] && rest == text[i + BreakSize(text, i)..]
    ensures Unbroken(line) && forall j :: 0 <= j < |end| ==> IsBreak(end[j])
  {
    var n := BreakSize(text, i);
    line, end, rest := text[..i], text[i..i + n], text[i + n..];
  }

  /** The logical lines are the text without its line ends, and none holds one. */
  lemma {:induction false} LinesAreTheText(text: string)
    ensures Flatten(SplitLines(text)) == Kept(text)
    ensures forall k :: 0 <= k < |SplitLines(text)| ==> Unbroken(SplitLines(text)[k])
    decreases |text|
  {
    var i := FirstBreak(text, 0);
    if i == |text| {
      UnbrokenIsKept(text);
      assert Flatten([text]) == text + Flatten([]);
    } else {
      var line, end, rest := CutLine(text, i);
      LinesAreTheText(rest);
      KeptCut(line, end, rest);
      assert Flatten([line] + SplitLines(rest)) == line + Flatten(SplitLines(rest));
    }
  }

  /** Each line followed by a line feed. */
  function Terminated(lines: seq<string>): string {
    if lines == [] then "" else lines[0] + "\n" + Terminated(lines[1..])
  }

  lemma SplitFirst(line: string, rest: string)
    requires Unbroken(line)
    ensures SplitLines(line + "\n" + rest) == [line] + SplitLines(rest)
  {
    var text := line + "\n" + rest;
    assert text[|line|] == '\n' && forall j :: 0 <= j < |line| ==> text[j] == line[j];
    assert FirstBreak(text, 0) == |line|;
    assert text[..|line|] == line && text[|line| + 1..] == rest;
  }

  /** Splitting undoes terminating. */
  lemma {:induction false} SplitTerminated(lines: seq<string>)
    requires forall k :: 0 <= k < |lines| ==> Unbroken(lines[k])
    ensures SplitLines(Terminated(lines)) == lines
  {
    if lines != [] {
      SplitTerminated(lines[1..]);
      SplitFirst(lines[0], Terminated(lines[1..]));
    }
  }

  lemma {:induction false} PiecesUnbroken(logical: string)
    requires Unbroken(logical)
    ensures forall k :: 0 <= k < |Pieces(logical)| ==> Unbroken(Pieces(logical)[k])
    decreases |logical|
  {
    if Utf8.Size(logical) > PIECE_BYTES && Utf8.Fit(logical, PIECE_BYTES) > 0 {
      PiecesUnbroken(logical[Utf8.Fit(logical, PIECE_BYTES)..]);
    }
  }

  /** A line that may be sent: not empty, short enough, and with no line end in it. */
  predicate Sendable(line: string) {
    1 <= Utf8.Size(line) <= PIECE_BYTES && Unbroken(line)
  }

  lemma PiecesSendable(logical: string)
    requires Unbroken(logical)
    ensures forall k :: 0 <= k < |Pieces(logical)| ==> Sendable(Pieces(logical)[k])
    ensures Flatten(Pieces(logical)) == if logical == "" then " " else logical
  {
    if logical == "" {
      assert Utf8.Size(" ") == 1;
      assert Flatten([" "]) == " " + Flatten([]);
    } else {
      PiecesUnbroken(logical);
      PiecesAreTheText(logical);
    }
  }

  /** Whatever the text, every line sent may be sent. */
  lemma AllSendable(text: string)
    ensures forall k :: 0 <= k < |AllPieces(Logicals(text))| ==> Sendable(AllPieces(Logicals(text))[k])
  {
    LinesAreTheText(text);
    AllPiecesSendable(Logicals(text));
  }

  lemma {:induction false} AllPiecesSendable(logicals: seq<string>)
    requires forall k :: 0 <= k < |logicals| ==> Unbroken(logicals[k])
    ensures forall k :: 0 <= k < |AllPieces(logicals)| ==> Sendable(AllPieces(logicals)[k])
    decreases |logicals|
  {
    if logicals != [] {
      AllPiecesSendable(logicals[..|logicals| - 1]);
      PiecesSendable(logicals[|logicals| - 1]);
    }
  }

  /** A blank line is sent as a space. */
  function Shown(lines: seq<string>): seq<string> {
    seq(|lines|, i requires 0 <= i < |lines| => if lines[i] == "" then " " else lines[i])
  }

  /** And together they are the logical lines. */
  lemma SentIsTheText(text: string)
    ensures Flatten(AllPieces(Logicals(text))) == Flatten(Shown(Logicals(text)))
  {
    LinesAreTheText(text);
    AllPiecesAreShown(Logicals(text));
  }

  lemma FlattenMore(a: seq<string>, more: seq<string>, b: seq<string>, last: string)
    requires Flatten(a) == Flatten(b) && Flatten(more) == last
    ensures Flatten(a + more) == Flatten(b + [last])
  {
    FlattenAppend(a, more);
    FlattenSnoc(b, last);
  }

  lemma ShownSnoc(lines: seq<string>, n: nat)
    requires |lines| == n + 1
    ensures Shown(lines) == Shown(lines[..n]) + [if lines[n] == "" then " " else lines[n]]
  {
  }

  lemma {:induction false} AllPiecesAreShown(logicals: seq<string>)
    requires forall k :: 0 <= k < |logicals| ==> Unbroken(logicals[k])
    ensures Flatten(AllPieces(logicals)) == Flatten(Shown(logicals))
    decreases |logicals|
  {
    if logicals != [] {
      var n := |logicals| - 1;
      var last := if logicals[n] == "" then " " else logicals[n];
      AllPiecesAreShown(logicals[..n]);
      PiecesSendable(logicals[n]);
      FlattenMore(AllPieces(logicals[..n]), Pieces(logicals[n]), Shown(logicals[..n]), last);
      ShownSnoc(logicals, n);
    }
  }
}
