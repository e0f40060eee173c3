/** Cleaning and cutting of display text. */
module Text {
  import opened Common
  import Utf8

  /** Python's str.isspace. */
  predicate IsSpace(c: char) {
    var p := c as int;
    || 0x09 <= p <= 0x0D || 0x1C <= p <= 0x20 || p == 0x85 || p == 0xA0 || p == 0x1680
    || 0x2000 <= p <= 0x200A || p == 0x2028 || p == 0x2029 || p == 0x202F || p == 0x205F || p == 0x3000
  }

  /** The controls that cleaning removes: all C0 controls but tab and newline, and DEL. */
  predicate IsControl(c: char) {
    var p := c as int;
    p <= 0x08 || 0x0B <= p <= 0x0C || 0x0E <= p <= 0x1F || p == 0x7F
  }

  function ReplaceCrLf(s: string): string
    decreases |s|
  {
    if s == "" then ""
    else if |s| >= 2 && s[0] == '\r' && s[1] == '\n' then "\n" + ReplaceCrLf(s[2..])
    else [s[0]] + ReplaceCrLf(s[1..])
  }

  function ReplaceCr(s: string): string {
    if s == "" then "" else [if s[0] == '\r' then '\n' else s[0]] + ReplaceCr(s[1..])
  }

  function RemoveControls(s: string): string {
    if s == "" then ""
    else if IsControl(s[0]) then RemoveControls(s[1..])
    else [s[0]] + RemoveControls(s[1..])
  }

  function StripLeft(s: string): (r: string)
    ensures |r| <= |s|
    ensures r == "" || !IsSpace(r[0])
  {
    if s == "" || !IsSpace(s[0]) then s else StripLeft(s[1..])
  }

  function StripRight(s: string): string {
    if s == "" || !IsSpace(s[|s| - 1]) then s else StripRight(s[..|s| - 1])
  }

  function Strip(s: string): string {
    StripRight(StripLeft(s))
  }

  function CleanText(text: string): string {
    Strip(RemoveControls(ReplaceCr(ReplaceCrLf(text))))
  }

  /** The length of the leading run of non-space characters. */
  function WordLength(s: string): (k: nat)
    ensures k <= |s|
    ensures s != "" && !IsSpace(s[0]) ==> k > 0
  {
    if s == "" || IsSpace(s[0]) then 0 else 1 + WordLength(s[1..])
  }

  predicate IsWord(w: string) {
    w != "" && forall i :: 0 <= i < |w| ==> !IsSpace(w[i])
  }

  /** str.split() with no separator. */
  function Words(s: string): (ws: seq<string>)
    decreases |s|
  {
    var t := StripLeft(s);
    if t == "" then [] else [t[..WordLength(t)]] + Words(t[WordLength(t)..])
  }

  lemma {:induction false} StripLeftSuffix(s: string)
    ensures StripLeft(s) == s[|s| - |StripLeft(s)|..]
  {
    if s != "" && IsSpace(s[0]) {
      StripLeftSuffix(s[1..]);
    }
  }

  lemma {:induction false} StripRightPrefix(s: string)
    ensures StripRight(s) <= s
    ensures StripRight(s) == "" || !IsSpace(StripRight(s)[|StripRight(s)| - 1])
  {
    if s != "" && IsSpace(s[|s| - 1]) {
      StripRightPrefix(s[..|s| - 1]);
    }
  }

  lemma {:induction false} WordLengthMeets(s: string)
    ensures forall i :: 0 <= i < WordLength(s) ==> !IsSpace(s[i])
    ensures WordLength(s) < |s| ==> IsSpace(s[WordLength(s)])
  {
    if s != "" && !IsSpace(s[0]) {
      WordLengthMeets(s[1..]);
    }
  }

  lemma {:induction false} WordsAreWords(s: string)
    ensures forall i :: 0 <= i < |Words(s)| ==> IsWord(Words(s)[i])
    decreases |s|
  {
    var t := StripLeft(s);
    var k := WordLength(t);
    if t != "" {
      WordLengthMeets(t);
      WordsAreWords(t[k..]);
    }
  }

  function JoinWords(ws: seq<string>): string {
    if ws == [] then "" else if |ws| == 1 then ws[0] else ws[0] + " " + JoinWords(ws[1..])
  }

  /** encoded[:maxBytes] with Python's reading of a negative bound. */
  function CutPoint(size: nat, maxBytes: int): (k: nat)
    ensures k <= size
  {
    if maxBytes >= 0 then Min(maxBytes, size) else Max(0, size + maxBytes)
  }

  function TruncateUtf8(text: string, maxBytes: int): string {
    var encoded := Utf8.Encode(text);
    if |encoded| <= maxBytes then text
    else Utf8.DecodeIgnore(encoded[..CutPoint(|encoded|, maxBytes)])
  }

  /** Cleaned text with every run of whitespace collapsed to one space. */
  function Collapse(text: string): string {
    JoinWords(Words(CleanText(text)))
  }

  function Shorten(value: string, maxBytes: int): string {
    if Utf8.Size(value) <= maxBytes then value
    else StripRight(TruncateUtf8(value, Max(1, maxBytes - 3))) + "..."
  }

  function SafeOneLine(text: string, maxBytes: int): string {
    Shorten(Collapse(text), maxBytes)
  }

  // ----- Truncation returns the longest whole-character prefix that fits -----

  lemma TruncateIsPrefix(text: string, maxBytes: nat)
    ensures TruncateUtf8(text, maxBytes) <= text
    ensures Utf8.Size(text) > maxBytes ==> |TruncateUtf8(text, maxBytes)| == Utf8.Fit(text, maxBytes) < |text|
  {
    if Utf8.Size(text) > maxBytes {
      Utf8.CutDecodes(text, maxBytes);
      Utf8.FitIsLongest(text, maxBytes);
      assert text[..|text|] == text;
    }
  }

  /** Prefixes up to the result fit, and no longer prefix does. */
  lemma TruncateIsLongest(text: string, maxBytes: nat, k: nat)
    requires k <= |text|
    ensures TruncateUtf8(text, maxBytes) <= text
    ensures Utf8.Size(text[..k]) <= maxBytes <==> k <= |TruncateUtf8(text, maxBytes)|
  {
    TruncateIsPrefix(text, maxBytes);
    if Utf8.Size(text) <= maxBytes {
      Utf8.SizeMonotone(text, k, |text|);
      assert text[..|text|] == text;
    } else {
      var f := Utf8.Fit(text, maxBytes);
      Utf8.FitIsLongest(text, maxBytes);
      if k <= f {
        Utf8.SizeMonotone(text, k, f);
      } else {
        Utf8.SizeMonotone(text, f + 1, k);
      }
    }
  }

  // ----- The one-line form -----

  ghost predicate Printable(s: string) {
    forall i :: 0 <= i < |s| ==> !IsControl(s[i])
  }

  /** Every space is a plain one, with a non-space on either side. */
  ghost predicate SingleSpaced(s: string) {
    forall i :: 0 <= i < |s| && IsSpace(s[i]) ==> s[i] == ' ' && 0 < i < |s| - 1 && !IsSpace(s[i + 1])
  }

  /** Printable words separated by single spaces, with no space at either end. */
  ghost predicate OneLine(s: string) {
    Printable(s) && SingleSpaced(s)
  }

  lemma {:induction false} RemovedIsPrintable(s: string)
    ensures Printable(RemoveControls(s))
  {
    if s != "" {
      RemovedIsPrintable(s[1..]);
    }
  }

  lemma StrippedIsPrintable(s: string)
    requires Printable(s)
    ensures Printable(StripLeft(s)) && Printable(StripRight(s))
  {
    StripLeftSuffix(s);
    StripRightPrefix(s);
    var r := StripLeft(s);
    assert forall i :: 0 <= i < |r| ==> r[i] == s[|s| - |r| + i];
  }

  ghost predicate AllPrintable(ws: seq<string>) {
    forall i :: 0 <= i < |ws| ==> Printable(ws[i])
  }

  lemma {:induction false} WordsArePrintable(s: string)
    requires Printable(s)
    ensures AllPrintable(Words(s))
    decreases |s|
  {
    var t := StripLeft(s);
    if t != "" {
      StrippedIsPrintable(s);
      SplitIsPrintable(t, WordLength(t));
      WordsArePrintable(t[WordLength(t)..]);
    }
  }

  lemma SplitIsPrintable(t: string, k: nat)
    requires Printable(t) && k <= |t|
    ensures Printable(t[..k]) && Printable(t[k..])
  {
  }

  lemma JoinPair(w: string, rest: string)
    requires IsWord(w) && Printable(w)
    requires OneLine(rest) && rest != ""
    ensures OneLine(w + " " + rest)
  {
    var s := w + " " + rest;
    assert !IsSpace(rest[0]);
    forall i | 0 <= i < |s| ensures !IsControl(s[i])
      ensures IsSpace(s[i]) ==> s[i] == ' ' && 0 < i < |s| - 1 && !IsSpace(s[i + 1])
    {
      if i > |w| {
        assert s[i] == rest[i - |w| - 1];
      }
    }
  }

  lemma {:induction false} JoinIsOneLine(ws: seq<string>)
    requires AllPrintable(ws) && forall i :: 0 <= i < |ws| ==> IsWord(ws[i])
    ensures OneLine(JoinWords(ws))
    ensures ws != [] ==> JoinWords(ws) != ""
  {
    if |ws| > 1 {
      JoinIsOneLine(ws[1..]);
      JoinPair(ws[0], JoinWords(ws[1..]));
    }
  }

  lemma CollapseIsOneLine(text: string)
    ensures OneLine(Collapse(text))
  {
    var t := RemoveControls(ReplaceCr(ReplaceCrLf(text)));
    RemovedIsPrintable(ReplaceCr(ReplaceCrLf(text)));
    StrippedIsPrintable(t);
    StrippedIsPrintable(StripLeft(t));
    WordsArePrintable(CleanText(text));
    WordsAreWords(CleanText(text));
    JoinIsOneLine(Words(CleanText(text)));
  }

  lemma PrefixWithDots(value: string, cut: string)
    requires OneLine(value) && cut <= value
    requires cut == "" || !IsSpace(cut[|cut| - 1])
    ensures OneLine(cut + "...")
  {
    var s := cut + "...";
    forall i | 0 <= i < |s| ensures !IsControl(s[i])
      ensures IsSpace(s[i]) ==> s[i] == ' ' && 0 < i < |s| - 1 && !IsSpace(s[i + 1])
    {
      if i < |cut| {
        assert s[i] == value[i];
        if IsSpace(s[i]) {
          assert s[i + 1] == value[i + 1];
        }
      }
    }
  }

  lemma ShortenIsOneLine(value: string, maxBytes: int)
    requires OneLine(value)
    ensures OneLine(Shorten(value, maxBytes))
  {
    if Utf8.Size(value) > maxBytes {
      var t := TruncateUtf8(value, Max(1, maxBytes - 3));
      TruncateIsPrefix(value, Max(1, maxBytes - 3));
      StripRightPrefix(t);
      PrefixWithDots(value, StripRight(t));
    }
  }

  /** Any input becomes one line, cut or not. */
  lemma SafeOneLineIsOneLine(text: string, maxBytes: int)
    ensures OneLine(SafeOneLine(text, maxBytes))
  {
    CollapseIsOneLine(text);
    ShortenIsOneLine(Collapse(text), maxBytes);
  }

  lemma SizeOfPrefix(s: string, t: string)
    requires s <= t
    ensures Utf8.Size(s) <= Utf8.Size(t)
  {
    assert t == s + t[|s|..];
    Utf8.EncodeAppend(s, t[|s|..]);
  }

  lemma {:induction false} AsciiSize(s: string)
    requires forall i :: 0 <= i < |s| ==> (s[i] as int) < 128
    ensures Utf8.Size(s) == |s|
  {
    if s != "" {
      AsciiSize(s[1..]);
    }
  }

  lemma ShortenFits(value: string, maxBytes: int)
    requires maxBytes >= 4
    ensures Utf8.Size(Shorten(value, maxBytes)) <= maxBytes
  {
    if Utf8.Size(value) > maxBytes {
      var cut := TruncateUtf8(value, maxBytes - 3);
      TruncateIsPrefix(value, maxBytes - 3);
      TruncateIsLongest(value, maxBytes - 3, |cut|);
      assert cut == value[..|cut|];
      DotsFit(cut, maxBytes);
    }
  }

  lemma DotsFit(cut: string, maxBytes: int)
    requires Utf8.Size(cut) <= maxBytes - 3
    ensures Utf8.Size(StripRight(cut) + "...") <= maxBytes
  {
    StripRightPrefix(cut);
    SizeOfPrefix(StripRight(cut), cut);
    Utf8.EncodeAppend(StripRight(cut), "...");
    AsciiSize("...");
  }

  /** The ellipsis overruns every smaller limit, here on a word of five letters. */
  lemma ShortenOverruns(word: string, maxBytes: int)
    requires |word| == 5 && forall i :: 0 <= i < 5 ==> word[i] == 'a'
    requires maxBytes < 4
    ensures Utf8.Size(Shorten(word, maxBytes)) > maxBytes
  {
    AsciiSize(word);
    TruncateIsPrefix(word, 1);
    TruncateIsLongest(word, 1, 1);
    AsciiSize(word[..1]);
    var cut := TruncateUtf8(word, 1);
    assert cut[|cut| - 1] == 'a';
    assert StripRight(cut) == cut;
    DotsAdd(cut);
  }

  lemma DotsAdd(cut: string)
    requires cut != ""
    ensures Utf8.Size(cut + "...") >= 4
  {
    Utf8.SizeAtLeastLength(cut + "...");
  }

  lemma ShortLimitOverruns(maxBytes: int) returns (text: string)
    requires maxBytes < 4
    ensures Utf8.Size(SafeOneLine(text, maxBytes)) > maxBytes
  {
    text := Repeat('a', 5);
    CollapseUnchanged(text);
    ShortenOverruns(text, maxBytes);
  }

  /** The limit is met for every text exactly when it leaves room for one byte and the ellipsis. */
  lemma SafeOneLineLimit(maxBytes: int)
    ensures (forall text :: Utf8.Size(SafeOneLine(text, maxBytes)) <= maxBytes) <==> maxBytes >= 4
  {
    if maxBytes >= 4 {
      forall text ensures Utf8.Size(SafeOneLine(text, maxBytes)) <= maxBytes {
        ShortenFits(Collapse(text), maxBytes);
      }
    } else {
      var text := ShortLimitOverruns(maxBytes);
    }
  }

  // ----- A line already in the one-line form is not changed -----

  lemma {:induction false} UnchangedByCleaning(s: string)
    requires Printable(s) && SingleSpaced(s)
    ensures CleanText(s) == s
  {
    UnchangedByReplacing(s);
    if s != "" {
      assert !IsSpace(s[0]) && !IsSpace(s[|s| - 1]);
    }
  }

  lemma {:induction false} UnchangedByReplacing(s: string)
    requires forall i :: 0 <= i < |s| ==> s[i] != '\r' && !IsControl(s[i])
    ensures RemoveControls(ReplaceCr(ReplaceCrLf(s))) == s
  {
    if s != "" {
      UnchangedByReplacing(s[1..]);
      assert s == [s[0]] + s[1..];
    }
  }

  ghost predicate Rejoins(s: string) {
    JoinWords(Words(s)) == s && (s != "" ==> Words(s) != [])
  }

  lemma {:induction false} WordsRejoin(s: string)
    requires SingleSpaced(s)
    ensures Rejoins(s)
    decreases |s|
  {
    if s != "" {
      assert !IsSpace(s[0]);
      var k := WordLength(s);
      WordLengthMeets(s);
      if k == |s| {
        SingleWordRejoins(s);
      } else {
        TailIsSpaced(s, k);
        WordsRejoin(s[k + 1..]);
        RejoinsAfter(s, k);
      }
    }
  }

  lemma SingleWordRejoins(s: string)
    requires s != "" && WordLength(s) == |s|
    ensures Rejoins(s)
  {
    assert s[..|s|] == s && s[|s|..] == "";
  }

  lemma RejoinsAfter(s: string, k: nat)
    requires s != "" && !IsSpace(s[0]) && k == WordLength(s) < |s|
    requires k + 1 < |s| && s[k] == ' ' && !IsSpace(s[k + 1])
    requires Rejoins(s[k + 1..]) && s[k + 1..] != ""
    ensures Rejoins(s)
  {
    WordsSplit(s, k);
    JoinOnto(s, k, Words(s[k + 1..]));
  }

  lemma JoinOnto(s: string, k: nat, ws: seq<string>)
    requires k < |s| && s[k] == ' '
    requires ws != [] && JoinWords(ws) == s[k + 1..]
    ensures JoinWords([s[..k]] + ws) == s
  {
    assert ([s[..k]] + ws)[1..] == ws;
    assert s == s[..k] + " " + s[k + 1..];
  }

  lemma TailIsSpaced(s: string, k: nat)
    requires SingleSpaced(s) && k < |s| && IsSpace(s[k])
    ensures s[k] == ' ' && SingleSpaced(s[k + 1..]) && s[k + 1..] != "" && !IsSpace(s[k + 1..][0])
  {
    var rest := s[k + 1..];
    assert forall i :: 0 <= i < |rest| ==> rest[i] == s[k + 1 + i];
  }

  lemma WordsSplit(s: string, k: nat)
    requires s != "" && !IsSpace(s[0]) && k == WordLength(s) < |s|
    requires k + 1 < |s| && !IsSpace(s[k + 1])
    ensures Words(s) == [s[..k]] + Words(s[k + 1..])
  {
    WordLengthMeets(s);
    assert s[k..][1..] == s[k + 1..];
    assert StripLeft(s[k..]) == s[k + 1..];
    assert StripLeft(s[k + 1..]) == s[k + 1..];
  }

  lemma CollapseUnchanged(s: string)
    requires OneLine(s)
    ensures Collapse(s) == s
  {
    UnchangedByCleaning(s);
    WordsRejoin(s);
  }

  lemma SafeOneLineUnchanged(s: string, maxBytes: int)
    requires OneLine(s) && Utf8.Size(s) <= maxBytes
    ensures SafeOneLine(s, maxBytes) == s
  {
    CollapseUnchanged(s);
  }
}
