/** Which words of a text its one-line form keeps. */
module TextLaws {
  import opened Common
  import opened Text
  import Irc
  import Utf8

  /** The words of a text, given what was read of the present one. */
  function Tokens(s: string, word: string): seq<string> {
    if s == "" then Ended(word)
    else if IsSpace(s[0]) then Ended(word) + Tokens(s[1..], "")
    else Tokens(s[1..], word + [s[0]])
  }

  function Ended(word: string): seq<string> {
    if word == "" then [] else [word]
  }

  /** Splitting collects, character by character, the runs that hold no space. */
  lemma {:induction false} WordsAreTokens(s: string, word: string)
    requires word == "" || IsWord(word)
    ensures Words(word + s) == Tokens(s, word)
    decreases |s|
  {
    if s == "" {
      assert word + s == word;
      if word != "" {
        Irc.OneWord(word);
      }
    } else if IsSpace(s[0]) {
      WordsAreTokens(s[1..], "");
      assert "" + s[1..] == s[1..];
      SpaceEnds(word, s);
    } else {
      WordsAreTokens(s[1..], word + [s[0]]);
      assert word + [s[0]] + s[1..] == word + s;
    }
  }

  lemma SpaceEnds(word: string, s: string)
    requires s != "" && IsSpace(s[0]) && (word == "" || IsWord(word))
    ensures Words(word + s) == Ended(word) + Words(s[1..])
  {
    SpaceSkips(s);
    if word == "" {
      assert word + s == s;
    } else {
      Irc.WordLengthAt(word, s);
      assert (word + s)[..|word|] == word && (word + s)[|word|..] == s;
      assert (word + s)[0] == word[0];
      assert Words(word + s) == [word] + Words(s);
    }
  }

  lemma SpaceSkips(s: string)
    requires s != "" && IsSpace(s[0])
    ensures Words(s) == Words(s[1..])
  {
    assert StripLeft(s) == StripLeft(s[1..]);
  }

  // ----- Cleaning leaves the words of the printed text -----

  lemma {:induction false} CrLfLeaves(s: string, word: string)
    ensures Tokens(RemoveControls(ReplaceCrLf(s)), word) == Tokens(RemoveControls(s), word)
    decreases |s|
  {
    if |s| >= 2 && s[0] == '\r' && s[1] == '\n' {
      CrLfLeaves(s[2..], "");
      TokensCons('\n', RemoveControls(ReplaceCrLf(s[2..])), word);
      CrLfStart(s, word);
    } else if s != "" {
      var rest := ReplaceCrLf(s[1..]);
      assert ([s[0]] + rest)[1..] == rest;
      if IsControl(s[0]) {
        CrLfLeaves(s[1..], word);
      } else {
        CrLfLeaves(s[1..], if IsSpace(s[0]) then "" else word + [s[0]]);
        TokensCons(s[0], RemoveControls(rest), word);
        TokensCons(s[0], RemoveControls(s[1..]), word);
      }
    }
  }

  lemma CrLfStart(s: string, word: string)
    requires |s| >= 2 && s[0] == '\r' && s[1] == '\n'
    ensures RemoveControls(ReplaceCrLf(s)) == ['\n'] + RemoveControls(ReplaceCrLf(s[2..]))
    ensures Tokens(RemoveControls(s), word) == Ended(word) + Tokens(RemoveControls(s[2..]), "")
  {
    var plain := RemoveControls(s[2..]);
    assert ("\n" + ReplaceCrLf(s[2..]))[1..] == ReplaceCrLf(s[2..]);
    assert s[1..][1..] == s[2..];
    assert RemoveControls(s) == ['\r'] + (['\n'] + plain);
    TokensCons('\r', ['\n'] + plain, word);
    TokensCons('\n', plain, "");
  }

  lemma TokensCons(c: char, rest: string, word: string)
    ensures Tokens([c] + rest, word) == if IsSpace(c) then Ended(word) + Tokens(rest, "") else Tokens(rest, word + [c])
  {
    assert ([c] + rest)[1..] == rest;
  }

  lemma {:induction false} CrLeaves(s: string, word: string)
    ensures Tokens(RemoveControls(ReplaceCr(s)), word) == Tokens(RemoveControls(s), word)
    decreases |s|
  {
    if s != "" {
      var c := if s[0] == '\r' then '\n' else s[0];
      var rest := ReplaceCr(s[1..]);
      assert ([c] + rest)[1..] == rest;
      if IsControl(s[0]) {
        CrLeaves(s[1..], word);
      } else {
        CrLeaves(s[1..], if IsSpace(s[0]) then "" else word + [s[0]]);
        TokensCons(c, RemoveControls(rest), word);
        TokensCons(s[0], RemoveControls(s[1..]), word);
      }
    }
  }

  lemma {:induction false} LeftLeaves(s: string)
    ensures Tokens(StripLeft(s), "") == Tokens(s, "")
  {
    if s != "" && IsSpace(s[0]) {
      LeftLeaves(s[1..]);
    }
  }

  lemma {:induction false} SpaceLast(s: string, c: char, word: string)
    requires IsSpace(c)
    ensures Tokens(s + [c], word) == Tokens(s, word)
    decreases |s|
  {
    if s == "" {
      assert s + [c] == [c] && [c][1..] == "";
    } else {
      assert (s + [c])[1..] == s[1..] + [c];
      SpaceLast(s[1..], c, if IsSpace(s[0]) then "" else word + [s[0]]);
    }
  }

  lemma {:induction false} RightLeaves(s: string)
    ensures Tokens(StripRight(s), "") == Tokens(s, "")
    decreases |s|
  {
    if s != "" && IsSpace(s[|s| - 1]) {
      var n := |s| - 1;
      RightLeaves(s[..n]);
      SpaceLast(s[..n], s[n], "");
      assert s == s[..n] + [s[n]];
    }
  }

  lemma CleanedWords(text: string)
    ensures Words(CleanText(text)) == Tokens(RemoveControls(text), "")
  {
    var t := RemoveControls(ReplaceCr(ReplaceCrLf(text)));
    WordsAreTokens(CleanText(text), "");
    assert "" + CleanText(text) == CleanText(text);
    RightLeaves(StripLeft(t));
    LeftLeaves(t);
    CrLeaves(ReplaceCrLf(text), "");
    CrLfLeaves(text, "");
  }

  /** Tabs and line ends are kept, and every other character from the space on, but for DEL. */
  predicate IsPrinted(c: char) {
    c == '\t' || c == '\n' || c == '\r' || (' ' <= c && c as int != 0x7F)
  }

  /** The printed text is the text without its controls. */
  lemma {:induction false} PrintedPicks(s: string, n: nat) returns (at: seq<nat>)
    requires n <= |s|
    ensures Picks(n, (i: nat) => i < |s| && IsPrinted(s[i]), (i: nat) => if i < |s| then s[i] else ' ',
                  RemoveControls(s[..n]), at)
  {
    if n == 0 {
      at := [];
    } else {
      var before := PrintedPicks(s, n - 1);
      assert s[..n] == s[..n - 1] + [s[n - 1]];
      RemovedSnoc(s[..n - 1], s[n - 1]);
      at := PicksNext(n - 1, (i: nat) => i < |s| && IsPrinted(s[i]), (i: nat) => if i < |s| then s[i] else ' ',
                      RemoveControls(s[..n - 1]), before);
    }
  }

  lemma {:induction false} RemovedSnoc(s: string, c: char)
    ensures RemoveControls(s + [c]) == RemoveControls(s) + if IsPrinted(c) then [c] else ""
  {
    if s == "" {
      assert s + [c] == [c] && [c][1..] == "";
    } else {
      assert (s + [c])[1..] == s[1..] + [c];
      RemovedSnoc(s[1..], c);
    }
  }

  // ----- The one-line form -----

  /**
   The one-line form is the words of the text without its controls, joined by single spaces, if that fits; and
   else its longest prefix that leaves room for the dots, without a space at its end, and the dots.
   */
  lemma SafeOneLineIs(text: string, maxBytes: int) returns (k: nat)
    ensures var line := JoinWords(Tokens(RemoveControls(text), ""));
      && k <= |line|
      && (Utf8.Size(line) <= maxBytes ==> SafeOneLine(text, maxBytes) == line)
      && (Utf8.Size(line) > maxBytes ==>
            && SafeOneLine(text, maxBytes) == WithoutLastSpace(line[..k]) + "..."
            && forall m :: 0 <= m <= |line| ==> (m <= k <==> Utf8.Size(line[..m]) <= Max(1, maxBytes - 3)))
  {
    CleanedWords(text);
    var line := Collapse(text);
    CollapseIsOneLine(text);
    k := 0;
    if Utf8.Size(line) > maxBytes {
      var room := Max(1, maxBytes - 3);
      var cut := TruncateUtf8(line, room);
      TruncateIsPrefix(line, room);
      k := |cut|;
      assert cut == line[..k];
      OneSpace(line, k);
      forall m | 0 <= m <= |line| ensures m <= k <==> Utf8.Size(line[..m]) <= room {
        TruncateIsLongest(line, room, m);
      }
    }
  }

  function WithoutLastSpace(s: string): string {
    if s != "" && s[|s| - 1] == ' ' then s[..|s| - 1] else s
  }

  lemma OneSpace(line: string, k: nat)
    requires OneLine(line) && k <= |line|
    ensures StripRight(line[..k]) == WithoutLastSpace(line[..k])
  {
    var s := line[..k];
    if s != "" && IsSpace(s[k - 1]) {
      assert IsSpace(line[k - 1]) && k >= 2;
      assert !IsSpace(line[k - 2]) && s[..k - 1][k - 2] == line[k - 2];
    }
  }
}
