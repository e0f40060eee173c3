/** Which lines of a transcript are delivered, said of the lines themselves. */
module TailDelivers {
  import opened Common
  import opened Json
  import opened TranscriptTail

  // ----- Lines -----

  /** Lines put together, each with its newline. */
  function Text(lines: seq<Bytes>): Bytes {
    if lines == [] then [] else lines[0] + [NEWLINE] + Text(lines[1..])
  }

  ghost predicate AreLines(lines: seq<Bytes>) {
    forall i :: 0 <= i < |lines| ==> NEWLINE !in lines[i]
  }

  /** Splitting undoes putting together. */
  lemma {:induction false} LinesOfText(lines: seq<Bytes>)
    requires AreLines(lines)
    ensures Lines(Text(lines)) == lines
  {
    if lines != [] {
      LinesOfText(lines[1..]);
      LinesHead(Text(lines), lines[0], Text(lines[1..]));
    }
  }

  /** And every complete text is its lines put together. */
  lemma {:induction false} TextOfLines(b: Bytes)
    requires IsComplete(b)
    ensures Text(Lines(b)) == b && AreLines(Lines(b))
    decreases |b|
  {
    if b != [] {
      var line, tail := FirstLine(b);
      TextOfLines(tail);
      LinesHead(b, line, tail);
      assert ([line] + Lines(tail))[1..] == Lines(tail);
    }
  }

  /** The complete part of a text ends with its last newline. */
  lemma CompleteIff(b: Bytes, n: nat)
    requires n <= |b|
    ensures n == Complete(b) <==> IsComplete(b[..n]) && NEWLINE !in b[n..]
  {
    LastNewlineIs(b, |b|);
    NoneAfter(b, |b|);
    var c := Complete(b);
    if n < c {
      assert b[..c][c - 1] == b[c - 1] == b[n..][c - 1 - n];
    } else if c < n {
      assert b[..n][n - 1] == b[n - 1] == b[c..][n - 1 - c];
    }
  }

  lemma {:induction false} NoneAfter(b: Bytes, n: nat)
    requires n <= |b|
    ensures NEWLINE !in b[LastNewline(b, n)..n]
  {
    if n > 0 && b[n - 1] != NEWLINE {
      NoneAfter(b, n - 1);
      assert b[LastNewline(b, n)..n] == b[LastNewline(b, n)..n - 1] + [b[n - 1]];
    }
  }

  // ----- What a line holds -----

  /** The line is not blank and parses to this object. */
  ghost predicate Holds(line: Bytes, parse: Parser, o: Entry) {
    && (exists i :: 0 <= i < |line| && line[i] != 32 && !(9 <= line[i] <= 13))
    && parse(line) == Some(Obj(o.fields))
  }

  ghost predicate HasUuid(o: Entry, uuid: string) {
    Get(o.fields, "uuid") == Some(Str(uuid)) && uuid != ""
  }

  lemma HoldsIff(line: Bytes, parse: Parser, o: Entry)
    ensures Holds(line, parse, o) <==> ReadLine(line, parse) == Some(o)
  {
  }

  lemma UuidIff(o: Entry, uuid: string)
    ensures HasUuid(o, uuid) <==> Uuid(o) == Some(uuid)
  {
  }

  ghost predicate Names(line: Bytes, parse: Parser, uuid: string) {
    exists o :: Holds(line, parse, o) && HasUuid(o, uuid)
  }

  /** One of the first n lines holds an object with this uuid. */
  ghost predicate NamedBefore(lines: seq<Bytes>, parse: Parser, n: nat, uuid: string)
    requires n <= |lines|
  {
    exists j :: 0 <= j < n && Names(lines[j], parse, uuid)
  }

  /** The object has a uuid that is known or on one of the first n lines. */
  ghost predicate Repeats(lines: seq<Bytes>, parse: Parser, known: set<string>, n: nat, o: Entry)
    requires n <= |lines|
  {
    exists uuid :: HasUuid(o, uuid) && (uuid in known || NamedBefore(lines, parse, n, uuid))
  }

  /** Line i holds this object, which has no uuid, or one that is neither known nor on an earlier line. */
  ghost predicate IsFirst(lines: seq<Bytes>, parse: Parser, known: set<string>, i: nat, o: Entry)
    requires i < |lines|
  {
    Holds(lines[i], parse, o) && !Repeats(lines, parse, known, i, o)
  }

  /** The entries are, in order, those of these line numbers, which are exactly the lines to deliver. */
  ghost predicate Picked(lines: seq<Bytes>, parse: Parser, known: set<string>, entries: seq<Entry>, at: seq<nat>) {
    && |at| == |entries|
    && (forall k :: 0 <= k < |at| ==> at[k] < |lines| && IsFirst(lines, parse, known, at[k], entries[k]))
    && (forall k, m :: 0 <= k < m < |at| ==> at[k] < at[m])
    && (forall i, o :: 0 <= i < |lines| && IsFirst(lines, parse, known, i, o) ==> i in at)
  }

  // ----- The reader's own functions pick these -----

  /** What is known after these lines: what was known, and every uuid on them. */
  ghost predicate KnownAre(lines: seq<Bytes>, parse: Parser, known: set<string>, after: set<string>) {
    forall uuid :: NamedBefore(lines, parse, |lines|, uuid) || uuid in known <==> uuid in after
  }

  lemma NamedNext(lines: seq<Bytes>, parse: Parser, n: nat, uuid: string)
    requires n < |lines|
    ensures NamedBefore(lines, parse, n + 1, uuid) <==>
      NamedBefore(lines, parse, n, uuid) || Names(lines[n], parse, uuid)
    ensures NamedBefore(lines[..n], parse, n, uuid) <==> NamedBefore(lines, parse, n, uuid)
  {
    forall j | 0 <= j < n ensures lines[..n][j] == lines[j] {
    }
    if j :| 0 <= j < n && Names(lines[..n][j], parse, uuid) {
      assert Names(lines[j], parse, uuid);
    }
    if j :| 0 <= j < n && Names(lines[j], parse, uuid) {
      assert Names(lines[..n][j], parse, uuid);
    }
  }

  lemma KnownNext(lines: seq<Bytes>, parse: Parser, known: set<string>, front: seq<Bytes>, before: set<string>)
    requires lines != [] && front == lines[..|lines| - 1] && KnownAre(front, parse, known, before)
    ensures KnownAre(lines, parse, known, Known(ObjectsIn(lines[|lines| - 1], parse), before))
  {
    var n := |lines| - 1;
    forall uuid
      ensures NamedBefore(lines, parse, |lines|, uuid) || uuid in known
        <==> uuid in Known(ObjectsIn(lines[n], parse), before)
    {
      NamedNext(lines, parse, n, uuid);
      OneKnown(lines[n], parse, before, uuid);
    }
  }

  lemma OneKnown(line: Bytes, parse: Parser, before: set<string>, uuid: string)
    ensures uuid in Known(ObjectsIn(line, parse), before) <==> uuid in before || Names(line, parse, uuid)
  {
    if ReadLine(line, parse).Some? {
      var o := ReadLine(line, parse).value;
      HoldsIff(line, parse, o);
      UuidIff(o, uuid);
      assert Known([o], before) == Known([], Remember(o, before));
    }
  }

  /** One more line is delivered exactly when it is a first one. */
  lemma OneUnseen(lines: seq<Bytes>, parse: Parser, known: set<string>, before: set<string>, n: nat)
    requires n < |lines| && KnownAre(lines[..n], parse, known, before)
    ensures var out := Unseen(ObjectsIn(lines[n], parse), before);
      |out| <= 1 && forall o :: IsFirst(lines, parse, known, n, o) <==> out == [o]
  {
    var held, out := ReadLine(lines[n], parse), Unseen(ObjectsIn(lines[n], parse), before);
    if held.Some? {
      var o := held.value;
      assert Unseen([o], before) == (if IsRepeat(o, before) then [] else [o]) + Unseen([], Remember(o, before));
      RepeatIff(lines, parse, known, before, n, o);
    }
    assert out == if held.Some? && !IsRepeat(held.value, before) then [held.value] else [];
    forall o ensures IsFirst(lines, parse, known, n, o) <==> out == [o] {
      HoldsIff(lines[n], parse, o);
      assert out == [o] ==> out[0] == o;
    }
  }

  lemma RepeatIff(lines: seq<Bytes>, parse: Parser, known: set<string>, before: set<string>, n: nat, o: Entry)
    requires n < |lines| && KnownAre(lines[..n], parse, known, before)
    ensures IsRepeat(o, before) <==> Repeats(lines, parse, known, n, o)
  {
    if IsRepeat(o, before) {
      UuidIff(o, Uuid(o).value);
      NamedNext(lines, parse, n, Uuid(o).value);
    }
    if uuid :| HasUuid(o, uuid) && (uuid in known || NamedBefore(lines, parse, n, uuid)) {
      UuidIff(o, uuid);
      NamedNext(lines, parse, n, uuid);
    }
  }

  lemma {:induction false} PickedUpTo(lines: seq<Bytes>, parse: Parser, known: set<string>, n: nat)
    returns (at: seq<nat>)
    requires n <= |lines|
    ensures Picked(lines[..n], parse, known, Unseen(Objects(lines[..n], parse), known), at)
    ensures KnownAre(lines[..n], parse, known, Known(Objects(lines[..n], parse), known))
  {
    if n == 0 {
      at := [];
    } else {
      var before := PickedUpTo(lines, parse, known, n - 1);
      var front, line := lines[..n - 1], lines[n - 1];
      assert lines[..n] == front + [line];
      ObjectsConcat(front, [line], parse);
      OneObject(line, parse);
      UnseenAppend(Objects(front, parse), ObjectsIn(line, parse), known);
      KnownNext(lines[..n], parse, known, front, Known(Objects(front, parse), known));
      at := PickedNext(lines[..n], parse, known, front, Unseen(Objects(front, parse), known),
                       Known(Objects(front, parse), known), before);
    }
  }

  lemma OneObject(line: Bytes, parse: Parser)
    ensures Objects([line], parse) == ObjectsIn(line, parse)
  {
    assert [line][1..] == [];
    assert Collected(Reads(parse), [line]) == Reads(parse)(line) + Collected(Reads(parse), []);
  }

  lemma FirstInPrefix(lines: seq<Bytes>, parse: Parser, known: set<string>, n: nat, i: nat, o: Entry)
    requires i < n <= |lines|
    ensures IsFirst(lines[..n], parse, known, i, o) <==> IsFirst(lines, parse, known, i, o)
  {
    assert lines[..n][i] == lines[i] && lines[..n][..i] == lines[..i];
    forall uuid ensures NamedBefore(lines[..n], parse, i, uuid) <==> NamedBefore(lines, parse, i, uuid) {
      NamedNext(lines, parse, i, uuid);
      NamedNext(lines[..n], parse, i, uuid);
    }
  }

  lemma PickedNext(lines: seq<Bytes>, parse: Parser, known: set<string>, front: seq<Bytes>, entries: seq<Entry>,
                   seen: set<string>, before: seq<nat>) returns (at: seq<nat>)
    requires lines != [] && front == lines[..|lines| - 1]
    requires Picked(front, parse, known, entries, before) && KnownAre(front, parse, known, seen)
    ensures Picked(lines, parse, known, entries + Unseen(ObjectsIn(lines[|lines| - 1], parse), seen), at)
  {
    var n := |lines| - 1;
    var out := Unseen(ObjectsIn(lines[n], parse), seen);
    OneUnseen(lines, parse, known, seen, n);
    forall i: nat, o | i < n ensures IsFirst(front, parse, known, i, o) <==> IsFirst(lines, parse, known, i, o) {
      FirstInPrefix(lines, parse, known, n, i, o);
    }
    if out == [] {
      at := before;
      assert entries + out == entries;
    } else {
      assert out == [out[0]];
      at := before + [n];
    }
  }

  // ----- What is delivered -----

  /** One scan of a file delivers exactly the first lines of its complete part. */
  lemma ScanPicks(b: Bytes, parse: Parser) returns (at: seq<nat>)
    ensures Picked(Lines(b[..Complete(b)]), parse, {}, Scan(b, parse), at)
  {
    var lines := Lines(b[..Complete(b)]);
    at := PickedUpTo(lines, parse, {}, |lines|);
    assert lines[..|lines|] == lines;
  }

  /** Whatever polls went before, a poll that reads an append-only file leaves delivered exactly these. */
  lemma PollsPick(polls: seq<Poll>, inode: int, parse: Parser) returns (at: seq<nat>)
    requires AppendOnly(polls, inode) && polls != []
    requires polls[|polls| - 1].Seen? && polls[|polls| - 1].content.Some?
    ensures polls[|polls| - 1].size <= |polls[|polls| - 1].content.value|
    ensures var b := Observed(Deliver(polls[..|polls| - 1], parse).state, polls[|polls| - 1]);
      Picked(Lines(b[..Complete(b)]), parse, {}, Deliver(polls, parse).entries, at)
  {
    PollsEqualScan(polls, inode, parse);
    at := ScanPicks(Observed(Deliver(polls[..|polls| - 1], parse).state, polls[|polls| - 1]), parse);
  }

  /**
   Any poll of any file reads on where the reader was, or from the start of a file that was replaced or has
   shrunk; the lines complete from there on are what it delivers from, relative to what is known.
   */
  lemma PollPicks(s: State, inode: int, size: nat, content: Bytes, parse: Parser) returns (at: seq<nat>)
    ensures var from := if (s.inode.Some? && s.inode.value != inode) || size < s.offset then 0 else s.offset;
      var chunk := if from <= |content| then content[from..] else [];
      var end := if size == from then 0 else Complete(chunk);
      var out := ReadStep(s, Seen(inode, size, Some(content)), parse);
      && Picked(Lines(chunk[..end]), parse, s.seen, out.entries, at)
      && KnownAre(Lines(chunk[..end]), parse, s.seen, out.state.seen)
      && out.state.offset == from + end && out.state.inode == Some(inode)
  {
    var from := Resume(s, inode, size);
    var chunk := if from <= |content| then content[from..] else [];
    var end := if size == from then 0 else Complete(chunk);
    var lines := Lines(chunk[..end]);
    at := PickedUpTo(lines, parse, s.seen, |lines|);
    assert lines[..|lines|] == lines;
    assert end == 0 ==> lines == [];
  }
}
