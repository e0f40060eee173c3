/**
 Incremental reading of a growing transcript. Each poll looks at the file's inode and size, and
 then, if there is anything new, at its bytes, which may have grown meanwhile.
 */
module TranscriptTail {
  import opened Common
  import opened Json

  type Bytes = seq<byte>

  /** Decoding and parsing one line; None when either fails. */
  type Parser = Bytes -> Option<Json>

  const NEWLINE: byte := 10

  /** A parsed transcript line: a JSON object. */
  datatype Entry = Entry(fields: Object)

  /** One poll: the file is missing, or was seen with this inode and size, and then read if it could be. */
  datatype Poll = Missing | Seen(inode: int, size: nat, content: Option<Bytes>)

  // ----- Lines -----

  /** The first newline at or after k, or the length. */
  function FindNewline(b: Bytes, k: nat): (i: nat)
    requires k <= |b|
    ensures k <= i <= |b|
    decreases |b| - k
  {
    if k == |b| || b[k] == NEWLINE then k else FindNewline(b, k + 1)
  }

  /**
   The newline-terminated lines of a text. (Splitting complete lines at newlines also gives an
   empty last piece, which is blank and yields nothing.)
   */
  function Lines(b: Bytes): seq<Bytes>
    decreases |b|
  {
    var i := FindNewline(b, 0);
    if i == |b| then [] else [b[..i]] + Lines(b[i + 1..])
  }

  /** The length up to and including the last newline before n. */
  function LastNewline(b: Bytes, n: nat): (k: nat)
    requires n <= |b|
    ensures k <= n
  {
    if n == 0 || b[n - 1] == NEWLINE then n else LastNewline(b, n - 1)
  }

  function Complete(b: Bytes): (n: nat)
    ensures n <= |b|
  {
    LastNewline(b, |b|)
  }

  predicate IsBlank(line: Bytes) {
    forall i :: 0 <= i < |line| ==> line[i] == 32 || 9 <= line[i] <= 13
  }

  /** The object on a line, if there is one. */
  function ReadLine(line: Bytes, parse: Parser): Option<Entry> {
    if IsBlank(line) then None
    else
      match parse(line)
      case Some(Obj(fields)) => Some(Entry(fields))
      case _ => None
  }

  /** The object of a line, if it holds one. */
  function ObjectsIn(line: Bytes, parse: Parser): seq<Entry> {
    var o := ReadLine(line, parse);
    if o.Some? then [o.value] else []
  }

  function Reads(parse: Parser): Bytes -> seq<Entry> {
    line => ObjectsIn(line, parse)
  }

  function Collected(read: Bytes -> seq<Entry>, lines: seq<Bytes>): seq<Entry> {
    if lines == [] then [] else read(lines[0]) + Collected(read, lines[1..])
  }

  function Objects(lines: seq<Bytes>, parse: Parser): seq<Entry> {
    Collected(Reads(parse), lines)
  }

  /** All objects of the complete lines. */
  function Entries(b: Bytes, parse: Parser): seq<Entry> {
    Objects(Lines(b[..Complete(b)]), parse)
  }

  // ----- Dropping repeats -----

  function Uuid(o: Entry): Option<string> {
    match Get(o.fields, "uuid")
    case Some(Str(s)) => if s == "" then None else Some(s)
    case _ => None
  }

  predicate IsRepeat(o: Entry, seen: set<string>) {
    Uuid(o).Some? && Uuid(o).value in seen
  }

  function Remember(o: Entry, seen: set<string>): set<string> {
    if Uuid(o).Some? then seen + {Uuid(o).value} else seen
  }

  /** The uuids known after these objects. */
  function Known(os: seq<Entry>, seen: set<string>): set<string> {
    if os == [] then seen else Known(os[1..], Remember(os[0], seen))
  }

  /** The objects whose uuid was not seen before them; objects without one always stay. */
  function Unseen(os: seq<Entry>, seen: set<string>): seq<Entry> {
    if os == [] then []
    else (if IsRepeat(os[0], seen) then [] else [os[0]]) + Unseen(os[1..], Remember(os[0], seen))
  }

  // ----- One poll -----

  datatype State = State(offset: nat, inode: Option<int>, seen: set<string>)

  datatype Outcome = Outcome(state: State, entries: seq<Entry>)

  /** The offset a poll goes on from: the top after truncation or replacement. */
  function Resume(s: State, inode: int, size: nat): nat {
    if (s.inode.Some? && s.inode.value != inode) || size < s.offset then 0 else s.offset
  }

  /** Reading past the end yields nothing. */
  function Rest(content: Bytes, offset: nat): Bytes {
    if offset <= |content| then content[offset..] else []
  }

  function ReadStep(s: State, poll: Poll, parse: Parser): Outcome {
    match poll
    case Missing => Outcome(s, [])
    case Seen(inode, size, content) =>
      var offset := Resume(s, inode, size);
      var s' := State(offset, Some(inode), s.seen);
      if size == offset || content.None? then Outcome(s', [])
      else
        var chunk := Rest(content.value, offset);
        var end := Complete(chunk);
        if end == 0 then Outcome(s', [])
        else
          var os := Objects(Lines(chunk[..end]), parse);
          Outcome(s'.(offset := offset + end, seen := Known(os, s.seen)), Unseen(os, s.seen))
  }

  class TranscriptTailer {
    var offset: nat
    var inode: Option<int>
    var seen: set<string>

    function Contents(): State
      reads this
    {
      State(offset, inode, seen)
    }

    constructor ()
      ensures Contents() == State(0, None, {})
    {
      offset, inode, seen := 0, None, {};
    }

    method Read(poll: Poll, parse: Parser) returns (entries: seq<Entry>)
      modifies this
      ensures Outcome(Contents(), entries) == ReadStep(old(Contents()), poll, parse)
    {
      if poll.Missing? {
        return [];
      }
      if inode.Some? && poll.inode != inode.value {
        offset := 0;
      }
      if poll.size < offset {
        offset := 0;
      }
      inode := Some(poll.inode);
      if poll.size == offset || poll.content.None? {
        return [];
      }
      var chunk := Rest(poll.content.value, offset);
      var end := Complete(chunk);
      if end == 0 {
        return [];
      }
      offset := offset + end;
      entries := ReadLines(Lines(chunk[..end]), parse);
    }

    method ReadLines(lines: seq<Bytes>, parse: Parser) returns (entries: seq<Entry>)
      modifies this`seen
      ensures entries == Unseen(Objects(lines, parse), old(seen))
      ensures seen == Known(Objects(lines, parse), old(seen))
    {
      entries := [];
      assert lines[0..] == lines;
      for i := 0 to |lines|
        invariant entries + Unseen(Objects(lines[i..], parse), seen) == Unseen(Objects(lines, parse), old(seen))
        invariant Known(Objects(lines[i..], parse), seen) == Known(Objects(lines, parse), old(seen))
      {
        var first := ReadLine(lines[i], parse);
        ObjectsHead(lines[i..], parse);
        assert lines[i..][1..] == lines[i + 1..];
        if first.Some? {
          UnseenHead(entries, first.value, Objects(lines[i + 1..], parse), seen);
          if !IsRepeat(first.value, seen) {
            entries := entries + [first.value];
          }
          seen := Remember(first.value, seen);
        }
      }
    }
  }

  lemma ObjectsHead(lines: seq<Bytes>, parse: Parser)
    requires lines != []
    ensures var first := ReadLine(lines[0], parse);
      Objects(lines, parse)
      == if first.Some? then [first.value] + Objects(lines[1..], parse) else Objects(lines[1..], parse)
  {
  }

  lemma UnseenHead(entries: seq<Entry>, o: Entry, rest: seq<Entry>, seen: set<string>)
    ensures Known([o] + rest, seen) == Known(rest, Remember(o, seen))
    ensures entries + Unseen([o] + rest, seen)
         == (if IsRepeat(o, seen) then entries else entries + [o]) + Unseen(rest, Remember(o, seen))
  {
    var all, more := [o] + rest, Unseen(rest, Remember(o, seen));
    assert all[0] == o && all[1..] == rest;
    assert Unseen(all, seen) == if IsRepeat(o, seen) then more else [o] + more;
    assert entries + ([o] + more) == entries + [o] + more;
  }

  // ----- Splitting and dropping repeats go piece by piece -----

  /** Complete text: it is empty or ends with a newline. */
  predicate IsComplete(b: Bytes) {
    b == [] || b[|b| - 1] == NEWLINE
  }

  lemma {:induction false} FindsFirst(b: Bytes, k: nat, i: nat)
    requires k <= i < |b| && b[i] == NEWLINE && forall j :: k <= j < i ==> b[j] != NEWLINE
    ensures FindNewline(b, k) == i
    decreases i - k
  {
    if k < i {
      FindsFirst(b, k + 1, i);
    }
  }

  lemma {:induction false} FoundIsFirst(b: Bytes, k: nat)
    requires k <= |b|
    ensures var i := FindNewline(b, k);
      (i < |b| ==> b[i] == NEWLINE) && forall j :: k <= j < i ==> b[j] != NEWLINE
    decreases |b| - k
  {
    if k < |b| && b[k] != NEWLINE {
      FoundIsFirst(b, k + 1);
    }
  }

  lemma LinesHead(b: Bytes, line: Bytes, tail: Bytes)
    requires NEWLINE !in line && b == line + [NEWLINE] + tail
    ensures Lines(b) == [line] + Lines(tail)
  {
    FindsFirst(b, 0, |line|);
    assert b[..|line|] == line && b[|line| + 1..] == tail;
  }

  lemma FirstLine(a: Bytes) returns (line: Bytes, tail: Bytes)
    requires IsComplete(a) && a != []
    ensures NEWLINE !in line && a == line + [NEWLINE] + tail && |tail| < |a| && IsComplete(tail)
  {
    var i := FindNewline(a, 0);
    FoundIsFirst(a, 0);
    line, tail := a[..i], a[i + 1..];
  }

  lemma LinesHeadAppend(a: Bytes, b: Bytes, line: Bytes, tail: Bytes)
    requires NEWLINE !in line && a == line + [NEWLINE] + tail
    ensures Lines(a + b) == [line] + Lines(tail + b)
  {
    assert a + b == line + [NEWLINE] + (tail + b);
    LinesHead(a + b, line, tail + b);
  }

  /** Complete lines followed by more text. */
  lemma {:induction false} LinesAppend(a: Bytes, b: Bytes)
    requires IsComplete(a)
    ensures Lines(a + b) == Lines(a) + Lines(b)
    decreases |a|
  {
    if a == [] {
      assert a + b == b;
    } else {
      var line, tail := FirstLine(a);
      LinesAppend(tail, b);
      LinesHead(a, line, tail);
      LinesHeadAppend(a, b, line, tail);
    }
  }

  lemma {:induction false} CollectedConcat(read: Bytes -> seq<Entry>, x: seq<Bytes>, y: seq<Bytes>)
    ensures Collected(read, x + y) == Collected(read, x) + Collected(read, y)
  {
    if x == [] {
      assert x + y == y;
    } else {
      assert (x + y)[0] == x[0] && (x + y)[1..] == x[1..] + y;
      CollectedConcat(read, x[1..], y);
      var first, more, last := read(x[0]), Collected(read, x[1..]), Collected(read, y);
      assert first + (more + last) == first + more + last;
    }
  }

  lemma ObjectsConcat(x: seq<Bytes>, y: seq<Bytes>, parse: Parser)
    ensures Objects(x + y, parse) == Objects(x, parse) + Objects(y, parse)
  {
    CollectedConcat(Reads(parse), x, y);
  }

  lemma {:induction false} UnseenAppend(a: seq<Entry>, b: seq<Entry>, seen: set<string>)
    ensures Known(a + b, seen) == Known(b, Known(a, seen))
    ensures Unseen(a + b, seen) == Unseen(a, seen) + Unseen(b, Known(a, seen))
    decreases |a|
  {
    if a == [] {
      assert a + b == b;
    } else {
      assert (a + b)[1..] == a[1..] + b;
      UnseenAppend(a[1..], b, Remember(a[0], seen));
    }
  }

  lemma {:induction false} LastNewlineAppend(a: Bytes, b: Bytes, n: nat)
    requires IsComplete(a) && n <= |b|
    ensures LastNewline(a + b, |a| + n) == |a| + LastNewline(b, n)
  {
    if n > 0 && b[n - 1] != NEWLINE {
      LastNewlineAppend(a, b, n - 1);
    }
  }

  lemma {:induction false} LastNewlineIs(b: Bytes, n: nat)
    requires n <= |b|
    ensures IsComplete(b[..LastNewline(b, n)])
  {
    if n > 0 && b[n - 1] != NEWLINE {
      LastNewlineIs(b, n - 1);
    }
  }

  // ----- Any poll schedule over an append-only file equals one scan -----

  /** The bytes a poll could see: up to the size it saw if there was nothing new, else what it read. */
  function Observed(s: State, poll: Poll): Bytes
    requires poll.Seen? && poll.content.Some? && poll.size <= |poll.content.value|
  {
    if poll.size == s.offset then poll.content.value[..poll.size] else poll.content.value
  }

  /** One scan of a file: the objects of its complete lines, later repeats of a uuid dropped. */
  function Scan(b: Bytes, parse: Parser): seq<Entry> {
    Unseen(Entries(b, parse), {})
  }

  /** Delivered entries and state after these polls. */
  function Deliver(polls: seq<Poll>, parse: Parser): Outcome
    decreases |polls|
  {
    if polls == [] then Outcome(State(0, None, {}), [])
    else
      var before := Deliver(polls[..|polls| - 1], parse);
      var out := ReadStep(before.state, polls[|polls| - 1], parse);
      Outcome(out.state, before.entries + out.entries)
  }

  /** Everything up to the offset of the file read so far is delivered, and nothing else. */
  ghost predicate Caught(out: Outcome, b: Bytes, parse: Parser) {
    out.state.offset <= |b| && Delivered(out, b[..out.state.offset], parse)
  }

  /** Exactly the entries of this complete text were delivered. */
  ghost predicate Delivered(out: Outcome, text: Bytes, parse: Parser) {
    && IsComplete(text)
    && out.entries == Unseen(Objects(Lines(text), parse), {})
    && out.state.seen == Known(Objects(Lines(text), parse), {})
  }

  predicate IsPrefix(a: Bytes, b: Bytes) {
    |a| <= |b| && b[..|a|] == a
  }

  /** What the latest look at the file showed; a poll that saw nothing leaves it as it was. */
  function FileAfter(polls: seq<Poll>): Bytes
    decreases |polls|
  {
    if polls == [] then []
    else
      match polls[|polls| - 1]
      case Seen(_, _, Some(content)) => content
      case _ => FileAfter(polls[..|polls| - 1])
  }

  /** The same file throughout, only appended to. A poll may find it missing or unreadable. */
  predicate AppendOnly(polls: seq<Poll>, inode: int)
    decreases |polls|
  {
    polls == [] ||
    var before := polls[..|polls| - 1];
    && AppendOnly(before, inode)
    && match polls[|polls| - 1]
       case Missing => true
       case Seen(i, size, None) => i == inode && |FileAfter(before)| <= size
       case Seen(i, size, Some(content)) =>
         i == inode && IsPrefix(FileAfter(before), content) && |FileAfter(before)| <= size <= |content|
  }

  /** More complete text delivers its own entries after the others. */
  lemma DeliverMore(out: Outcome, text: Bytes, more: Bytes, offset: nat, inode: Option<int>, parse: Parser)
    requires Delivered(out, text, parse) && IsComplete(more)
    ensures var os := Objects(Lines(more), parse);
      Delivered(Outcome(State(offset, inode, Known(os, out.state.seen)), out.entries + Unseen(os, out.state.seen)),
                text + more, parse)
  {
    LinesAppend(text, more);
    ObjectsConcat(Lines(text), Lines(more), parse);
    UnseenAppend(Objects(Lines(text), parse), Objects(Lines(more), parse), {});
  }

  /** What is left of the file after the delivered text, and where its last complete line ends. */
  lemma Remainder(before: Outcome, b: Bytes, c: Bytes, parse: Parser)
    requires Caught(before, b, parse) && IsPrefix(b, c)
    ensures var offset := before.state.offset;
      var end := Complete(c[offset..]);
      && c[..offset] == b[..offset] && c[..offset + end] == c[..offset] + c[offset..][..end]
      && IsComplete(c[offset..][..end])
      && Complete(c) == offset + end
  {
    var offset := before.state.offset;
    assert c == c[..offset] + c[offset..];
    LastNewlineAppend(c[..offset], c[offset..], |c| - offset);
    LastNewlineIs(c[offset..], |c| - offset);
  }

  /** After any polls of an append-only file, what was delivered is one scan up to the offset. */
  lemma {:induction false} AlwaysCaught(polls: seq<Poll>, inode: int, parse: Parser)
    requires AppendOnly(polls, inode)
    ensures Caught(Deliver(polls, parse), FileAfter(polls), parse)
    ensures Deliver(polls, parse).state.inode == None || Deliver(polls, parse).state.inode == Some(inode)
    decreases |polls|
  {
    if polls == [] {
      NothingCaught(parse);
    } else {
      var n := |polls| - 1;
      AlwaysCaught(polls[..n], inode, parse);
      var before := Deliver(polls[..n], parse);
      match polls[n]
      case Missing => assert before.entries + [] == before.entries;
      case Seen(_, size, None) => assert before.entries + [] == before.entries;
      case Seen(_, size, Some(content)) => StepCaught(before, FileAfter(polls[..n]), inode, size, content, parse);
 StepOffset(before, FileAfter(polls[..n]), inode, size, content, parse);
    }
  }

  lemma NothingCaught(parse: Parser)
    ensures Caught(Outcome(State(0, None, {}), []), [], parse)
  {
  }

  lemma StepCaught(before: Outcome, b: Bytes, inode: int, size: nat, content: Bytes, parse: Parser)
    requires Caught(before, b, parse) && IsPrefix(b, content) && |b| <= size <= |content|
    requires before.state.inode == None || before.state.inode == Some(inode)
    ensures var out := ReadStep(before.state, Seen(inode, size, Some(content)), parse);
      Given(Caught(Outcome(out.state, before.entries + out.entries), content, parse))
  {
    var rest := content[before.state.offset..];
    ReadStepIs(before.state, inode, size, content, parse);
    CaughtStill(before, b, content, Some(inode), parse);
    if size != before.state.offset && Complete(rest) > 0 {
      LastNewlineIs(rest, |rest|);
      CaughtMore(before, content, Complete(rest), Some(inode), parse);
    }
  }

  lemma StepOffset(before: Outcome, b: Bytes, inode: int, size: nat, content: Bytes, parse: Parser)
    requires Caught(before, b, parse) && IsPrefix(b, content) && |b| <= size <= |content|
    requires before.state.inode == None || before.state.inode == Some(inode)
    ensures var out := ReadStep(before.state, Seen(inode, size, Some(content)), parse);
      && out.state.inode == Some(inode)
      && out.state.offset == if size == before.state.offset then size else Complete(content)
  {
    Remainder(before, b, content, parse);
    ReadStepIs(before.state, inode, size, content, parse);
  }

  lemma CaughtStill(before: Outcome, b: Bytes, content: Bytes, inode: Option<int>, parse: Parser)
    requires Caught(before, b, parse) && IsPrefix(b, content)
    ensures Given(Caught(before, content, parse))
    ensures Given(Caught(Outcome(before.state.(inode := inode), before.entries + []), content, parse))
  {
    assert content[..before.state.offset] == b[..before.state.offset];
    assert before.entries + [] == before.entries;
  }

  lemma CaughtMore(before: Outcome, content: Bytes, end: nat, inode: Option<int>, parse: Parser)
    requires Given(Caught(before, content, parse)) && before.state.offset + end <= |content|
    requires IsComplete(content[before.state.offset..][..end])
    ensures var os := Objects(Lines(content[before.state.offset..][..end]), parse);
      var state := State(before.state.offset + end, inode, Known(os, before.state.seen));
      Given(Caught(Outcome(state, before.entries + Unseen(os, before.state.seen)), content, parse))
  {
    var offset := before.state.offset;
    var more := content[offset..][..end];
    DeliverMore(before, content[..offset], more, offset + end, inode, parse);
    assert content[..offset + end] == content[..offset] + more;
  }

  lemma ReadStepIs(s: State, inode: int, size: nat, content: Bytes, parse: Parser)
    requires (s.inode == None || s.inode == Some(inode)) && s.offset <= size <= |content|
    ensures var end := Complete(content[s.offset..]);
      var os := Objects(Lines(content[s.offset..][..end]), parse);
      ReadStep(s, Seen(inode, size, Some(content)), parse) ==
        if size == s.offset || end == 0 then Outcome(s.(inode := Some(inode)), [])
        else Outcome(State(s.offset + end, Some(inode), Known(os, s.seen)), Unseen(os, s.seen))
  {
  }

  /**
   Poll-schedule independence: whatever polls went before, a poll that reads the file leaves
   delivered exactly one scan of the bytes it could see.
   */
  lemma PollsEqualScan(polls: seq<Poll>, inode: int, parse: Parser)
    requires AppendOnly(polls, inode) && polls != []
    requires polls[|polls| - 1].Seen? && polls[|polls| - 1].content.Some?
    ensures polls[|polls| - 1].size <= |polls[|polls| - 1].content.value|
    ensures Deliver(polls, parse).entries
         == Scan(Observed(Deliver(polls[..|polls| - 1], parse).state, polls[|polls| - 1]), parse)
  {
    var n := |polls| - 1;
    var before, content := Deliver(polls[..n], parse), polls[n].content.value;
    AlwaysCaught(polls[..n], inode, parse);
    StepCaught(before, FileAfter(polls[..n]), inode, polls[n].size, content, parse);
    StepOffset(before, FileAfter(polls[..n]), inode, polls[n].size, content, parse);
    CaughtIsScan(Deliver(polls, parse), content, Observed(before.state, polls[n]), parse);
  }

  lemma CaughtIsScan(out: Outcome, content: Bytes, observed: Bytes, parse: Parser)
    requires Caught(out, content, parse)
    requires (observed == content && Complete(content) == out.state.offset) || observed == content[..out.state.offset]
    ensures out.entries == Scan(observed, parse)
  {
    var text := content[..out.state.offset];
    if observed == text {
      LastNewlineAppend(text, [], 0);
      assert text + [] == text;
      assert text[..Complete(text)] == text;
    }
  }

  // ----- No uuid twice, whatever happens to the file -----

  ghost predicate NoRepeats(os: seq<Entry>) {
    forall i, j :: 0 <= i < j < |os| && Uuid(os[i]).Some? ==> Uuid(os[i]) != Uuid(os[j])
  }

  /** The uuids of these objects are among the known ones. */
  ghost predicate AllKnown(os: seq<Entry>, seen: set<string>) {
    forall i :: 0 <= i < |os| && Uuid(os[i]).Some? ==> Uuid(os[i]).value in seen
  }

  ghost predicate NoneKnown(os: seq<Entry>, seen: set<string>) {
    forall i :: 0 <= i < |os| && Uuid(os[i]).Some? ==> Uuid(os[i]).value !in seen
  }

  lemma {:induction false} UnseenAreNew(os: seq<Entry>, seen: set<string>)
    ensures NoRepeats(Unseen(os, seen)) && NoneKnown(Unseen(os, seen), seen)
    ensures AllKnown(Unseen(os, seen), Known(os, seen)) && seen <= Known(os, seen)
  {
    if os != [] {
      var seen' := Remember(os[0], seen);
      UnseenAreNew(os[1..], seen');
    }
  }

  /** Over any polls at all, across truncation, replacement and deletion, no uuid is delivered twice. */
  lemma {:induction false} NeverTwice(polls: seq<Poll>, parse: Parser)
    ensures NoRepeats(Deliver(polls, parse).entries)
    ensures AllKnown(Deliver(polls, parse).entries, Deliver(polls, parse).state.seen)
    decreases |polls|
  {
    if polls != [] {
      var n := |polls| - 1;
      NeverTwice(polls[..n], parse);
      var before := Deliver(polls[..n], parse);
      match polls[n]
      case Missing =>
      case Seen(inode, size, content) =>
        if content.Some? {
          var chunk := Rest(content.value, Resume(before.state, inode, size));
          UnseenAreNew(Objects(Lines(chunk[..Complete(chunk)]), parse), before.state.seen);
        }
    }
  }
}
