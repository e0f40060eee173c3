/** Which events a transcript message gives in history, and when, said of the message itself. */
module HistoryLaws {
  import opened Common
  import opened HistoryPages

  // ----- Times -----

  /** The time a message asks for: the recorded one, or its place after the anchor. */
  function Asked(ms: seq<Message>, recorded: map<string, int>, anchor: int, i: nat): int
    requires i < |ms|
  {
    if ms[i].uuid in recorded then recorded[ms[i].uuid] else anchor + 1000 * i
  }

  /** A message has the time it asks for, unless that is not later than the one before, and then the next possible. */
  lemma TimeIff(ms: seq<Message>, recorded: map<string, int>, anchor: int, i: nat)
    requires i < |ms|
    ensures var times, asked := TimesFrom(ms, recorded, anchor, 0, None), Asked(ms, recorded, anchor, i);
      times[i] == if i == 0 || asked > times[i - 1] then asked else times[i - 1] + 1
  {
    TimeFrom(ms, recorded, anchor, 0, None, i);
  }

  lemma {:induction false} TimeFrom(ms: seq<Message>, recorded: map<string, int>, anchor: int, index: nat,
                                    previous: Option<int>, i: nat)
    requires i < |ms|
    ensures var times := TimesFrom(ms, recorded, anchor, index, previous);
      var before := if i == 0 then previous else Some(times[i - 1]);
      times[i] == TimeOf(ms[i], recorded, anchor, index + i, before)
    decreases |ms|
  {
    if i > 0 {
      TimeFrom(ms[1..], recorded, anchor, index + 1, Some(TimeOf(ms[0], recorded, anchor, index, previous)), i - 1);
    }
  }

  // ----- Tool calls and results -----

  predicate IsCall(blocks: seq<Block>, i: nat) {
    i < |blocks| && blocks[i].ToolUse? && blocks[i].id != ""
  }

  predicate IsResult(blocks: seq<Block>, i: nat) {
    i < |blocks| && blocks[i].ToolResult? && blocks[i].id != ""
  }

  function BlockAt(blocks: seq<Block>, i: nat): Block {
    if i < |blocks| then blocks[i] else OtherBlock
  }

  function ResultAt(blocks: seq<Block>, turn: Option<string>, base: int, i: nat): Event {
    Event(ToolFinished, turn, if i < |blocks| && blocks[i].ToolResult? then Some(blocks[i].id) else None, base + i)
  }

  lemma {:induction false} ToolsAppend(a: seq<Block>, b: seq<Block>)
    ensures Tools(a + b) == Tools(a) + Tools(b)
  {
    if a == [] {
      assert a + b == b;
    } else {
      assert (a + b)[0] == a[0] && (a + b)[1..] == a[1..] + b;
      ToolsAppend(a[1..], b);
    }
  }

  lemma ResultsCons(b: Block, rest: seq<Block>, turn: Option<string>, at: int)
    ensures ResultEvents([b] + rest, turn, at) == ResultEvents([b], turn, at) + ResultEvents(rest, turn, at + 1)
  {
    assert ([b] + rest)[0] == b && ([b] + rest)[1..] == rest && [b][1..] == [];
    assert ResultEvents([b], turn, at)
      == (if b.ToolResult? && b.id != "" then [Event(ToolFinished, turn, Some(b.id), at)] else []) + [];
  }

  lemma {:induction false} ResultsAppend(a: seq<Block>, b: seq<Block>, turn: Option<string>, at: int)
    ensures ResultEvents(a + b, turn, at) == ResultEvents(a, turn, at) + ResultEvents(b, turn, at + |a|)
  {
    if a == [] {
      assert a + b == b;
    } else {
      var rest := a[1..];
      assert a == [a[0]] + rest && a + b == [a[0]] + (rest + b);
      ResultsAppend(rest, b, turn, at + 1);
      ResultsCons(a[0], rest, turn, at);
      ResultsCons(a[0], rest + b, turn, at);
      var first, more, last := ResultEvents([a[0]], turn, at), ResultEvents(rest, turn, at + 1),
        ResultEvents(b, turn, at + |a|);
      assert first + (more + last) == first + more + last;
    }
  }

  lemma {:induction false} ToolsUpTo(blocks: seq<Block>, n: nat) returns (at: seq<nat>)
    requires n <= |blocks|
    ensures Picks(n, (i: nat) => IsCall(blocks, i), (i: nat) => BlockAt(blocks, i), Tools(blocks[..n]), at)
  {
    if n == 0 {
      at := [];
    } else {
      var before := ToolsUpTo(blocks, n - 1);
      var last := blocks[n - 1];
      assert blocks[..n] == blocks[..n - 1] + [last];
      ToolsAppend(blocks[..n - 1], [last]);
      assert [last][1..] == [];
      assert Tools([last]) == if IsCall(blocks, n - 1) then [BlockAt(blocks, n - 1)] else [];
      at := PicksNext(n - 1, (i: nat) => IsCall(blocks, i), (i: nat) => BlockAt(blocks, i), Tools(blocks[..n - 1]),
                      before);
    }
  }

  /** The calls of a message are its tool uses with an id, in order. */
  lemma ToolsAreCalls(blocks: seq<Block>) returns (at: seq<nat>)
    ensures Picks(|blocks|, (i: nat) => IsCall(blocks, i), (i: nat) => BlockAt(blocks, i), Tools(blocks), at)
  {
    at := ToolsUpTo(blocks, |blocks|);
    assert blocks[..|blocks|] == blocks;
  }

  lemma OneResult(blocks: seq<Block>, turn: Option<string>, base: int, i: nat)
    requires i < |blocks|
    ensures ResultEvents([blocks[i]], turn, base + i)
         == if IsResult(blocks, i) then [ResultAt(blocks, turn, base, i)] else []
  {
    assert [blocks[i]][1..] == [];
  }

  lemma {:induction false} ResultsUpTo(blocks: seq<Block>, turn: Option<string>, base: int, n: nat)
    returns (at: seq<nat>)
    requires n <= |blocks|
    ensures Picks(n, (i: nat) => IsResult(blocks, i), (i: nat) => ResultAt(blocks, turn, base, i),
                  ResultEvents(blocks[..n], turn, base), at)
  {
    if n == 0 {
      at := [];
    } else {
      var before := ResultsUpTo(blocks, turn, base, n - 1);
      var last := blocks[n - 1];
      assert blocks[..n] == blocks[..n - 1] + [last];
      ResultsAppend(blocks[..n - 1], [last], turn, base);
      OneResult(blocks, turn, base, n - 1);
      at := PicksNext(n - 1, (i: nat) => IsResult(blocks, i), (i: nat) => ResultAt(blocks, turn, base, i),
                      ResultEvents(blocks[..n - 1], turn, base), before);
    }
  }

  /** Each result with an id gives one event, in order, at its block's place after the message time. */
  lemma ResultsGiveEvents(blocks: seq<Block>, turn: Option<string>, base: int) returns (at: seq<nat>)
    ensures Picks(|blocks|, (i: nat) => IsResult(blocks, i), (i: nat) => ResultAt(blocks, turn, base, i),
                  ResultEvents(blocks, turn, base), at)
  {
    at := ResultsUpTo(blocks, turn, base, |blocks|);
    assert blocks[..|blocks|] == blocks;
  }

  /** Each call gives one event, in order, each one later than the one before; a plan is progress, not a card. */
  lemma {:induction false} CallsGiveEvents(tools: seq<Block>, turn: Option<string>, at: int)
    requires forall i :: 0 <= i < |tools| ==> tools[i].ToolUse?
    ensures var es := ToolEvents(tools, turn, at);
      |es| == |tools| && forall i :: 0 <= i < |tools| ==>
        es[i] == Event(if tools[i].name == "TodoWrite" then Progress else ToolStarted, turn, Some(tools[i].id), at + i)
  {
    if tools != [] {
      CallsGiveEvents(tools[1..], turn, at + 1);
    }
  }

  // ----- Messages -----

  predicate HasCall(m: Message) {
    exists i :: 0 <= i < |m.blocks| && IsCall(m.blocks, i)
  }

  lemma HasCallIff(m: Message)
    ensures HasCall(m) <==> Tools(m.blocks) != []
  {
    var at := ToolsAreCalls(m.blocks);
    if i :| 0 <= i < |m.blocks| && IsCall(m.blocks, i) {
      assert i in at;
    }
    if at != [] {
      assert IsCall(m.blocks, at[0]);
    }
  }

  lemma CallsAreTools(m: Message)
    ensures forall i :: 0 <= i < |Tools(m.blocks)| ==> Tools(m.blocks)[i].ToolUse?
  {
    var at := ToolsAreCalls(m.blocks);
    forall i | 0 <= i < |Tools(m.blocks)| ensures Tools(m.blocks)[i].ToolUse? {
      assert IsCall(m.blocks, at[i]);
    }
  }

  function One(given: bool, kind: EventKind, turn: Option<string>, item: Option<string>, at: int): seq<Event> {
    if given then [Event(kind, turn, item, at)] else []
  }

  /**
   A prompt gives its turn's start, if it starts one, and itself; another user message its tool results; an
   agent's message its text, as progress if it calls tools, and its calls; and any message the end of the turn
   it ends.
   */
  lemma MessageGives(m: Message, turn: Option<string>, base: int, starts: bool, ends: bool)
    ensures MessageEvents(m, turn, base, starts, ends)
         == One(m.user && m.text != "" && starts && turn.Some?, TurnStarted, turn, None, base)
            + One(m.user && m.text != "", UserPrompt, turn, Some(m.uuid), base + 1)
            + (if m.user && m.text == "" then ResultEvents(m.blocks, turn, base) else [])
            + One(!m.user && m.text != "", if HasCall(m) then Progress else Assistant, turn, Some(m.uuid), base)
            + (if m.user then [] else ToolEvents(Tools(m.blocks), turn, base + 1))
            + One(ends && turn.Some?, TurnDone, turn, None, base + 999)
  {
    HasCallIff(m);
  }

  /** An event keeps the time it was given, unless that is none, or beyond the window. */
  lemma StampKeeps(e: Event, time: int, cap: int)
    ensures Stamp(e, time, cap) == e.(at := Stamp(e, time, cap).at)
    ensures e.at != 0 && e.at < cap ==> Stamp(e, time, cap) == e
    ensures e.at == 0 && time < cap ==> Stamp(e, time, cap).at == time
    ensures (if e.at == 0 then time else e.at) >= cap ==> Stamp(e, time, cap).at == cap - 1
  {
  }

  // ----- The end of a turn -----

  predicate IsDone(e: Event) {
    e.kind.TurnDone?
  }

  lemma NotDoneInside(m: Message, turn: Option<string>, base: int, k: nat)
    requires k < |ResultEvents(m.blocks, turn, base)|
    ensures !IsDone(ResultEvents(m.blocks, turn, base)[k])
  {
    var at := ResultsGiveEvents(m.blocks, turn, base);
  }

  /** In a message's events the end of the turn is there exactly if the message ends it, and then once, as the last. */
  lemma DoneIff(m: Message, turn: Option<string>, base: int, starts: bool, ends: bool, k: nat)
    requires k < |MessageEvents(m, turn, base, starts, ends)|
    ensures var es := MessageEvents(m, turn, base, starts, ends);
      IsDone(es[k]) <==> ends && turn.Some? && k == |es| - 1
  {
    var es := MessageEvents(m, turn, base, starts, ends);
    var tail := One(ends && turn.Some?, TurnDone, turn, None, base + 999);
    MessageGives(m, turn, base, starts, ends);
    var front := es[..|es| - |tail|];
    assert es == front + tail;
    if k < |front| {
      NoneDone(m, turn, base, starts, front, k);
    }
  }

  lemma NoneDone(m: Message, turn: Option<string>, base: int, starts: bool, front: seq<Event>, k: nat)
    requires front == MessageEvents(m, turn, base, starts, false) && k < |front|
    ensures !IsDone(front[k])
  {
    if m.user && m.text == "" {
      NotDoneInside(m, turn, base, k);
    } else if !m.user {
      CallsAreTools(m);
      CallsGiveEvents(Tools(m.blocks), turn, base + 1);
    }
  }

  /** Message i reports that this turn is done. */
  ghost predicate DoneAt(t: Transcript, i: nat, turn: string)
    requires Valid(t) && i < |t.messages|
  {
    exists k :: 0 <= k < |EventsAt(t, i)| && IsDone(EventsAt(t, i)[k]) && EventsAt(t, i)[k].turn == Some(turn)
  }

  /**
   A turn is reported done exactly by its last message, once, unless that is the last of all and the session
   is busy.
   */
  lemma DoneAtIff(t: Transcript, i: nat, turn: string)
    requires Valid(t) && i < |t.messages|
    ensures DoneAt(t, i, turn) <==>
      && t.turns[i] == Some(turn) && (forall j :: i < j < |t.messages| ==> t.turns[j] != Some(turn))
      && (i < |t.messages| - 1 || !t.busy)
    ensures forall k, m :: 0 <= k < m < |EventsAt(t, i)| ==> !(IsDone(EventsAt(t, i)[k]) && IsDone(EventsAt(t, i)[m]))
  {
    var m, turnId, base := t.messages[i], t.turns[i], t.times[i];
    var made := MessageEvents(m, turnId, base, StartsTurn(t, i), EndsTurn(t, i));
    MessageGives(m, turnId, base, StartsTurn(t, i), EndsTurn(t, i));
    forall k | 0 <= k < |made| ensures IsDone(EventsAt(t, i)[k]) <==>
      EndsTurn(t, i) && turnId.Some? && k == |made| - 1 {
      DoneIff(m, turnId, base, StartsTurn(t, i), EndsTurn(t, i), k);
    }
    if EndsTurn(t, i) && turnId == Some(turn) {
      assert made[|made| - 1] == Event(TurnDone, turnId, None, base + 999);
      assert IsDone(EventsAt(t, i)[|made| - 1]) && EventsAt(t, i)[|made| - 1].turn == Some(turn);
    }
    forall k | 0 <= k < |made| && IsDone(EventsAt(t, i)[k]) ensures EventsAt(t, i)[k].turn == turnId {
      assert made[|made| - 1] == Event(TurnDone, turnId, None, base + 999);
    }
  }

  /** A turn is reported started exactly by a prompt whose turn the message before is not in. */
  lemma StartedAtIff(t: Transcript, i: nat, turn: string)
    requires Valid(t) && i < |t.messages|
    ensures StartedAt(t, i, turn) <==>
      IsPrompt(t.messages[i]) && t.turns[i] == Some(turn) && (i > 0 ==> t.turns[i - 1] != Some(turn))
  {
    forall k | 0 <= k < |EventsAt(t, i)|
      ensures Starts(EventsAt(t, i)[k], turn) <==>
        k == 0 && IsPrompt(t.messages[i]) && StartsTurn(t, i) && t.turns[i] == Some(turn) {
      StartsIff(t, i, k, turn);
    }
    if IsPrompt(t.messages[i]) && StartsTurn(t, i) && t.turns[i] == Some(turn) {
      assert Starts(EventsAt(t, i)[0], turn);
    }
  }

  // ----- Cursors -----

  /** A cursor is taken exactly when it is a number written in digits. */
  lemma CursorIff(s: string)
    ensures ParseCursor(s).Some? <==> s != "" && forall i :: 0 <= i < |s| ==> '0' <= s[i] <= '9'
  {
    DigitsIff(s, 0);
  }

  lemma {:induction false} DigitsIff(s: string, n: nat)
    ensures ParseFrom(s, n).Some? <==> AllDigits(s)
    decreases |s|
  {
    if s != "" && IsDigit(s[0]) {
      var rest := s[1..];
      DigitsIff(rest, 10 * n + (s[0] as int - '0' as int));
      if AllDigits(rest) {
        forall i | 0 <= i < |s| ensures '0' <= s[i] <= '9' {
          assert i > 0 ==> s[i] == rest[i - 1];
        }
      }
      if AllDigits(s) {
        forall i | 0 <= i < |rest| ensures '0' <= rest[i] <= '9' {
          assert rest[i] == s[i + 1];
        }
      }
    }
  }

  predicate AllDigits(s: string) {
    forall i :: 0 <= i < |s| ==> '0' <= s[i] <= '9'
  }
}
