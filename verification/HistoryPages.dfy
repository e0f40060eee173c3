/** Transcript history in pages: turn grouping, message times, and a cursor walk from the newest page back. */
module HistoryPages {
  import opened Common
  import Json

  datatype Block = ToolUse(id: string, name: string) | ToolResult(id: string) | OtherBlock

  /** A transcript message; `text` is the visible text of its content. */
  datatype Message = Message(uuid: string, user: bool, text: string, blocks: seq<Block>)

  datatype EventKind = TurnStarted | UserPrompt | Progress | Assistant | ToolStarted | ToolFinished | TurnDone

  datatype Event = Event(kind: EventKind, turn: Option<string>, item: Option<string>, at: int)

  type Turns = seq<Option<string>>

  predicate IsPrompt(m: Message) {
    m.user && m.text != ""
  }

  // ----- Turn ids -----

  function TurnsFrom(ms: seq<Message>, current: Option<string>, identify: string -> string): (r: Turns)
    ensures |r| == |ms|
  {
    if ms == [] then []
    else
      var next := if IsPrompt(ms[0]) then Some(identify(ms[0].uuid)) else current;
      [next] + TurnsFrom(ms[1..], next, identify)
  }

  method TurnIds(ms: seq<Message>, identify: string -> string) returns (r: Turns)
    ensures r == TurnsFrom(ms, None, identify)
  {
    r := [];
    var current: Option<string> := None;
    assert ms[0..] == ms;
    for i := 0 to |ms|
      invariant r + TurnsFrom(ms[i..], current, identify) == TurnsFrom(ms, None, identify)
    {
      TurnsNext(r, ms, i, current, identify);
      if IsPrompt(ms[i]) {
        current := Some(identify(ms[i].uuid));
      }
      r := r + [current];
    }
    TurnsEnd(r, ms, current, identify);
  }

  lemma TurnsNext(r: Turns, ms: seq<Message>, i: nat, current: Option<string>, identify: string -> string)
    requires i < |ms|
    ensures var next := if IsPrompt(ms[i]) then Some(identify(ms[i].uuid)) else current;
      r + TurnsFrom(ms[i..], current, identify) == r + [next] + TurnsFrom(ms[i + 1..], next, identify)
  {
    assert ms[i..][0] == ms[i] && ms[i..][1..] == ms[i + 1..];
  }

  lemma TurnsEnd(r: Turns, ms: seq<Message>, current: Option<string>, identify: string -> string)
    ensures r + TurnsFrom(ms[|ms|..], current, identify) == r
  {
  }

  /** Message i belongs to the latest prompt at or before it. */
  lemma {:induction false} TurnIsLatestPrompt(ms: seq<Message>, current: Option<string>, identify: string -> string,
                                              i: nat)
    requires i < |ms|
    ensures var t := TurnsFrom(ms, current, identify)[i];
      if IsPrompt(ms[i]) then t == Some(identify(ms[i].uuid))
      else t == if i == 0 then current else TurnsFrom(ms, current, identify)[i - 1]
  {
    if i > 0 {
      var next := if IsPrompt(ms[0]) then Some(identify(ms[0].uuid)) else current;
      TurnIsLatestPrompt(ms[1..], next, identify, i - 1);
    }
  }

  // ----- Message times -----

  /** The recorded time, or one second per message after the anchor; never at or before the previous one. */
  function TimeOf(m: Message, recorded: map<string, int>, anchor: int, index: nat, previous: Option<int>): (t: int)
    ensures previous.Some? ==> t > previous.value
  {
    var value := if m.uuid in recorded then recorded[m.uuid] else anchor + index * 1000;
    if previous.Some? && value <= previous.value then previous.value + 1 else value
  }

  function TimesFrom(ms: seq<Message>, recorded: map<string, int>, anchor: int, index: nat,
                     previous: Option<int>): (r: seq<int>)
    ensures |r| == |ms|
    decreases |ms|
  {
    if ms == [] then []
    else
      var t := TimeOf(ms[0], recorded, anchor, index, previous);
      [t] + TimesFrom(ms[1..], recorded, anchor, index + 1, Some(t))
  }

  method MessageTimes(ms: seq<Message>, recorded: map<string, int>, anchor: int) returns (times: seq<int>)
    ensures times == TimesFrom(ms, recorded, anchor, 0, None)
  {
    times := [];
    var previous: Option<int> := None;
    assert ms[0..] == ms;
    for index := 0 to |ms|
      invariant times + TimesFrom(ms[index..], recorded, anchor, index, previous)
        == TimesFrom(ms, recorded, anchor, 0, None)
    {
      var value := if ms[index].uuid in recorded then recorded[ms[index].uuid] else anchor + index * 1000;
      if previous.Some? && value <= previous.value {
        value := previous.value + 1;
      }
      ghost var rest := TimesFrom(ms[index + 1..], recorded, anchor, index + 1, Some(value));
      assert ms[index..][0] == ms[index] && ms[index..][1..] == ms[index + 1..];
      assert TimesFrom(ms[index..], recorded, anchor, index, previous) == [value] + rest;
      assert times + ([value] + rest) == times + [value] + rest;
      times := times + [value];
      previous := Some(value);
    }
  }

  lemma {:induction false} TimesIncrease(ms: seq<Message>, recorded: map<string, int>, anchor: int, index: nat,
                                         previous: Option<int>, i: nat, j: nat)
    requires i < j < |ms|
    ensures TimesFrom(ms, recorded, anchor, index, previous)[i] < TimesFrom(ms, recorded, anchor, index, previous)[j]
    decreases |ms|
  {
    var t := TimeOf(ms[0], recorded, anchor, index, previous);
    if i > 0 {
      TimesIncrease(ms[1..], recorded, anchor, index + 1, Some(t), i - 1, j - 1);
    } else {
      TimesAfter(ms[1..], recorded, anchor, index + 1, t, j - 1);
    }
  }

  lemma {:induction false} TimesAfter(ms: seq<Message>, recorded: map<string, int>, anchor: int, index: nat,
                                      previous: int, j: nat)
    requires j < |ms|
    ensures TimesFrom(ms, recorded, anchor, index, Some(previous))[j] > previous
    decreases |ms|
  {
    if j > 0 {
      TimesAfter(ms[1..], recorded, anchor, index + 1, TimeOf(ms[0], recorded, anchor, index, Some(previous)), j - 1);
    }
  }

  // ----- Events of one message -----

  function Tools(blocks: seq<Block>): seq<Block> {
    if blocks == [] then []
    else (if blocks[0].ToolUse? && blocks[0].id != "" then [blocks[0]] else []) + Tools(blocks[1..])
  }

  function ToolEvents(tools: seq<Block>, turn: Option<string>, at: int): seq<Event> {
    if tools == [] || !tools[0].ToolUse? then []
    else
      [Event(if tools[0].name == "TodoWrite" then Progress else ToolStarted, turn, Some(tools[0].id), at)]
      + ToolEvents(tools[1..], turn, at + 1)
  }

  function AssistantEvents(m: Message, turn: Option<string>, base: int): seq<Event> {
    var tools := Tools(m.blocks);
    (if m.text == "" then [] else [Event(if tools != [] then Progress else Assistant, turn, Some(m.uuid), base)])
    + ToolEvents(tools, turn, base + 1)
  }

  function ResultEvents(blocks: seq<Block>, turn: Option<string>, at: int): seq<Event> {
    if blocks == [] then []
    else
      (if blocks[0].ToolResult? && blocks[0].id != "" then [Event(ToolFinished, turn, Some(blocks[0].id), at)] else [])
      + ResultEvents(blocks[1..], turn, at + 1)
  }

  function MessageEvents(m: Message, turn: Option<string>, base: int, starts: bool, ends: bool): seq<Event> {
    (if IsPrompt(m) then
       (if starts && turn.Some? then [Event(TurnStarted, turn, None, base)] else [])
       + [Event(UserPrompt, turn, Some(m.uuid), base + 1)]
     else if m.user then ResultEvents(m.blocks, turn, base)
     else AssistantEvents(m, turn, base))
    + (if ends && turn.Some? then [Event(TurnDone, turn, None, base + 999)] else [])
  }

  // ----- A fixed transcript -----

  /** The messages with their derived turn ids and times, and whether the session is busy. */
  datatype Transcript = Transcript(messages: seq<Message>, turns: Turns, times: seq<int>, busy: bool)

  predicate Increasing(times: seq<int>) {
    forall i, j :: 0 <= i < j < |times| ==> times[i] < times[j]
  }

  predicate Valid(t: Transcript) {
    |t.turns| == |t.times| == |t.messages| && Increasing(t.times)
  }

  function Derived(ms: seq<Message>, identify: string -> string, recorded: map<string, int>, anchor: int,
                   busy: bool): Transcript {
    Transcript(ms, TurnsFrom(ms, None, identify), TimesFrom(ms, recorded, anchor, 0, None), busy)
  }

  lemma DerivedIsValid(ms: seq<Message>, identify: string -> string, recorded: map<string, int>, anchor: int,
                       busy: bool)
    ensures Valid(Derived(ms, identify, recorded, anchor, busy))
  {
    forall i, j | 0 <= i < j < |ms|
      ensures TimesFrom(ms, recorded, anchor, 0, None)[i] < TimesFrom(ms, recorded, anchor, 0, None)[j]
    {
      TimesIncrease(ms, recorded, anchor, 0, None, i, j);
    }
  }

  /** Where message i's window ends. */
  function Cap(t: Transcript, i: nat): int
    requires Valid(t) && i < |t.messages|
  {
    if i + 1 < |t.messages| then t.times[i + 1] else t.times[i] + 1000
  }

  predicate StartsTurn(t: Transcript, i: nat)
    requires Valid(t) && i < |t.messages|
  {
    i == 0 || t.turns[i] != t.turns[i - 1]
  }

  predicate IsLastOfTurn(turns: Turns, i: nat)
    requires i < |turns|
  {
    turns[i].Some? && forall j :: i < j < |turns| ==> turns[j] != turns[i]
  }

  predicate EndsTurn(t: Transcript, i: nat)
    requires Valid(t) && i < |t.messages|
  {
    IsLastOfTurn(t.turns, i) && (i < |t.messages| - 1 || !t.busy)
  }

  /** Zero counts as no time; a later time is cut to the end of the window. */
  function Stamp(e: Event, time: int, cap: int): Event {
    e.(at := Min(if e.at == 0 then time else e.at, cap - 1))
  }

  function StampAll(es: seq<Event>, time: int, cap: int): seq<Event> {
    seq(|es|, i requires 0 <= i < |es| => Stamp(es[i], time, cap))
  }

  function EventsAt(t: Transcript, i: nat): seq<Event>
    requires Valid(t) && i < |t.messages|
  {
    var events := MessageEvents(t.messages[i], t.turns[i], t.times[i], StartsTurn(t, i), EndsTurn(t, i));
    StampAll(events, t.times[i], Cap(t, i))
  }

  /** Each message's events, in transcript order. */
  type Rows = seq<seq<Event>>

  function RowsOf(t: Transcript): Rows
    requires Valid(t)
  {
    seq(|t.messages|, i requires 0 <= i < |t.messages| => EventsAt(t, i))
  }

  ghost predicate Tabulates(rows: Rows, t: Transcript)
    requires Valid(t)
  {
    |rows| == |t.messages| && forall i :: 0 <= i < |rows| ==> rows[i] == EventsAt(t, i)
  }

  function Between(rows: Rows, start: nat, end: nat): seq<Event>
    requires end <= |rows|
    decreases end
  {
    if start >= end then [] else Between(rows, start, end - 1) + rows[end - 1]
  }

  lemma BetweenNext(rows: Rows, start: nat, end: nat, row: seq<Event>)
    requires start <= end < |rows| && row == rows[end]
    ensures Between(rows, start, end + 1) == Between(rows, start, end) + row
  {
  }

  // ----- Pages -----

  datatype Page = Page(events: seq<Event>, nextCursor: Option<string>)

  datatype CursorError = BadCursor

  predicate IsDigit(c: char) {
    '0' <= c <= '9'
  }

  function ParseFrom(s: string, n: nat): Option<nat> {
    if s == "" then Some(n)
    else if IsDigit(s[0]) then ParseFrom(s[1..], 10 * n + (s[0] as int - '0' as int)) else None
  }

  function ParseCursor(s: string): Option<nat> {
    if s == "" then None else ParseFrom(s, 0)
  }

  lemma {:induction false} ParseSnoc(s: string, d: char, n: nat)
    requires ParseFrom(s, n).Some? && IsDigit(d)
    ensures ParseFrom(s + [d], n) == Some(10 * ParseFrom(s, n).value + (d as int - '0' as int))
    decreases |s|
  {
    if s == "" {
      assert (s + [d])[1..] == "";
    } else {
      assert (s + [d])[1..] == s[1..] + [d];
      ParseSnoc(s[1..], d, 10 * n + (s[0] as int - '0' as int));
    }
  }

  /** A cursor reads back as the number it was made from. */
  lemma {:induction false} CursorRoundTrip(n: nat)
    ensures Json.RenderNat(n) != "" && ParseFrom(Json.RenderNat(n), 0) == Some(n)
  {
    if n >= 10 {
      CursorRoundTrip(n / 10);
      ParseSnoc(Json.RenderNat(n / 10), Json.Digit(n % 10), 0);
    } else {
      assert Json.RenderNat(n) == [Json.Digit(n)];
      assert ParseFrom([Json.Digit(n)], 0) == ParseFrom([], n);
    }
  }

  function PageFrom(rows: Rows, offset: nat, limit: nat): Page {
    var end: nat := Max(0, |rows| - offset);
    var start: nat := Max(0, end - limit);
    Page(Between(rows, start, end), NextCursor(start, offset + (end - start)))
  }

  /** The cursor of the page before, if there is one. */
  function NextCursor(start: nat, offset: nat): Option<string> {
    if start > 0 then Some(Json.RenderNat(offset)) else None
  }

  function PageOf(rows: Rows, cursor: Option<string>, limit: nat): Result<Page, CursorError> {
    match cursor
    case None => Ok(PageFrom(rows, 0, limit))
    case Some(s) => if ParseCursor(s).None? then Err(BadCursor) else Ok(PageFrom(rows, ParseCursor(s).value, limit))
  }

  method ListHistory(ms: seq<Message>, identify: string -> string, recorded: map<string, int>, anchor: int, busy: bool,
                     cursor: Option<string>, limit: nat) returns (r: Result<Page, CursorError>)
    ensures Valid(Derived(ms, identify, recorded, anchor, busy))
    ensures r == PageOf(RowsOf(Derived(ms, identify, recorded, anchor, busy)), cursor, limit)
  {
    DerivedIsValid(ms, identify, recorded, anchor, busy);
    var offset: nat := 0;
    if cursor.Some? {
      var parsed := ParseCursor(cursor.value);
      if parsed.None? {
        return Err(BadCursor);
      }
      offset := parsed.value;
    }
    var turns := TurnIds(ms, identify);
    var times := MessageTimes(ms, recorded, anchor);
    var t := Transcript(ms, turns, times, busy);
    var page := ReadPage(t, RowsOf(t), offset, limit);
    return Ok(page);
  }

  method ReadPage(t: Transcript, ghost rows: Rows, offset: nat, limit: nat) returns (page: Page)
    requires Given(Valid(t)) && Given(Tabulates(rows, t))
    ensures page == PageFrom(rows, offset, limit)
  {
    var end: nat := Max(0, |t.messages| - offset);
    var start: nat := Max(0, end - limit);
    var events := CollectEvents(t, rows, start, end);
    page := Page(events, NextCursor(start, offset + (end - start)));
  }

  predicate Marked(last: map<string, nat>, turns: Turns, i: nat)
    requires i < |turns|
  {
    turns[i].Some? && turns[i].value in last && last[turns[i].value] == i
  }

  /** The map marks the last message of each turn, and no other. */
  ghost predicate Marks(last: map<string, nat>, turns: Turns) {
    forall i :: 0 <= i < |turns| ==> (Marked(last, turns, i) <==> IsLastOfTurn(turns, i))
  }

  method LastOfTurn(turns: Turns) returns (last: map<string, nat>)
    ensures Given(Marks(last, turns))
  {
    last := map[];
    for index := 0 to |turns|
      invariant forall k :: k in last ==> last[k] < index && turns[last[k]] == Some(k)
      invariant forall k :: k in last ==> forall j :: last[k] < j < index ==> turns[j] != Some(k)
      invariant forall i :: 0 <= i < index && turns[i].Some? ==> turns[i].value in last
    {
      if turns[index].Some? {
        last := last[turns[index].value := index];
      }
    }
  }

  method CollectEvents(t: Transcript, ghost rows: Rows, start: nat, end: nat) returns (events: seq<Event>)
    requires Given(Valid(t)) && Given(Tabulates(rows, t))
    requires start <= end <= |rows|
    ensures events == Between(rows, start, end)
  {
    events := [];
    var last := LastOfTurn(t.turns);
    for index := start to end
      invariant events == Between(rows, start, index)
    {
      var stamped := EventsOfMessage(t, last, index);
      BetweenNext(rows, start, index, stamped);
      events := events + stamped;
    }
  }

  method EventsOfMessage(t: Transcript, last: map<string, nat>, index: nat) returns (stamped: seq<Event>)
    requires Given(Valid(t)) && index < |t.messages|
    requires Given(Marks(last, t.turns))
    ensures stamped == EventsAt(t, index)
  {
    var cap := if index + 1 < |t.messages| then t.times[index + 1] else t.times[index] + 1000;
    var starts := index == 0 || t.turns[index] != t.turns[index - 1];
    var ends := Marked(last, t.turns, index) && (index < |t.messages| - 1 || !t.busy);
    var made := MessageEvents(t.messages[index], t.turns[index], t.times[index], starts, ends);
    stamped := StampEvents(made, t.times[index], cap);
  }

  method StampEvents(made: seq<Event>, time: int, cap: int) returns (stamped: seq<Event>)
    ensures stamped == StampAll(made, time, cap)
  {
    stamped := [];
    for i := 0 to |made|
      invariant stamped == StampAll(made, time, cap)[..i]
    {
      var at := if made[i].at == 0 then time else made[i].at;
      stamped := stamped + [made[i].(at := Min(at, cap - 1))];
    }
  }

  // ----- Walking the pages -----

  /** Follow the cursor from an offset; the pages' events, oldest first. The limits are given per request. */
  function Walk(rows: Rows, offset: nat, limits: nat -> nat, request: nat): seq<Event>
    requires offset <= |rows| && forall k :: limits(k) >= 1
    decreases |rows| - offset
  {
    var page := PageFrom(rows, offset, limits(request));
    var end := |rows| - offset;
    var start := Max(0, end - limits(request));
    if page.nextCursor.None? then page.events
    else Walk(rows, offset + (end - start), limits, request + 1) + page.events
  }

  lemma {:induction false} BetweenSplit(rows: Rows, a: nat, b: nat, c: nat)
    requires a <= b <= c <= |rows|
    ensures Between(rows, a, c) == Between(rows, a, b) + Between(rows, b, c)
    decreases c
  {
    if b < c {
      BetweenSplit(rows, a, b, c - 1);
    }
  }

  lemma {:induction false} WalkIsAll(rows: Rows, offset: nat, limits: nat -> nat, request: nat)
    requires offset <= |rows| && forall k :: limits(k) >= 1
    ensures Walk(rows, offset, limits, request) == Between(rows, 0, |rows| - offset)
    decreases |rows| - offset
  {
    var end := |rows| - offset;
    var start: nat := Max(0, end - limits(request));
    if start > 0 {
      var next := offset + (end - start);
      assert |rows| - next == start;
      WalkIsAll(rows, next, limits, request + 1);
      WalkGoesOn(rows, offset, limits, request, start, next);
      BetweenSplit(rows, 0, start, end);
    } else {
      WalkEnds(rows, offset, limits, request);
    }
  }

  lemma WalkEnds(rows: Rows, offset: nat, limits: nat -> nat, request: nat)
    requires offset <= |rows| && forall k :: limits(k) >= 1
    requires Max(0, |rows| - offset - limits(request)) == 0
    ensures Walk(rows, offset, limits, request) == Between(rows, 0, |rows| - offset)
  {
  }

  lemma WalkGoesOn(rows: Rows, offset: nat, limits: nat -> nat, request: nat, start: nat, next: nat)
    requires offset <= |rows| && forall k :: limits(k) >= 1
    requires start == Max(0, |rows| - offset - limits(request)) > 0 && next == |rows| - start
    ensures Walk(rows, offset, limits, request)
         == Walk(rows, next, limits, request + 1) + Between(rows, start, |rows| - offset)
  {
  }

  /** The cursor a page hands out reads back as the offset the walk goes on from. */
  lemma NextCursorReadsBack(rows: Rows, offset: nat, limit: nat, next: nat)
    requires offset <= |rows| && limit >= 1 && PageFrom(rows, offset, limit).nextCursor.Some?
    ensures offset + limit <= |rows|
    ensures PageOf(rows, PageFrom(rows, offset, limit).nextCursor, next) == Ok(PageFrom(rows, offset + limit, next))
  {
    CursorRoundTrip(offset + limit);
  }

  /** Any walk from the newest page back, put oldest first, is the one full page. */
  lemma WalkIsFullPage(rows: Rows, limits: nat -> nat)
    requires forall k :: limits(k) >= 1
    ensures PageOf(rows, None, |rows|) == Ok(Page(Walk(rows, 0, limits, 0), None))
  {
    WalkIsAll(rows, 0, limits, 0);
  }

  // ----- Times -----

  predicate Within(es: seq<Event>, low: int, high: int) {
    forall k :: 0 <= k < |es| ==> low <= es[k].at < high
  }

  predicate From(es: seq<Event>, low: int) {
    forall k :: 0 <= k < |es| ==> es[k].at >= low
  }

  lemma {:induction false} ToolEventsFrom(tools: seq<Block>, turn: Option<string>, at: int)
    ensures From(ToolEvents(tools, turn, at), at)
  {
    if tools != [] && tools[0].ToolUse? {
      ToolEventsFrom(tools[1..], turn, at + 1);
    }
  }

  lemma {:induction false} ResultEventsFrom(blocks: seq<Block>, turn: Option<string>, at: int)
    ensures From(ResultEvents(blocks, turn, at), at)
  {
    if blocks != [] {
      ResultEventsFrom(blocks[1..], turn, at + 1);
    }
  }

  lemma MessageEventsFrom(m: Message, turn: Option<string>, base: int, starts: bool, ends: bool)
    ensures From(MessageEvents(m, turn, base, starts, ends), base)
  {
    if m.user {
      ResultEventsFrom(m.blocks, turn, base);
    } else {
      AssistantEventsFrom(m, turn, base);
    }
  }

  lemma AssistantEventsFrom(m: Message, turn: Option<string>, base: int)
    ensures From(AssistantEvents(m, turn, base), base)
  {
    ToolEventsFrom(Tools(m.blocks), turn, base + 1);
  }

  /** Every event lies in its own message's window. */
  lemma EventsInWindow(t: Transcript, i: nat)
    requires Valid(t) && i < |t.messages|
    ensures Within(EventsAt(t, i), t.times[i], Cap(t, i))
  {
    MessageEventsFrom(t.messages[i], t.turns[i], t.times[i], StartsTurn(t, i), EndsTurn(t, i));
  }

  /** Each row lies in its own window, and the windows follow each other. */
  ghost predicate Windowed(rows: Rows, times: seq<int>) {
    && |times| == |rows| + 1
    && (forall i, j :: 0 <= i < j < |times| ==> times[i] < times[j])
    && (forall i :: 0 <= i < |rows| ==> Within(rows[i], times[i], times[i + 1]))
  }

  /** The message times, and the end of the last window. */
  function Bounds(t: Transcript): seq<int>
    requires Valid(t)
  {
    if t.times == [] then [0] else t.times + [t.times[|t.times| - 1] + 1000]
  }

  lemma BoundsIncrease(t: Transcript)
    requires Valid(t)
    ensures |Bounds(t)| == |t.messages| + 1 && forall i, j :: 0 <= i < j < |Bounds(t)| ==> Bounds(t)[i] < Bounds(t)[j]
    ensures forall i :: 0 <= i < |t.messages| ==> Bounds(t)[i] == t.times[i] && Bounds(t)[i + 1] == Cap(t, i)
  {
  }

  lemma RowsAreWindowed(t: Transcript)
    requires Valid(t)
    ensures Windowed(RowsOf(t), Bounds(t))
  {
    BoundsIncrease(t);
    AllWindowed(t, RowsOf(t), Bounds(t));
  }

  lemma AllWindowed(t: Transcript, rows: Rows, times: seq<int>)
    requires Valid(t) && |rows| == |t.messages| && |times| == |rows| + 1
    requires forall i, j :: 0 <= i < j < |times| ==> times[i] < times[j]
    requires forall i :: 0 <= i < |rows| ==>
      rows[i] == EventsAt(t, i) && times[i] == t.times[i] && times[i + 1] == Cap(t, i)
    ensures Windowed(rows, times)
  {
    forall i | 0 <= i < |rows| ensures Within(rows[i], times[i], times[i + 1]) {
      EventsInWindow(t, i);
    }
  }

  lemma {:induction false} BetweenInWindow(rows: Rows, times: seq<int>, start: nat, end: nat)
    requires Windowed(rows, times) && start <= end <= |rows|
    ensures Within(Between(rows, start, end), times[start], times[end])
    decreases end
  {
    if start < end {
      BetweenInWindow(rows, times, start, end - 1);
    }
  }

  /** Pages are chronologically disjoint: every event of an older one comes before every event of a newer one. */
  lemma PagesAreDisjoint(t: Transcript, a: nat, b: nat, c: nat, d: nat)
    requires Valid(t) && a <= b <= c <= d <= |t.messages|
    ensures forall x, y :: x in Between(RowsOf(t), a, b) && y in Between(RowsOf(t), c, d) ==> x.at < y.at
  {
    RowsAreWindowed(t);
    WindowsAreDisjoint(RowsOf(t), Bounds(t), a, b, c, d);
  }

  lemma WindowsAreDisjoint(rows: Rows, times: seq<int>, a: nat, b: nat, c: nat, d: nat)
    requires Windowed(rows, times) && a <= b <= c <= d <= |rows|
    ensures forall x, y :: x in Between(rows, a, b) && y in Between(rows, c, d) ==> x.at < y.at
  {
    BetweenInWindow(rows, times, a, b);
    BetweenInWindow(rows, times, c, d);
    assert times[b] <= times[c];
    EventsWithin(Between(rows, a, b), times[a], times[b]);
    EventsWithin(Between(rows, c, d), times[c], times[d]);
  }

  lemma EventsWithin(es: seq<Event>, low: int, high: int)
    requires Within(es, low, high)
    ensures forall x :: x in es ==> low <= x.at < high
  {
  }

  // ----- Turns -----

  /** Prompts get different turn ids. */
  predicate DistinctTurns(ms: seq<Message>, identify: string -> string) {
    forall i, j :: 0 <= i < j < |ms| && IsPrompt(ms[i]) && IsPrompt(ms[j]) ==>
      identify(ms[i].uuid) != identify(ms[j].uuid)
  }

  predicate Starts(e: Event, turn: string) {
    e.kind.TurnStarted? && e.turn == Some(turn)
  }

  lemma {:induction false} NoStartInTools(tools: seq<Block>, turn: Option<string>, at: int, k: nat)
    requires k < |ToolEvents(tools, turn, at)|
    ensures !ToolEvents(tools, turn, at)[k].kind.TurnStarted?
  {
    if k > 0 {
      NoStartInTools(tools[1..], turn, at + 1, k - 1);
    }
  }

  lemma {:induction false} NoStartInResults(blocks: seq<Block>, turn: Option<string>, at: int, k: nat)
    requires k < |ResultEvents(blocks, turn, at)|
    ensures !ResultEvents(blocks, turn, at)[k].kind.TurnStarted?
  {
    var head := if blocks[0].ToolResult? && blocks[0].id != "" then 1 else 0;
    if k >= head {
      NoStartInResults(blocks[1..], turn, at + 1, k - head);
    }
  }

  /** Only a prompt that opens a turn starts one, with its first event. */
  lemma StartsIff(t: Transcript, i: nat, k: nat, turn: string)
    requires Valid(t) && i < |t.messages| && k < |EventsAt(t, i)|
    ensures Starts(EventsAt(t, i)[k], turn) <==>
            (k == 0 && IsPrompt(t.messages[i]) && StartsTurn(t, i) && t.turns[i] == Some(turn))
  {
    var m, at := t.messages[i], t.times[i];
    if !IsPrompt(m) {
      if m.user {
        if k < |ResultEvents(m.blocks, t.turns[i], at)| {
          NoStartInResults(m.blocks, t.turns[i], at, k);
        }
      } else {
        NoStartInAssistant(m, t.turns[i], at, k);
      }
    }
  }

  lemma NoStartInAssistant(m: Message, turn: Option<string>, base: int, k: nat)
    ensures k < |AssistantEvents(m, turn, base)| ==> !AssistantEvents(m, turn, base)[k].kind.TurnStarted?
  {
    var head := if m.text == "" then 0 else 1;
    if head <= k < |AssistantEvents(m, turn, base)| {
      NoStartInTools(Tools(m.blocks), turn, base + 1, k - head);
    }
  }

  lemma {:induction false} TurnHasPrompt(ms: seq<Message>, identify: string -> string, i: nat, turn: string)
    returns (p: nat)
    requires i < |ms| && TurnsFrom(ms, None, identify)[i] == Some(turn)
    ensures p <= i && IsPrompt(ms[p]) && identify(ms[p].uuid) == turn
    ensures forall j :: p <= j <= i ==> TurnsFrom(ms, None, identify)[j] == Some(turn)
  {
    TurnIsLatestPrompt(ms, None, identify, i);
    if IsPrompt(ms[i]) {
      p := i;
    } else {
      p := TurnHasPrompt(ms, identify, i - 1, turn);
    }
  }

  /** Message i carries the event that starts this turn. */
  ghost predicate StartedAt(t: Transcript, i: nat, turn: string)
    requires Valid(t) && i < |t.messages|
  {
    exists k :: 0 <= k < |EventsAt(t, i)| && Starts(EventsAt(t, i)[k], turn)
  }

  /** Message p, and no other, starts the turn, and no message before p belongs to it. */
  ghost predicate OnlyStart(t: Transcript, p: nat, turn: string)
    requires Valid(t)
  {
    && p < |t.messages| && StartedAt(t, p, turn)
    && (forall q :: 0 <= q < |t.messages| && StartedAt(t, q, turn) ==> q == p)
    && (forall q :: 0 <= q < |t.messages| && t.turns[q] == Some(turn) ==> p <= q)
  }

  /** However a turn is split across pages, exactly one message starts it: its prompt, the first of the turn. */
  lemma OneStartPerTurn(ms: seq<Message>, identify: string -> string, recorded: map<string, int>, anchor: int,
                        busy: bool, i: nat, turn: string)
    requires DistinctTurns(ms, identify) && i < |ms| && TurnsFrom(ms, None, identify)[i] == Some(turn)
    ensures Valid(Derived(ms, identify, recorded, anchor, busy))
    ensures exists p: nat ::
      p < |ms| && IsPrompt(ms[p]) && OnlyStart(Derived(ms, identify, recorded, anchor, busy), p, turn)
  {
    DerivedIsValid(ms, identify, recorded, anchor, busy);
    var t := Derived(ms, identify, recorded, anchor, busy);
    var p := TurnHasPrompt(ms, identify, i, turn);
    forall q | 0 <= q < |ms| && t.turns[q] == Some(turn) ensures p <= q {
      var other := TurnHasPrompt(ms, identify, q, turn);
    }
    assert StartsTurn(t, p);
    StartsIff(t, p, 0, turn);
    assert StartedAt(t, p, turn);
    forall q | 0 <= q < |ms| && StartedAt(t, q, turn) ensures q == p {
      var k :| 0 <= k < |EventsAt(t, q)| && Starts(EventsAt(t, q)[k], turn);
      StartsIff(t, q, k, turn);
      TurnIsLatestPrompt(ms, None, identify, q);
    }
    assert OnlyStart(t, p, turn);
  }
}
