/** The follow state machine: transcript entries of an externally driven session become live events. */
module Follow {
  import opened Common
  import Tail = TranscriptTail

  datatype Kind = System(turnDuration: bool) | User | Assistant | OtherKind

  /** A result's tool use id, which may be missing. */
  datatype ToolResult = ToolResult(id: string, failed: bool)

  /** A tool call; a TodoWrite call carries its plan's signature instead of a card. */
  datatype Tool = Card(id: string, kind: string) | Todo(id: string, plan: string)

  datatype Stop = EndTurn | StopSequence | ToolUse | OtherStop

  /** A transcript entry as read; `spare` is the identifier made up for a prompt without one. */
  datatype Entry = Entry(
    sidechain: bool, kind: Kind, meta: bool, compact: bool, id: Option<string>, spare: string,
    text: string, results: seq<ToolResult>, tools: seq<Tool>, stop: Stop)

  datatype EventKind = TurnStarted | TurnDone | UserPrompt | Progress | AssistantText | ToolStarted | ToolFinished

  datatype Event = Event(kind: EventKind, turn: Option<string>, item: Option<string>, detail: string, failed: bool)

  /** A session's follow fields. */
  datatype State = State(
    turn: Option<string>, busy: bool, plan: Option<string>, tools: map<string, string>, hidden: set<string>,
    lastReply: Option<string>)

  datatype Outcome = Outcome(state: State, events: seq<Event>)

  const INTERRUPT_PREFIX := "[Request interrupted"

  predicate StartsWith(text: string, prefix: string) {
    prefix <= text
  }

  function Simple(kind: EventKind, turn: Option<string>, item: Option<string>, detail: string): Event {
    Event(kind, turn, item, detail, false)
  }

  function Then(first: Outcome, events: seq<Event>): Outcome {
    first.(events := events + first.events)
  }

  // ----- What one entry does -----

  function Boundary(s: State): Outcome {
    if s.turn.None? then Outcome(s, [])
    else Outcome(s.(turn := None, plan := None, busy := false), [Simple(TurnDone, s.turn, None, "")])
  }

  /** Results close their tool cards; a hidden tool's result closes it silently. */
  function Results(s: State, results: seq<ToolResult>): Outcome
    decreases |results|
  {
    if results == [] then Outcome(s, [])
    else
      var r, rest := results[0], results[1..];
      if r.id == "" then Results(s, rest)
      else if r.id in s.hidden then Results(s.(hidden := s.hidden - {r.id}), rest)
      else
        var kind := if r.id in s.tools then s.tools[r.id] else "tool";
        Then(Results(s.(tools := s.tools - {r.id}), rest), [Event(ToolFinished, s.turn, Some(r.id), kind, r.failed)])
  }

  function Prompt(s: State, e: Entry, identify: string -> string): Outcome {
    var closed := Boundary(s);
    var turn := Some(identify(if e.id.Some? then e.id.value else e.spare));
    Outcome(closed.state.(turn := turn, busy := true, plan := None),
            closed.events + [Simple(TurnStarted, turn, None, ""), Simple(UserPrompt, turn, e.id, e.text)])
  }

  function FollowUser(s: State, e: Entry, identify: string -> string): Outcome {
    var results := Results(s, e.results);
    if results.events != [] then results
    else if e.text == "" then results
    else if StartsWith(e.text, INTERRUPT_PREFIX) then Boundary(results.state)
    else if StartsWith(e.text, "<command-") || StartsWith(e.text, "<local-command-") then results
    else Prompt(results.state, e, identify)
  }

  function Calls(s: State, tools: seq<Tool>): Outcome
    decreases |tools|
  {
    if tools == [] then Outcome(s, [])
    else
      match tools[0]
      case Card(id, kind) =>
        Then(Calls(s.(tools := s.tools[id := kind]), tools[1..]), [Simple(ToolStarted, s.turn, Some(id), kind)])
      case Todo(id, plan) =>
        var s' := s.(hidden := s.hidden + {id});
        if s.plan == Some(plan) then Calls(s', tools[1..])
        else Then(Calls(s'.(plan := Some(plan)), tools[1..]), [Simple(Progress, s.turn, None, plan)])
  }

  function FollowAssistant(s: State, e: Entry): Outcome {
    var narration := e.tools != [] || e.stop.ToolUse?;
    if e.text == "" then Calls(s, e.tools)
    else
      var said := Simple(if narration then Progress else AssistantText, s.turn, e.id, e.text);
      if narration then Then(Calls(s, e.tools), [said])
      else
        var replied := s.(lastReply := Some(e.text));
        var closed := if e.stop.EndTurn? || e.stop.StopSequence? then Boundary(replied) else Outcome(replied, []);
        Then(Calls(closed.state, e.tools), [said] + closed.events)
  }

  function FollowEntry(s: State, e: Entry, identify: string -> string): Outcome {
    if e.sidechain then Outcome(s, [])
    else
      match e.kind
      case System(turnDuration) => if turnDuration then Boundary(s) else Outcome(s, [])
      case OtherKind => Outcome(s, [])
      case User => if e.meta || e.compact then Outcome(s, []) else FollowUser(s, e, identify)
      case Assistant => if e.meta || e.compact then Outcome(s, []) else FollowAssistant(s, e)
  }

  // ----- The session object -----

  class Session {
    var turn: Option<string>
    var busy: bool
    var plan: Option<string>
    var tools: map<string, string>
    var hidden: set<string>
    var lastReply: Option<string>

    function Contents(): State
      reads this
    {
      State(turn, busy, plan, tools, hidden, lastReply)
    }

    constructor ()
      ensures Contents() == State(None, false, None, map[], {}, None)
    {
      turn, busy, plan, tools, hidden, lastReply := None, false, None, map[], {}, None;
    }

    method FollowBoundary() returns (events: seq<Event>)
      modifies this
      ensures Outcome(Contents(), events) == Boundary(old(Contents()))
    {
      if turn.None? {
        return [];
      }
      var closing := turn;
      turn, plan, busy := None, None, false;
      return [Simple(TurnDone, closing, None, "")];
    }

    method CloseTools(results: seq<ToolResult>) returns (events: seq<Event>)
      modifies this
      ensures Outcome(Contents(), events) == Results(old(Contents()), results)
    {
      events := [];
      assert results[0..] == results;
      for i := 0 to |results|
        invariant Then(Results(Contents(), results[i..]), events) == Results(old(Contents()), results)
      {
        var r := results[i];
        ghost var before := Contents();
        assert results[i..][0] == r && results[i..][1..] == results[i + 1..];
        if r.id == "" {
        } else if r.id in hidden {
          hidden := hidden - {r.id};
        } else {
          var kind := if r.id in tools then tools[r.id] else "tool";
          tools := tools - {r.id};
          var event := Event(ToolFinished, turn, Some(r.id), kind, r.failed);
          ThenMore(Results(Contents(), results[i + 1..]), events, event);
          events := events + [event];
        }
      }
    }

    method FollowUserEntry(e: Entry, identify: string -> string) returns (events: seq<Event>)
      modifies this
      ensures Outcome(Contents(), events) == FollowUser(old(Contents()), e, identify)
    {
      events := CloseTools(e.results);
      if events != [] || e.text == "" {
        return;
      }
      if StartsWith(e.text, INTERRUPT_PREFIX) {
        events := FollowBoundary();
        return;
      }
      if StartsWith(e.text, "<command-") || StartsWith(e.text, "<local-command-") {
        return;
      }
      events := FollowBoundary();
      turn := Some(identify(if e.id.Some? then e.id.value else e.spare));
      busy := true;
      plan := None;
      events := events + [Simple(TurnStarted, turn, None, ""), Simple(UserPrompt, turn, e.id, e.text)];
    }

    method OpenTools(calls: seq<Tool>) returns (events: seq<Event>)
      modifies this
      ensures Outcome(Contents(), events) == Calls(old(Contents()), calls)
    {
      events := [];
      assert calls[0..] == calls;
      for i := 0 to |calls|
        invariant Then(Calls(Contents(), calls[i..]), events) == Calls(old(Contents()), calls)
      {
        assert calls[i..][0] == calls[i] && calls[i..][1..] == calls[i + 1..];
        match calls[i] {
          case Card(id, kind) =>
            tools := tools[id := kind];
            var event := Simple(ToolStarted, turn, Some(id), kind);
            ThenMore(Calls(Contents(), calls[i + 1..]), events, event);
            events := events + [event];
          case Todo(id, signature) =>
            hidden := hidden + {id};
            if plan != Some(signature) {
              plan := Some(signature);
              var event := Simple(Progress, turn, None, signature);
              ThenMore(Calls(Contents(), calls[i + 1..]), events, event);
              events := events + [event];
            }
        }
      }
    }

    method FollowAssistantEntry(e: Entry) returns (events: seq<Event>)
      modifies this
      ensures Outcome(Contents(), events) == FollowAssistant(old(Contents()), e)
    {
      events := [];
      if e.text != "" {
        var narration := e.tools != [] || e.stop.ToolUse?;
        events := [Simple(if narration then Progress else AssistantText, turn, e.id, e.text)];
        if !narration {
          lastReply := Some(e.text);
          if e.stop.EndTurn? || e.stop.StopSequence? {
            var closing := FollowBoundary();
            events := events + closing;
          }
        }
      }
      var cards := OpenTools(e.tools);
      events := events + cards;
    }

    method FollowOne(e: Entry, identify: string -> string) returns (events: seq<Event>)
      modifies this
      ensures Outcome(Contents(), events) == FollowEntry(old(Contents()), e, identify)
    {
      if e.sidechain {
        return [];
      }
      match e.kind {
        case System(turnDuration) =>
          if turnDuration {
            events := FollowBoundary();
          } else {
            events := [];
          }
        case OtherKind => events := [];
        case User =>
          if e.meta || e.compact {
            return [];
          }
          events := FollowUserEntry(e, identify);
        case Assistant =>
          if e.meta || e.compact {
            return [];
          }
          events := FollowAssistantEntry(e);
      }
    }
  }

  lemma ThenMore(rest: Outcome, events: seq<Event>, event: Event)
    ensures Then(Then(rest, [event]), events) == Then(rest, events + [event])
  {
    assert events + ([event] + rest.events) == events + [event] + rest.events;
  }

  // ----- Turns alternate -----

  /** The open turn after these events, if they alternate and each carries the turn it lies in. */
  function Track(open: Option<string>, events: seq<Event>): Result<Option<string>, ()>
    decreases |events|
  {
    if events == [] then Ok(open)
    else
      var e, rest := events[0], events[1..];
      match e.kind
      case TurnStarted => if open.None? && e.turn.Some? then Track(e.turn, rest) else Err(())
      case TurnDone => if open.Some? && e.turn == open then Track(None, rest) else Err(())
      case _ => if e.turn == open then Track(open, rest) else Err(())
  }

  lemma {:induction false} TrackAppend(open: Option<string>, a: seq<Event>, b: seq<Event>)
    ensures Track(open, a + b) == if Track(open, a).Ok? then Track(Track(open, a).value, b) else Err(())
    decreases |a|
  {
    if a == [] {
      assert a + b == b;
    } else {
      assert (a + b)[0] == a[0] && (a + b)[1..] == a[1..] + b;
      match a[0].kind
      case TurnStarted => TrackAppend(a[0].turn, a[1..], b);
      case TurnDone => TrackAppend(None, a[1..], b);
      case _ => TrackAppend(open, a[1..], b);
    }
  }

  /** The events go on from the state's turn and end at the new state's turn, and a busy session has a turn. */
  ghost predicate Follows(s: State, out: Outcome) {
    && Track(s.turn, out.events) == Ok(out.state.turn)
    && ((s.busy <==> s.turn.Some?) ==> (out.state.busy <==> out.state.turn.Some?))
  }

  lemma FollowsThen(s: State, events: seq<Event>, middle: State, out: Outcome)
    requires Follows(s, Outcome(middle, events)) && Follows(middle, out)
    ensures Follows(s, Then(out, events))
  {
    TrackAppend(s.turn, events, out.events);
  }

  lemma BoundaryFollows(s: State)
    ensures Follows(s, Boundary(s)) && Boundary(s).state.turn == None
  {
  }

  lemma {:induction false} ResultsFollow(s: State, results: seq<ToolResult>)
    ensures Follows(s, Results(s, results)) && Results(s, results).state.turn == s.turn
    decreases |results|
  {
    if results != [] {
      var r := results[0];
      if r.id == "" {
        ResultsFollow(s, results[1..]);
      } else if r.id in s.hidden {
        ResultsFollow(s.(hidden := s.hidden - {r.id}), results[1..]);
      } else {
        ResultsFollow(s.(tools := s.tools - {r.id}), results[1..]);
      }
    }
  }

  lemma {:induction false} CallsFollow(s: State, tools: seq<Tool>)
    ensures Follows(s, Calls(s, tools)) && Calls(s, tools).state.turn == s.turn
    decreases |tools|
  {
    if tools != [] {
      match tools[0]
      case Card(id, kind) => CallsFollow(s.(tools := s.tools[id := kind]), tools[1..]);
      case Todo(id, plan) =>
        var s' := s.(hidden := s.hidden + {id});
        CallsFollow(s', tools[1..]);
        CallsFollow(s'.(plan := Some(plan)), tools[1..]);
    }
  }

  lemma PromptFollows(s: State, e: Entry, identify: string -> string)
    ensures Follows(s, Prompt(s, e, identify))
  {
    BoundaryFollows(s);
    var closed := Boundary(s);
    var turn := Some(identify(if e.id.Some? then e.id.value else e.spare));
    var opening := [Simple(TurnStarted, turn, None, ""), Simple(UserPrompt, turn, e.id, e.text)];
    assert opening[1..] == [opening[1]] && [opening[1]][1..] == [];
    assert Track(turn, [opening[1]]) == Ok(turn);
    TrackAppend(s.turn, closed.events, opening);
  }

  lemma UserFollows(s: State, e: Entry, identify: string -> string)
    ensures Follows(s, FollowUser(s, e, identify))
  {
    ResultsFollow(s, e.results);
    var results := Results(s, e.results);
    BoundaryFollows(results.state);
    PromptFollows(results.state, e, identify);
  }

  lemma AssistantFollows(s: State, e: Entry)
    ensures Follows(s, FollowAssistant(s, e))
  {
    CallsFollow(s, e.tools);
    if e.text != "" {
      var narration := e.tools != [] || e.stop.ToolUse?;
      var said := Simple(if narration then Progress else AssistantText, s.turn, e.id, e.text);
      assert [said][1..] == [];
      if narration {
        FollowsThen(s, [said], s, Calls(s, e.tools));
      } else {
        var replied := s.(lastReply := Some(e.text));
        var closed := if e.stop.EndTurn? || e.stop.StopSequence? then Boundary(replied) else Outcome(replied, []);
        BoundaryFollows(replied);
        TrackAppend(s.turn, [said], closed.events);
        CallsFollow(closed.state, e.tools);
        FollowsThen(s, [said] + closed.events, closed.state, Calls(closed.state, e.tools));
      }
    }
  }

  lemma EntryFollows(s: State, e: Entry, identify: string -> string)
    ensures Follows(s, FollowEntry(s, e, identify))
  {
    BoundaryFollows(s);
    UserFollows(s, e, identify);
    AssistantFollows(s, e);
  }

  // ----- Whole sessions -----

  const FRESH := State(None, false, None, map[], {}, None)

  function FollowAll(s: State, entries: seq<Entry>, identify: string -> string): Outcome
    decreases |entries|
  {
    if entries == [] then Outcome(s, [])
    else
      var first := FollowEntry(s, entries[0], identify);
      Then(FollowAll(first.state, entries[1..], identify), first.events)
  }

  /** From any state, over any entries: the events continue its turn. */
  lemma {:induction false} SessionFollows(s: State, entries: seq<Entry>, identify: string -> string)
    ensures Follows(s, FollowAll(s, entries, identify))
    decreases |entries|
  {
    if entries != [] {
      var first := FollowEntry(s, entries[0], identify);
      EntryFollows(s, entries[0], identify);
      SessionFollows(first.state, entries[1..], identify);
      FollowsThen(s, first.events, first.state, FollowAll(first.state, entries[1..], identify));
    }
  }

  /**
   From a fresh session, turn_started and turn_done alternate with matching ids, every event
   carries the turn it lies in (or none, outside turns), and the session is busy exactly inside one.
   */
  lemma TurnsAlternate(entries: seq<Entry>, identify: string -> string)
    ensures var out := FollowAll(FRESH, entries, identify);
      Track(None, out.events) == Ok(out.state.turn) && (out.state.busy <==> out.state.turn.Some?)
  {
    SessionFollows(FRESH, entries, identify);
  }

  lemma {:induction false} FollowAllAppend(s: State, a: seq<Entry>, b: seq<Entry>, identify: string -> string)
    ensures var first := FollowAll(s, a, identify);
      FollowAll(s, a + b, identify) == Then(FollowAll(first.state, b, identify), first.events)
    decreases |a|
  {
    if a == [] {
      assert a + b == b;
      assert [] + FollowAll(s, b, identify).events == FollowAll(s, b, identify).events;
    } else {
      assert (a + b)[0] == a[0] && (a + b)[1..] == a[1..] + b;
      var one := FollowEntry(s, a[0], identify);
      FollowAllAppend(one.state, a[1..], b, identify);
      var first := FollowAll(one.state, a[1..], identify);
      var last := FollowAll(first.state, b, identify);
      assert one.events + (first.events + last.events) == one.events + first.events + last.events;
    }
  }

  // ----- Fed by the tailer -----

  function ViewAll(entries: seq<Tail.Entry>, view: Tail.Entry -> Entry): seq<Entry> {
    seq(|entries|, i requires 0 <= i < |entries| => view(entries[i]))
  }

  /** The events a follow loop emits, poll by poll, and the state it ends in. */
  function Emitted(polls: seq<Tail.Poll>, parse: Tail.Parser, view: Tail.Entry -> Entry,
                   identify: string -> string): Outcome
    decreases |polls|
  {
    if polls == [] then Outcome(FRESH, [])
    else
      var n := |polls| - 1;
      var before := Emitted(polls[..n], parse, view, identify);
      var entries := Tail.ReadStep(Tail.Deliver(polls[..n], parse).state, polls[n], parse).entries;
      Then(FollowAll(before.state, ViewAll(entries, view), identify), before.events)
  }

  lemma FollowViewed(a: seq<Tail.Entry>, b: seq<Tail.Entry>, view: Tail.Entry -> Entry, identify: string -> string)
    ensures var first := FollowAll(FRESH, ViewAll(a, view), identify);
      FollowAll(FRESH, ViewAll(a + b, view), identify)
        == Then(FollowAll(first.state, ViewAll(b, view), identify), first.events)
  {
    FollowAllAppend(FRESH, ViewAll(a, view), ViewAll(b, view), identify);
    assert ViewAll(a + b, view) == ViewAll(a, view) + ViewAll(b, view);
  }

  lemma {:induction false} EmittedIsFollowed(polls: seq<Tail.Poll>, parse: Tail.Parser, view: Tail.Entry -> Entry,
                                             identify: string -> string)
    ensures Emitted(polls, parse, view, identify)
      == FollowAll(FRESH, ViewAll(Tail.Deliver(polls, parse).entries, view), identify)
    decreases |polls|
  {
    if polls == [] {
      assert ViewAll([], view) == [];
    } else {
      var n := |polls| - 1;
      var before := Tail.Deliver(polls[..n], parse);
      var entries := Tail.ReadStep(before.state, polls[n], parse).entries;
      EmittedIsFollowed(polls[..n], parse, view, identify);
      FollowViewed(before.entries, entries, view, identify);
      EmitsNext(polls, parse, view, identify, before.entries, entries);
    }
  }

  lemma EmitsNext(polls: seq<Tail.Poll>, parse: Tail.Parser, view: Tail.Entry -> Entry, identify: string -> string,
                  before: seq<Tail.Entry>, entries: seq<Tail.Entry>)
    requires polls != []
    requires before == Tail.Deliver(polls[..|polls| - 1], parse).entries
    requires entries == Tail.ReadStep(Tail.Deliver(polls[..|polls| - 1], parse).state, polls[|polls| - 1],
                                      parse).entries
    ensures Tail.Deliver(polls, parse).entries == before + entries
    ensures var out := Emitted(polls[..|polls| - 1], parse, view, identify);
      Emitted(polls, parse, view, identify) == Then(FollowAll(out.state, ViewAll(entries, view), identify), out.events)
  {
  }

  /** The live events of an append-only transcript do not depend on when it was polled. */
  lemma EventsAreScheduleIndependent(polls: seq<Tail.Poll>, inode: int, parse: Tail.Parser, view: Tail.Entry -> Entry,
                                     identify: string -> string)
    requires Tail.AppendOnly(polls, inode) && polls != []
    requires polls[|polls| - 1].Seen? && polls[|polls| - 1].content.Some?
    ensures polls[|polls| - 1].size <= |polls[|polls| - 1].content.value|
    ensures var observed := Tail.Observed(Tail.Deliver(polls[..|polls| - 1], parse).state, polls[|polls| - 1]);
      && Emitted(polls, parse, view, identify) == FollowAll(FRESH, ViewAll(Tail.Scan(observed, parse), view), identify)
      && Track(None, Emitted(polls, parse, view, identify).events).Ok?
  {
    Tail.PollsEqualScan(polls, inode, parse);
    EmittedIsFollowed(polls, parse, view, identify);
    TurnsAlternate(ViewAll(Tail.Deliver(polls, parse).entries, view), identify);
  }
}
