/** What an entry of the transcript means for the turn, the tool cards and the plan, said of the entry itself. */
module FollowLaws {
  import opened Common
  import opened Follow

  // ----- Tool results -----

  /** An earlier result of the same entry has this result's id. */
  predicate Again(results: seq<ToolResult>, i: nat) {
    i < |results| && exists j :: 0 <= j < i && results[j].id == results[i].id
  }

  /** The result names a tool, and that is not hidden, or was shown again by an earlier result. */
  predicate Closes(s: State, results: seq<ToolResult>, i: nat) {
    i < |results| && results[i].id != "" && (results[i].id !in s.hidden || Again(results, i))
  }

  /** An earlier result already closed this result's card. */
  predicate ClosedBefore(s: State, results: seq<ToolResult>, i: nat) {
    i < |results| && exists j: nat :: j < i && results[j].id == results[i].id && Closes(s, results, j)
  }

  /** The event that closes the card, of the kind it was opened with. */
  function Closing(s: State, results: seq<ToolResult>, i: nat): Event {
    if i >= |results| then Simple(ToolFinished, None, None, "")
    else
      var id := results[i].id;
      var kind := if id in s.tools && !ClosedBefore(s, results, i) then s.tools[id] else "tool";
      Event(ToolFinished, s.turn, Some(id), kind, results[i].failed)
  }

  /** What is hidden and open after the first n results. */
  ghost predicate After(s: State, results: seq<ToolResult>, n: nat, s': State)
    requires n <= |results|
  {
    && s' == s.(hidden := s'.hidden, tools := s'.tools)
    && (forall id :: id in s'.hidden <==>
        id in s.hidden && (id == "" || forall j :: 0 <= j < n ==> results[j].id != id))
    && (forall id :: id in s'.tools <==>
          id in s.tools && forall j: nat :: j < n && results[j].id == id ==> !Closes(s, results, j))
    && (forall id :: id in s'.tools ==> s'.tools[id] == s.tools[id])
  }

  lemma {:induction false} ResultsAppend(s: State, a: seq<ToolResult>, b: seq<ToolResult>)
    ensures var first := Results(s, a); Results(s, a + b) == Then(Results(first.state, b), first.events)
    decreases |a|
  {
    if a == [] {
      assert a + b == b;
      assert [] + Results(s, b).events == Results(s, b).events;
    } else {
      assert (a + b)[0] == a[0] && (a + b)[1..] == a[1..] + b;
      var r := a[0];
      if r.id == "" {
        ResultsAppend(s, a[1..], b);
      } else if r.id in s.hidden {
        ResultsAppend(s.(hidden := s.hidden - {r.id}), a[1..], b);
      } else {
        var s' := s.(tools := s.tools - {r.id});
        var one := [Event(ToolFinished, s.turn, Some(r.id), if r.id in s.tools then s.tools[r.id]
                          else "tool", r.failed)];
        ResultsAppend(s', a[1..], b);
        var first := Results(s', a[1..]);
        assert one + (first.events + Results(first.state, b).events)
          == one + first.events + Results(first.state, b).events;
      }
    }
  }

  /** One more result. */
  lemma OneResult(s: State, results: seq<ToolResult>, n: nat, s': State)
    requires n < |results| && After(s, results, n, s')
    ensures var out := Results(s', [results[n]]);
      && out.events == (if Closes(s, results, n) then [Closing(s, results, n)] else [])
      && After(s, results, n + 1, out.state)
  {
    var r := results[n];
    assert [r][1..] == [];
    assert Results(s', [r]).events
        == if r.id == "" || r.id in s'.hidden then []
           else [Event(ToolFinished, s.turn, Some(r.id), if r.id in s'.tools then s'.tools[r.id]
                       else "tool", r.failed)];
    if r.id != "" {
      assert r.id in s'.hidden <==> !Closes(s, results, n);
    }
  }

  lemma {:induction false} ResultsUpTo(s: State, results: seq<ToolResult>, n: nat) returns (at: seq<nat>)
    requires n <= |results|
    ensures var out := Results(s, results[..n]);
      && Picks(n, (i: nat) => Closes(s, results, i), (i: nat) => Closing(s, results, i), out.events, at)
      && After(s, results, n, out.state)
  {
    if n == 0 {
      at := [];
    } else {
      var before := ResultsUpTo(s, results, n - 1);
      var out := Results(s, results[..n - 1]);
      assert results[..n] == results[..n - 1] + [results[n - 1]];
      ResultsAppend(s, results[..n - 1], [results[n - 1]]);
      OneResult(s, results, n - 1, out.state);
      at := PicksNext(n - 1, (i: nat) => Closes(s, results, i), (i: nat) => Closing(s, results, i), out.events, before);
    }
  }

  /**
   Each result of a tool that is not hidden closes its card, with one event, in order; a hidden one is shown
   again.
   */
  lemma ResultsClose(s: State, results: seq<ToolResult>) returns (at: seq<nat>)
    ensures var out := Results(s, results);
      && Picks(|results|, (i: nat) => Closes(s, results, i), (i: nat) => Closing(s, results, i), out.events, at)
      && After(s, results, |results|, out.state)
  {
    at := ResultsUpTo(s, results, |results|);
    assert results[..|results|] == results;
  }

  // ----- Tool calls -----

  /** The plan shown before the i-th call. */
  function PlanBefore(s: State, tools: seq<Tool>, i: nat): Option<string>
    requires i <= |tools|
  {
    if i == 0 then s.plan
    else match tools[i - 1] case Todo(_, plan) => Some(plan) case Card(_, _) => PlanBefore(s, tools, i - 1)
  }

  /** A card opens; a plan is reported if it is not the one shown. */
  predicate Opens(s: State, tools: seq<Tool>, i: nat) {
    i < |tools| && (tools[i].Todo? ==> PlanBefore(s, tools, i) != Some(tools[i].plan))
  }

  function Opening(s: State, tools: seq<Tool>, i: nat): Event {
    if i >= |tools| then Simple(ToolStarted, None, None, "")
    else
      match tools[i]
      case Card(id, kind) => Simple(ToolStarted, s.turn, Some(id), kind)
      case Todo(_, plan) => Simple(Progress, s.turn, None, plan)
  }

  /** The last of the first n calls that opens this card. */
  predicate LastCard(tools: seq<Tool>, n: nat, id: string, i: nat) {
    && i < n <= |tools| && tools[i].Card? && tools[i].id == id
    && forall j :: i < j < n ==> !(tools[j].Card? && tools[j].id == id)
  }

  /** What is open and hidden after the first n calls. */
  ghost predicate Opened(s: State, tools: seq<Tool>, n: nat, s': State)
    requires n <= |tools|
  {
    && s' == s.(hidden := s'.hidden, tools := s'.tools, plan := PlanBefore(s, tools, n))
    && (forall id :: id in s'.hidden <==>
        id in s.hidden || exists j :: 0 <= j < n && tools[j].Todo? && tools[j].id == id)
    && (forall id :: id in s'.tools <==> id in s.tools || exists j :: 0 <= j < n && tools[j].Card? && tools[j].id == id)
    && (forall id, i: nat :: LastCard(tools, n, id, i) ==> id in s'.tools && s'.tools[id] == tools[i].kind)
    && (forall id :: id in s.tools && (forall j :: 0 <= j < n ==> !(tools[j].Card? && tools[j].id == id)) ==>
          id in s'.tools && s'.tools[id] == s.tools[id])
  }

  lemma {:induction false} CallsAppend(s: State, a: seq<Tool>, b: seq<Tool>)
    ensures var first := Calls(s, a); Calls(s, a + b) == Then(Calls(first.state, b), first.events)
    decreases |a|
  {
    if a == [] {
      assert a + b == b;
      assert [] + Calls(s, b).events == Calls(s, b).events;
    } else {
      assert (a + b)[0] == a[0] && (a + b)[1..] == a[1..] + b;
      var one := Calls(s, [a[0]]);
      assert [a[0]][1..] == [];
      CallsAppend(one.state, a[1..], b);
      var first := Calls(one.state, a[1..]);
      assert one.events + (first.events + Calls(first.state, b).events)
        == one.events + first.events + Calls(first.state, b).events;
      OneFirst(s, a);
      OneFirst(s, a + b);
    }
  }

  lemma OneFirst(s: State, tools: seq<Tool>)
    requires tools != []
    ensures var one := Calls(s, [tools[0]]); Calls(s, tools) == Then(Calls(one.state, tools[1..]), one.events)
  {
    assert [tools[0]][1..] == [];
    var rest := tools[1..];
    match tools[0]
    case Card(id, kind) =>
    case Todo(id, plan) =>
      var s' := s.(hidden := s.hidden + {id});
      if s.plan == Some(plan) {
        assert [] + Calls(s', rest).events == Calls(s', rest).events;
      }
  }

  /** One more call. */
  lemma OneCall(s: State, tools: seq<Tool>, n: nat, s': State)
    requires n < |tools| && Opened(s, tools, n, s')
    ensures var out := Calls(s', [tools[n]]);
      && out.events == (if Opens(s, tools, n) then [Opening(s, tools, n)] else [])
      && Opened(s, tools, n + 1, out.state)
  {
    assert [tools[n]][1..] == [];
    if tools[n].Card? {
      OneCard(s, tools, n, s');
    } else {
      OneTodo(s, tools, n, s');
    }
  }

  lemma OneTodo(s: State, tools: seq<Tool>, n: nat, s': State)
    requires n < |tools| && tools[n].Todo? && Opened(s, tools, n, s')
    ensures Opened(s, tools, n + 1, s'.(hidden := s'.hidden + {tools[n].id}, plan := Some(tools[n].plan)))
  {
    assert forall id, i: nat :: LastCard(tools, n + 1, id, i) ==> LastCard(tools, n, id, i);
  }

  lemma OneCard(s: State, tools: seq<Tool>, n: nat, s': State)
    requires n < |tools| && tools[n].Card? && Opened(s, tools, n, s')
    ensures Opened(s, tools, n + 1, s'.(tools := s'.tools[tools[n].id := tools[n].kind]))
  {
    assert forall id, i: nat :: LastCard(tools, n + 1, id, i) && i != n ==> LastCard(tools, n, id, i);
  }

  lemma {:induction false} CallsUpTo(s: State, tools: seq<Tool>, n: nat) returns (at: seq<nat>)
    requires n <= |tools|
    ensures var out := Calls(s, tools[..n]);
      && Picks(n, (i: nat) => Opens(s, tools, i), (i: nat) => Opening(s, tools, i), out.events, at)
      && Opened(s, tools, n, out.state)
  {
    if n == 0 {
      at := [];
    } else {
      var before := CallsUpTo(s, tools, n - 1);
      var out := Calls(s, tools[..n - 1]);
      assert tools[..n] == tools[..n - 1] + [tools[n - 1]];
      CallsAppend(s, tools[..n - 1], [tools[n - 1]]);
      OneCall(s, tools, n - 1, out.state);
      at := PicksNext(n - 1, (i: nat) => Opens(s, tools, i), (i: nat) => Opening(s, tools, i), out.events, before);
    }
  }

  /** Each call opens its card with one event, in order; a plan is hidden, and reported when it changed. */
  lemma CallsOpen(s: State, tools: seq<Tool>) returns (at: seq<nat>)
    ensures var out := Calls(s, tools);
      && Picks(|tools|, (i: nat) => Opens(s, tools, i), (i: nat) => Opening(s, tools, i), out.events, at)
      && Opened(s, tools, |tools|, out.state)
  {
    at := CallsUpTo(s, tools, |tools|);
    assert tools[..|tools|] == tools;
  }

  // ----- Entries -----

  /** Entries of subagents, compaction, bookkeeping and other kinds mean nothing. */
  predicate Counts(e: Entry) {
    && !e.sidechain
    && match e.kind
       case System(turnDuration) => turnDuration
       case User => !e.meta && !e.compact
       case Assistant => !e.meta && !e.compact
       case OtherKind => false
  }

  /** Some result of the entry closes a card. */
  predicate ClosesSome(s: State, e: Entry) {
    exists i :: 0 <= i < |e.results| && Closes(s, e.results, i)
  }

  /** The entry's text is read as what the user typed. */
  predicate Typed(s: State, e: Entry) {
    Counts(e) && e.kind.User? && e.text != "" && !ClosesSome(s, e)
  }

  predicate Interrupts(s: State, e: Entry) {
    Typed(s, e) && "[Request interrupted" <= e.text
  }

  /** A prompt: typed, and neither an interruption nor command bookkeeping. */
  predicate Prompts(s: State, e: Entry) {
    Typed(s, e) && !("[Request interrupted" <= e.text || "<command-" <= e.text || "<local-command-" <= e.text)
  }

  /** The last text of a turn: it calls no tool, and the agent stopped. */
  predicate Concludes(e: Entry) {
    Counts(e) && e.kind.Assistant? && e.text != "" && e.tools == [] && (e.stop == EndTurn || e.stop == StopSequence)
  }

  /** The entry ends whatever turn is open without opening another. */
  predicate Ends(s: State, e: Entry) {
    Interrupts(s, e) || Concludes(e) || (Counts(e) && e.kind.System?)
  }

  function TurnOf(e: Entry, identify: string -> string): string {
    identify(if e.id.Some? then e.id.value else e.spare)
  }

  function Done(s: State): seq<Event> {
    if s.turn.Some? then [Simple(TurnDone, s.turn, None, "")] else []
  }

  lemma EntryWithout(s: State, e: Entry, identify: string -> string)
    requires !Counts(e)
    ensures FollowEntry(s, e, identify) == Outcome(s, [])
  {
  }

  lemma NoneClose(s: State, e: Entry)
    ensures Results(s, e.results).events == [] <==> !ClosesSome(s, e)
    ensures var s' := Results(s, e.results).state; s'.turn == s.turn && s'.busy == s.busy && s'.plan == s.plan
  {
    var at := ResultsClose(s, e.results);
    if i :| 0 <= i < |e.results| && Closes(s, e.results, i) {
      assert i in at;
    }
    if at != [] {
      assert Closes(s, e.results, at[0]);
    }
  }

  /** The agent's own words, that is no narration of its calls. */
  predicate Replies(e: Entry) {
    Counts(e) && e.kind.Assistant? && e.text != "" && e.tools == [] && e.stop != ToolUse
  }

  lemma UserTurn(s: State, e: Entry, identify: string -> string)
    requires Counts(e) && e.kind.User?
    ensures TurnIs(s, e, identify, FollowEntry(s, e, identify).state)
  {
    NoneClose(s, e);
    var at := ResultsClose(s, e.results);
  }

  lemma AssistantTurn(s: State, e: Entry, identify: string -> string)
    requires Counts(e) && e.kind.Assistant?
    ensures TurnIs(s, e, identify, FollowEntry(s, e, identify).state)
  {
    var at := CallsOpen(s, e.tools);
    if e.text != "" {
      var replied := s.(lastReply := Some(e.text));
      var closed := CallsOpen(Boundary(replied).state, e.tools);
      var more := CallsOpen(replied, e.tools);
    }
  }

  ghost predicate TurnIs(s: State, e: Entry, identify: string -> string, s': State) {
    && s'.turn == (if Prompts(s, e) then Some(TurnOf(e, identify)) else if Ends(s, e) then None else s.turn)
    && s'.busy == (if Prompts(s, e) then true else if Ends(s, e) && s.turn.Some? then false else s.busy)
    && s'.lastReply == (if Replies(e) then Some(e.text) else s.lastReply)
  }

  /**
   A prompt opens a turn; an interruption, a concluding reply or a turn marker ends the one that is open; any
   other entry leaves it; and the last reply is the agent's last text that narrates no call.
   */
  lemma TurnIff(s: State, e: Entry, identify: string -> string)
    ensures TurnIs(s, e, identify, FollowEntry(s, e, identify).state)
  {
    if Counts(e) && e.kind.User? {
      UserTurn(s, e, identify);
    } else if Counts(e) && e.kind.Assistant? {
      AssistantTurn(s, e, identify);
    } else if !Counts(e) {
      EntryWithout(s, e, identify);
    }
  }

  /** A user entry's events: its results', or, if none closes a card, what its text means. */
  lemma UserEvents(s: State, e: Entry, identify: string -> string)
    requires Counts(e) && e.kind.User?
    ensures FollowEntry(s, e, identify).events
         == if ClosesSome(s, e) then Results(s, e.results).events
            else if Interrupts(s, e) then Done(s)
            else if Prompts(s, e) then
              Done(s) + [Simple(TurnStarted, Some(TurnOf(e, identify)), None, ""),
                         Simple(UserPrompt, Some(TurnOf(e, identify)), e.id, e.text)]
            else []
  {
    NoneClose(s, e);
  }

  /** An assistant entry's events: its text, the end of the turn it concludes, and its calls. */
  lemma AssistantEvents(s: State, e: Entry, identify: string -> string)
    requires Counts(e) && e.kind.Assistant?
    ensures var spoken := if e.tools != [] || e.stop == ToolUse then Progress else AssistantText;
      var said := if e.text == "" then [] else [Simple(spoken, s.turn, e.id, e.text)];
      FollowEntry(s, e, identify).events
      == said + (if Concludes(e) then Done(s) else []) + Calls(s, e.tools).events
  {
    if Concludes(e) {
      assert Calls(Boundary(s.(lastReply := Some(e.text))).state, e.tools).events == [] == Calls(s, e.tools).events;
    } else if e.text != "" && e.tools == [] {
      assert Calls(s.(lastReply := Some(e.text)), e.tools).events == [] == Calls(s, e.tools).events;
    }
  }

  /** And a system entry that counts only ends the turn. */
  lemma SystemEvents(s: State, e: Entry, identify: string -> string)
    requires Counts(e) && e.kind.System?
    ensures FollowEntry(s, e, identify).events == Done(s)
  {
  }
}
