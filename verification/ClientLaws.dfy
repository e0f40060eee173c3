/** What a client shows, said of the events it received: for each part of its state the latest that decides it. */
module ClientLaws {
  import opened Common
  import opened Json
  import opened ReferenceClient

  // ----- Live turns, plans and requests -----

  predicate IsTurn(k: Kind) {
    k.TurnStarted? || k.TurnCompleted? || k.TurnFailed?
  }

  /** The event names no session, or the one the client shows. */
  predicate Concerns(b: Binding, e: Event) {
    e.sessionId.None? || e.sessionId == b.sessionId
  }

  /** A live event of the session the client shows. */
  predicate IsLive(b: Binding, e: Event) {
    e.isEvent && !e.history && Concerns(b, e)
  }

  predicate Switches(e: Event) {
    e.isEvent && (e.kind.ChannelSnapshot? || e.kind.BindingChanged?)
  }

  predicate DecidesTurn(b: Binding, e: Event) {
    || Switches(e)
    || (e.isEvent && Concerns(b, e) && IsSessionState(e.kind) && "busy" in e.data)
    || (IsLive(b, e) && IsTurn(e.kind))
  }

  predicate DecidesPlan(b: Binding, e: Event) {
    Switches(e) || (IsLive(b, e) && e.kind.PlanUpdated?)
  }

  predicate DecidesAgents(b: Binding, e: Event) {
    Switches(e) || (IsLive(b, e) && e.kind.SubagentUpdated?)
  }

  predicate DecidesRequest(b: Binding, e: Event, id: string) {
    IsLive(b, e) && (e.kind.RequestOpened? || e.kind.RequestResolved?) && e.requestId == Some(id) && id != ""
  }

  /** An event that is not a chunk; a chunk touches the timeline alone. */
  lemma ChunkLeaves(rd: Reader, s: State, e: Event)
    requires e.isEvent && e.kind.HistoryChunk?
    ensures var s' := Apply(rd, s, e).state;
      s'.live == s.live && s'.binding == s.binding && s'.receipts == s.receipts
  {
    HistoryLeavesLiveState(rd, s, e);
  }

  /**
   An event of another session than shown, if any is, is not even remembered, so that it can still be applied
   once its session is; only rebinding, receipts and, before any session is shown, queues go by other rules.
   */
  lemma StrangersLeave(rd: Reader, s: State, e: Event)
    requires e.isEvent && !Concerns(s.binding, e) && !e.kind.HistoryChunk?
    ensures !Rebinds(e.kind) ==> var s' := Apply(rd, s, e).state;
      && s'.timeline == s.timeline && s'.binding == s.binding && s'.live.(queue := s.live.queue) == s.live
      && (!IsReceipt(e.kind) ==> s'.receipts == s.receipts)
      && (!IsQueue(e.kind) || s.binding.sessionId.Some? ==> s'.live == s.live)
  {
  }

  lemma TurnStays(rd: Reader, s: State, e: Event)
    requires !DecidesTurn(s.binding, e)
    ensures var s' := Apply(rd, s, e).state; s'.live.turnId == s.live.turnId && s'.live.busy == s.live.busy
  {
    if e.isEvent && e.kind.HistoryChunk? {
      ChunkLeaves(rd, s, e);
    }
  }

  lemma PlanStays(rd: Reader, s: State, e: Event)
    requires !DecidesPlan(s.binding, e)
    ensures Apply(rd, s, e).state.live.plan == s.live.plan
  {
    if e.isEvent && e.kind.HistoryChunk? {
      ChunkLeaves(rd, s, e);
    }
  }

  lemma AgentsStay(rd: Reader, s: State, e: Event)
    requires !DecidesAgents(s.binding, e)
    ensures Apply(rd, s, e).state.live.subagents == s.live.subagents
  {
    if e.isEvent && e.kind.HistoryChunk? {
      ChunkLeaves(rd, s, e);
    }
  }

  lemma RequestStays(rd: Reader, s: State, e: Event, id: string)
    requires !DecidesRequest(s.binding, e, id)
    ensures var s' := Apply(rd, s, e).state;
      (id in s'.live.requests <==> id in s.live.requests)
      && (id in s.live.requests ==> s'.live.requests[id] == s.live.requests[id])
  {
    if e.isEvent {
      if e.kind.HistoryChunk? {
        ChunkLeaves(rd, s, e);
      } else {
        OneLeavesRequest(rd, s, e, id);
      }
    }
  }

  lemma OneLeavesRequest(rd: Reader, s: State, e: Event, id: string)
    requires e.isEvent && !DecidesRequest(s.binding, e, id)
    ensures var requests, requests' := s.live.requests, ApplyOne(rd, s, e).live.requests;
      (id in requests' <==> id in requests) && (id in requests ==> requests'[id] == requests[id])
  {
    if Rebinds(e.kind) {
      RebindLeavesRequests(rd, s, e);
    } else if IsLive(s.binding, e) {
      LiveLeavesRequest(s.live, e, id);
    }
  }

  lemma RebindLeavesRequests(rd: Reader, s: State, e: Event)
    requires Rebinds(e.kind)
    ensures OnRebind(rd, s, e).live.requests == s.live.requests
  {
  }

  lemma LiveLeavesRequest(l: Live, e: Event, id: string)
    requires !((e.kind.RequestOpened? || e.kind.RequestResolved?) && e.requestId == Some(id) && id != "")
    ensures var requests := OnLive(l, e).requests;
      (id in requests <==> id in l.requests) && (id in l.requests ==> requests[id] == l.requests[id])
  {
  }

  /** The binding before the i-th event. */
  function BindingAt(rd: Reader, s: State, events: seq<Event>, i: nat): Binding
    requires i <= |events|
  {
    Run(rd, s, events[..i]).binding
  }

  lemma RunOn(rd: Reader, s: State, events: seq<Event>)
    requires events != []
    ensures var n := |events| - 1;
      Run(rd, s, events) == Apply(rd, Run(rd, s, events[..n]), events[n]).state
      && forall i: nat :: i <= n ==> BindingAt(rd, s, events[..n], i) == BindingAt(rd, s, events, i)
  {
    var n := |events| - 1;
    forall i: nat | i <= n ensures BindingAt(rd, s, events[..n], i) == BindingAt(rd, s, events, i) {
      assert events[..n][..i] == events[..i];
    }
  }

  lemma LiveDecides(rd: Reader, s: State, e: Event)
    requires IsLive(s.binding, e)
    requires IsTurn(e.kind) || e.kind.PlanUpdated? || e.kind.SubagentUpdated? || e.kind.RequestOpened?
          || e.kind.RequestResolved?
    ensures Apply(rd, s, e).state.live == OnLive(s.live, e)
  {
  }

  /** The i-th event is a live turn event, and no later one decides the turn. */
  ghost predicate IsLatestTurn(rd: Reader, s: State, events: seq<Event>, i: nat) {
    && i < |events| && IsLive(BindingAt(rd, s, events, i), events[i]) && IsTurn(events[i].kind)
    && forall j: nat :: i < j < |events| ==> !DecidesTurn(BindingAt(rd, s, events, j), events[j])
  }

  lemma LatestTurnBefore(rd: Reader, s: State, events: seq<Event>, i: nat)
    requires IsLatestTurn(rd, s, events, i) && i < |events| - 1
    ensures Given(IsLatestTurn(rd, s, events[..|events| - 1], i))
  {
    RunOn(rd, s, events);
  }

  /** The client is busy with the turn of the latest live turn event of its session, if that started one. */
  lemma {:induction false} LatestTurnStands(rd: Reader, s: State, events: seq<Event>, i: nat)
    requires IsLatestTurn(rd, s, events, i)
    ensures var live, started := Run(rd, s, events).live, events[i].kind.TurnStarted?;
      live.busy == started && live.turnId == if started then events[i].turnId else None
    decreases |events|
  {
    var n := |events| - 1;
    RunOn(rd, s, events);
    if i < n {
      LatestTurnBefore(rd, s, events, i);
      LatestTurnStands(rd, s, events[..n], i);
      TurnStays(rd, Run(rd, s, events[..n]), events[n]);
    } else {
      TurnDecided(rd, Run(rd, s, events[..n]), events[n]);
    }
  }

  lemma TurnDecided(rd: Reader, s: State, e: Event)
    requires IsLive(s.binding, e) && IsTurn(e.kind)
    ensures var live := Apply(rd, s, e).state.live;
      live.busy == e.kind.TurnStarted? && live.turnId == if e.kind.TurnStarted? then e.turnId else None
  {
    LiveDecides(rd, s, e);
  }

  lemma {:induction false} LatestPlanStands(rd: Reader, s: State, events: seq<Event>, i: nat)
    requires i < |events| && IsLive(BindingAt(rd, s, events, i), events[i]) && events[i].kind.PlanUpdated?
    requires forall j: nat :: i < j < |events| ==> !DecidesPlan(BindingAt(rd, s, events, j), events[j])
    ensures Run(rd, s, events).live.plan == Some(events[i].data)
    decreases |events|
  {
    var n := |events| - 1;
    RunOn(rd, s, events);
    if i < n {
      LatestPlanStands(rd, s, events[..n], i);
      PlanStays(rd, Run(rd, s, events[..n]), events[n]);
    } else {
      LiveDecides(rd, Run(rd, s, events[..n]), events[n]);
    }
  }

  lemma {:induction false} LatestAgentsStand(rd: Reader, s: State, events: seq<Event>, i: nat)
    requires i < |events| && IsLive(BindingAt(rd, s, events, i), events[i]) && events[i].kind.SubagentUpdated?
    requires forall j: nat :: i < j < |events| ==> !DecidesAgents(BindingAt(rd, s, events, j), events[j])
    ensures Run(rd, s, events).live.subagents == ObjectsIn(ItemsOf(events[i].data, "agents"))
    decreases |events|
  {
    var n := |events| - 1;
    RunOn(rd, s, events);
    if i < n {
      LatestAgentsStand(rd, s, events[..n], i);
      AgentsStay(rd, Run(rd, s, events[..n]), events[n]);
    } else {
      LiveDecides(rd, Run(rd, s, events[..n]), events[n]);
    }
  }

  /** A request is shown, with the data it was opened with, exactly when the latest live event on it opened it. */
  lemma {:induction false} LatestRequestStands(rd: Reader, s: State, events: seq<Event>, i: nat, id: string)
    requires i < |events| && DecidesRequest(BindingAt(rd, s, events, i), events[i], id)
    requires forall j: nat :: i < j < |events| ==> !DecidesRequest(BindingAt(rd, s, events, j), events[j], id)
    ensures var requests := Run(rd, s, events).live.requests;
      && (id in requests <==> events[i].kind.RequestOpened?)
      && (id in requests ==> requests[id] == events[i].data)
    decreases |events|
  {
    var n := |events| - 1;
    RunOn(rd, s, events);
    if i < n {
      LatestRequestStands(rd, s, events[..n], i, id);
      RequestStays(rd, Run(rd, s, events[..n]), events[n], id);
    } else {
      RequestDecided(rd, Run(rd, s, events[..n]), events[n], id);
    }
  }

  lemma RequestDecided(rd: Reader, s: State, e: Event, id: string)
    requires DecidesRequest(s.binding, e, id)
    ensures var requests := Apply(rd, s, e).state.live.requests;
      && (id in requests <==> e.kind.RequestOpened?)
      && (id in requests ==> requests[id] == e.data)
  {
    LiveDecides(rd, s, e);
  }

  // ----- Snapshots and rebinding -----

  /** A channel snapshot: what it says is shown; only another session than before empties the timeline and the plan. */
  lemma SnapshotShows(rd: Reader, s: State, e: Event)
    requires e.isEvent && e.kind.ChannelSnapshot?
    ensures var s', sid := Apply(rd, s, e).state, TextOf(rd, FieldsOf(e.data, "binding"), "sid");
      && s'.binding.sessionId == sid && s'.binding.epoch == s.binding.epoch && s'.receipts == s.receipts
      && s'.live.turnId == TextOf(rd, e.data, "tid") && s'.live.busy == Flag(e.data, "busy", false)
      && s'.live.settings == FieldsOf(e.data, "settings") && s'.live.queue == ItemsOf(e.data, "queue")
      && s'.live.requests == s.live.requests
      && (sid == s.binding.sessionId ==>
            s'.timeline == s.timeline && s'.live.plan == s.live.plan && s'.live.subagents == s.live.subagents)
      && (sid != s.binding.sessionId ==> s'.timeline == EMPTY && s'.live.plan == None && s'.live.subagents == [])
  {
  }

  /** A binding change empties turn, plan and timeline, and keeps settings, queue, requests and receipts. */
  lemma BindingChangeClears(rd: Reader, s: State, e: Event)
    requires e.isEvent && e.kind.BindingChanged?
    ensures var s', sid := Apply(rd, s, e).state, TextOf(rd, FieldsOf(e.data, "session"), "sid");
      && s'.binding == s.binding.(sessionId := if sid.Some? then sid else e.sessionId)
      && s'.timeline == EMPTY && s'.receipts == s.receipts
      && s'.live == Live(None, false, s.live.settings, s.live.queue, s.live.requests, None, [])
  {
  }

  /** A hello makes the channel active; only one of another epoch forgets which events were applied. */
  lemma HelloGreets(rd: Reader, s: State, e: Event)
    requires e.isEvent && e.kind.Hello?
    ensures var s' := Apply(rd, s, e).state;
      && s'.binding.active && s'.binding.sessionId == s.binding.sessionId
      && s'.binding.backend == TextOf(rd, e.data, "backend")
      && (Named(e.epoch) ==> s'.binding.epoch == e.epoch)
      && (!Named(e.epoch) ==> s'.binding.epoch == TextOf(rd, e.data, "epoch"))
      && s'.live == s.live && s'.receipts == s.receipts
      && s'.timeline.(seen := s.timeline.seen) == s.timeline
      && s'.timeline.seen == if e.epoch == s.binding.epoch then s.timeline.seen else {}
  {
  }

  /** A session's state merges its settings; without a busy flag it leaves the old one. */
  lemma SessionStateMerges(rd: Reader, s: State, e: Event)
    requires e.isEvent && IsSessionState(e.kind) && Concerns(s.binding, e)
    ensures var s', more := Apply(rd, s, e).state, FieldsOf(e.data, "settings");
      && (forall key :: key in s'.live.settings <==> key in s.live.settings || key in more)
      && (forall key :: key in s'.live.settings ==>
            s'.live.settings[key] == if key in more then more[key] else s.live.settings[key])
      && s'.live.busy == (if "busy" in e.data then Truthy(e.data["busy"]) else s.live.busy)
      && s'.live.turnId == s.live.turnId
      && (!(e.kind.SessionSnapshot? && "recentOutputs" in e.data) ==> s'.timeline == s.timeline)
  {
  }

  /** Outputs of a snapshot replace those shown; each identified one is found at the last place its identity has. */
  lemma OutputsReplace(rd: Reader, s: State, e: Event)
    requires e.isEvent && e.kind.SessionSnapshot? && Concerns(s.binding, e) && "recentOutputs" in e.data
    ensures var t, outputs := Apply(rd, s, e).state.timeline, ObjectsIn(ItemsOf(e.data, "recentOutputs"));
      && t.assistant == outputs && t.tools == s.timeline.tools && t.seen == s.timeline.seen
      && forall key, p :: (key in t.positions && t.positions[key] == p) <==> IsLastOf(e, outputs, key, p)
  {
    var outputs := ObjectsIn(ItemsOf(e.data, "recentOutputs"));
    var positions := PositionsFrom(e, outputs);
    forall key, p: nat ensures (key in positions && positions[key] == p) <==> IsLastOf(e, outputs, key, p) {
      PositionIsLast(e, outputs, key, p);
    }
  }

  /** The output at this place has an identity, this one, and no later output has it. */
  predicate IsLastOf(e: Event, items: seq<Object>, key: Key, p: nat) {
    && p < |items| && Identified(e, items[p], key)
    && forall i :: p < i < |items| ==> !Identified(e, items[i], key)
  }

  predicate Identified(e: Event, item: Object, key: Key) {
    Flag(item, "iid", false) && OutputKey(e, item) == key
  }

  lemma {:induction false} PositionIsLast(e: Event, items: seq<Object>, key: Key, p: nat)
    ensures (key in PositionsFrom(e, items) && PositionsFrom(e, items)[key] == p) <==> IsLastOf(e, items, key, p)
    decreases |items|
  {
    if items != [] {
      var n := |items| - 1;
      PositionIsLast(e, items[..n], key, p);
      if p < n && IsLastOf(e, items[..n], key, p) && !Identified(e, items[n], key) {
        assert IsLastOf(e, items, key, p);
      }
      if p < n && IsLastOf(e, items, key, p) {
        assert forall i :: p < i < n ==> items[..n][i] == items[i];
        assert IsLastOf(e, items[..n], key, p) && !Identified(e, items[n], key);
      }
    }
  }

  /** Queue events of the session shown, of none, or before any session is shown decide the queue; others leave it. */
  lemma QueueFollows(rd: Reader, s: State, e: Event)
    requires e.isEvent && (e.kind.QueueItem? || e.kind.QueueSnapshot?)
    ensures var s' := Apply(rd, s, e).state;
      var concerns := s.binding.sessionId.None? || e.sessionId.None? || e.sessionId == s.binding.sessionId;
      && s' == s.(live := s.live.(queue := s'.live.queue))
      && (!concerns ==> s'.live.queue == s.live.queue)
      && (concerns && e.kind.QueueSnapshot? ==> s'.live.queue == ItemsOf(e.data, "items"))
      && (concerns && e.kind.QueueItem? ==> s'.live.queue == OnQueueItem(rd, s.live.queue, e, e.kind.removed))
  {
    assert Apply(rd, s, e).state
        == if IsQueueRelevant(s.binding, e) then s.(live := OnQueue(rd, s.live, e)) else s;
  }

  /** The entries of an item go with an event that names it, or else whose data does. */
  lemma RemovedIsGone(rd: Reader, s: State, e: Event, id: string)
    requires e.isEvent && e.kind == QueueItem(true) && Concerns(s.binding, e)
    requires id != "" && (e.itemId == Some(id) || (!Named(e.itemId) && Get(e.data, "iid") == Some(Str(id))))
    ensures CountId(rd, Apply(rd, s, e).state.live.queue, id) == 0
  {
    QueueFollows(rd, s, e);
    OneEntryIff(rd, s.live.queue, e, true);
  }

  /** A flag is raised by any value but these. */
  lemma FlagIff(o: Object, key: string, missing: bool)
    ensures Flag(o, key, missing) <==>
      if key in o then o[key] !in {Null, Bool(false), Int(0), Float(0.0), Str(""), Arr([]), Obj(map[])} else missing
  {
  }

  /** A field is read as this text exactly if it is this text, or another value that counts and is written so. */
  lemma TextOfIff(rd: Reader, o: Object, key: string, t: string)
    ensures TextOf(rd, o, key) == Some(t) <==>
      t != "" && key in o && (o[key] == Str(t) || (!o[key].Str? && Flag(o, key, false) && rd.text(o[key]) == t))
  {
  }

  // ----- Outputs and tools -----

  /** What an output event shows: its data, and the item it names unless the data does. */
  function Shown(e: Event): Object {
    map["iid" := OptJson(e.itemId)] + e.data
  }

  function KeyFor(e: Event): Key {
    if Named(e.itemId) then ItemKeyOf(e) else EventKey(e.id)
  }

  /** An output not applied before is shown at its identity's place, or at the end if it has none yet. */
  lemma OutputLands(rd: Reader, s: State, e: Event)
    requires e.isEvent && e.kind.AssistantCompleted? && Concerns(s.binding, e) && Injective(s.timeline)
    requires e.id !in s.timeline.seen
    ensures var t, t', key := s.timeline, Apply(rd, s, e).state.timeline, KeyFor(e);
      && key in t'.positions && t'.positions[key] == (if key in t.positions then t.positions[key] else |t.assistant|)
      && t'.positions[key] < |t'.assistant| && t'.assistant[t'.positions[key]] == Shown(e)
      && |t'.assistant| == (if key in t.positions then |t.assistant| else |t.assistant| + 1)
      && (forall i :: 0 <= i < |t.assistant| && i != t'.positions[key] ==> t'.assistant[i] == t.assistant[i])
      && (forall other :: other != key ==> (other in t'.positions <==> other in t.positions))
      && (forall other :: other in t.positions && other != key ==> t'.positions[other] == t.positions[other])
      && t'.seen == t.seen + {e.id} && t'.tools == t.tools
  {
  }

  /** Two events speak of one output or tool exactly when session, turn and item agree. */
  lemma ItemKeysIff(a: Event, b: Event)
    ensures ItemKeyOf(a) == ItemKeyOf(b) <==> (a.sessionId, a.turnId, a.itemId) == (b.sessionId, b.turnId, b.itemId)
  {
  }

  /** An output a snapshot shows is the one this event completes; without a turn of its own it has the snapshot's. */
  predicate Completes(snapshot: Event, item: Object, e: Event) {
    && Named(e.itemId) && Get(item, "iid") == Some(Str(e.itemId.value)) && e.sessionId == snapshot.sessionId
    && match Get(item, "tid")
       case None => e.turnId == snapshot.turnId
       case Some(Null) => e.turnId == snapshot.turnId
       case Some(Str(tid)) => tid != "" && e.turnId == Some(tid)
       case _ => false
  }

  /** Completing an output after a snapshot that shows it replaces it where it is: nothing is shown twice. */
  lemma CompletedReplaces(rd: Reader, s: State, snapshot: Event, e: Event, p: nat)
    requires snapshot.isEvent && snapshot.kind.SessionSnapshot? && "recentOutputs" in snapshot.data
    requires e.isEvent && e.kind.AssistantCompleted? && e.id !in s.timeline.seen && Concerns(s.binding, e)
    requires Injective(s.timeline)
    requires var outputs := ObjectsIn(ItemsOf(snapshot.data, "recentOutputs"));
      && p < |outputs| && Completes(snapshot, outputs[p], e)
      && forall q :: p < q < |outputs| ==> Get(outputs[q], "iid") != Some(Str(e.itemId.value))
    ensures var outputs := ObjectsIn(ItemsOf(snapshot.data, "recentOutputs"));
      Apply(rd, Apply(rd, s, snapshot).state, e).state.timeline.assistant == outputs[p := Shown(e)]
  {
    var outputs := ObjectsIn(ItemsOf(snapshot.data, "recentOutputs"));
    var s' := Apply(rd, s, snapshot).state;
    OutputsReplace(rd, s, snapshot);
    SessionKeepsInjective(s, snapshot);
    assert IsLastOf(snapshot, outputs, ItemKeyOf(e), p);
    OutputLands(rd, s', e);
  }

  /** The data of an output event is shown as it came. */
  lemma ShownIsData(e: Event)
    ensures forall field :: field in e.data ==> field in Shown(e) && Shown(e)[field] == e.data[field]
    ensures forall field :: field in Shown(e) ==> field in e.data || field == "iid"
    ensures "iid" in Shown(e) && ("iid" !in e.data ==> Shown(e)["iid"] == OptJson(e.itemId))
  {
  }

  /** One stage of a tool comes before another. */
  predicate Before(a: Kind, b: Kind) {
    (a.ToolStarted? && (b.ToolUpdated? || b.ToolCompleted?)) || (a.ToolUpdated? && b.ToolCompleted?)
  }

  /** History shows an earlier stage than the card. */
  predicate IsOutdated(t: Timeline, e: Event) {
    e.history && ItemKeyOf(e) in t.tools && Before(e.kind, t.tools[ItemKeyOf(e)].event)
  }

  /** A tool event not applied before merges its data into its card, unless history is behind the card. */
  lemma ToolLands(rd: Reader, s: State, e: Event)
    requires e.isEvent && IsTool(e.kind) && Concerns(s.binding, e) && Named(e.itemId) && e.id !in s.timeline.seen
    requires ItemKeyOf(e) in s.timeline.tools ==> IsTool(s.timeline.tools[ItemKeyOf(e)].event)
    ensures var t, t', key := s.timeline, Apply(rd, s, e).state.timeline, ItemKeyOf(e);
      && t'.seen == t.seen + {e.id} && t'.assistant == t.assistant && t'.positions == t.positions
      && (IsOutdated(t, e) ==> t'.tools == t.tools)
      && (!IsOutdated(t, e) ==>
            && t'.tools.Keys == t.tools.Keys + {key}
            && (forall other :: other in t.tools && other != key ==> t'.tools[other] == t.tools[other])
            && t'.tools[key].event == e.kind && t'.tools[key].sid == e.sessionId && t'.tools[key].tid == e.turnId
            && Some(t'.tools[key].iid) == e.itemId
            && (forall f :: f in e.data ==> f in t'.tools[key].fields && t'.tools[key].fields[f] == e.data[f])
            && (forall f :: f in t'.tools[key].fields && f !in e.data ==>
                  key in t.tools && f in t.tools[key].fields && t'.tools[key].fields[f] == t.tools[key].fields[f])
            && (key in t.tools ==> t.tools[key].fields.Keys <= t'.tools[key].fields.Keys))
  {
    assert Apply(rd, s, e).state.timeline == OnTool(s.timeline, e);
  }

  /** Cards hold tool events, over any run from the start. */
  ghost predicate CardsAreTools(t: Timeline) {
    forall key :: key in t.tools ==> IsTool(t.tools[key].event)
  }

  lemma OneKeepsCards(rd: Reader, s: State, e: Event)
    requires CardsAreTools(s.timeline)
    ensures CardsAreTools(ApplyOne(rd, s, e).timeline)
  {
  }

  lemma {:induction false} ChunkKeepsCards(rd: Reader, s: State, chunk: Event, items: seq<Json>)
    requires CardsAreTools(s.timeline)
    ensures CardsAreTools(ApplyChunk(rd, s, chunk, items).state.timeline)
    decreases |items|
  {
    if items != [] {
      match Historic(rd, chunk, items[0])
      case None =>
      case Some(e) =>
        OneKeepsCards(rd, s, e);
        ChunkKeepsCards(rd, ApplyOne(rd, s, e), chunk, items[1..]);
    }
  }

  lemma {:induction false} RunKeepsCards(rd: Reader, s: State, events: seq<Event>)
    requires CardsAreTools(s.timeline)
    ensures CardsAreTools(Run(rd, s, events).timeline)
    decreases |events|
  {
    if events != [] {
      var n := |events| - 1;
      RunKeepsCards(rd, s, events[..n]);
      if events[n].isEvent && events[n].kind.HistoryChunk? {
        ChunkKeepsCards(rd, Run(rd, s, events[..n]), events[n], ItemsOf(events[n].data, "events"));
      } else {
        OneKeepsCards(rd, Run(rd, s, events[..n]), events[n]);
      }
    }
  }

  // ----- Receipts -----

  /** Nothing, then an unknown status, then acceptance, then any outcome. */
  lemma RankOrder(a: Receipt, b: Receipt)
    ensures Rank(a) < Rank(b) <==>
      || (a.status.NoStatus? && !b.status.NoStatus?)
      || (a.status.Unknown? && !b.status.NoStatus? && !b.status.Unknown?)
      || (a.status.Accepted? && (b.status.Succeeded? || b.status.Failed? || b.status.Uncertain?))
  {
  }

  /** Live receipts are those of action events that reply to an action, and of status events that name one. */
  lemma ReceiptInIff(e: Event, action: string, r: Receipt)
    ensures ReceiptIn(e) == Some((action, r)) <==>
      && e.isEvent && !e.history
      && ((e.kind.ActionReceipt? && e.reply == Some(action) && action != "" && r.status == e.kind.outcome
           && r.fields == Told(e))
          || (e.kind.ActionStatus? && Get(e.data, "actionId") == Some(Str(action)) && r.fields == e.data
              && r.status == StatusOf(Get(e.data, "status"))))
  {
  }

  /** The receipt of an outcome: its name, and a message if the event has one. */
  function Told(e: Event): Object
    requires e.kind.ActionReceipt?
  {
    var status: Object := map["status" := Str(StatusName(e.kind.outcome))];
    if IsText(Get(e.data, "message")) then status["message" := e.data["message"]] else status
  }

  predicate IsText(v: Option<Json>) {
    v.Some? && v.value.Str?
  }

  // ----- Chunks -----

  /** What a page never holds: bindings and receipts, snapshots and states, queues and subagents. */
  predicate NeverReplayed(k: Kind) {
    || Rebinds(k) || IsReceipt(k) || IsSessionState(k) || IsQueue(k) || k.SubagentUpdated? || k.HistoryChunk?
    || k == Other(false)
  }

  /** An entry of a chunk that belongs to the chunk's page. */
  ghost predicate Belongs(rd: Reader, chunk: Event, raw: Json, e: Event) {
    && raw.Obj? && rd.read(raw.fields) == Some(e)
    && e.isEvent && e.history && !NeverReplayed(e.kind) && e.sessionId == chunk.sessionId && e.reply == chunk.reply
  }

  lemma BelongsIff(rd: Reader, chunk: Event, raw: Json, e: Event)
    ensures Belongs(rd, chunk, raw, e) <==> Historic(rd, chunk, raw) == Some(e)
  {
  }

  /** A chunk applies its entries in order, up to the first that does not belong, where it stops with an error. */
  lemma {:induction false} ChunkApplies(rd: Reader, s: State, chunk: Event, items: seq<Json>, es: seq<Event>)
    requires |es| <= |items| && forall i :: 0 <= i < |es| ==> Belongs(rd, chunk, items[i], es[i])
    requires |es| < |items| ==> forall e :: !Belongs(rd, chunk, items[|es|], e)
    ensures ApplyChunk(rd, s, chunk, items) == Outcome(Each(rd, s, es), |es| == |items|)
    decreases |items|
  {
    if es != [] {
      BelongsIff(rd, chunk, items[0], es[0]);
      ChunkApplies(rd, ApplyOne(rd, s, es[0]), chunk, items[1..], es[1..]);
    } else if items != [] {
      if Historic(rd, chunk, items[0]).Some? {
        BelongsIff(rd, chunk, items[0], Historic(rd, chunk, items[0]).value);
      }
    }
  }

  function Each(rd: Reader, s: State, es: seq<Event>): State
    decreases |es|
  {
    if es == [] then s else Each(rd, ApplyOne(rd, s, es[0]), es[1..])
  }
}
