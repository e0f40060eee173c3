/** The client replica: what each event does to the state a client shows. */
module ReferenceClient {
  import opened Common
  import opened Json

  /** Event kinds; `Other` says whether the kind may be replayed as history. */
  datatype Kind =
    | Hello
    | ChannelSnapshot
    | HistoryChunk
    | BindingChanged
    | ActionReceipt(outcome: Status)
    | ActionStatus
    | SessionSnapshot
    | SessionStatus
    | TurnStarted
    | TurnCompleted
    | TurnFailed
    | AssistantCompleted
    | PlanUpdated
    | SubagentUpdated
    | ToolStarted
    | ToolUpdated
    | ToolCompleted
    | RequestOpened
    | RequestResolved
    | QueueItem(removed: bool)
    | QueueSnapshot
    | Other(replayed: bool)

  datatype Status = Unknown | Accepted | Succeeded | Failed | Uncertain | NoStatus

  datatype Event = Event(
    isEvent: bool, kind: Kind, id: string, sessionId: Option<string>, turnId: Option<string>, itemId: Option<string>,
    requestId: Option<string>, reply: Option<string>, epoch: Option<string>, history: bool, data: Object)

  /** The identity of an output or tool: its session, turn and item, or its event when it has no item. */
  datatype Key = ItemKey(sid: Json, tid: Json, iid: Json) | EventKey(id: string)

  datatype Tool = Tool(fields: Object, sid: Option<string>, tid: Option<string>, iid: string, event: Kind)

  datatype Receipt = Receipt(status: Status, fields: Object)

  /** Which session the client shows, of which agent. */
  datatype Binding = Binding(active: bool, backend: Option<string>, epoch: Option<string>, sessionId: Option<string>)

  /** What only live events change. */
  datatype Live = Live(
    turnId: Option<string>, busy: bool, settings: Object, queue: seq<Json>, requests: map<string, Object>,
    plan: Option<Object>, subagents: seq<Object>)

  /** The timeline: outputs with their positions, tools, and the ids of the events applied to them. */
  datatype Timeline = Timeline(assistant: seq<Object>, positions: map<Key, nat>, tools: map<Key, Tool>,
                               seen: set<string>)

  datatype State = State(binding: Binding, live: Live, timeline: Timeline, receipts: map<string, Receipt>)

  const EMPTY := Timeline([], map[], map[], {})
  const INITIAL := State(Binding(false, None, None, None), Live(None, false, map[], [], map[], None, []), EMPTY, map[])

  /** Turning a value into text, a queue item's sort position, and the strict envelope reader. */
  datatype Reader = Reader(text: Json -> string, position: Json -> int, read: Object -> Option<Event>)

  /** A malformed history chunk raises after the events before the malformed one were applied. */
  datatype Outcome = Outcome(state: State, ok: bool)

  // ----- Reading payloads -----

  predicate Truthy(v: Json) {
    match v
    case Null => false
    case Bool(b) => b
    case Int(n) => n != 0
    case Float(x) => x != 0.0
    case NonFinite => true
    case Str(s) => s != ""
    case Arr(items) => items != []
    case Obj(fields) => fields != map[]
  }

  function Flag(o: Object, key: string, missing: bool): bool {
    if key in o then Truthy(o[key]) else missing
  }

  /** The text of a value, None when it is absent or empty. */
  function TextOf(rd: Reader, o: Object, key: string): Option<string> {
    if key !in o || !Truthy(o[key]) then None
    else
      var s := match o[key] case Str(t) => t case v => rd.text(v);
      if s == "" then None else Some(s)
  }

  function FieldsOf(o: Object, key: string): Object {
    match Get(o, key)
    case Some(Obj(fields)) => fields
    case _ => map[]
  }

  function ItemsOf(o: Object, key: string): seq<Json> {
    match Get(o, key)
    case Some(Arr(items)) => items
    case _ => []
  }

  /** Only the objects of a list. */
  function ObjectsIn(items: seq<Json>): seq<Object> {
    if items == [] then []
    else (if items[0].Obj? then [items[0].fields] else []) + ObjectsIn(items[1..])
  }

  function OptJson(s: Option<string>): Json {
    if s.Some? then Str(s.value) else Null
  }

  function StatusOf(v: Option<Json>): Status {
    match v
    case Some(Str(s)) =>
      if s == "unknown" then Unknown
      else if s == "accepted" then Accepted
      else if s == "succeeded" then Succeeded
      else if s == "failed" then Failed
      else if s == "uncertain" then Uncertain
      else NoStatus
    case _ => NoStatus
  }

  function StatusName(s: Status): string {
    match s
    case Unknown => "unknown"
    case Accepted => "accepted"
    case Succeeded => "succeeded"
    case Failed => "failed"
    case Uncertain => "uncertain"
    case NoStatus => ""
  }

  function Rank(r: Receipt): int {
    match r.status
    case Unknown => 0
    case Accepted => 1
    case NoStatus => -1
    case _ => 2
  }

  function ToolRank(k: Kind): int {
    match k
    case ToolStarted => 0
    case ToolUpdated => 1
    case ToolCompleted => 2
    case _ => -1
  }

  predicate IsTool(k: Kind) {
    k.ToolStarted? || k.ToolUpdated? || k.ToolCompleted?
  }

  /** Kinds a history chunk may carry. */
  predicate InHistory(k: Kind) {
    || k.TurnStarted? || k.TurnCompleted? || k.TurnFailed? || k.AssistantCompleted? || k.PlanUpdated? || IsTool(k)
    || k.RequestOpened? || k.RequestResolved? || (k.Other? && k.replayed)
  }

  // ----- What each event does -----

  predicate IsBound(b: Binding, e: Event) {
    e.sessionId.None? || (b.sessionId.Some? && e.sessionId == b.sessionId)
  }

  predicate IsQueueRelevant(b: Binding, e: Event) {
    b.sessionId.None? || IsBound(b, e)
  }

  predicate Named(id: Option<string>) {
    id.Some? && id.value != ""
  }

  predicate Rebinds(k: Kind) {
    k.Hello? || k.ChannelSnapshot? || k.BindingChanged?
  }

  function ResetTimeline(s: State): State {
    s.(live := s.live.(turnId := None, busy := false, plan := None, subagents := []), timeline := EMPTY)
  }

  function OnHello(rd: Reader, s: State, e: Event): State {
    s.(binding := Binding(true, TextOf(rd, e.data, "backend"),
                          if Named(e.epoch) then e.epoch else TextOf(rd, e.data, "epoch"), s.binding.sessionId),
       timeline := if e.epoch != s.binding.epoch then s.timeline.(seen := {}) else s.timeline)
  }

  /** The session a snapshot names; another one than before starts an empty timeline. */
  function SelectSession(rd: Reader, s: State, e: Event): State {
    var backend := TextOf(rd, e.data, "backend");
    var sid := TextOf(rd, FieldsOf(e.data, "binding"), "sid");
    var s' := if sid != s.binding.sessionId then ResetTimeline(s) else s;
    var shown := if backend.Some? then backend else s.binding.backend;
    s'.(binding := Binding(Flag(e.data, "active", true), shown, s.binding.epoch, sid))
  }

  function OnChannelSnapshot(rd: Reader, s: State, e: Event): State {
    var s' := SelectSession(rd, s, e);
    s'.(live := s'.live.(turnId := TextOf(rd, e.data, "tid"), busy := Flag(e.data, "busy", false),
                         settings := FieldsOf(e.data, "settings"), queue := ItemsOf(e.data, "queue")))
  }

  function OnBindingChanged(rd: Reader, s: State, e: Event): State {
    var sid := TextOf(rd, FieldsOf(e.data, "session"), "sid");
    ResetTimeline(s.(binding := s.binding.(sessionId := if sid.Some? then sid else e.sessionId)))
  }

  function OnRebind(rd: Reader, s: State, e: Event): State
    requires Rebinds(e.kind)
  {
    match e.kind
    case Hello => OnHello(rd, s, e)
    case ChannelSnapshot => OnChannelSnapshot(rd, s, e)
    case BindingChanged => OnBindingChanged(rd, s, e)
  }

  /** The newer receipt stays, unless it knows less than the stored one. */
  function Merge(receipts: map<string, Receipt>, action: string, incoming: Receipt): map<string, Receipt> {
    if action in receipts && Rank(incoming) < Rank(receipts[action]) then receipts else receipts[action := incoming]
  }

  /** The action a live receipt event speaks of, and its receipt. */
  function ReceiptIn(e: Event): Option<(string, Receipt)> {
    if !e.isEvent || e.history then None
    else
      match e.kind
      case ActionReceipt(outcome) =>
        if e.reply.None? || e.reply.value == "" then None
        else
          var status := map["status" := Str(StatusName(outcome))];
          Some((e.reply.value, Receipt(outcome, match Get(e.data, "message")
                                                case Some(Str(m)) => status["message" := Str(m)]
                                                case _ => status)))
      case ActionStatus =>
        (match Get(e.data, "actionId")
         case Some(Str(action)) => Some((action, Receipt(StatusOf(Get(e.data, "status")), e.data)))
         case _ => None)
      case _ => None
  }

  function OutputKey(e: Event, item: Object): Key {
    var tid := if Flag(item, "tid", false) then item["tid"] else OptJson(e.turnId);
    ItemKey(OptJson(e.sessionId), tid, if "iid" in item then item["iid"] else Null)
  }

  function ItemKeyOf(e: Event): Key {
    ItemKey(OptJson(e.sessionId), OptJson(e.turnId), OptJson(e.itemId))
  }

  /** Each identified output's last index. */
  function PositionsFrom(e: Event, items: seq<Object>): map<Key, nat>
    decreases |items|
  {
    if items == [] then map[]
    else
      var n := |items| - 1;
      var before := PositionsFrom(e, items[..n]);
      if Flag(items[n], "iid", false) then before[OutputKey(e, items[n]) := n] else before
  }

  predicate HasOutputs(e: Event) {
    e.kind.SessionSnapshot? && "recentOutputs" in e.data
  }

  function OnSessionState(s: State, e: Event): State {
    s.(live := s.live.(settings := s.live.settings + FieldsOf(e.data, "settings"),
                       busy := Flag(e.data, "busy", s.live.busy)),
       timeline := if HasOutputs(e) then
                     var outputs := ObjectsIn(ItemsOf(e.data, "recentOutputs"));
                     s.timeline.(assistant := outputs, positions := PositionsFrom(e, outputs))
                   else s.timeline)
  }

  function OnAssistant(t: Timeline, e: Event): Timeline {
    if e.id in t.seen then t
    else
      var item := map["iid" := OptJson(e.itemId)] + e.data;
      var key := if Named(e.itemId) then ItemKeyOf(e) else EventKey(e.id);
      var t' := t.(seen := t.seen + {e.id});
      if key in t.positions then
        if t.positions[key] < |t.assistant| then t'.(assistant := t.assistant[t.positions[key] := item]) else t'
      else t'.(positions := t.positions[key := |t.assistant|], assistant := t.assistant + [item])
  }

  function OnTool(t: Timeline, e: Event): Timeline {
    if e.id in t.seen || !Named(e.itemId) then t
    else
      var key := ItemKeyOf(e);
      var t' := t.(seen := t.seen + {e.id});
      if e.history && key in t.tools && ToolRank(e.kind) < ToolRank(t.tools[key].event) then t'
      else
        var before: Object := if key in t.tools then t.tools[key].fields else map[];
        t'.(tools := t.tools[key := Tool(before + e.data, e.sessionId, e.turnId, e.itemId.value, e.kind)])
  }

  /** Insert after every item whose position is not greater. */
  function InsertSorted(rd: Reader, items: seq<Json>, item: Json): seq<Json>
    decreases |items|
  {
    if items == [] then [item]
    else
      var n := |items| - 1;
      if rd.position(items[n]) <= rd.position(item) then items + [item]
      else InsertSorted(rd, items[..n], item) + [items[n]]
  }

  /** A stable sort by position. */
  function SortQueue(rd: Reader, items: seq<Json>): seq<Json>
    decreases |items|
  {
    if items == [] then [] else InsertSorted(rd, SortQueue(rd, items[..|items| - 1]), items[|items| - 1])
  }

  /** A stored entry goes by the text of its own id field. */
  predicate HasId(rd: Reader, item: Json, id: string) {
    item.Obj? && rd.text(if "iid" in item.fields then item.fields["iid"] else Null) == id
  }

  function WithoutItem(rd: Reader, items: seq<Json>, id: string): seq<Json> {
    if items == [] then []
    else (if HasId(rd, items[0], id) then [] else [items[0]]) + WithoutItem(rd, items[1..], id)
  }

  /** The item an event speaks of. */
  function QueueId(rd: Reader, e: Event): string {
    var named := TextOf(rd, e.data, "iid");
    if Named(e.itemId) then e.itemId.value else if named.Some? then named.value else ""
  }

  function OnQueueItem(rd: Reader, queue: seq<Json>, e: Event, removed: bool): seq<Json> {
    var rest := WithoutItem(rd, queue, QueueId(rd, e));
    if removed then rest else SortQueue(rd, rest + [Obj(e.data)])
  }

  function OnQueue(rd: Reader, l: Live, e: Event): Live {
    match e.kind
    case QueueItem(removed) => l.(queue := OnQueueItem(rd, l.queue, e, removed))
    case QueueSnapshot => l.(queue := ItemsOf(e.data, "items"))
    case _ => l
  }

  /** Events of the bound session that history never replays into the state. */
  function OnLive(l: Live, e: Event): Live {
    match e.kind
    case TurnStarted => l.(busy := true, turnId := e.turnId)
    case TurnCompleted => l.(busy := false, turnId := None)
    case TurnFailed => l.(busy := false, turnId := None)
    case PlanUpdated => l.(plan := Some(e.data))
    case SubagentUpdated => l.(subagents := ObjectsIn(ItemsOf(e.data, "agents")))
    case RequestOpened => if Named(e.requestId) then l.(requests := l.requests[e.requestId.value := e.data]) else l
    case RequestResolved => if Named(e.requestId) then l.(requests := l.requests - {e.requestId.value}) else l
    case _ => l
  }

  predicate IsQueue(k: Kind) {
    k.QueueItem? || k.QueueSnapshot?
  }

  predicate IsReceipt(k: Kind) {
    k.ActionReceipt? || k.ActionStatus?
  }

  predicate IsSessionState(k: Kind) {
    k.SessionSnapshot? || k.SessionStatus?
  }

  /** Every kind but history chunks. */
  function ApplyOne(rd: Reader, s: State, e: Event): State {
    if !e.isEvent then s
    else if Rebinds(e.kind) then OnRebind(rd, s, e)
    else if IsReceipt(e.kind) then s.(receipts := WithReceipt(s.receipts, e))
    else if IsQueue(e.kind) then (if IsQueueRelevant(s.binding, e) then s.(live := OnQueue(rd, s.live, e)) else s)
    else if !IsBound(s.binding, e) then s
    else if IsSessionState(e.kind) then OnSessionState(s, e)
    else if e.kind.AssistantCompleted? then s.(timeline := OnAssistant(s.timeline, e))
    else if IsTool(e.kind) then s.(timeline := OnTool(s.timeline, e))
    else if e.history then s
    else s.(live := OnLive(s.live, e))
  }

  function WithReceipt(receipts: map<string, Receipt>, e: Event): map<string, Receipt> {
    match ReceiptIn(e)
    case None => receipts
    case Some((action, receipt)) => Merge(receipts, action, receipt)
  }

  /** An event a chunk carries, if it belongs to the chunk's page. */
  function Historic(rd: Reader, chunk: Event, raw: Json): Option<Event> {
    if !raw.Obj? then None
    else
      match rd.read(raw.fields)
      case None => None
      case Some(e) =>
        if e.isEvent && InHistory(e.kind) && e.history && e.sessionId == chunk.sessionId && e.reply == chunk.reply
        then Some(e) else None
  }

  function ApplyChunk(rd: Reader, s: State, chunk: Event, items: seq<Json>): Outcome
    decreases |items|
  {
    if items == [] then Outcome(s, true)
    else
      match Historic(rd, chunk, items[0])
      case None => Outcome(s, false)
      case Some(e) => ApplyChunk(rd, ApplyOne(rd, s, e), chunk, items[1..])
  }

  function Apply(rd: Reader, s: State, e: Event): Outcome {
    if e.isEvent && e.kind.HistoryChunk? then ApplyChunk(rd, s, e, ItemsOf(e.data, "events"))
    else Outcome(ApplyOne(rd, s, e), true)
  }

  // ----- The object -----

  class HarnessState {
    var active: bool
    var backend: Option<string>
    var epoch: Option<string>
    var sessionId: Option<string>
    var turnId: Option<string>
    var busy: bool
    var settings: Object
    var queue: seq<Json>
    var requests: map<string, Object>
    var assistant: seq<Object>
    var tools: map<Key, Tool>
    var receipts: map<string, Receipt>
    var plan: Option<Object>
    var subagents: seq<Object>
    var seen: set<string>
    var positions: map<Key, nat>

    function Contents(): State
      reads this
    {
      State(Binding(active, backend, epoch, sessionId), Live(turnId, busy, settings, queue, requests, plan, subagents),
            Timeline(assistant, positions, tools, seen), receipts)
    }

    constructor ()
      ensures Contents() == INITIAL
    {
      active, busy := false, false;
      backend, epoch, sessionId, turnId, plan := None, None, None, None, None;
      settings, requests, tools, receipts, positions := map[], map[], map[], map[], map[];
      queue, assistant, subagents, seen := [], [], [], {};
    }

    method Reset()
      modifies this`turnId, this`busy, this`assistant, this`positions, this`tools, this`plan, this`subagents, this`seen
      ensures Contents().live == old(Contents().live).(turnId := None, busy := false, plan := None, subagents := [])
      ensures Contents().timeline == EMPTY
    {
      turnId, busy := None, false;
      assistant, positions, tools := [], map[], map[];
      plan, subagents, seen := None, [], {};
    }

    method Greet(rd: Reader, e: Event)
      modifies this`active, this`backend, this`epoch, this`seen
      ensures Contents() == OnHello(rd, old(Contents()), e)
    {
      if e.epoch != epoch {
        seen := {};
      }
      active := true;
      backend := TextOf(rd, e.data, "backend");
      epoch := if Named(e.epoch) then e.epoch else TextOf(rd, e.data, "epoch");
    }

    method Select(rd: Reader, e: Event)
      modifies this
      ensures Contents() == SelectSession(rd, old(Contents()), e)
    {
      active := Flag(e.data, "active", true);
      var named := TextOf(rd, e.data, "backend");
      if named.Some? {
        backend := named;
      }
      var sid := TextOf(rd, FieldsOf(e.data, "binding"), "sid");
      if sid != sessionId {
        Reset();
      }
      sessionId := sid;
    }

    method TakeSnapshot(rd: Reader, e: Event)
      modifies this
      ensures Contents() == OnChannelSnapshot(rd, old(Contents()), e)
    {
      Select(rd, e);
      turnId := TextOf(rd, e.data, "tid");
      busy := Flag(e.data, "busy", false);
      settings := FieldsOf(e.data, "settings");
      queue := ItemsOf(e.data, "queue");
    }

    method Rebind(rd: Reader, e: Event)
      modifies this
      ensures Contents() == OnBindingChanged(rd, old(Contents()), e)
    {
      var sid := TextOf(rd, FieldsOf(e.data, "session"), "sid");
      sessionId := if sid.Some? then sid else e.sessionId;
      Reset();
    }

    method MergeReceipt(e: Event)
      modifies this`receipts
      ensures receipts == WithReceipt(old(receipts), e)
    {
      var incoming := ReceiptIn(e);
      match incoming {
        case None =>
        case Some((action, receipt)) =>
          if action in receipts && Rank(receipt) < Rank(receipts[action]) {
            return;
          }
          receipts := receipts[action := receipt];
      }
    }

    method UpdateSession(e: Event)
      modifies this`settings, this`busy, this`assistant, this`positions
      ensures Contents() == OnSessionState(old(Contents()), e)
    {
      settings := settings + FieldsOf(e.data, "settings");
      if "busy" in e.data {
        busy := Truthy(e.data["busy"]);
      }
      if HasOutputs(e) {
        TakeOutputs(e, ObjectsIn(ItemsOf(e.data, "recentOutputs")));
      }
    }

    method TakeOutputs(e: Event, outputs: seq<Object>)
      modifies this`assistant, this`positions
      ensures assistant == outputs && positions == PositionsFrom(e, outputs)
    {
      assistant := outputs;
      positions := map[];
      for index := 0 to |outputs|
        invariant assistant == outputs && positions == PositionsFrom(e, outputs[..index])
      {
        assert outputs[..index + 1][..index] == outputs[..index];
        if Flag(outputs[index], "iid", false) {
          positions := positions[OutputKey(e, outputs[index]) := index];
        }
      }
      assert outputs[..|outputs|] == outputs;
    }

    method CompleteAssistant(e: Event)
      modifies this`assistant, this`positions, this`seen
      ensures Contents().timeline == OnAssistant(old(Contents()).timeline, e)
    {
      if e.id in seen {
        return;
      }
      seen := seen + {e.id};
      var item := map["iid" := OptJson(e.itemId)] + e.data;
      var key := if Named(e.itemId) then ItemKeyOf(e) else EventKey(e.id);
      if key in positions {
        if positions[key] < |assistant| {
          assistant := assistant[positions[key] := item];
        }
      } else {
        positions := positions[key := |assistant|];
        assistant := assistant + [item];
      }
    }

    method UpdateTool(e: Event)
      modifies this`tools, this`seen
      ensures Contents().timeline == OnTool(old(Contents()).timeline, e)
    {
      if !Named(e.itemId) || e.id in seen {
        return;
      }
      seen := seen + {e.id};
      var key := ItemKeyOf(e);
      if e.history && key in tools && ToolRank(e.kind) < ToolRank(tools[key].event) {
        return;
      }
      var before: Object := if key in tools then tools[key].fields else map[];
      tools := tools[key := Tool(before + e.data, e.sessionId, e.turnId, e.itemId.value, e.kind)];
    }

    method UpdateLive(e: Event)
      modifies this`turnId, this`busy, this`plan, this`subagents, this`requests
      ensures Contents().live == OnLive(old(Contents()).live, e)
    {
      match e.kind {
        case TurnStarted =>
          busy := true;
          turnId := e.turnId;
        case TurnCompleted =>
          busy := false;
          turnId := None;
        case TurnFailed =>
          busy := false;
          turnId := None;
        case PlanUpdated => plan := Some(e.data);
        case SubagentUpdated => subagents := ObjectsIn(ItemsOf(e.data, "agents"));
        case RequestOpened =>
          if Named(e.requestId) {
            requests := requests[e.requestId.value := e.data];
          }
        case RequestResolved =>
          if Named(e.requestId) {
            requests := requests - {e.requestId.value};
          }
        case _ =>
      }
    }

    method UpdateQueue(rd: Reader, e: Event)
      modifies this`queue
      ensures Contents().live == OnQueue(rd, old(Contents()).live, e)
    {
      match e.kind {
        case QueueItem(removed) =>
          queue := WithoutItem(rd, queue, QueueId(rd, e));
          if !removed {
            queue := queue + [Obj(e.data)];
            queue := SortQueue(rd, queue);
          }
        case QueueSnapshot => queue := ItemsOf(e.data, "items");
        case _ =>
      }
    }

    method ApplyRebind(rd: Reader, e: Event)
      requires Rebinds(e.kind)
      modifies this
      ensures Contents() == OnRebind(rd, old(Contents()), e)
    {
      match e.kind {
        case Hello => Greet(rd, e);
        case ChannelSnapshot => TakeSnapshot(rd, e);
        case BindingChanged => Rebind(rd, e);
      }
    }

    method ApplyEvent(rd: Reader, e: Event)
      modifies this
      ensures Contents() == ApplyOne(rd, old(Contents()), e)
    {
      if !e.isEvent {
        return;
      }
      var bound := IsBound(Binding(active, backend, epoch, sessionId), e);
      if Rebinds(e.kind) {
        ApplyRebind(rd, e);
      } else if IsReceipt(e.kind) {
        MergeReceipt(e);
      } else if IsQueue(e.kind) {
        if sessionId.None? || bound {
          UpdateQueue(rd, e);
        }
      } else if bound && IsSessionState(e.kind) {
        UpdateSession(e);
      } else if bound && e.kind.AssistantCompleted? {
        CompleteAssistant(e);
      } else if bound && IsTool(e.kind) {
        UpdateTool(e);
      } else if bound && !e.history {
        UpdateLive(e);
      }
    }

    /** False stands for the ProtocolError of a malformed history chunk. */
    method ApplyAny(rd: Reader, e: Event) returns (ok: bool)
      modifies this
      ensures Outcome(Contents(), ok) == Apply(rd, old(Contents()), e)
    {
      if !e.isEvent || !e.kind.HistoryChunk? {
        ApplyEvent(rd, e);
        return true;
      }
      var items := ItemsOf(e.data, "events");
      assert items[0..] == items;
      for i := 0 to |items|
        invariant ApplyChunk(rd, Contents(), e, items[i..]) == Apply(rd, old(Contents()), e)
      {
        assert items[i..][0] == items[i] && items[i..][1..] == items[i + 1..];
        var historic := Historic(rd, e, items[i]);
        if historic.None? {
          return false;
        }
        ApplyEvent(rd, historic.value);
      }
      return true;
    }
  }

  // ----- Isolation -----

  /** An event of another session than the one this client is bound to. */
  predicate Foreign(s: State, e: Event) {
    s.binding.sessionId.Some? && e.sessionId.Some? && e.sessionId != s.binding.sessionId && !Rebinds(e.kind)
  }

  lemma ForeignOneChangesNothing(rd: Reader, s: State, e: Event)
    requires Foreign(s, e)
    ensures ApplyOne(rd, s, e).(receipts := s.receipts) == s
    ensures InHistory(e.kind) ==> ApplyOne(rd, s, e) == s
  {
  }

  lemma {:induction false} ForeignChunkChangesNothing(rd: Reader, s: State, chunk: Event, items: seq<Json>)
    requires Foreign(s, chunk)
    ensures ApplyChunk(rd, s, chunk, items).state == s
    decreases |items|
  {
    if items != [] {
      match Historic(rd, chunk, items[0])
      case None =>
      case Some(e) =>
        ForeignOneChangesNothing(rd, s, e);
        ForeignChunkChangesNothing(rd, s, chunk, items[1..]);
    }
  }

  /** Once bound, an event of another session changes nothing but receipts. */
  lemma ForeignChangesOnlyReceipts(rd: Reader, s: State, e: Event)
    requires Foreign(s, e)
    ensures Apply(rd, s, e).state.(receipts := s.receipts) == s
    ensures ReceiptIn(e).None? ==> Apply(rd, s, e).state == s
  {
    if e.isEvent && e.kind.HistoryChunk? {
      ForeignChunkChangesNothing(rd, s, e, ItemsOf(e.data, "events"));
    } else {
      ForeignOneChangesNothing(rd, s, e);
    }
  }

  // ----- History chunks -----

  ghost predicate Advances(t: Timeline, t': Timeline) {
    && t.seen <= t'.seen
    && forall k :: k in t.tools ==> k in t'.tools && ToolRank(t'.tools[k].event) >= ToolRank(t.tools[k].event)
  }

  /** Only outputs, tools and the record of applied ids differ, and no tool went back in its lifecycle. */
  ghost predicate OnlyTimeline(s: State, s': State) {
    && s'.binding == s.binding && s'.live == s.live && s'.receipts == s.receipts
    && Advances(s.timeline, s'.timeline)
  }

  lemma HistoricOnlyTimeline(rd: Reader, s: State, e: Event)
    requires e.isEvent && e.history && InHistory(e.kind)
    ensures OnlyTimeline(s, ApplyOne(rd, s, e))
  {
  }

  lemma {:induction false} ChunkOnlyTimeline(rd: Reader, s: State, chunk: Event, items: seq<Json>)
    ensures OnlyTimeline(s, ApplyChunk(rd, s, chunk, items).state)
    decreases |items|
  {
    if items != [] {
      match Historic(rd, chunk, items[0])
      case None =>
      case Some(e) =>
        HistoricOnlyTimeline(rd, s, e);
        ChunkOnlyTimeline(rd, ApplyOne(rd, s, e), chunk, items[1..]);
    }
  }

  /**
   Any history chunk, malformed ones included, leaves turn, busy, plan, subagents, requests, settings,
   queue and receipts alone, and never lowers a tool's lifecycle rank.
   */
  lemma HistoryLeavesLiveState(rd: Reader, s: State, chunk: Event)
    requires chunk.isEvent && chunk.kind.HistoryChunk?
    ensures OnlyTimeline(s, Apply(rd, s, chunk).state)
  {
    ChunkOnlyTimeline(rd, s, chunk, ItemsOf(chunk.data, "events"));
  }

  // ----- Replay -----

  /** Would this historic event still change the state? */
  predicate Settled(s: State, e: Event) {
    (e.kind.AssistantCompleted? || (IsTool(e.kind) && Named(e.itemId))) && IsBound(s.binding, e) ==>
      e.id in s.timeline.seen
  }

  lemma SettledIsNoOp(rd: Reader, s: State, e: Event)
    requires e.isEvent && e.history && InHistory(e.kind)
    ensures Settled(s, e) ==> ApplyOne(rd, s, e) == s
    ensures Settled(ApplyOne(rd, s, e), e)
  {
  }

  /** Every event a chunk would apply has been applied before. */
  ghost predicate ChunkSettled(rd: Reader, s: State, chunk: Event, items: seq<Json>)
    decreases |items|
  {
    items == [] || Historic(rd, chunk, items[0]).None?
    || (Settled(s, Historic(rd, chunk, items[0]).value) && ChunkSettled(rd, s, chunk, items[1..]))
  }

  lemma {:induction false} SettledChunkIsNoOp(rd: Reader, s: State, chunk: Event, items: seq<Json>)
    requires ChunkSettled(rd, s, chunk, items)
    ensures ApplyChunk(rd, s, chunk, items).state == s
    decreases |items|
  {
    if items != [] && Historic(rd, chunk, items[0]).Some? {
      SettledIsNoOp(rd, s, Historic(rd, chunk, items[0]).value);
      SettledChunkIsNoOp(rd, s, chunk, items[1..]);
    }
  }

  lemma {:induction false} StaysSettled(rd: Reader, s: State, s': State, chunk: Event, items: seq<Json>)
    requires ChunkSettled(rd, s, chunk, items) && s.timeline.seen <= s'.timeline.seen && s'.binding == s.binding
    ensures ChunkSettled(rd, s', chunk, items)
    decreases |items|
  {
    if items != [] && Historic(rd, chunk, items[0]).Some? {
      StaysSettled(rd, s, s', chunk, items[1..]);
    }
  }

  lemma {:induction false} AppliedIsSettled(rd: Reader, s: State, chunk: Event, items: seq<Json>)
    ensures ChunkSettled(rd, ApplyChunk(rd, s, chunk, items).state, chunk, items)
    decreases |items|
  {
    if items != [] && Historic(rd, chunk, items[0]).Some? {
      var e := Historic(rd, chunk, items[0]).value;
      var next := ApplyOne(rd, s, e);
      HistoricOnlyTimeline(rd, s, e);
      SettledIsNoOp(rd, s, e);
      ChunkOnlyTimeline(rd, next, chunk, items[1..]);
      AppliedIsSettled(rd, next, chunk, items[1..]);
    }
  }

  lemma SeenGrows(rd: Reader, s: State, e: Event)
    requires !Rebinds(e.kind)
    ensures s.timeline.seen <= Apply(rd, s, e).state.timeline.seen && Apply(rd, s, e).state.binding == s.binding
  {
    if e.isEvent && e.kind.HistoryChunk? {
      ChunkOnlyTimeline(rd, s, e, ItemsOf(e.data, "events"));
    }
  }

  function Run(rd: Reader, s: State, events: seq<Event>): State
    decreases |events|
  {
    if events == [] then s else Apply(rd, Run(rd, s, events[..|events| - 1]), events[|events| - 1]).state
  }

  lemma {:induction false} RunKeepsSeen(rd: Reader, s: State, events: seq<Event>)
    requires forall i :: 0 <= i < |events| ==> !Rebinds(events[i].kind)
    ensures s.timeline.seen <= Run(rd, s, events).timeline.seen && Run(rd, s, events).binding == s.binding
    decreases |events|
  {
    if events != [] {
      var n := |events| - 1;
      RunKeepsSeen(rd, s, events[..n]);
      SeenGrows(rd, Run(rd, s, events[..n]), events[n]);
    }
  }

  /** Replaying a chunk that was applied, at once or after any events that do not rebind, changes nothing. */
  lemma ReplayIsNoOp(rd: Reader, s: State, chunk: Event, between: seq<Event>)
    requires chunk.isEvent && chunk.kind.HistoryChunk?
    requires forall i :: 0 <= i < |between| ==> !Rebinds(between[i].kind)
    ensures var later := Run(rd, Apply(rd, s, chunk).state, between);
      Apply(rd, later, chunk).state == later
  {
    var items := ItemsOf(chunk.data, "events");
    var applied := Apply(rd, s, chunk).state;
    AppliedIsSettled(rd, s, chunk, items);
    RunKeepsSeen(rd, applied, between);
    StaysSettled(rd, applied, Run(rd, applied, between), chunk, items);
    SettledChunkIsNoOp(rd, Run(rd, applied, between), chunk, items);
  }

  // ----- Output positions -----

  /** Every key has its own place in the list of outputs. */
  ghost predicate Injective(t: Timeline) {
    && (forall k :: k in t.positions ==> t.positions[k] < |t.assistant|)
    && (forall k, l :: k in t.positions && l in t.positions && k != l ==> t.positions[k] != t.positions[l])
  }

  lemma {:induction false} PositionsAreInjective(e: Event, items: seq<Object>)
    ensures forall k :: k in PositionsFrom(e, items) ==> PositionsFrom(e, items)[k] < |items|
    ensures forall k, l :: k in PositionsFrom(e, items) && l in PositionsFrom(e, items) && k != l ==>
              PositionsFrom(e, items)[k] != PositionsFrom(e, items)[l]
    decreases |items|
  {
    if items != [] {
      PositionsAreInjective(e, items[..|items| - 1]);
    }
  }

  lemma SessionKeepsInjective(s: State, e: Event)
    requires Injective(s.timeline)
    ensures Injective(OnSessionState(s, e).timeline)
  {
    PositionsAreInjective(e, ObjectsIn(ItemsOf(e.data, "recentOutputs")));
  }

  lemma AssistantKeepsInjective(t: Timeline, e: Event)
    requires Injective(t)
    ensures Injective(OnAssistant(t, e))
  {
  }

  lemma OneKeepsInjective(rd: Reader, s: State, e: Event)
    requires Injective(s.timeline)
    ensures Injective(ApplyOne(rd, s, e).timeline)
  {
    if IsSessionState(e.kind) {
      SessionKeepsInjective(s, e);
    } else if e.kind.AssistantCompleted? {
      AssistantKeepsInjective(s.timeline, e);
    } else {
      OthersKeepOutputs(rd, s, e);
    }
  }

  /** Other events keep the outputs and their positions, or clear both. */
  lemma OthersKeepOutputs(rd: Reader, s: State, e: Event)
    requires !IsSessionState(e.kind) && !e.kind.AssistantCompleted?
    ensures var t := ApplyOne(rd, s, e).timeline;
      (t.positions == s.timeline.positions && t.assistant == s.timeline.assistant) || t.positions == map[]
  {
  }

  lemma {:induction false} ChunkKeepsInjective(rd: Reader, s: State, chunk: Event, items: seq<Json>)
    requires Injective(s.timeline)
    ensures Injective(ApplyChunk(rd, s, chunk, items).state.timeline)
    decreases |items|
  {
    if items != [] {
      match Historic(rd, chunk, items[0])
      case None =>
      case Some(e) =>
        OneKeepsInjective(rd, s, e);
        ChunkKeepsInjective(rd, ApplyOne(rd, s, e), chunk, items[1..]);
    }
  }

  /** Over any run, from the initial state, output positions stay an injection into the list. */
  lemma {:induction false} RunKeepsInjective(rd: Reader, s: State, events: seq<Event>)
    requires Injective(s.timeline)
    ensures Injective(Run(rd, s, events).timeline)
    decreases |events|
  {
    if events != [] {
      var n := |events| - 1;
      var e, before := events[n], Run(rd, s, events[..n]);
      RunKeepsInjective(rd, s, events[..n]);
      if e.isEvent && e.kind.HistoryChunk? {
        ChunkKeepsInjective(rd, before, e, ItemsOf(e.data, "events"));
      } else {
        OneKeepsInjective(rd, before, e);
      }
    }
  }

  // ----- The queue -----

  ghost predicate InOrder(rd: Reader, items: seq<Json>) {
    forall i, j :: 0 <= i < j < |items| ==> rd.position(items[i]) <= rd.position(items[j])
  }

  /** The items at one position, in their order. */
  function At(rd: Reader, items: seq<Json>, position: int): seq<Json>
    decreases |items|
  {
    if items == [] then []
    else
      var n := |items| - 1;
      At(rd, items[..n], position) + (if rd.position(items[n]) == position then [items[n]] else [])
  }

  /** The same items at every position, in the same order. */
  ghost predicate SameAt(rd: Reader, a: seq<Json>, b: seq<Json>) {
    forall position :: At(rd, a, position) == At(rd, b, position)
  }

  lemma AtSnoc(rd: Reader, items: seq<Json>, x: Json, position: int)
    ensures At(rd, items + [x], position) == At(rd, items, position) + (if rd.position(x) == position then [x] else [])
  {
    assert (items + [x])[..|items|] == items;
  }

  lemma {:induction false} InsertKeepsOrder(rd: Reader, items: seq<Json>, x: Json)
    requires InOrder(rd, items)
    ensures var r := InsertSorted(rd, items, x);
      && InOrder(rd, r) && |r| == |items| + 1
      && forall i :: 0 <= i < |r| ==> r[i] in items || r[i] == x
    decreases |items|
  {
    if items != [] && rd.position(items[|items| - 1]) > rd.position(x) {
      InsertKeepsOrder(rd, items[..|items| - 1], x);
    }
  }

  lemma {:induction false} InsertAt(rd: Reader, items: seq<Json>, x: Json, position: int)
    requires InOrder(rd, items)
    ensures At(rd, InsertSorted(rd, items, x), position) == At(rd, items + [x], position)
    decreases |items|
  {
    AtSnoc(rd, items, x, position);
    if items == [] {
      assert InsertSorted(rd, items, x) == items + [x];
    } else if rd.position(items[|items| - 1]) > rd.position(x) {
      var n := |items| - 1;
      InsertAt(rd, items[..n], x, position);
      AtSnoc(rd, items[..n], x, position);
      AtSnoc(rd, InsertSorted(rd, items[..n], x), items[n], position);
    }
  }

  /** Sorting orders by position and keeps the order of items at the same position. */
  lemma {:induction false} SortedStably(rd: Reader, items: seq<Json>)
    ensures InOrder(rd, SortQueue(rd, items))
    ensures SameAt(rd, SortQueue(rd, items), items)
    decreases |items|
  {
    if items != [] {
      var n := |items| - 1;
      SortedStably(rd, items[..n]);
      InsertKeepsOrder(rd, SortQueue(rd, items[..n]), items[n]);
      forall position ensures At(rd, SortQueue(rd, items), position) == At(rd, items, position) {
        InsertAt(rd, SortQueue(rd, items[..n]), items[n], position);
        AtSnoc(rd, SortQueue(rd, items[..n]), items[n], position);
      }
    }
  }

  lemma LastIsThere(rd: Reader, items: seq<Json>)
    requires items != []
    ensures At(rd, items, rd.position(items[|items| - 1])) != []
  {
  }

  lemma LastIsHighest(rd: Reader, a: seq<Json>, b: seq<Json>)
    requires InOrder(rd, a) && InOrder(rd, b) && a != [] && b != []
    requires SameAt(rd, a, b)
    ensures rd.position(a[|a| - 1]) <= rd.position(b[|b| - 1])
  {
    var m := rd.position(a[|a| - 1]);
    assert At(rd, a, m) != [];
    AtIsThere(rd, b, m);
  }

  lemma {:induction false} AtIsThere(rd: Reader, items: seq<Json>, position: int)
    requires At(rd, items, position) != []
    ensures exists i :: 0 <= i < |items| && rd.position(items[i]) == position
    decreases |items|
  {
    var n := |items| - 1;
    if rd.position(items[n]) != position {
      AtIsThere(rd, items[..n], position);
      var i :| 0 <= i < |items[..n]| && rd.position(items[..n][i]) == position;
      assert items[i] == items[..n][i];
    }
  }

  lemma AtFront(rd: Reader, items: seq<Json>, position: int)
    requires items != []
    ensures var all, n := At(rd, items, position), |items| - 1;
      At(rd, items[..n], position) == if rd.position(items[n]) == position then all[..|all| - 1] else all
  {
  }

  /** Order and the items at each position leave nothing open. */
  lemma {:induction false} OneOrder(rd: Reader, a: seq<Json>, b: seq<Json>)
    requires InOrder(rd, a) && InOrder(rd, b)
    requires SameAt(rd, a, b)
    ensures a == b
    decreases |a|
  {
    if a == [] {
      if b != [] {
        LastIsThere(rd, b);
      }
    } else if b == [] {
      LastIsThere(rd, a);
    } else {
      var n := |a| - 1;
      var m := |b| - 1;
      LastIsHighest(rd, a, b);
      LastIsHighest(rd, b, a);
      var p := rd.position(a[n]);
      assert At(rd, a, p)[|At(rd, a, p)| - 1] == a[n] && At(rd, b, p)[|At(rd, b, p)| - 1] == b[m];
      forall position ensures At(rd, a[..n], position) == At(rd, b[..m], position) {
        AtFront(rd, a, position);
        AtFront(rd, b, position);
      }
      OneOrder(rd, a[..n], b[..m]);
      assert a == a[..n] + [a[n]] && b == b[..m] + [b[m]];
    }
  }

  /** So sorting is the stable sort: nothing else is ordered and keeps the items at every position in order. */
  lemma StableSortIff(rd: Reader, items: seq<Json>, r: seq<Json>)
    ensures r == SortQueue(rd, items) <==> InOrder(rd, r) && SameAt(rd, r, items)
  {
    SortedStably(rd, items);
    if InOrder(rd, r) && SameAt(rd, r, items) {
      OneOrder(rd, r, SortQueue(rd, items));
    }
  }

  lemma {:induction false} InsertedItems(rd: Reader, items: seq<Json>, x: Json)
    ensures multiset(InsertSorted(rd, items, x)) == multiset(items) + multiset{x}
    decreases |items|
  {
    if items != [] {
      var n := |items| - 1;
      assert items == items[..n] + [items[n]];
      if rd.position(items[n]) > rd.position(x) {
        InsertedItems(rd, items[..n], x);
      }
    }
  }

  lemma {:induction false} SortedItems(rd: Reader, items: seq<Json>)
    ensures multiset(SortQueue(rd, items)) == multiset(items)
    decreases |items|
  {
    if items != [] {
      var n := |items| - 1;
      assert items == items[..n] + [items[n]];
      SortedItems(rd, items[..n]);
      InsertedItems(rd, SortQueue(rd, items[..n]), items[n]);
    }
  }

  lemma {:induction false} WithoutItems(rd: Reader, items: seq<Json>, id: string, x: Json)
    ensures multiset(WithoutItem(rd, items, id))[x] == if HasId(rd, x, id) then 0 else multiset(items)[x]
  {
    if items != [] {
      assert items == [items[0]] + items[1..];
      WithoutItems(rd, items[1..], id, x);
    }
  }

  /** How often an entry is in the queue after an item event. */
  lemma QueueItemCounts(rd: Reader, queue: seq<Json>, e: Event, removed: bool, x: Json)
    ensures multiset(OnQueueItem(rd, queue, e, removed))[x]
         == (if HasId(rd, x, QueueId(rd, e)) then 0 else multiset(queue)[x])
           + (if !removed && x == Obj(e.data) then 1 else 0)
  {
    var rest := WithoutItem(rd, queue, QueueId(rd, e));
    WithoutItems(rd, queue, QueueId(rd, e), x);
    SortedItems(rd, rest + [Obj(e.data)]);
  }

  /** How many entries go by an id. */
  function CountId(rd: Reader, items: seq<Json>, id: string): nat
    decreases |items|
  {
    if items == [] then 0
    else CountId(rd, items[..|items| - 1], id) + if HasId(rd, items[|items| - 1], id) then 1 else 0
  }

  lemma CountSnoc(rd: Reader, items: seq<Json>, x: Json, id: string)
    ensures CountId(rd, items + [x], id) == CountId(rd, items, id) + if HasId(rd, x, id) then 1 else 0
  {
    assert (items + [x])[..|items|] == items;
  }

  lemma {:induction false} CountInserted(rd: Reader, items: seq<Json>, x: Json, id: string)
    ensures CountId(rd, InsertSorted(rd, items, x), id) == CountId(rd, items + [x], id)
    decreases |items|
  {
    CountSnoc(rd, items, x, id);
    if items == [] {
      assert InsertSorted(rd, items, x) == items + [x];
    } else if rd.position(items[|items| - 1]) > rd.position(x) {
      var n := |items| - 1;
      CountInserted(rd, items[..n], x, id);
      CountSnoc(rd, items[..n], x, id);
      CountSnoc(rd, InsertSorted(rd, items[..n], x), items[n], id);
    }
  }

  lemma {:induction false} CountSorted(rd: Reader, items: seq<Json>, id: string)
    ensures CountId(rd, SortQueue(rd, items), id) == CountId(rd, items, id)
    decreases |items|
  {
    if items != [] {
      var n := |items| - 1;
      CountSorted(rd, items[..n], id);
      CountInserted(rd, SortQueue(rd, items[..n]), items[n], id);
      CountSnoc(rd, SortQueue(rd, items[..n]), items[n], id);
    }
  }

  lemma {:induction false} NoneHasId(rd: Reader, items: seq<Json>, id: string)
    requires forall i :: 0 <= i < |items| ==> !HasId(rd, items[i], id)
    ensures CountId(rd, items, id) == 0
    decreases |items|
  {
    if items != [] {
      NoneHasId(rd, items[..|items| - 1], id);
    }
  }

  lemma {:induction false} WithoutHasNone(rd: Reader, items: seq<Json>, id: string)
    ensures forall i :: 0 <= i < |WithoutItem(rd, items, id)| ==> !HasId(rd, WithoutItem(rd, items, id)[i], id)
  {
    if items != [] {
      WithoutHasNone(rd, items[1..], id);
    }
  }

  /**
   After a removal no entry goes by the item's id; after any other item event exactly one does, provided
   the payload names the item the event names.
   */
  lemma OneEntryIff(rd: Reader, queue: seq<Json>, e: Event, removed: bool)
    ensures var n := CountId(rd, OnQueueItem(rd, queue, e, removed), QueueId(rd, e));
      if removed then n == 0 else n <= 1 && (n == 1 <==> HasId(rd, Obj(e.data), QueueId(rd, e)))
  {
    var id := QueueId(rd, e);
    var rest := WithoutItem(rd, queue, id);
    WithoutHasNone(rd, queue, id);
    NoneHasId(rd, rest, id);
    CountSnoc(rd, rest, Obj(e.data), id);
    CountSorted(rd, rest + [Obj(e.data)], id);
  }

  // ----- Receipts -----

  /** The receipts a run of events carries for one action, in order of arrival. */
  function ReceiptsFor(events: seq<Event>, action: string): seq<Receipt>
    decreases |events|
  {
    if events == [] then []
    else
      var n := |events| - 1;
      match ReceiptIn(events[n])
      case Some((a, r)) =>
        if a == action then ReceiptsFor(events[..n], action) + [r] else ReceiptsFor(events[..n], action)
      case None => ReceiptsFor(events[..n], action)
  }

  function Held(receipts: map<string, Receipt>, action: string): Option<Receipt> {
    if action in receipts then Some(receipts[action]) else None
  }

  function Kept(held: Option<Receipt>, r: Receipt): Option<Receipt> {
    if held.Some? && Rank(r) < Rank(held.value) then held else Some(r)
  }

  function Fold(held: Option<Receipt>, rs: seq<Receipt>): Option<Receipt>
    decreases |rs|
  {
    if rs == [] then held else Kept(Fold(held, rs[..|rs| - 1]), rs[|rs| - 1])
  }

  lemma OneMerges(rd: Reader, s: State, e: Event)
    ensures Apply(rd, s, e).state.receipts ==
      match ReceiptIn(e) case Some((a, r)) => Merge(s.receipts, a, r) case None => s.receipts
  {
    if e.isEvent && e.kind.HistoryChunk? {
      ChunkOnlyTimeline(rd, s, e, ItemsOf(e.data, "events"));
    }
  }

  /** Whatever else arrives, an action's receipt is the fold of its own live receipt events. */
  lemma {:induction false} RunFolds(rd: Reader, s: State, events: seq<Event>, action: string)
    ensures Held(Run(rd, s, events).receipts, action) == Fold(Held(s.receipts, action), ReceiptsFor(events, action))
    decreases |events|
  {
    if events != [] {
      var n := |events| - 1;
      RunFolds(rd, s, events[..n], action);
      var before := Run(rd, s, events[..n]);
      OneMerges(rd, before, events[n]);
      match ReceiptIn(events[n])
      case None =>
      case Some((a, r)) =>
        HeldMerge(before.receipts, a, r, action);
        FoldSnoc(Held(s.receipts, action), ReceiptsFor(events[..n], action), r);
    }
  }

  lemma HeldMerge(receipts: map<string, Receipt>, a: string, r: Receipt, action: string)
    ensures Held(Merge(receipts, a, r), action)
         == if a == action then Kept(Held(receipts, action), r) else Held(receipts, action)
  {
  }

  lemma FoldSnoc(held: Option<Receipt>, rs: seq<Receipt>, r: Receipt)
    ensures Fold(held, rs + [r]) == Kept(Fold(held, rs), r)
  {
    assert (rs + [r])[..|rs|] == rs;
  }

  /** Entry i is the result, and no later one reaches its rank. */
  ghost predicate Latest(rs: seq<Receipt>, i: nat, r: Option<Receipt>) {
    i < |rs| && r == Some(rs[i]) && forall j :: i < j < |rs| ==> Rank(rs[j]) < Rank(rs[i])
  }

  ghost predicate HighestRank(rs: seq<Receipt>, r: Option<Receipt>) {
    r.Some? && r.value in rs && forall i :: 0 <= i < |rs| ==> Rank(rs[i]) <= Rank(r.value)
  }

  /** The stored receipt is the latest one of the highest rank received, so its rank is the maximum. */
  lemma {:induction false} FoldIsLatestOfHighest(rs: seq<Receipt>) returns (i: nat)
    requires rs != []
    ensures Latest(rs, i, Fold(None, rs)) && HighestRank(rs, Fold(None, rs))
    decreases |rs|
  {
    var n := |rs| - 1;
    assert rs == rs[..n] + [rs[n]];
    if n == 0 {
      i := 0;
    } else {
      i := FoldIsLatestOfHighest(rs[..n]);
      if Rank(rs[n]) >= Rank(Fold(None, rs[..n]).value) {
        i := n;
      }
    }
  }

  predicate Terminal(r: Receipt) {
    Rank(r) == 2
  }

  /** All terminal receipts say the same. */
  ghost predicate TerminalsAgree(rs: seq<Receipt>) {
    forall r, q :: r in rs && q in rs && Terminal(r) && Terminal(q) ==> r.status == q.status
  }

  /** Two orders of the same receipts, possibly repeated differently. */
  ghost predicate SameReceipts(rs: seq<Receipt>, qs: seq<Receipt>) {
    forall r :: r in rs <==> r in qs
  }

  /** Every order with every duplication ends with this status. */
  ghost predicate AlwaysEndsWith(rs: seq<Receipt>, status: Status) {
    forall qs :: SameReceipts(rs, qs) ==> Fold(None, qs).Some? && Fold(None, qs).value.status == status
  }

  /** At the end there is one of the receipts, of a rank no other exceeds. */
  lemma HighestWins(rs: seq<Receipt>)
    requires rs != []
    ensures Fold(None, rs).Some? && Fold(None, rs).value in rs
    ensures forall r :: r in rs ==> Rank(r) <= Rank(Fold(None, rs).value)
  {
    var i := FoldIsLatestOfHighest(rs);
  }

  lemma LastTerminalWins(rs: seq<Receipt>, r: Receipt)
    requires Terminal(r)
    ensures Fold(None, rs + [r]) == Some(r)
  {
    assert (rs + [r])[..|rs|] == rs;
  }

  /**
   The final status is the same for every order and every duplication of the receipts exactly when
   the terminal ones among them agree; with none, the highest rank has one status only.
   */
  lemma ConvergesIff(rs: seq<Receipt>)
    requires rs != []
    ensures (exists status :: AlwaysEndsWith(rs, status)) <==> TerminalsAgree(rs)
  {
    if TerminalsAgree(rs) {
      HighestWins(rs);
      var best := Fold(None, rs).value;
      forall qs | SameReceipts(rs, qs) ensures Fold(None, qs).Some? && Fold(None, qs).value.status == best.status {
        assert best in qs;
        HighestWins(qs);
        assert Fold(None, qs).value in rs;
      }
      assert AlwaysEndsWith(rs, best.status);
    }
    if status :| AlwaysEndsWith(rs, status) {
      forall r | r in rs && Terminal(r) ensures r.status == status {
        assert SameReceipts(rs, rs + [r]);
        LastTerminalWins(rs, r);
      }
    }
  }

  /** Over live events, in terms of what the client stores for an action it had no receipt for. */
  lemma StoredRankIsHighest(rd: Reader, s: State, events: seq<Event>, action: string)
    requires action !in s.receipts && ReceiptsFor(events, action) != []
    ensures action in Run(rd, s, events).receipts
    ensures HighestRank(ReceiptsFor(events, action), Some(Run(rd, s, events).receipts[action]))
  {
    RunFolds(rd, s, events, action);
    var i := FoldIsLatestOfHighest(ReceiptsFor(events, action));
  }

  /** No event ever lowers a stored receipt's rank. */
  lemma RankNeverFalls(rd: Reader, s: State, e: Event, action: string)
    requires action in s.receipts
    ensures action in Apply(rd, s, e).state.receipts
      && Rank(Apply(rd, s, e).state.receipts[action]) >= Rank(s.receipts[action])
  {
    OneMerges(rd, s, e);
  }
}
