/**
 The prompt queue's life in the bridge: prompts queued while a session is busy, drains that
 deliver the head of a queue and may be overtaken at any await by rebinding, suspension, channel
 removal, edits, deletions and failures. Each step is one stretch of code between two awaits;
 a store transaction is one step.
 */
module Draining {
  import opened Common
  import PQ = PromptQueue

  type Channel = string

  /** A binding object; `serial` tells two bindings to one session apart. */
  datatype Binding = Binding(serial: nat, session: string)

  datatype Runtime = Runtime(activation: Option<nat>, binding: Option<Binding>, busy: bool, turn: Option<string>,
                             closing: bool)

  datatype Pc =
    | Listing                               // waiting for the store
    | Listed(head: Option<PQ.Prompt>)       // the store answered
    | Sending(item: PQ.Prompt)              // waiting for the backend
    | Removing(item: PQ.Prompt)             // accepted, not yet removed from the store

  /** A drain and what it captured. */
  datatype Drain = Drain(channel: Channel, identity: nat, binding: Binding, activation: nat, pc: Pc)

  /** A prompt on its way into the store. */
  datatype Entering = Entering(key: PQ.Key, id: string, text: string, limit: int)

  datatype Delivery = Delivery(id: string, session: string)

  /** Runtime objects by identity, and which one a channel has now. */
  datatype Bridge = Bridge(runtimes: map<nat, Runtime>, channels: map<Channel, nat>, closed: bool)

  /** The stored queues, and the record of what became of every prompt. */
  datatype Books = Books(
    queues: PQ.Queues,
    used: set<string>,                      // item ids ever used
    queued: map<string, PQ.Key>,            // every prompt ever stored, and where
    accepted: multiset<Delivery>,           // what backends accepted, and how often
    removed: set<string>)                   // deleted or cleared by request

  datatype State = State(bridge: Bridge, drains: map<nat, Drain>, entering: map<nat, Entering>, books: Books, next: nat)

  datatype Step =
    | StartDrain(channel: Channel)
    | ReadHead(task: nat)
    | Resume(task: nat)
    | SendOk(task: nat, turn: Option<string>)
    | SendLost(task: nat)
    | Fail(task: nat)
    | Remove(task: nat)
    | Abandon(task: nat)
    | StartEnqueue(channel: Channel, id: string, text: string, limit: int)
    | CommitEnqueue(task: nat, now: int)
    | Request(op: PQ.Op)
    | Rebind(runtime: nat, session: string, busy: bool, turn: Option<string>)
    | Detach(runtime: nat)
    | SetTurn(runtime: nat, busy: bool, turn: Option<string>)
    | SetActivation(runtime: nat, active: bool)
    | SetClosing(runtime: nat, closing: bool)
    | Install(channel: Channel)
    | Uninstall(channel: Channel)
    | Close

  function SetRuntime(s: State, identity: nat, r: Runtime): State {
    s.(bridge := s.bridge.(runtimes := s.bridge.runtimes[identity := r]))
  }

  function SetPc(s: State, task: nat, pc: Pc): State
    requires task in s.drains
  {
    s.(drains := s.drains[task := s.drains[task].(pc := pc)])
  }

  function EndDrain(s: State, task: nat): State {
    s.(drains := s.drains - {task})
  }

  /** The drain still belongs to its runtime's binding. */
  predicate Holds(s: State, d: Drain) {
    d.identity in s.bridge.runtimes && s.bridge.runtimes[d.identity].binding == Some(d.binding)
  }

  /** The runtime the drain captured is still its channel's, under the same activation. */
  predicate Current(s: State, d: Drain) {
    && !s.bridge.closed
    && d.channel in s.bridge.channels && s.bridge.channels[d.channel] == d.identity
    && d.identity in s.bridge.runtimes && s.bridge.runtimes[d.identity].activation == Some(d.activation)
  }

  /** Give the busy flag back, if the binding it was taken for is still there. */
  function Release(s: State, d: Drain): State {
    if Holds(s, d) then SetRuntime(s, d.identity, s.bridge.runtimes[d.identity].(busy := false)) else s
  }

  function Key(d: Drain): PQ.Key {
    PQ.Key(d.channel, d.binding.session)
  }

  // ----- Drain steps -----

  function DoStart(s: State, channel: Channel): State {
    if channel !in s.bridge.channels || s.bridge.channels[channel] !in s.bridge.runtimes then s
    else
      var identity := s.bridge.channels[channel];
      var r := s.bridge.runtimes[identity];
      if r.activation.None? || r.binding.None? || r.busy || r.closing then s
      else
        SetRuntime(s, identity, r.(busy := true))
        .(drains := s.drains[s.next := Drain(channel, identity, r.binding.value, r.activation.value, Listing)],
          next := s.next + 1)
  }

  function DoReadHead(s: State, task: nat): State {
    if task !in s.drains || !s.drains[task].pc.Listing? then s
    else
      var q := PQ.Q(s.books.queues, Key(s.drains[task]));
      SetPc(s, task, Listed(if q == [] then None else Some(q[0])))
  }

  function DoResume(s: State, task: nat): State {
    if task !in s.drains || !s.drains[task].pc.Listed? then s
    else
      var d := s.drains[task];
      if !Current(s, d) || !Holds(s, d) then EndDrain(Release(s, d), task)
      else if d.pc.head.None? then
        EndDrain(SetRuntime(s, d.identity, s.bridge.runtimes[d.identity].(busy := false)), task)
      else SetPc(s, task, Sending(d.pc.head.value))
  }

  function Accept(s: State, d: Drain): State
    requires d.pc.Sending?
  {
    s.(books := s.books.(accepted := s.books.accepted + multiset{Delivery(d.pc.item.id, d.binding.session)}))
  }

  function DoSendOk(s: State, task: nat, turn: Option<string>): State {
    if task !in s.drains || !s.drains[task].pc.Sending? then s
    else
      var d := s.drains[task];
      var s' := if Holds(s, d) then SetRuntime(s, d.identity, s.bridge.runtimes[d.identity].(turn := turn)) else s;
      Accept(SetPc(s', task, Removing(d.pc.item)), d)
  }

  /** The backend took the prompt, but its answer was lost or the wait was cancelled. */
  function DoSendLost(s: State, task: nat): State {
    if task !in s.drains || !s.drains[task].pc.Sending? then s
    else
      var d := s.drains[task];
      Accept(EndDrain(Release(s, d), task), d)
  }

  /** Any failure or cancellation while listing or sending. */
  function DoFail(s: State, task: nat): State {
    if task !in s.drains || s.drains[task].pc.Removing? then s
    else EndDrain(Release(s, s.drains[task]), task)
  }

  ghost function DoRemove(s: State, task: nat): State {
    if task !in s.drains || !s.drains[task].pc.Removing? then s
    else
      var after := PQ.Step(s.books.queues, PQ.Op.Delete(s.drains[task].pc.item.id));
      EndDrain(s, task).(books := s.books.(queues := after))
  }

  /** Cancelled after the backend accepted, before the store removed the item. */
  function DoAbandon(s: State, task: nat): State {
    if task in s.drains && s.drains[task].pc.Removing? then EndDrain(s, task)
    else s.(entering := s.entering - {task})
  }

  // ----- Queue steps -----

  /** A prompt for a busy session, with an id never used before, sets out for the store. */
  function DoStartEnqueue(s: State, channel: Channel, id: string, text: string, limit: int): State {
    if channel !in s.bridge.channels || s.bridge.channels[channel] !in s.bridge.runtimes || id in s.books.used then s
    else
      var r := s.bridge.runtimes[s.bridge.channels[channel]];
      if r.binding.None? || !r.busy then s
      else
        var e := Entering(PQ.Key(channel, r.binding.value.session), id, text, limit);
        s.(entering := s.entering[s.next := e], next := s.next + 1, books := s.books.(used := s.books.used + {id}))
  }

  ghost function DoCommitEnqueue(s: State, task: nat, now: int): State {
    if task !in s.entering then s
    else
      var e := s.entering[task];
      var after := PQ.Step(s.books.queues, PQ.Op.Add(PQ.Prompt(e.id, e.text, now), e.key, e.limit));
      var queued := if PQ.Holds(after, e.key, e.id) then s.books.queued[e.id := e.key] else s.books.queued;
      s.(entering := s.entering - {task}, books := s.books.(queues := after, queued := queued))
  }

  /** The ids a request takes out of the store. */
  ghost function Taken(qs: PQ.Queues, op: PQ.Op, queued: map<string, PQ.Key>): set<string> {
    match op
    case Delete(id) => if PQ.Stored(qs, id) then {id} else {}
    case Clear(k) => set id | id in queued && PQ.Holds(qs, k, id)
    case _ => {}
  }

  /** An owner's edit, move, deletion or clearing, or the clearing of a released session. */
  ghost function DoRequest(s: State, op: PQ.Op): State {
    if op.Add? then s
    else
      s.(books := s.books.(queues := PQ.Step(s.books.queues, op),
                           removed := s.books.removed + Taken(s.books.queues, op, s.books.queued)))
  }

  // ----- Everything else that may happen to a channel -----

  /** A write to a runtime object, which may have been captured before its channel was removed. */
  function OnRuntime(s: State, runtime: nat, r: Runtime -> Runtime): State {
    if runtime !in s.bridge.runtimes then s else SetRuntime(s, runtime, r(s.bridge.runtimes[runtime]))
  }

  /** Attaching makes a new binding object, also for the same session. */
  function DoRebind(s: State, runtime: nat, session: string, busy: bool, turn: Option<string>): State {
    OnRuntime(s, runtime, (r: Runtime) => r.(binding := Some(Binding(s.next, session)), busy := busy, turn := turn))
    .(next := s.next + 1)
  }

  function DoInstall(s: State, channel: Channel): State {
    if channel in s.bridge.channels then s
    else
      s.(bridge := s.bridge.(channels := s.bridge.channels[channel := s.next],
                             runtimes := s.bridge.runtimes[s.next := Runtime(None, None, false, None, false)]),
         next := s.next + 1)
  }

  ghost function Do(s: State, step: Step): State {
    match step
    case StartDrain(channel) => DoStart(s, channel)
    case ReadHead(task) => DoReadHead(s, task)
    case Resume(task) => DoResume(s, task)
    case SendOk(task, turn) => DoSendOk(s, task, turn)
    case SendLost(task) => DoSendLost(s, task)
    case Fail(task) => DoFail(s, task)
    case Remove(task) => DoRemove(s, task)
    case Abandon(task) => DoAbandon(s, task)
    case StartEnqueue(channel, id, text, limit) => DoStartEnqueue(s, channel, id, text, limit)
    case CommitEnqueue(task, now) => DoCommitEnqueue(s, task, now)
    case Request(op) => DoRequest(s, op)
    case Rebind(runtime, session, busy, turn) => DoRebind(s, runtime, session, busy, turn)
    case Detach(runtime) => OnRuntime(s, runtime, (r: Runtime) => r.(binding := None, busy := false, turn := None))
    case SetTurn(runtime, busy, turn) => OnRuntime(s, runtime, (r: Runtime) => r.(busy := busy, turn := turn))
    case SetActivation(runtime, active) =>
      OnRuntime(s, runtime, (r: Runtime) => r.(activation := if active then Some(s.next) else None))
      .(next := s.next + 1)
    case SetClosing(runtime, closing) => OnRuntime(s, runtime, (r: Runtime) => r.(closing := closing))
    case Install(channel) => DoInstall(s, channel)
    case Uninstall(channel) => s.(bridge := s.bridge.(channels := s.bridge.channels - {channel}))
    case Close => s.(bridge := s.bridge.(closed := true))
  }

  const START := State(Bridge(map[], map[], false), map[], map[], Books(map[], {}, map[], multiset{}, {}), 0)

  ghost function Run(s: State, steps: seq<Step>): State
    decreases |steps|
  {
    if steps == [] then s else Do(Run(s, steps[..|steps| - 1]), steps[|steps| - 1])
  }

  // ----- What the store's operations do to who is stored -----

  lemma Has(q: seq<PQ.Prompt>, id: string)
    ensures PQ.IndexOf(q, id) < |q| <==> exists i :: 0 <= i < |q| && q[i].id == id
  {
  }

  ghost predicate In(q: seq<PQ.Prompt>, id: string) {
    exists i :: 0 <= i < |q| && q[i].id == id
  }

  lemma InAppended(q: seq<PQ.Prompt>, p: PQ.Prompt, id: string)
    ensures In(q + [p], id) <==> In(q, id) || p.id == id
  {
    if In(q, id) {
      var i :| 0 <= i < |q| && q[i].id == id;
      assert (q + [p])[i].id == id;
    }
    assert (q + [p])[|q|] == p;
  }

  lemma InEdited(q: seq<PQ.Prompt>, id: string, text: string, x: string)
    ensures In(PQ.Edited(q, id, text), x) <==> In(q, x)
  {
    var e := PQ.Edited(q, id, text);
    assert |e| == |q| && forall i :: 0 <= i < |q| ==> e[i].id == q[i].id;
    if In(q, x) {
      var i :| 0 <= i < |q| && q[i].id == x;
      assert e[i].id == x;
    }
  }

  lemma InWithout(q: seq<PQ.Prompt>, id: string, x: string)
    ensures In(PQ.Without(q, id), x) ==> In(q, x)
    ensures In(q, x) && x != id ==> In(PQ.Without(q, id), x)
  {
    var w, n := PQ.Without(q, id), PQ.IndexOf(q, id);
    if n < |q| {
      if In(w, x) {
        var i :| 0 <= i < |w| && w[i].id == x;
        assert q[if i < n then i else i + 1].id == x;
      }
      if In(q, x) && x != id {
        var i :| 0 <= i < |q| && q[i].id == x;
        assert w[if i < n then i else i - 1].id == x;
      }
    }
  }

  lemma InInserted(q: seq<PQ.Prompt>, n: nat, p: PQ.Prompt, x: string)
    requires n <= |q|
    ensures In(PQ.InsertAt(q, n, p), x) <==> In(q, x) || p.id == x
  {
    var m := PQ.InsertAt(q, n, p);
    if In(q, x) {
      var i :| 0 <= i < |q| && q[i].id == x;
      assert m[if i < n then i else i + 1].id == x;
    }
    if In(m, x) {
      var i :| 0 <= i < |m| && m[i].id == x;
      assert i == n || q[if i < n then i else i - 1].id == x;
    }
    assert m[n] == p;
  }

  lemma InMoved(q: seq<PQ.Prompt>, id: string, position: int, x: string)
    requires PQ.IndexOf(q, id) < |q|
    ensures In(PQ.Moved(q, id, position), x) <==> In(q, x)
  {
    var rest := PQ.Without(q, id);
    InWithout(q, id, x);
    InInserted(rest, PQ.Clamp(position, |rest|), q[PQ.IndexOf(q, id)], x);
    assert In(q, id) by {
      assert q[PQ.IndexOf(q, id)].id == id;
    }
  }

  lemma InApplied(q: seq<PQ.Prompt>, op: PQ.Op, x: string)
    ensures In(PQ.Applied(q, op), x) ==> In(q, x) || (op.Add? && op.item.id == x)
    ensures In(q, x) && !(op.Delete? && op.id == x) && !op.Clear? ==> In(PQ.Applied(q, op), x)
  {
    match op
    case Add(item, _, _) => InAppended(q, item, x);
    case Edit(id, text) => InEdited(q, id, text, x);
    case Delete(id) => InWithout(q, id, x);
    case Clear(_) =>
    case Move(id, position) =>
      if PQ.IndexOf(q, id) < |q| {
        InMoved(q, id, position, x);
      }
  }

  /** A store operation adds only what it was given, and takes out only what it names. */
  lemma StoredAfter(qs: PQ.Queues, op: PQ.Op, k: PQ.Key, x: string)
    ensures PQ.Holds(PQ.Step(qs, op), k, x) ==> PQ.Holds(qs, k, x) || (op.Add? && op.key == k && op.item.id == x)
    ensures PQ.Holds(qs, k, x) && !(op.Delete? && op.id == x) && !(op.Clear? && op.key == k) ==>
      PQ.Holds(PQ.Step(qs, op), k, x)
  {
    PQ.StepOnOne(qs, op, k);
    Has(PQ.Q(qs, k), x);
    Has(PQ.Q(PQ.Step(qs, op), k), x);
    InApplied(PQ.Q(qs, k), op, x);
  }

  // ----- Conservation and affinity -----

  /** A queued prompt is still stored where it was queued, or was accepted for that session, or removed on request. */
  ghost predicate Accounted(s: State, id: string)
    requires id in s.books.queued
  {
    || PQ.Holds(s.books.queues, s.books.queued[id], id)
    || Delivery(id, s.books.queued[id].session) in s.books.accepted
    || id in s.books.removed
  }

  /** The prompt a drain carries was queued where the drain belongs. */
  ghost predicate Carried(s: State, d: Drain) {
    match d.pc
    case Listing => true
    case Listed(head) => head.Some? ==> head.value.id in s.books.queued && s.books.queued[head.value.id] == Key(d)
    case Sending(item) => item.id in s.books.queued && s.books.queued[item.id] == Key(d)
    case Removing(item) =>
      && item.id in s.books.queued && s.books.queued[item.id] == Key(d)
      && Delivery(item.id, d.binding.session) in s.books.accepted
  }

  ghost predicate Inv(s: State) {
    && (forall id :: id in s.books.queued ==> Accounted(s, id))
    && (forall k, id :: PQ.Holds(s.books.queues, k, id) ==> id in s.books.queued && s.books.queued[id] == k)
    && (forall a :: a in s.books.accepted ==> a.id in s.books.queued && s.books.queued[a.id].session == a.session)
    && (forall t :: t in s.drains ==> Carried(s, s.drains[t]))
    && (forall t :: t in s.entering ==> s.entering[t].id in s.books.used && s.entering[t].id !in s.books.queued)
    && (forall t, u :: t in s.entering && u in s.entering && t != u ==> s.entering[t].id != s.entering[u].id)
    && s.books.queued.Keys <= s.books.used
  }

  /** Nothing about prompts differs, only runtimes and drains. */
  ghost predicate SameStore(s: State, s': State) {
    s'.books == s.books && s'.entering == s.entering
  }

  lemma SameStoreKeeps(s: State, s': State)
    requires Inv(s) && SameStore(s, s')
    requires forall t :: t in s'.drains ==> (t in s.drains && s'.drains[t] == s.drains[t]) || Carried(s', s'.drains[t])
    ensures Inv(s')
  {
    forall t | t in s'.drains ensures Carried(s', s'.drains[t]) {
      assert t in s.drains && s'.drains[t] == s.drains[t] ==> Carried(s, s.drains[t]);
    }
    forall id | id in s'.books.queued ensures Accounted(s', id) {
      assert Accounted(s, id);
    }
  }

  /** A backend accepts a prompt that a drain carries. */
  lemma AcceptKeeps(s: State, s': State, d: Drain, item: PQ.Prompt)
    requires Inv(s) && Carried(s, d) && d.pc == Sending(item)
    requires s'.entering == s.entering
    requires s'.books == s.books.(accepted := s.books.accepted + multiset{Delivery(item.id, d.binding.session)})
    requires forall t :: t in s'.drains ==>
      (t in s.drains && s'.drains[t] == s.drains[t]) || s'.drains[t] == d.(pc := Removing(item))
    ensures Inv(s')
  {
    forall t | t in s'.drains ensures Carried(s', s'.drains[t]) {
      assert t in s.drains && s'.drains[t] == s.drains[t] ==> Carried(s, s.drains[t]);
    }
    forall id | id in s'.books.queued ensures Accounted(s', id) {
      assert Accounted(s, id);
    }
  }

  /** A store operation that takes out only what was accepted, or is recorded as removed. */
  lemma StoreKeeps(s: State, s': State, op: PQ.Op, gone: set<string>)
    requires Inv(s) && !op.Add?
    requires s'.entering == s.entering
    requires s'.books == s.books.(queues := PQ.Step(s.books.queues, op), removed := s.books.removed + gone)
    requires forall t :: t in s'.drains ==> t in s.drains && s'.drains[t] == s.drains[t]
    requires op.Delete? && PQ.Stored(s.books.queues, op.id) ==>
      op.id in gone || (exists session :: Delivery(op.id, session) in s.books.accepted)
    requires op.Clear? ==> forall id :: id in s.books.queued && PQ.Holds(s.books.queues, op.key, id) ==> id in gone
    ensures Inv(s')
  {
    forall id | id in s'.books.queued ensures Accounted(s', id) {
      assert Accounted(s, id);
      var k := s.books.queued[id];
      StoredAfter(s.books.queues, op, k, id);
      if PQ.Holds(s.books.queues, k, id) && op.Delete? && op.id == id {
        assert PQ.Stored(s.books.queues, id);
      }
    }
    forall k, id | PQ.Holds(s'.books.queues, k, id) ensures id in s'.books.queued && s'.books.queued[id] == k {
      StoredAfter(s.books.queues, op, k, id);
    }
    forall t | t in s'.drains ensures Carried(s', s'.drains[t]) {
      assert Carried(s, s.drains[t]);
    }
  }

  lemma RequestKeeps(s: State, op: PQ.Op)
    requires Inv(s)
    ensures Inv(DoRequest(s, op))
  {
    if !op.Add? {
      StoreKeeps(s, DoRequest(s, op), op, Taken(s.books.queues, op, s.books.queued));
    }
  }

  lemma RemoveKeeps(s: State, task: nat)
    requires Inv(s)
    ensures Inv(DoRemove(s, task))
  {
    if task in s.drains && s.drains[task].pc.Removing? {
      var d := s.drains[task];
      assert Carried(s, d);
      assert Delivery(d.pc.item.id, d.binding.session) in s.books.accepted;
      StoreKeeps(s, DoRemove(s, task), PQ.Op.Delete(d.pc.item.id), {});
    }
  }

  lemma CommitKeeps(s: State, task: nat, now: int)
    requires Inv(s)
    ensures Inv(DoCommitEnqueue(s, task, now))
  {
    if task in s.entering {
      var e, s' := s.entering[task], DoCommitEnqueue(s, task, now);
      var op := PQ.Op.Add(PQ.Prompt(e.id, e.text, now), e.key, e.limit);
      forall k, id | PQ.Holds(s'.books.queues, k, id) ensures id in s'.books.queued && s'.books.queued[id] == k {
        StoredAfter(s.books.queues, op, k, id);
      }
      forall id | id in s'.books.queued ensures Accounted(s', id) {
        if id in s.books.queued {
          assert Accounted(s, id);
          StoredAfter(s.books.queues, op, s.books.queued[id], id);
        }
      }
      forall t | t in s'.drains ensures Carried(s', s'.drains[t]) {
        assert Carried(s, s.drains[t]);
      }
    }
  }

  lemma ReadHeadKeeps(s: State, task: nat)
    requires Inv(s)
    ensures Inv(DoReadHead(s, task))
  {
    if task in s.drains && s.drains[task].pc.Listing? {
      var s', q := DoReadHead(s, task), PQ.Q(s.books.queues, Key(s.drains[task]));
      if q != [] {
        assert PQ.IndexOf(q, q[0].id) == 0;
        assert PQ.Holds(s.books.queues, Key(s.drains[task]), q[0].id);
      }
      assert Carried(s', s'.drains[task]);
      SameStoreKeeps(s, s');
    }
  }

  lemma ResumeKeeps(s: State, task: nat)
    requires Inv(s)
    ensures Inv(DoResume(s, task))
  {
    if task in s.drains && s.drains[task].pc.Listed? {
      var s' := DoResume(s, task);
      assert Carried(s, s.drains[task]);
      assert task in s'.drains ==> s'.drains[task] == s.drains[task].(pc := Sending(s.drains[task].pc.head.value));
      assert SameStore(s, s');
      SameStoreKeeps(s, s');
    }
  }

  lemma SendOkKeeps(s: State, task: nat, turn: Option<string>)
    requires Inv(s)
    ensures Inv(DoSendOk(s, task, turn))
  {
    if task in s.drains && s.drains[task].pc.Sending? {
      assert Carried(s, s.drains[task]);
      AcceptKeeps(s, DoSendOk(s, task, turn), s.drains[task], s.drains[task].pc.item);
    }
  }

  lemma SendLostKeeps(s: State, task: nat)
    requires Inv(s)
    ensures Inv(DoSendLost(s, task))
  {
    if task in s.drains && s.drains[task].pc.Sending? {
      assert Carried(s, s.drains[task]);
      AcceptKeeps(s, DoSendLost(s, task), s.drains[task], s.drains[task].pc.item);
    }
  }

  lemma StartEnqueueKeeps(s: State, channel: Channel, id: string, text: string, limit: int)
    requires Inv(s) && Numbered(s)
    ensures Inv(DoStartEnqueue(s, channel, id, text, limit))
  {
    var s' := DoStartEnqueue(s, channel, id, text, limit);
    forall t | t in s'.drains ensures Carried(s', s'.drains[t]) {
      assert Carried(s, s.drains[t]);
    }
    forall x | x in s'.books.queued ensures Accounted(s', x) {
      assert Accounted(s, x);
    }
  }

  lemma AbandonKeeps(s: State, task: nat)
    requires Inv(s)
    ensures Inv(DoAbandon(s, task))
  {
    if task in s.drains && s.drains[task].pc.Removing? {
      SameStoreKeeps(s, DoAbandon(s, task));
    } else {
      FewerEntering(s, DoAbandon(s, task));
    }
  }

  lemma FewerEntering(s: State, s': State)
    requires Inv(s) && s' == s.(entering := s'.entering)
    requires forall t :: t in s'.entering ==> t in s.entering && s'.entering[t] == s.entering[t]
    ensures Inv(s')
  {
    forall t | t in s'.drains ensures Carried(s', s'.drains[t]) {
      assert Carried(s, s.drains[t]);
    }
    forall x | x in s'.books.queued ensures Accounted(s', x) {
      assert Accounted(s, x);
    }
  }

  /** Serials and task numbers are given out once. */
  ghost predicate Numbered(s: State) {
    RuntimesNumbered(s) && DrainsNumbered(s) && (forall t :: t in s.entering ==> t < s.next)
  }

  ghost predicate RuntimesNumbered(s: State) {
    && (forall i :: i in s.bridge.runtimes ==> i < s.next)
    && (forall i :: i in s.bridge.runtimes && s.bridge.runtimes[i].binding.Some? ==>
          s.bridge.runtimes[i].binding.value.serial < s.next)
    && (forall c :: c in s.bridge.channels ==> s.bridge.channels[c] < s.next)
  }

  ghost predicate DrainsNumbered(s: State) {
    forall t :: t in s.drains ==> t < s.next && s.drains[t].identity < s.next && s.drains[t].binding.serial < s.next
  }

  /** The drain whose step this is. */
  function DrainOf(step: Step): Option<nat> {
    match step
    case ReadHead(task) => Some(task)
    case Resume(task) => Some(task)
    case SendOk(task, _) => Some(task)
    case SendLost(task) => Some(task)
    case Fail(task) => Some(task)
    case Remove(task) => Some(task)
    case Abandon(task) => Some(task)
    case _ => None
  }

  /** Bindings stay, go, or come with a new serial; channels keep or lose their runtime, or get a new one. */
  ghost predicate BindingsFrom(s: State, s': State) {
    && s.next <= s'.next
    && (forall i :: i in s'.bridge.runtimes ==> i in s.bridge.runtimes || s.next <= i < s'.next)
    && (forall i :: i in s'.bridge.runtimes && s'.bridge.runtimes[i].binding.Some? ==>
          (i in s.bridge.runtimes && s'.bridge.runtimes[i].binding == s.bridge.runtimes[i].binding)
          || s.next <= s'.bridge.runtimes[i].binding.value.serial < s'.next)
    && (forall c :: c in s'.bridge.channels ==>
          || (c in s.bridge.channels && s'.bridge.channels[c] == s.bridge.channels[c])
          || s.next <= s'.bridge.channels[c] < s'.next)
  }

  /** Tasks keep what they captured; a new one captures what is there. */
  ghost predicate TasksFrom(s: State, s': State) {
    && (forall t :: t in s'.drains ==>
          || (t in s.drains && s'.drains[t] == s.drains[t].(pc := s'.drains[t].pc))
          || (s.next <= t < s'.next && s'.drains[t].identity in s.bridge.runtimes
              && s.bridge.runtimes[s'.drains[t].identity].binding == Some(s'.drains[t].binding)))
    && (forall t :: t in s'.entering ==> t in s.entering || s.next <= t < s'.next)
  }

  lemma ChannelStepFrame(s: State, step: Step)
    requires IsChannelStep(step)
    ensures BindingsFrom(s, Do(s, step))
  {
    if step.Rebind? {
      RebindFrame(s, step.runtime, step.session, step.busy, step.turn);
    }
  }

  lemma RebindFrame(s: State, runtime: nat, session: string, busy: bool, turn: Option<string>)
    ensures BindingsFrom(s, DoRebind(s, runtime, session, busy, turn))
  {
  }

  lemma ChannelStepTasks(s: State, step: Step)
    requires IsChannelStep(step)
    ensures Do(s, step).drains == s.drains && SameStore(s, Do(s, step))
  {
  }

  lemma StoreStepFrame(s: State, step: Step)
    requires step.StartEnqueue? || step.CommitEnqueue? || step.Request?
    ensures BindingsFrom(s, Do(s, step)) && TasksFrom(s, Do(s, step))
  {
  }

  lemma StartFrame(s: State, channel: Channel)
    ensures BindingsFrom(s, DoStart(s, channel)) && TasksFrom(s, DoStart(s, channel))
  {
  }

  /** Drain steps set flags and turns of one runtime at most, never a binding. */
  ghost predicate SameBindings(b: Bridge, b': Bridge) {
    && b'.channels == b.channels && b'.runtimes.Keys == b.runtimes.Keys
    && forall i :: i in b.runtimes ==> b'.runtimes[i].binding == b.runtimes[i].binding
  }

  /** And they leave other tasks alone. */
  ghost predicate FewerTasks(s: State, s': State) {
    && s'.next == s.next
    && (forall t :: t in s'.drains ==> t in s.drains && s'.drains[t] == s.drains[t].(pc := s'.drains[t].pc))
    && (forall t :: t in s'.entering ==> t in s.entering)
  }

  lemma ReleaseFrame(s: State, d: Drain)
    ensures SameBindings(s.bridge, Release(s, d).bridge) && Release(s, d) == s.(bridge := Release(s, d).bridge)
  {
  }

  lemma DrainBindings(s: State, step: Step)
    requires DrainOf(step).Some?
    ensures SameBindings(s.bridge, Do(s, step).bridge)
  {
    if DrainOf(step).value in s.drains {
      ReleaseFrame(s, s.drains[DrainOf(step).value]);
    }
  }

  lemma DrainTasks(s: State, step: Step)
    requires DrainOf(step).Some?
    ensures FewerTasks(s, Do(s, step))
  {
  }

  lemma StepFrame(s: State, step: Step)
    ensures BindingsFrom(s, Do(s, step)) && TasksFrom(s, Do(s, step))
  {
    if IsChannelStep(step) {
      ChannelStepFrame(s, step);
      ChannelStepTasks(s, step);
    } else if step.StartDrain? {
      StartFrame(s, step.channel);
    } else if DrainOf(step).Some? {
      DrainBindings(s, step);
      DrainTasks(s, step);
    } else {
      StoreStepFrame(s, step);
    }
  }

  lemma FrameNumbers(s: State, s': State)
    requires Numbered(s) && BindingsFrom(s, s') && TasksFrom(s, s')
    ensures Numbered(s')
  {
  }

  lemma StepNumbers(s: State, step: Step)
    requires Numbered(s)
    ensures Numbered(Do(s, step))
  {
    StepFrame(s, step);
    FrameNumbers(s, Do(s, step));
  }

  lemma StartKeeps(s: State, channel: Channel)
    requires Inv(s)
    ensures Inv(DoStart(s, channel))
  {
    SameStoreKeeps(s, DoStart(s, channel));
  }

  lemma FailKeeps(s: State, task: nat)
    requires Inv(s)
    ensures Inv(DoFail(s, task))
  {
    SameStoreKeeps(s, DoFail(s, task));
  }

  /** Steps about channels and their runtimes only. */
  predicate IsChannelStep(step: Step) {
    || step.Rebind? || step.Detach? || step.SetTurn? || step.SetActivation? || step.SetClosing? || step.Install?
    || step.Uninstall? || step.Close?
  }

  lemma ChannelStepKeeps(s: State, step: Step)
    requires Inv(s) && IsChannelStep(step)
    ensures Inv(Do(s, step))
  {
    ChannelStepTasks(s, step);
    SameStoreKeeps(s, Do(s, step));
  }

  lemma StepKeeps(s: State, step: Step)
    requires Inv(s) && Numbered(s)
    ensures Inv(Do(s, step))
  {
    match step
    case StartDrain(channel) => StartKeeps(s, channel);
    case ReadHead(task) => ReadHeadKeeps(s, task);
    case Resume(task) => ResumeKeeps(s, task);
    case SendOk(task, turn) => SendOkKeeps(s, task, turn);
    case SendLost(task) => SendLostKeeps(s, task);
    case Fail(task) => FailKeeps(s, task);
    case Remove(task) => RemoveKeeps(s, task);
    case Abandon(task) => AbandonKeeps(s, task);
    case StartEnqueue(channel, id, text, limit) => StartEnqueueKeeps(s, channel, id, text, limit);
    case CommitEnqueue(task, now) => CommitKeeps(s, task, now);
    case Request(op) => RequestKeeps(s, op);
    case _ => ChannelStepKeeps(s, step);
  }
}
