/**
 A keyed "newest wins" rate limiter. It serves observed session status, keyed by session, and
 subagent lists, keyed by channel. Each stretch between awaits is one atomic step; a flush task
 that was cancelled never runs again, and a sleeping one never wakes before its deadline.
 */
module Coalescing {
  import opened Common
  import Json

  type Key = string

  type Payload = Json.Object

  /** A payload and when it was sent. */
  datatype Sent = Sent(payload: Payload, at: real)

  datatype Waiting = Waiting(payload: Payload, task: nat)

  /** A sleeping flush task. */
  datatype Flush = Flush(key: Key, deadline: real)

  datatype State = State(last: map<Key, Sent>, pending: map<Key, Waiting>, tasks: map<nat, Flush>, next: nat)

  /** The new state, and what the step sends. */
  datatype Outcome = Outcome(state: State, sent: Option<Payload>)

  function Find<V>(m: map<Key, V>, k: Key): Option<V> {
    if k in m then Some(m[k]) else None
  }

  /** What the client sees, once nothing waits any more. */
  function Visible(s: State, k: Key): Option<Payload> {
    if k in s.pending then Some(s.pending[k].payload)
    else if k in s.last then Some(s.last[k].payload) else None
  }

  function Offered(s: State, k: Key, data: Payload, now: real, window: real): Outcome {
    if Visible(s, k) == Some(data) then Outcome(s, None)
    else if k in s.pending then
      if k in s.last && s.last[k].payload == data
      then Outcome(s.(pending := s.pending - {k}, tasks := s.tasks - {s.pending[k].task}), None)
      else Outcome(s.(pending := s.pending[k := s.pending[k].(payload := data)]), None)
    else if k in s.last && now - s.last[k].at < window then
      Outcome(s.(pending := s.pending[k := Waiting(data, s.next)],
                 tasks := s.tasks[s.next := Flush(k, now + (window - (now - s.last[k].at)))], next := s.next + 1), None)
    else Outcome(s.(last := s.last[k := Sent(data, now)]), Some(data))
  }

  /** A flush task wakes up; before its deadline, or once cancelled, it cannot. */
  function Fired(s: State, task: nat, now: real): Outcome {
    if task !in s.tasks || now < s.tasks[task].deadline then Outcome(s, None)
    else
      var k := s.tasks[task].key;
      var awake := s.(tasks := s.tasks - {task});
      if k !in s.pending then Outcome(awake, None)
      else
        var data := s.pending[k].payload;
        Outcome(awake.(pending := s.pending - {k}, last := s.last[k := Sent(data, now)]), Some(data))
  }

  /** Rebinding: cancel what waits and forget what was sent. */
  function Cleared(s: State, k: Key): State {
    State(s.last - {k}, s.pending - {k}, if k in s.pending then s.tasks - {s.pending[k].task} else s.tasks, s.next)
  }

  class Coalescer {
    const window: real
    var last: map<Key, Sent>
    var pending: map<Key, Waiting>
    var tasks: map<nat, Flush>
    var next: nat

    function Contents(): State
      reads this
    {
      State(last, pending, tasks, next)
    }

    constructor (window: real)
      ensures this.window == window && Contents() == State(map[], map[], map[], 0)
    {
      this.window := window;
      last, pending, tasks, next := map[], map[], map[], 0;
    }

    method Offer(k: Key, data: Payload, now: real) returns (sent: Option<Payload>)
      modifies this
      ensures Outcome(Contents(), sent) == Offered(old(Contents()), k, data, now, window)
    {
      var before := Find(last, k);
      var waiting := Find(pending, k);
      var visible := if waiting.Some? then Some(waiting.value.payload)
                     else if before.Some? then Some(before.value.payload) else None;
      if visible == Some(data) {
        return None;
      }
      if waiting.Some? {
        if before.Some? && before.value.payload == data {
          tasks := tasks - {waiting.value.task};
          pending := pending - {k};
        } else {
          pending := pending[k := Waiting(data, waiting.value.task)];
        }
        return None;
      }
      if before.Some? && now - before.value.at < window {
        var delay := window - (now - before.value.at);
        tasks := tasks[next := Flush(k, now + delay)];
        pending := pending[k := Waiting(data, next)];
        next := next + 1;
        return None;
      }
      last := last[k := Sent(data, now)];
      return Some(data);
    }

    method Fire(task: nat, now: real) returns (sent: Option<Payload>)
      modifies this
      ensures Outcome(Contents(), sent) == Fired(old(Contents()), task, now)
    {
      if task !in tasks || now < tasks[task].deadline {
        return None;
      }
      var k := tasks[task].key;
      tasks := tasks - {task};
      if k !in pending {
        return None;
      }
      var data := pending[k].payload;
      pending := pending - {k};
      last := last[k := Sent(data, now)];
      return Some(data);
    }

    method Reset(k: Key)
      modifies this
      ensures Contents() == Cleared(old(Contents()), k)
    {
      if k in pending {
        tasks := tasks - {pending[k].task};
        pending := pending - {k};
      }
      last := last - {k};
    }
  }

  // ----- Timed runs -----

  datatype Event = Offer(key: Key, data: Payload, at: real) | Fire(task: nat, at: real) | Reset(key: Key, at: real)

  function Step(s: State, e: Event, window: real): Outcome {
    match e
    case Offer(k, data, now) => Offered(s, k, data, now, window)
    case Fire(task, now) => Fired(s, task, now)
    case Reset(k, _) => Outcome(Cleared(s, k), None)
  }

  function Run(events: seq<Event>, window: real): State
    decreases |events|
  {
    if events == [] then State(map[], map[], map[], 0)
    else Step(Run(events[..|events| - 1], window), events[|events| - 1], window).state
  }

  /** What was offered and sent for one key since its last reset. */
  datatype History = History(offers: seq<Payload>, sends: seq<Sent>)

  /** The key a step sends for. */
  function SendKey(s: State, e: Event): Option<Key> {
    match e
    case Offer(k, _, _) => Some(k)
    case Fire(task, _) => if task in s.tasks then Some(s.tasks[task].key) else None
    case Reset(_, _) => None
  }

  function Recorded(h: History, k: Key, e: Event, key: Option<Key>, sent: Option<Payload>): History {
    if e.Reset? && e.key == k then History([], [])
    else
      History(if e.Offer? && e.key == k then h.offers + [e.data] else h.offers,
              if key == Some(k) && sent.Some? then h.sends + [Sent(sent.value, e.at)] else h.sends)
  }

  function HistoryOf(events: seq<Event>, k: Key, window: real): History
    decreases |events|
  {
    if events == [] then History([], [])
    else
      var n := |events| - 1;
      var s := Run(events[..n], window);
      Recorded(HistoryOf(events[..n], k, window), k, events[n], SendKey(s, events[n]), Step(s, events[n], window).sent)
  }

  // ----- What holds at every moment -----

  predicate Subsequence(a: seq<Payload>, b: seq<Payload>)
    decreases |b|
  {
    if a == [] then true
    else if b == [] then false
    else if a[|a| - 1] == b[|b| - 1] then Subsequence(a[..|a| - 1], b[..|b| - 1])
    else Subsequence(a, b[..|b| - 1])
  }

  lemma {:induction false} SubsequenceGrows(a: seq<Payload>, b: seq<Payload>, x: Payload)
    requires Subsequence(a, b)
    ensures Subsequence(a, b + [x])
    decreases |b|, 1
  {
    assert (b + [x])[..|b|] == b;
    if a != [] && a[|a| - 1] == x {
      SubsequenceDrops(a, b);
    }
  }

  lemma {:induction false} SubsequenceDrops(a: seq<Payload>, b: seq<Payload>)
    requires a != [] && Subsequence(a, b)
    ensures Subsequence(a[..|a| - 1], b)
    decreases |b|, 0
  {
    var n := |b| - 1;
    assert b == b[..n] + [b[n]];
    if a[|a| - 1] == b[n] {
      SubsequenceGrows(a[..|a| - 1], b[..n], b[n]);
    } else {
      SubsequenceDrops(a, b[..n]);
      SubsequenceGrows(a[..|a| - 1], b[..n], b[n]);
    }
  }

  lemma SubsequenceBoth(a: seq<Payload>, b: seq<Payload>, x: Payload)
    requires Subsequence(a, b)
    ensures Subsequence(a + [x], b + [x])
  {
    assert (a + [x])[..|a|] == a && (b + [x])[..|b|] == b;
  }

  function Payloads(sends: seq<Sent>): seq<Payload> {
    seq(|sends|, i requires 0 <= i < |sends| => sends[i].payload)
  }

  /** Everything the client has seen or will see of the offers so far. */
  function Shown(s: State, k: Key, h: History): seq<Payload> {
    Payloads(h.sends) + if k in s.pending then [s.pending[k].payload] else []
  }

  /** No repeat, and never two within the window. */
  ghost predicate Spaced(sends: seq<Sent>, window: real) {
    forall i :: 0 < i < |sends| ==>
      sends[i].payload != sends[i - 1].payload && sends[i].at - sends[i - 1].at >= window
  }

  /** A payload waits for a key exactly when one flush sleeps for it, until the window closes. */
  ghost predicate Linked(s: State, k: Key, window: real) {
    && (k in s.pending ==>
          && k in s.last && s.pending[k].payload != s.last[k].payload
          && s.pending[k].task in s.tasks && s.tasks[s.pending[k].task] == Flush(k, s.last[k].at + window))
    && (forall t :: t in s.tasks ==> t < s.next && (s.tasks[t].key == k ==> k in s.pending && s.pending[k].task == t))
  }

  function Newest(h: History): Option<Payload> {
    if h.offers == [] then None else Some(h.offers[|h.offers| - 1])
  }

  ghost predicate Recounts(s: State, k: Key, h: History, window: real) {
    && (if h.sends == [] then k !in s.last else k in s.last && s.last[k] == h.sends[|h.sends| - 1])
    && Visible(s, k) == Newest(h)
    && Subsequence(Shown(s, k, h), h.offers)
    && Spaced(h.sends, window)
  }

  ghost predicate Agrees(s: State, k: Key, h: History, window: real) {
    Linked(s, k, window) && Recounts(s, k, h, window)
  }

  lemma OfferLinked(s: State, k: Key, data: Payload, now: real, window: real)
    requires Linked(s, k, window)
    ensures Linked(Offered(s, k, data, now, window).state, k, window)
  {
  }

  lemma OfferRecounts(s: State, k: Key, h: History, data: Payload, now: real, window: real)
    requires Agrees(s, k, h, window)
    ensures var out := Offered(s, k, data, now, window);
      Recounts(out.state, k, Recorded(h, k, Offer(k, data, now), Some(k), out.sent), window)
  {
    var out := Offered(s, k, data, now, window);
    if Visible(s, k) == Some(data) {
      RepeatRecounts(s, k, h, data, window);
    } else if k in s.pending {
      OfferWhileWaiting(s, k, h, data, now, window);
    } else {
      OfferWhileIdle(s, k, h, data, now, window);
    }
  }

  lemma RepeatRecounts(s: State, k: Key, h: History, data: Payload, window: real)
    requires Recounts(s, k, h, window) && Visible(s, k) == Some(data)
    ensures Recounts(s, k, History(h.offers + [data], h.sends), window)
  {
    SubsequenceGrows(Shown(s, k, h), h.offers, data);
  }

  /** Held until the window closes, or sent at once after it. */
  lemma OfferWhileIdle(s: State, k: Key, h: History, data: Payload, now: real, window: real)
    requires Agrees(s, k, h, window) && k !in s.pending && Visible(s, k) != Some(data)
    ensures var out := Offered(s, k, data, now, window);
      Recounts(out.state, k, Recorded(h, k, Offer(k, data, now), Some(k), out.sent), window)
  {
    SubsequenceBoth(Shown(s, k, h), h.offers, data);
    if k in s.last && now - s.last[k].at < window {
      HoldRecounts(s, Offered(s, k, data, now, window).state, k, h, data, window);
    } else {
      SendRecounts(s, k, h, data, now, window);
    }
  }

  lemma HoldRecounts(s: State, s': State, k: Key, h: History, data: Payload, window: real)
    requires Recounts(s, k, h, window) && k !in s.pending && Subsequence(Shown(s, k, h) + [data], h.offers + [data])
    requires s'.last == s.last && k in s'.pending && s'.pending[k].payload == data
    ensures Recounts(s', k, History(h.offers + [data], h.sends), window)
  {
    assert Shown(s', k, h) == Shown(s, k, h) + [data];
  }

  lemma SendRecounts(s: State, k: Key, h: History, data: Payload, now: real, window: real)
    requires Agrees(s, k, h, window) && k !in s.pending && Visible(s, k) != Some(data)
    requires Subsequence(Shown(s, k, h) + [data], h.offers + [data]) && (k in s.last ==> now - s.last[k].at >= window)
    ensures Recounts(s.(last := s.last[k := Sent(data, now)]), k,
                     History(h.offers + [data], h.sends + [Sent(data, now)]), window)
  {
    var s', h' := s.(last := s.last[k := Sent(data, now)]), History(h.offers + [data], h.sends + [Sent(data, now)]);
    assert Shown(s', k, h') == Shown(s, k, h) + [data];
    SpacedSnoc(h.sends, Sent(data, now), window);
  }

  lemma SpacedSnoc(sends: seq<Sent>, next: Sent, window: real)
    requires Spaced(sends, window)
    requires sends != [] ==> next.payload != sends[|sends| - 1].payload && next.at - sends[|sends| - 1].at >= window
    ensures Spaced(sends + [next], window)
  {
  }

  lemma OfferWhileWaiting(s: State, k: Key, h: History, data: Payload, now: real, window: real)
    requires Agrees(s, k, h, window) && k in s.pending && s.pending[k].payload != data
    ensures var out := Offered(s, k, data, now, window);
      out.sent == None && Recounts(out.state, k, History(h.offers + [data], h.sends), window)
  {
    var out := Offered(s, k, data, now, window);
    var shown, sent := Shown(s, k, h), Payloads(h.sends);
    assert shown[..|shown| - 1] == sent;
    SubsequenceDrops(shown, h.offers);
    if s.last[k].payload == data {
      SubsequenceGrows(sent, h.offers, data);
      assert Shown(out.state, k, h) == sent;
    } else {
      SubsequenceBoth(sent, h.offers, data);
      assert Shown(out.state, k, h) == sent + [data];
    }
  }

  lemma FireAgrees(s: State, k: Key, h: History, task: nat, now: real, window: real)
    requires Agrees(s, k, h, window) && task in s.tasks && s.tasks[task].key == k
    ensures var out := Fired(s, task, now);
      var e: Event := Fire(task, now);
      Agrees(out.state, k, Recorded(h, k, e, Some(k), out.sent), window)
  {
    var out := Fired(s, task, now);
    var e: Event := Fire(task, now);
    var h' := Recorded(h, k, e, Some(k), out.sent);
    if now >= s.tasks[task].deadline {
      assert Shown(out.state, k, h') == Shown(s, k, h);
    }
  }

  function KeyOf(s: State, e: Event): Option<Key> {
    if e.Reset? then Some(e.key) else SendKey(s, e)
  }

  /** A step for another key leaves this one as it is. */
  lemma OtherAgrees(s: State, k: Key, h: History, e: Event, j: Key, hj: History, window: real)
    requires Agrees(s, k, h, window) && Agrees(s, j, hj, window) && j != k && KeyOf(s, e) == Some(j)
    ensures Agrees(Step(s, e, window).state, k, Recorded(h, k, e, SendKey(s, e), Step(s, e, window).sent), window)
  {
    var out := Step(s, e, window);
    OtherLinked(s, k, e, j, window);
    assert Recorded(h, k, e, SendKey(s, e), out.sent) == h;
    assert Shown(out.state, k, h) == Shown(s, k, h);
  }

  lemma OtherLinked(s: State, k: Key, e: Event, j: Key, window: real)
    requires Linked(s, k, window) && Linked(s, j, window) && j != k && KeyOf(s, e) == Some(j)
    ensures var after := Step(s, e, window).state;
      && Linked(after, k, window) && Find(after.last, k) == Find(s.last, k)
        && Find(after.pending, k) == Find(s.pending, k)
  {
  }

  lemma ResetAgrees(s: State, k: Key, h: History, window: real)
    requires Agrees(s, k, h, window)
    ensures Agrees(Cleared(s, k), k, History([], []), window)
  {
  }

  lemma StepAgrees(s: State, k: Key, h: History, e: Event, window: real)
    requires Agrees(s, k, h, window) && KeyOf(s, e) == Some(k)
    ensures Agrees(Step(s, e, window).state, k, Recorded(h, k, e, SendKey(s, e), Step(s, e, window).sent), window)
  {
    match e
    case Offer(_, data, now) => OfferLinked(s, k, data, now, window); OfferRecounts(s, k, h, data, now, window);
    case Fire(task, now) => FireAgrees(s, k, h, task, now, window);
    case Reset(_, _) => ResetAgrees(s, k, h, window);
  }

  /** At every moment of every timed run, for every key, the limiter agrees with its history. */
  lemma {:induction false} RunAgrees(events: seq<Event>, k: Key, window: real)
    ensures Agrees(Run(events, window), k, HistoryOf(events, k, window), window)
    decreases |events|
  {
    if events == [] {
      assert Shown(Run(events, window), k, HistoryOf(events, k, window)) == [];
    } else {
      var n := |events| - 1;
      var s, e := Run(events[..n], window), events[n];
      RunAgrees(events[..n], k, window);
      var key := KeyOf(s, e);
      if key == None {
        assert Step(s, e, window) == Outcome(s, None);
      } else if key == Some(k) {
        StepAgrees(s, k, HistoryOf(events[..n], k, window), e, window);
      } else {
        RunAgrees(events[..n], key.value, window);
        OtherAgrees(s, k, HistoryOf(events[..n], k, window), e, key.value, HistoryOf(events[..n], key.value, window),
                    window);
      }
    }
  }

  /** The client sees, or will see, the newest offer. */
  lemma NewestWins(events: seq<Event>, k: Key, window: real)
    ensures Visible(Run(events, window), k) == Newest(HistoryOf(events, k, window))
  {
    RunAgrees(events, k, window);
  }

  /** What was sent are some of the offers in order, no two neighbours equal, none within the window. */
  lemma SendsAreSpacedOffers(events: seq<Event>, k: Key, window: real)
    ensures var h := HistoryOf(events, k, window);
      Subsequence(Payloads(h.sends), h.offers) && Spaced(h.sends, window)
  {
    RunAgrees(events, k, window);
    var s, h := Run(events, window), HistoryOf(events, k, window);
    var shown := Shown(s, k, h);
    if k in s.pending {
      SubsequenceDrops(shown, h.offers);
      assert shown[..|shown| - 1] == Payloads(h.sends);
    } else {
      assert shown == Payloads(h.sends);
    }
  }

  /** At most one flush sleeps for a key, exactly when a payload waits, and it wakes as the window closes. */
  lemma OneFlush(events: seq<Event>, k: Key, t: nat, window: real)
    ensures var s := Run(events, window);
      (t in s.tasks && s.tasks[t].key == k) <==> (k in s.pending && s.pending[k].task == t)
    ensures var s := Run(events, window);
      k in s.pending ==>
        k in s.last && s.pending[k].task in s.tasks && s.tasks[s.pending[k].task].deadline == s.last[k].at + window
  {
    RunAgrees(events, k, window);
  }

  /** Once its deadline has come the flush sends what waits: the newest offer. */
  lemma FlushDelivers(events: seq<Event>, k: Key, now: real, window: real)
    requires k in Run(events, window).pending
    requires k in Run(events, window).last && now >= Run(events, window).last[k].at + window
    ensures var h := HistoryOf(events, k, window);
      var events' := events + [Fire(Run(events, window).pending[k].task, now)];
      && h.offers != []
      && HistoryOf(events', k, window).sends == h.sends + [Sent(h.offers[|h.offers| - 1], now)]
      && k !in Run(events', window).pending
  {
    RunAgrees(events, k, window);
    var events' := events + [Fire(Run(events, window).pending[k].task, now)];
    assert events'[..|events|] == events;
  }

  // ----- When an offer is sent at once -----

  function LastSent(h: History): Option<Sent> {
    if h.sends == [] then None else Some(h.sends[|h.sends| - 1])
  }

  /** The newest offer was not sent yet. */
  predicate Waits(h: History) {
    h.offers != [] && (h.sends == [] || Newest(h) != Some(h.sends[|h.sends| - 1].payload))
  }

  lemma WaitsIff(events: seq<Event>, k: Key, window: real)
    ensures k in Run(events, window).pending <==> Waits(HistoryOf(events, k, window))
  {
    RunAgrees(events, k, window);
    WaitsOf(Run(events, window), k, HistoryOf(events, k, window), window);
  }

  lemma WaitsOf(s: State, k: Key, h: History, window: real)
    requires Agrees(s, k, h, window)
    ensures k in s.pending <==> Waits(h)
  {
  }

  /**
   After any timed run an offer is sent by that very call exactly when nothing waits, it is not what was
   offered last, and no send since the last reset lies less than the window before; and else nothing is sent.
   */
  lemma SentAtOnceIff(events: seq<Event>, k: Key, data: Payload, now: real, window: real)
    ensures var h := HistoryOf(events, k, window);
      var h' := HistoryOf(events + [Offer(k, data, now)], k, window);
      var open := LastSent(h).None? || now - LastSent(h).value.at >= window;
      && h'.offers == h.offers + [data]
      && h'.sends == (if !Waits(h) && Newest(h) != Some(data) && open then h.sends + [Sent(data, now)] else h.sends)
  {
    RunAgrees(events, k, window);
    WaitsIff(events, k, window);
    assert (events + [Offer(k, data, now)])[..|events|] == events;
  }

  /** And it is held exactly when nothing waits and a send does lie less than the window before. */
  lemma HeldIff(events: seq<Event>, k: Key, data: Payload, now: real, window: real)
    requires !Waits(HistoryOf(events, k, window))
    ensures var h := HistoryOf(events, k, window);
      k in Run(events + [Offer(k, data, now)], window).pending <==>
        Newest(h) != Some(data) && LastSent(h).Some? && now - LastSent(h).value.at < window
  {
    RunAgrees(events, k, window);
    WaitsIff(events, k, window);
    OfferHolds(Run(events, window), k, data, now, window);
    assert (events + [Offer(k, data, now)])[..|events|] == events;
  }

  lemma OfferHolds(s: State, k: Key, data: Payload, now: real, window: real)
    requires k !in s.pending
    ensures k in Offered(s, k, data, now, window).state.pending <==>
      Visible(s, k) != Some(data) && k in s.last && now - s.last[k].at < window
  {
  }

  /** A new flush comes from an offer, and sleeps until the window closes, which is later than the offer. */
  lemma NewFlushIsLater(events: seq<Event>, e: Event, t: nat, window: real)
    requires t in Run(events + [e], window).tasks && t !in Run(events, window).tasks
    ensures e.Offer? && Run(events + [e], window).tasks[t].key == e.key
    ensures var h, deadline := HistoryOf(events, e.key, window), Run(events + [e], window).tasks[t].deadline;
      LastSent(h).Some? && deadline == LastSent(h).value.at + window && deadline > e.at
  {
    assert (events + [e])[..|events|] == events;
    if e.Offer? {
      RunAgrees(events, e.key, window);
    }
  }

  /**
   A flush is cancelled only by an offer of what was sent last, or by a reset, and otherwise sleeps until it
   wakes.
   */
  lemma FlushSleepsOn(events: seq<Event>, e: Event, t: nat, window: real)
    requires t in Run(events, window).tasks && t !in Run(events + [e], window).tasks
    ensures var f := Run(events, window).tasks[t];
      || (e.Fire? && e.task == t && e.at >= f.deadline)
      || (e.Reset? && e.key == f.key)
      || (e.Offer? && e.key == f.key && LastSent(HistoryOf(events, f.key, window)).Some?
          && e.data == LastSent(HistoryOf(events, f.key, window)).value.payload)
  {
    assert (events + [e])[..|events|] == events;
    RunAgrees(events, Run(events, window).tasks[t].key, window);
    if !e.Fire? {
      RunAgrees(events, e.key, window);
    }
    SleepsOn(Run(events, window), e, t, window);
  }

  lemma SleepsOn(s: State, e: Event, t: nat, window: real)
    requires t in s.tasks && t !in Step(s, e, window).state.tasks
    requires Linked(s, s.tasks[t].key, window) && (!e.Fire? ==> Linked(s, e.key, window))
    ensures var f := s.tasks[t];
      || (e.Fire? && e.task == t && e.at >= f.deadline)
      || (e.Reset? && e.key == f.key)
      || (e.Offer? && e.key == f.key && f.key in s.last && e.data == s.last[f.key].payload)
  {
  }
}
