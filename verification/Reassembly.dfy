/** Rebuilding envelopes from fragments in any order, under count, size and time limits. */
module Reassembly {
  import opened Common
  import opened Json
  import opened Envelopes
  import opened Fragments
  import Base64
  import Utf8

  const MAX_INFLIGHT_MESSAGES := 16
  const MAX_INFLIGHT_BYTES := 2 * 1024 * 1024
  const FRAGMENT_TIMEOUT_SECONDS: real := 30.0

  datatype Partial = Partial(created: real, header: Header, chunks: map<int, string>)

  type Messages = map<string, Partial>

  datatype Outcome = Outcome(messages: Messages, result: Result<Option<Envelope>, ProtocolError>)

  // ----- What one call does -----

  function Expired(ms: Messages, now: real): set<string> {
    set id | id in ms && now - ms[id].created >= FRAGMENT_TIMEOUT_SECONDS
  }

  function Unexpired(ms: Messages, now: real): Messages {
    ms - Expired(ms, now)
  }

  ghost function SumSizes(ms: Messages): int {
    if ms == map[] then 0
    else
      var id :| id in ms;
      ms[id].header.size + SumSizes(ms - {id})
  }

  predicate IsIndex(i: int, n: int) {
    0 <= i < n
  }

  function Keys(n: int): set<int> {
    set i | 0 <= i < n && IsIndex(i, n)
  }

  /** Only parts of the message were stored, and not all of them. */
  ghost predicate Ranged(ms: Messages) {
    forall id :: id in ms ==> ms[id].chunks.Keys <= Keys(ms[id].header.parts) && ms[id].header.parts >= 0
  }

  lemma {:induction false} KeysCard(n: nat)
    ensures |Keys(n)| == n
  {
    if n > 0 {
      KeysCard(n - 1);
      assert Keys(n) == Keys(n - 1) + {n - 1};
    }
  }

  /** As many in-range parts as there are parts are all of them. */
  lemma FullIffCount(got: set<int>, n: nat)
    requires got <= Keys(n)
    ensures |got| == n <==> got == Keys(n)
    ensures |got| <= n
  {
    KeysCard(n);
    SubsetCard(got, Keys(n));
  }

  lemma SubsetCard<T>(a: set<T>, b: set<T>)
    requires a <= b
    ensures |a| <= |b| && (|a| == |b| ==> a == b)
  {
    assert b == a + (b - a);
    assert |b| == |a| + |b - a|;
    if |a| == |b| {
      assert b - a == {};
    }
  }

  lemma MapCard<K, V>(m: map<K, V>)
    ensures |m| == |m.Keys|
  {
  }

  function Joined(chunks: map<int, string>, n: nat): string
    requires Keys(n) <= chunks.Keys
  {
    if n == 0 then "" else
      assert n - 1 in Keys(n) && Keys(n - 1) <= Keys(n);
      Joined(chunks, n - 1) + chunks[n - 1]
  }

  function Unpack(c: Codec, packed: seq<byte>, h: Header): Result<seq<byte>, ProtocolError>
    requires h.size >= 0
  {
    if h.encoding == Some("zlib") then
      match c.inflate(packed, h.size + 1)
      case None => Err(BadCompression)
      case Some(stream) =>
        if |stream.payload| > h.size || !stream.eof || stream.leftover then Err(BadCompression) else Ok(stream.payload)
    else Ok(packed)
  }

  /** What the joined text of a complete message stands for. */
  function Rebuild(c: Codec, id: string, h: Header, joined: string): Result<Envelope, ProtocolError>
    requires h.size >= 0
  {
    match Base64.Decode(joined + Base64.Padding(|joined|), true)
    case None => Err(BadBase64)
    case Some(packed) =>
      var payload :- Unpack(c, packed, h);
      var _ :- Check(|payload| == h.size && c.sha256(payload) == h.sha256, ChecksumMismatch);
      match Utf8.DecodeStrict(payload)
      case None => Err(NotUtf8)
      case Some(text) =>
        var e :- Decode(c, text);
        if e.id == id && e.kind == h.kind && e.messageType == h.messageType && e.epoch == h.epoch
           && e.sessionId == h.sessionId
        then Ok(e) else Err(MetadataMismatch)
  }

  function Lift(r: Result<Envelope, ProtocolError>): Result<Option<Envelope>, ProtocolError> {
    match r
    case Ok(e) => Ok(Some(e))
    case Err(error) => Err(error)
  }

  /** What a tag value is to the reassembler: a fragment, or something it answers at once. */
  datatype Reading = Piece(f: BoundedFragment) | Whole(result: Result<Option<Envelope>, ProtocolError>)

  function Read(c: Codec, value: string): Reading {
    match c.loads(value)
    case None => Whole(Err(InvalidJson))
    case Some(Obj(o)) =>
      if Get(o, "k") != Some(Str("fragment")) then Whole(Lift(FromDict(c, o)))
      else
        ParsedIsBounded(o);
        var parsed := ParseFragment(o);
        if parsed.Ok? then Piece(parsed.value) else Whole(Err(parsed.error))
    case Some(_) => Whole(Err(NotAnObject))
  }

  /** What a reading comes to: more parts wanted, all parts joined, refused, or answered at once. */
  datatype Verdict =
    | Waiting
    | Full(f: BoundedFragment, joined: string)
    | Refused(error: ProtocolError)
    | Direct(result: Result<Option<Envelope>, ProtocolError>)

  datatype Filed = Filed(messages: Messages, verdict: Verdict)

  /** Store the fragment's chunk in its partial message, and take the message out when that completes it. */
  ghost function Store(ms: Messages, f: BoundedFragment, p: Partial): Filed
    requires p.header == f.header && p.chunks.Keys <= Keys(f.header.parts)
  {
    var chunks := p.chunks[f.part := f.chunk];
    assert f.part in Keys(f.header.parts);
    if |chunks| != f.header.parts then Filed(ms[f.id := p.(chunks := chunks)], Waiting)
    else
      FullIffCount(chunks.Keys, f.header.parts);
      MapCard(chunks);
      Filed(ms - {f.id}, Full(f, Joined(chunks, f.header.parts)))
  }

  ghost function Accept(ms: Messages, f: BoundedFragment, now: real): Filed
    requires Ranged(ms)
  {
    if f.id !in ms then
      if |ms| >= MAX_INFLIGHT_MESSAGES then Filed(ms, Refused(TooManyInFlight))
      else if SumSizes(ms) + f.header.size > MAX_INFLIGHT_BYTES then Filed(ms, Refused(MemoryBudget))
      else Store(ms, f, Partial(now, f.header, map[]))
    else if ms[f.id].header != f.header then Filed(ms - {f.id}, Refused(InconsistentMetadata))
    else if f.part in ms[f.id].chunks && ms[f.id].chunks[f.part] != f.chunk then
      Filed(ms - {f.id}, Refused(ConflictingDuplicate))
    else Store(ms, f, ms[f.id])
  }

  /** Expire, then file the reading. */
  ghost function FileStep(ms: Messages, r: Reading, now: real): Filed
    requires Ranged(ms)
  {
    var live := Unexpired(ms, now);
    match r
    case Whole(result) => Filed(live, Direct(result))
    case Piece(f) => Accept(live, f, now)
  }

  function Settle(c: Codec, v: Verdict): Result<Option<Envelope>, ProtocolError> {
    match v
    case Waiting => Ok(None)
    case Refused(error) => Err(error)
    case Direct(result) => result
    case Full(f, joined) => Lift(Rebuild(c, f.id, f.header, joined))
  }

  ghost function AddStep(c: Codec, ms: Messages, value: string, now: real): Outcome
    requires Ranged(ms)
  {
    var filed := FileStep(ms, Read(c, value), now);
    Outcome(filed.messages, Settle(c, filed.verdict))
  }

  // ----- The object -----

  class Reassembler {
    var messages: Messages

    ghost predicate Valid()
      reads this
    {
      Ranged(messages)
    }

    constructor ()
      ensures Valid() && messages == map[]
    {
      messages := map[];
    }

    method Expire(now: real) returns (expired: set<string>)
      requires Valid()
      modifies this
      ensures Valid()
      ensures expired == Expired(old(messages), now)
      ensures messages == Unexpired(old(messages), now)
    {
      expired := set id | id in messages && now - messages[id].created >= FRAGMENT_TIMEOUT_SECONDS;
      messages := messages - expired;
    }

    method TotalSize() returns (total: int)
      ensures total == SumSizes(messages)
    {
      total := 0;
      var rest := messages;
      while rest != map[]
        invariant total + SumSizes(rest) == SumSizes(messages)
        decreases |rest|
      {
        var id :| id in rest;
        SumSizesPick(rest, id);
        total := total + rest[id].header.size;
        rest := rest - {id};
      }
    }

    method Add(c: Codec, value: string, now: real) returns (r: Result<Option<Envelope>, ProtocolError>)
      requires Valid()
      modifies this
      ensures Valid()
      ensures Outcome(messages, r) == AddStep(c, old(messages), value, now)
    {
      var _ := Expire(now);
      match Read(c, value) {
        case Whole(result) => return result;
        case Piece(f) =>
          var verdict := File(f, now);
          return Settle(c, verdict);
      }
    }

    method File(f: BoundedFragment, now: real) returns (v: Verdict)
      requires Valid()
      modifies this
      ensures Valid()
      ensures Filed(messages, v) == Accept(old(messages), f, now)
    {
      AcceptKeepsRanged(messages, f, now);
      var existing: Partial;
      if f.id !in messages {
        if |messages| >= MAX_INFLIGHT_MESSAGES {
          return Refused(TooManyInFlight);
        }
        var total := TotalSize();
        if total + f.header.size > MAX_INFLIGHT_BYTES {
          return Refused(MemoryBudget);
        }
        existing := Partial(now, f.header, map[]);
        messages := messages[f.id := existing];
        StoreOpened(old(messages), f, existing);
      } else {
        existing := messages[f.id];
        if existing.header != f.header {
          messages := messages - {f.id};
          return Refused(InconsistentMetadata);
        }
      }
      if f.part in existing.chunks && existing.chunks[f.part] != f.chunk {
        messages := messages - {f.id};
        return Refused(ConflictingDuplicate);
      }
      v := StoreChunk(f, existing);
    }

    method StoreChunk(f: BoundedFragment, partial: Partial) returns (v: Verdict)
      requires partial.header == f.header && partial.chunks.Keys <= Keys(f.header.parts)
      requires f.id in messages && messages[f.id] == partial
      modifies this
      ensures Filed(messages, v) == Store(old(messages), f, partial)
    {
      var chunks := partial.chunks[f.part := f.chunk];
      messages := messages[f.id := partial.(chunks := chunks)];
      assert f.part in Keys(f.header.parts);
      if |chunks| != f.header.parts {
        return Waiting;
      }
      FullIffCount(chunks.Keys, f.header.parts);
      MapCard(chunks);
      messages := messages - {f.id};
      return Full(f, Joined(chunks, f.header.parts));
    }
  }

  lemma {:induction false} SumSizesPick(ms: Messages, id: string)
    requires id in ms
    ensures SumSizes(ms) == ms[id].header.size + SumSizes(ms - {id})
    decreases |ms|
  {
    var other :| other in ms && SumSizes(ms) == ms[other].header.size + SumSizes(ms - {other});
    if other != id {
      SumSizesPick(ms - {other}, id);
      SumSizesPick(ms - {id}, other);
      assert ms - {other} - {id} == ms - {id} - {other};
    }
  }

  /** Opening the entry first makes no difference. */
  lemma StoreOpened(ms: Messages, f: BoundedFragment, p: Partial)
    requires p.header == f.header && p.chunks.Keys <= Keys(f.header.parts) && f.id !in ms
    ensures Store(ms[f.id := p], f, p) == Store(ms, f, p)
  {
    assert ms[f.id := p] - {f.id} == ms - {f.id};
    var stored := p.(chunks := p.chunks[f.part := f.chunk]);
    assert ms[f.id := p][f.id := stored] == ms[f.id := stored];
  }

  lemma AcceptKeepsRanged(ms: Messages, f: BoundedFragment, now: real)
    requires Ranged(ms)
    ensures Ranged(Accept(ms, f, now).messages)
  {
    assert f.part in Keys(f.header.parts);
  }

  lemma FileKeepsRanged(ms: Messages, r: Reading, now: real)
    requires Ranged(ms)
    ensures Ranged(FileStep(ms, r, now).messages)
  {
    match r
    case Whole(_) =>
    case Piece(f) => AcceptKeepsRanged(Unexpired(ms, now), f, now);
  }

  // ----- Safety on arbitrary input -----

  /** A stored message: some but not all parts, bounded size, younger than the timeout. */
  ghost predicate Young(p: Partial, now: real) {
    && p.header.parts <= MAX_FRAGMENTS && 1 <= p.header.size <= MAX_PAYLOAD_BYTES
    && p.chunks.Keys <= Keys(p.header.parts)
    && 1 <= |p.chunks| < p.header.parts
    && p.created <= now && now - p.created < FRAGMENT_TIMEOUT_SECONDS
  }

  ghost predicate Safe(ms: Messages, now: real) {
    |ms| <= MAX_INFLIGHT_MESSAGES && forall id :: id in ms ==> Young(ms[id], now)
  }

  lemma ExpiryKeepsSafe(ms: Messages, earlier: real, now: real)
    requires Safe(ms, earlier) && earlier <= now
    ensures Safe(Unexpired(ms, now), now)
  {
    MapCard(ms);
    MapCard(Unexpired(ms, now));
    SubsetCard(Unexpired(ms, now).Keys, ms.Keys);
  }

  lemma {:induction false} SizesBounded(ms: Messages, now: real)
    requires forall id :: id in ms ==> Young(ms[id], now)
    ensures 0 <= SumSizes(ms) <= |ms| * 131072
    decreases |ms|
  {
    if ms != map[] {
      var id :| id in ms;
      SumSizesPick(ms, id);
      RemoveOne(ms, id);
      SizesBounded(ms - {id}, now);
      assert Young(ms[id], now);
    }
  }

  /** Sixteen messages are within the budget, and fifteen leave room for one more. */
  lemma RoomForOne(ms: Messages, now: real)
    requires Safe(ms, now)
    ensures 0 <= SumSizes(ms) <= MAX_INFLIGHT_BYTES
    ensures |ms| < MAX_INFLIGHT_MESSAGES ==> SumSizes(ms) + MAX_PAYLOAD_BYTES <= MAX_INFLIGHT_BYTES
  {
    SizesBounded(ms, now);
  }

  lemma RemoveOne(ms: Messages, id: string)
    ensures |ms - {id}| == if id in ms then |ms| - 1 else |ms|
  {
    MapCard(ms);
    MapCard(ms - {id});
    assert (ms - {id}).Keys == ms.Keys - {id};
  }

  /** Adding a part to a message leaves the message young, or completes it. */
  lemma GrowsYoung(f: BoundedFragment, p: Partial, now: real)
    requires p.header == f.header && p.chunks.Keys <= Keys(f.header.parts)
    requires p.created <= now && now - p.created < FRAGMENT_TIMEOUT_SECONDS
    ensures var chunks := p.chunks[f.part := f.chunk];
      |chunks| != f.header.parts ==> Young(p.(chunks := chunks), now)
  {
    var chunks := p.chunks[f.part := f.chunk];
    assert f.part in Keys(f.header.parts) && f.part in chunks;
    FullIffCount(chunks.Keys, f.header.parts);
    MapCard(chunks);
    SubsetCard(chunks.Keys, Keys(f.header.parts));
    KeysCard(f.header.parts);
  }

  lemma PutKeepsSafe(ms: Messages, id: string, p: Partial, now: real)
    requires Safe(ms, now) && Young(p, now) && (id in ms || |ms| < MAX_INFLIGHT_MESSAGES)
    ensures Safe(ms[id := p], now)
  {
    MapCard(ms);
    MapCard(ms[id := p]);
    assert ms[id := p].Keys == ms.Keys + {id};
  }

  lemma StoreKeepsSafe(ms: Messages, f: BoundedFragment, p: Partial, now: real)
    requires Safe(ms, now) && p.header == f.header && p.chunks.Keys <= Keys(f.header.parts)
    requires f.id in ms || |ms| < MAX_INFLIGHT_MESSAGES
    requires p.created <= now && now - p.created < FRAGMENT_TIMEOUT_SECONDS
    ensures Safe(Store(ms, f, p).messages, now)
  {
    var chunks := p.chunks[f.part := f.chunk];
    GrowsYoung(f, p, now);
    if |chunks| != f.header.parts {
      PutKeepsSafe(ms, f.id, p.(chunks := chunks), now);
    } else {
      RemoveKeepsSafe(ms, f.id, now);
    }
  }

  lemma RemoveKeepsSafe(ms: Messages, id: string, now: real)
    requires Safe(ms, now)
    ensures Safe(ms - {id}, now)
  {
    RemoveOne(ms, id);
  }

  lemma AcceptNewKeepsSafe(ms: Messages, f: BoundedFragment, now: real)
    requires Safe(ms, now) && Ranged(ms) && f.id !in ms
    ensures Safe(Accept(ms, f, now).messages, now)
    ensures Accept(ms, f, now).verdict != Refused(MemoryBudget)
  {
    if |ms| < MAX_INFLIGHT_MESSAGES {
      RoomForOne(ms, now);
      StoreKeepsSafe(ms, f, Partial(now, f.header, map[]), now);
    }
  }

  lemma AcceptKeepsSafe(ms: Messages, f: BoundedFragment, now: real)
    requires Safe(ms, now) && Ranged(ms)
    ensures Safe(Accept(ms, f, now).messages, now)
    ensures Accept(ms, f, now).verdict != Refused(MemoryBudget)
  {
    RemoveKeepsSafe(ms, f.id, now);
    if f.id !in ms {
      AcceptNewKeepsSafe(ms, f, now);
    } else if ms[f.id].header == f.header {
      assert Young(ms[f.id], now);
      StoreKeepsSafe(ms, f, ms[f.id], now);
    }
  }

  /** One reading, whatever it is, keeps the limits. */
  lemma FileKeepsSafe(ms: Messages, r: Reading, earlier: real, now: real)
    requires Safe(ms, earlier) && Ranged(ms) && earlier <= now
    ensures Safe(FileStep(ms, r, now).messages, now)
    ensures FileStep(ms, r, now).verdict != Refused(MemoryBudget)
  {
    ExpiryKeepsSafe(ms, earlier, now);
    match r
    case Whole(_) =>
    case Piece(f) => AcceptKeepsSafe(Unexpired(ms, now), f, now);
  }

  /** Reading and rebuilding raise other errors, not this one. */
  lemma ReadNeverBudget(c: Codec, value: string)
    ensures Read(c, value) != Whole(Err(MemoryBudget))
  {
  }

  lemma RebuildNeverBudget(c: Codec, id: string, h: Header, joined: string)
    requires h.size >= 0
    ensures Rebuild(c, id, h, joined) != Err(MemoryBudget)
  {
  }

  // ----- Whole runs -----

  datatype Input = Input(reading: Reading, at: real)

  /** The clock never runs backwards. */
  ghost predicate Ordered(inputs: seq<Input>)
    decreases |inputs|
  {
    |inputs| <= 1 || (Ordered(inputs[..|inputs| - 1]) && inputs[|inputs| - 2].at <= inputs[|inputs| - 1].at)
  }

  /** The stored messages after a sequence of readings on a new object. */
  ghost function After(inputs: seq<Input>): (ms: Messages)
    ensures Ranged(ms)
    decreases |inputs|
  {
    if inputs == [] then map[]
    else
      var last := inputs[|inputs| - 1];
      var before := After(inputs[..|inputs| - 1]);
      FileKeepsRanged(before, last.reading, last.at);
      FileStep(before, last.reading, last.at).messages
  }

  ghost function LastVerdict(inputs: seq<Input>): Verdict
    requires inputs != []
  {
    var n := |inputs| - 1;
    FileStep(After(inputs[..n]), inputs[n].reading, inputs[n].at).verdict
  }

  /** At every moment at most 16 messages are stored, each incomplete and under 30 seconds old. */
  lemma {:induction false} AlwaysSafe(inputs: seq<Input>)
    requires Ordered(inputs) && inputs != []
    ensures Safe(After(inputs), inputs[|inputs| - 1].at)
    ensures LastVerdict(inputs) != Refused(MemoryBudget)
    decreases |inputs|
  {
    var n := |inputs| - 1;
    var last := inputs[n];
    if n == 0 {
      FileKeepsSafe(After(inputs[..n]), last.reading, last.at, last.at);
    } else {
      AlwaysSafe(inputs[..n]);
      FileKeepsSafe(After(inputs[..n]), last.reading, inputs[n - 1].at, last.at);
    }
  }

  datatype Call = Call(value: string, at: real)

  function Inputs(c: Codec, calls: seq<Call>): seq<Input> {
    seq(|calls|, i requires 0 <= i < |calls| => Input(Read(c, calls[i].value), calls[i].at))
  }

  /** What `add` returns or raises for the last of these calls on a new object. */
  ghost function LastResult(c: Codec, calls: seq<Call>): Result<Option<Envelope>, ProtocolError>
    requires calls != []
  {
    Settle(c, LastVerdict(Inputs(c, calls)))
  }

  /** At every moment the limits hold, and declared sizes total at most 2 MiB. */
  lemma LimitsHold(inputs: seq<Input>)
    requires Ordered(inputs) && inputs != []
    ensures Safe(After(inputs), inputs[|inputs| - 1].at)
    ensures 0 <= SumSizes(After(inputs)) <= 2 * 1024 * 1024
  {
    AlwaysSafe(inputs);
    RoomForOne(After(inputs), inputs[|inputs| - 1].at);
  }

  /** So over any calls, whatever their text, the memory budget error is never raised. */
  lemma BudgetNeverExceeded(c: Codec, calls: seq<Call>)
    requires Ordered(Inputs(c, calls)) && calls != []
    ensures LastResult(c, calls) != Err(MemoryBudget)
  {
    var inputs := Inputs(c, calls);
    AlwaysSafe(inputs);
    SettleNeverBudget(c, calls, LastVerdict(inputs));
  }

  lemma SettleNeverBudget(c: Codec, calls: seq<Call>, v: Verdict)
    requires calls != [] && v == LastVerdict(Inputs(c, calls)) && v != Refused(MemoryBudget)
    ensures Settle(c, v) != Err(MemoryBudget)
  {
    var n := |calls| - 1;
    if v.Full? {
      RebuildNeverBudget(c, v.f.id, v.f.header, v.joined);
    } else if v.Direct? {
      DirectIsWhole(After(Inputs(c, calls)[..n]), Inputs(c, calls)[n].reading, calls[n].at);
      ReadNeverBudget(c, calls[n].value);
    }
  }

  lemma DirectIsWhole(ms: Messages, r: Reading, now: real)
    requires Ranged(ms)
    ensures FileStep(ms, r, now).verdict.Direct? ==> r == Whole(FileStep(ms, r, now).verdict.result)
  {
  }
}
