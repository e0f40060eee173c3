/**
 Any-order delivery: the fragments of up to sixteen messages, in any order and interleaving and
 with repeats, rebuild exactly the envelopes they were cut from.
 */
module Delivery {
  import opened Common
  import opened Json
  import opened Envelopes
  import opened Fragments
  import opened Reassembly
  import Base64
  import Irc
  import Utf8

  // ----- What a sender transmits -----

  /** An envelope and the pieces it was cut into; none when it fits one tag value whole. */
  datatype Message = Message(envelope: Envelope, pieces: seq<Fragment>) {
    function Parts(): nat {
      if pieces == [] then 1 else |pieces|
    }
  }

  /** The pieces agree on the message, and are numbered in order. */
  ghost predicate Shaped(m: Message) {
    forall i :: 0 <= i < |m.pieces| ==>
      && Bounded(m.pieces[i]) && m.pieces[i].id == m.envelope.id && m.pieces[i].part == i
      && m.pieces[i].header == m.pieces[0].header && m.pieces[i].header.parts == |m.pieces|
  }

  function ReadingOf(m: Message, part: nat): Reading
    requires part < m.Parts() && Shaped(m)
  {
    if m.pieces == [] then Whole(Ok(Some(m.envelope))) else Piece(m.pieces[part])
  }

  function ChunkMap(m: Message, got: set<int>): map<int, string>
    requires got <= Keys(|m.pieces|)
  {
    map i | i in got :: m.pieces[i].chunk
  }

  function AllChunks(m: Message): string {
    Joined(ChunkMap(m, Keys(|m.pieces|)), |m.pieces|)
  }

  // ----- A schedule of deliveries -----

  datatype Delivery = Delivery(message: nat, part: nat, at: real)

  /** How far a message has come. */
  datatype Progress = Idle | Collecting(first: real, got: set<int>)

  function ProgressOf(s: seq<Delivery>, m: nat): Progress
    decreases |s|
  {
    if s == [] then Idle
    else
      var d := s[|s| - 1];
      var before := ProgressOf(s[..|s| - 1], m);
      if d.message != m then before else Advance(before, d)
  }

  function Advance(p: Progress, d: Delivery): Progress {
    match p
    case Idle => Collecting(d.at, {d.part})
    case Collecting(first, got) => Collecting(first, got + {d.part})
  }

  predicate Complete(p: Progress, parts: nat) {
    p.Collecting? && p.got == Keys(parts)
  }

  /** May this delivery come now: not after its message is complete, nor 30 seconds after it began. */
  predicate InTime(p: Progress, d: Delivery, parts: nat) {
    !Complete(p, parts) && (p.Collecting? ==> d.at - p.first < FRAGMENT_TIMEOUT_SECONDS)
  }

  predicate Lawful(ms: seq<Message>, s: seq<Delivery>)
    decreases |s|
  {
    s == [] ||
    var n := |s| - 1;
    var d := s[n];
    && Lawful(ms, s[..n])
    && d.message < |ms| && d.part < ms[d.message].Parts()
    && (n > 0 ==> s[n - 1].at <= d.at)
    && InTime(ProgressOf(s[..n], d.message), d, ms[d.message].Parts())
  }

  ghost predicate AllShaped(ms: seq<Message>) {
    forall m :: 0 <= m < |ms| ==> Shaped(ms[m])
  }

  function InputsOf(ms: seq<Message>, s: seq<Delivery>): seq<Input>
    requires AllShaped(ms) && Lawful(ms, s)
    decreases |s|
  {
    if s == [] then []
    else
      var d := s[|s| - 1];
      InputsOf(ms, s[..|s| - 1]) + [Input(ReadingOf(ms[d.message], d.part), d.at)]
  }

  /** What the delivery that leads to this progress comes to: more wanted, or the message at last. */
  ghost predicate Due(m: Message, progress: Progress, v: Verdict) {
    if !Complete(progress, m.Parts()) then v == Waiting
    else if m.pieces == [] then v == Direct(Ok(Some(m.envelope)))
    else v.Full? && v.f.id == m.envelope.id && v.f.header == m.pieces[0].header && v.joined == AllChunks(m)
  }

  ghost predicate DistinctIds(ms: seq<Message>) {
    forall i, j :: 0 <= i < j < |ms| ==> ms[i].envelope.id != ms[j].envelope.id
  }

  /** Up to sixteen messages with distinct ids. */
  ghost predicate Deliverable(ms: seq<Message>) {
    AllShaped(ms) && DistinctIds(ms) && |ms| <= MAX_INFLIGHT_MESSAGES
  }

  function Ids(ms: seq<Message>): set<string> {
    set i | 0 <= i < |ms| :: ms[i].envelope.id
  }

  // ----- The stored messages follow the schedule -----

  ghost predicate Stored(p: Partial, m: Message, progress: Progress) {
    && progress.Collecting? && m.pieces != []
    && progress.got <= Keys(|m.pieces|) && progress.got != Keys(|m.pieces|)
    && p == Partial(progress.first, m.pieces[0].header, ChunkMap(m, progress.got))
  }

  /** A started message is stored as far as it came, unless it is complete or its time ran out. */
  ghost predicate Tracked(st: Messages, m: Message, progress: Progress, now: real) {
    && (m.envelope.id in st ==> Stored(st[m.envelope.id], m, progress))
    && (progress.Collecting? && !Complete(progress, m.Parts()) && m.envelope.id !in st ==>
          now - progress.first >= FRAGMENT_TIMEOUT_SECONDS)
  }

  ghost predicate Tracks(ms: seq<Message>, st: Messages, s: seq<Delivery>, now: real) {
    && st.Keys <= Ids(ms)
    && forall m :: 0 <= m < |ms| ==> Tracked(st, ms[m], ProgressOf(s, m), now)
  }

  lemma ExpiryTracks(ms: seq<Message>, st: Messages, s: seq<Delivery>, earlier: real, now: real)
    requires Tracks(ms, st, s, earlier) && earlier <= now
    ensures Tracks(ms, Unexpired(st, now), s, now)
  {
    forall m | 0 <= m < |ms| ensures Tracked(Unexpired(st, now), ms[m], ProgressOf(s, m), now) {
      assert Tracked(st, ms[m], ProgressOf(s, m), earlier);
    }
  }

  /** Storing piece i of a message of which the parts `got` are stored. */
  lemma StoreNext(m: Message, st: Messages, i: nat, got: set<int>, p: Partial)
    requires Shaped(m) && i < |m.pieces| && got <= Keys(|m.pieces|)
    requires p.header == m.pieces[0].header && p.chunks == ChunkMap(m, got)
    ensures var next := got + {i};
      && next <= Keys(|m.pieces|)
      && Store(st, m.pieces[i], p) ==
           if next == Keys(|m.pieces|) then Filed(st - {m.envelope.id}, Full(m.pieces[i], AllChunks(m)))
           else Filed(st[m.envelope.id := Partial(p.created, m.pieces[0].header, ChunkMap(m, next))], Waiting)
  {
    var next := got + {i};
    assert i in Keys(|m.pieces|);
    assert p.chunks[i := m.pieces[i].chunk] == ChunkMap(m, next);
    MapCard(ChunkMap(m, next));
    assert ChunkMap(m, next).Keys == next;
    FullIffCount(next, |m.pieces|);
  }

  /** What filing a piece makes of the store, once these parts have come. */
  function NextFiled(m: Message, st: Messages, first: real, got: set<int>, part: nat): Filed
    requires Shaped(m) && part < |m.pieces| && got <= Keys(|m.pieces|)
  {
    if got == Keys(|m.pieces|) then Filed(st - {m.envelope.id}, Full(m.pieces[part], AllChunks(m)))
    else Filed(st[m.envelope.id := Partial(first, m.pieces[0].header, ChunkMap(m, got))], Waiting)
  }

  /** Filing a further piece of a message that is under way. */
  lemma FileAgain(m: Message, st: Messages, progress: Progress, d: Delivery)
    requires Shaped(m) && d.part < |m.pieces| && Ranged(st) && m.envelope.id in st
    requires Tracked(st, m, progress, d.at) && InTime(progress, d, |m.pieces|)
    ensures progress.Collecting? && progress.got + {d.part} <= Keys(|m.pieces|)
    ensures Accept(st, m.pieces[d.part], d.at) == NextFiled(m, st, progress.first, progress.got + {d.part}, d.part)
  {
    StoreNext(m, st, d.part, progress.got, st[m.envelope.id]);
  }

  /** Filing the first piece of a message. */
  lemma FileFirst(m: Message, st: Messages, d: Delivery)
    requires Shaped(m) && d.part < |m.pieces| && Ranged(st) && m.envelope.id !in st
    requires |st| < MAX_INFLIGHT_MESSAGES && SumSizes(st) + MAX_PAYLOAD_BYTES <= MAX_INFLIGHT_BYTES
    ensures {d.part as int} <= Keys(|m.pieces|)
    ensures Accept(st, m.pieces[d.part], d.at) == NextFiled(m, st, d.at, {d.part}, d.part)
  {
    var f: BoundedFragment := m.pieces[d.part];
    StoreNext(m, st, d.part, {}, Partial(d.at, f.header, map[]));
    assert {} + {d.part as int} == {d.part as int};
  }

  /** Either way, it is filed as a piece that is new to its message. */
  lemma FileNext(m: Message, st: Messages, progress: Progress, d: Delivery)
    requires Shaped(m) && d.part < |m.pieces| && Ranged(st)
    requires Tracked(st, m, progress, d.at) && InTime(progress, d, |m.pieces|)
    requires m.envelope.id !in st ==>
      |st| < MAX_INFLIGHT_MESSAGES && SumSizes(st) + MAX_PAYLOAD_BYTES <= MAX_INFLIGHT_BYTES
    ensures var next := Advance(progress, d);
      && next.got <= Keys(|m.pieces|)
      && Accept(st, m.pieces[d.part], d.at) == NextFiled(m, st, next.first, next.got, d.part)
  {
    if m.envelope.id in st {
      FileAgain(m, st, progress, d);
    } else {
      FileFirst(m, st, d);
    }
  }

  lemma FiledTracks(m: Message, st: Messages, next: Progress, part: nat, now: real)
    requires Shaped(m) && part < |m.pieces| && next.Collecting? && next.got <= Keys(|m.pieces|)
    ensures var filed := NextFiled(m, st, next.first, next.got, part);
      && Tracked(filed.messages, m, next, now) && filed.messages - {m.envelope.id} == st - {m.envelope.id}
  {
  }

  /** The other messages are as they were, and this one is tracked again: all are. */
  lemma StepTracks(ms: seq<Message>, st: Messages, s: seq<Delivery>, d: Delivery, filed: Messages)
    requires Tracks(ms, st, s, d.at) && DistinctIds(ms) && d.message < |ms|
    requires var id := ms[d.message].envelope.id; filed - {id} == st - {id}
    requires Tracked(filed, ms[d.message], Advance(ProgressOf(s, d.message), d), d.at)
    ensures Tracks(ms, filed, s + [d], d.at)
  {
    var id := ms[d.message].envelope.id;
    assert (s + [d])[..|s|] == s;
    assert id in Ids(ms);
    forall x | x in filed ensures x in Ids(ms) {
      if x != id {
        assert x in filed - {id};
      }
    }
    forall m | 0 <= m < |ms| ensures Tracked(filed, ms[m], ProgressOf(s + [d], m), d.at) {
      assert Tracked(st, ms[m], ProgressOf(s, m), d.at);
      if m != d.message {
        var other := ms[m].envelope.id;
        assert other != id;
        assert other in filed <==> other in filed - {id};
        assert other in st <==> other in st - {id};
      }
    }
  }

  /** A new message finds room: its own id is not among the stored ones. */
  lemma RoomForNew(ms: seq<Message>, st: Messages, m: nat, now: real)
    requires |ms| <= MAX_INFLIGHT_MESSAGES && m < |ms| && st.Keys <= Ids(ms) && Safe(st, now)
    requires ms[m].envelope.id !in st
    ensures |st| < MAX_INFLIGHT_MESSAGES && SumSizes(st) + MAX_PAYLOAD_BYTES <= MAX_INFLIGHT_BYTES
  {
    IdsCard(ms);
    var id := ms[m].envelope.id;
    assert id in Ids(ms);
    SubsetCard(st.Keys, Ids(ms) - {id});
    MapCard(st);
    RoomForOne(st, now);
  }

  lemma {:induction false} IdsCard(ms: seq<Message>)
    ensures |Ids(ms)| <= |ms|
    decreases |ms|
  {
    if ms != [] {
      var n := |ms| - 1;
      IdsCard(ms[..n]);
      assert Ids(ms) == Ids(ms[..n]) + {ms[n].envelope.id};
    }
  }

  /** One lawful delivery to a tracked state. */
  lemma DeliverOne(ms: seq<Message>, st: Messages, s: seq<Delivery>, d: Delivery)
    requires Deliverable(ms) && d.message < |ms| && d.part < ms[d.message].Parts()
    requires Tracks(ms, st, s, d.at) && Safe(st, d.at) && Ranged(st) && Unexpired(st, d.at) == st
    requires InTime(ProgressOf(s, d.message), d, ms[d.message].Parts())
    ensures var m := ms[d.message];
      var next := Advance(ProgressOf(s, d.message), d);
      var filed := FileStep(st, ReadingOf(m, d.part), d.at);
      Tracks(ms, filed.messages, s + [d], d.at) && Due(m, next, filed.verdict)
  {
    var m := ms[d.message];
    assert Shaped(m) && Tracked(st, m, ProgressOf(s, d.message), d.at);
    if m.pieces == [] {
      DeliverWhole(m, st, ProgressOf(s, d.message), d);
      StepTracks(ms, st, s, d, st);
    } else {
      if m.envelope.id !in st {
        RoomForNew(ms, st, d.message, d.at);
      }
      DeliverPiece(m, st, ProgressOf(s, d.message), d);
      StepTracks(ms, st, s, d, Accept(st, m.pieces[d.part], d.at).messages);
    }
  }

  lemma DeliverWhole(m: Message, st: Messages, progress: Progress, d: Delivery)
    requires m.pieces == [] && d.part == 0 && Ranged(st) && Unexpired(st, d.at) == st
    requires Tracked(st, m, progress, d.at) && InTime(progress, d, 1)
    ensures var next := Advance(progress, d);
      var filed := FileStep(st, Whole(Ok(Some(m.envelope))), d.at);
      filed.messages == st && Tracked(st, m, next, d.at) && Due(m, next, filed.verdict)
  {
    assert 0 in Keys(1) && Keys(1) == {0};
  }

  lemma DeliverPiece(m: Message, st: Messages, progress: Progress, d: Delivery)
    requires Shaped(m) && d.part < |m.pieces| && Ranged(st)
    requires Tracked(st, m, progress, d.at) && InTime(progress, d, |m.pieces|)
    requires m.envelope.id !in st ==>
      |st| < MAX_INFLIGHT_MESSAGES && SumSizes(st) + MAX_PAYLOAD_BYTES <= MAX_INFLIGHT_BYTES
    ensures var next := Advance(progress, d);
      var filed := Accept(st, m.pieces[d.part], d.at);
      && Tracked(filed.messages, m, next, d.at) && Due(m, next, filed.verdict)
      && filed.messages - {m.envelope.id} == st - {m.envelope.id}
  {
    FileNext(m, st, progress, d);
    FiledTracks(m, st, Advance(progress, d), d.part, d.at);
  }

  lemma InputsOrdered(ms: seq<Message>, s: seq<Delivery>)
    requires AllShaped(ms) && Lawful(ms, s)
    ensures |InputsOf(ms, s)| == |s| && Ordered(InputsOf(ms, s))
    ensures s != [] ==> InputsOf(ms, s)[|s| - 1].at == s[|s| - 1].at
    decreases |s|
  {
    if s != [] {
      var n := |s| - 1;
      InputsOrdered(ms, s[..n]);
      assert InputsOf(ms, s)[..n] == InputsOf(ms, s[..n]);
      if n > 0 {
        assert InputsOf(ms, s)[n - 1] == InputsOf(ms, s[..n])[n - 1];
      }
    }
  }

  lemma LiveTracks(ms: seq<Message>, s: seq<Delivery>, now: real)
    requires AllShaped(ms) && Lawful(ms, s) && s != [] && s[|s| - 1].at <= now
    requires Tracks(ms, After(InputsOf(ms, s)), s, s[|s| - 1].at)
    ensures var live := Unexpired(After(InputsOf(ms, s)), now);
      Tracks(ms, live, s, now) && Safe(live, now)
  {
    InputsOrdered(ms, s);
    var st, earlier := After(InputsOf(ms, s)), s[|s| - 1].at;
    AlwaysSafe(InputsOf(ms, s));
    ExpiryTracks(ms, st, s, earlier, now);
    ExpiryKeepsSafe(st, earlier, now);
  }

  lemma NothingTracks(ms: seq<Message>, s: seq<Delivery>, now: real)
    requires AllShaped(ms) && s == []
    ensures Ready(ms, s, now)
  {
  }

  lemma ExpireTwice(st: Messages, r: Reading, now: real)
    requires Ranged(st)
    ensures Unexpired(Unexpired(st, now), now) == Unexpired(st, now)
    ensures Ranged(Unexpired(st, now))
    ensures FileStep(Unexpired(st, now), r, now) == FileStep(st, r, now)
  {
    assert Unexpired(Unexpired(st, now), now) == Unexpired(st, now);
  }

  lemma LastInput(ms: seq<Message>, s: seq<Delivery>)
    requires AllShaped(ms) && Lawful(ms, s) && s != []
    ensures var n := |s| - 1;
      var filed := FileStep(After(InputsOf(ms, s[..n])), ReadingOf(ms[s[n].message], s[n].part), s[n].at);
      && InputsOf(ms, s) != []
      && After(InputsOf(ms, s)) == filed.messages && LastVerdict(InputsOf(ms, s)) == filed.verdict
  {
    var n, inputs := |s| - 1, InputsOf(ms, s);
    assert inputs[..|inputs| - 1] == InputsOf(ms, s[..n]);
  }

  /** The state follows the schedule, and the last delivery came to what was due. */
  ghost predicate Followed(ms: seq<Message>, s: seq<Delivery>)
    requires AllShaped(ms) && Lawful(ms, s) && s != []
  {
    var m := s[|s| - 1].message;
    && Tracks(ms, After(InputsOf(ms, s)), s, s[|s| - 1].at)
    && InputsOf(ms, s) != [] && Due(ms[m], ProgressOf(s, m), LastVerdict(InputsOf(ms, s)))
  }

  ghost predicate Ready(ms: seq<Message>, prefix: seq<Delivery>, now: real)
    requires AllShaped(ms) && Lawful(ms, prefix)
  {
    var live := Unexpired(After(InputsOf(ms, prefix)), now);
    Tracks(ms, live, prefix, now) && Safe(live, now)
  }

  lemma {:induction false} RunTracks(ms: seq<Message>, prefix: seq<Delivery>, d: Delivery)
    requires Deliverable(ms) && Lawful(ms, prefix) && Lawful(ms, prefix + [d])
    ensures Followed(ms, prefix + [d])
    decreases |prefix|
  {
    if prefix == [] {
      NothingTracks(ms, prefix, d.at);
    } else {
      var n := |prefix| - 1;
      LawfulSplit(ms, prefix);
      RunTracks(ms, prefix[..n], prefix[n]);
      FollowedIsReady(ms, prefix, d);
    }
    RunOnce(ms, prefix, d);
  }

  lemma FollowedIsReady(ms: seq<Message>, s: seq<Delivery>, d: Delivery)
    requires AllShaped(ms) && Lawful(ms, s) && s != [] && Lawful(ms, s + [d]) && Followed(ms, s)
    ensures Ready(ms, s, d.at)
  {
    assert (s + [d])[|s| - 1] == s[|s| - 1];
    LiveTracks(ms, s, d.at);
  }

  lemma LawfulIsFollowed(ms: seq<Message>, s: seq<Delivery>)
    requires Deliverable(ms) && Lawful(ms, s) && s != []
    ensures Followed(ms, s)
  {
    var n := |s| - 1;
    LawfulSplit(ms, s);
    RunTracks(ms, s[..n], s[n]);
  }

  lemma LawfulSplit(ms: seq<Message>, s: seq<Delivery>)
    requires Lawful(ms, s) && s != []
    ensures s[..|s| - 1] + [s[|s| - 1]] == s && Lawful(ms, s[..|s| - 1])
  {
  }

  lemma RunOnce(ms: seq<Message>, prefix: seq<Delivery>, d: Delivery)
    requires Deliverable(ms) && Lawful(ms, prefix) && Lawful(ms, prefix + [d])
    requires Ready(ms, prefix, d.at)
    ensures Followed(ms, prefix + [d])
  {
    var before, s := After(InputsOf(ms, prefix)), prefix + [d];
    assert s[..|prefix|] == prefix;
    ExpireTwice(before, ReadingOf(ms[d.message], d.part), d.at);
    LastInput(ms, s);
    DeliverOne(ms, Unexpired(before, d.at), prefix, d);
  }

  lemma {:induction false} PrefixLawful(ms: seq<Message>, s: seq<Delivery>, n: nat)
    requires Lawful(ms, s) && n <= |s|
    ensures Lawful(ms, s[..n])
    decreases |s|
  {
    if n < |s| {
      assert s[..|s| - 1][..n] == s[..n];
      PrefixLawful(ms, s[..|s| - 1], n);
    } else {
      assert s[..n] == s;
    }
  }

  lemma CompleteIsGone(m: Message, st: Messages, progress: Progress, now: real)
    requires Tracked(st, m, progress, now) && Complete(progress, m.Parts())
    ensures m.envelope.id !in st
  {
  }

  /** When every message has arrived whole, nothing is left stored. */
  lemma NothingLeftBehind(ms: seq<Message>, s: seq<Delivery>)
    requires Deliverable(ms) && Lawful(ms, s)
    requires forall m :: 0 <= m < |ms| ==> Complete(ProgressOf(s, m), ms[m].Parts())
    ensures After(InputsOf(ms, s)) == map[]
  {
    if s != [] {
      LawfulIsFollowed(ms, s);
      var st := After(InputsOf(ms, s));
      forall m | 0 <= m < |ms| ensures ms[m].envelope.id !in st {
        CompleteIsGone(ms[m], st, ProgressOf(s, m), s[|s| - 1].at);
      }
      assert st.Keys == {};
    }
  }

  // ----- From envelopes to messages -----

  function PiecesFor(c: Codec, e: Envelope, maxTagBytes: int): seq<Fragment> {
    if maxTagBytes <= RESERVED then []
    else Pieces(c, e, Utf8.Encode(c.dumps(ToDict(e))), maxTagBytes - RESERVED)
  }

  /**
   What the round trip relies on, at this one envelope: JSON text reads back, inflating undoes
   compressing, and the digest is not empty.
   */
  ghost predicate Faithful(c: Codec, e: Envelope, maxTagBytes: int) {
    Invertible(c, e) && JsonCarriesAll(c, PiecesFor(c, e, maxTagBytes))
  }

  ghost predicate Invertible(c: Codec, e: Envelope) {
    var raw := Utf8.Encode(c.dumps(ToDict(e)));
    && Acceptable(c, e)
    && JsonCarries(c, e)
    && c.sha256(raw) != ""
    && c.compress(raw) != [] && c.inflate(c.compress(raw), |raw| + 1) == Some(Inflated(raw, true, false))
  }

  ghost predicate JsonCarriesPiece(c: Codec, f: Fragment) {
    c.loads(Render(f)) == Some(Obj(FragmentObject(f)))
  }

  ghost predicate JsonCarriesAll(c: Codec, pieces: seq<Fragment>) {
    forall i :: 0 <= i < |pieces| ==> JsonCarriesPiece(c, pieces[i])
  }

  /** The envelope with the pieces fragment_envelope cut it into. */
  function MessageOf(c: Codec, e: Envelope, maxTagBytes: int): Message {
    Message(e, if WireSize(c.dumps(ToDict(e))) <= maxTagBytes then [] else PiecesFor(c, e, maxTagBytes))
  }

  lemma FragmentIsNoKind(t: MessageType)
    ensures !KindAllowed("fragment", t)
  {
  }

  lemma WholeReads(c: Codec, e: Envelope)
    requires Acceptable(c, e) && JsonCarries(c, e)
    ensures Read(c, c.dumps(ToDict(e))) == Whole(Ok(Some(e)))
  {
    DictHoldsHead(e);
    DictRoundTrip(c, e);
    FragmentIsNoKind(e.messageType);
  }

  lemma PieceReads(c: Codec, f: Fragment)
    requires GoodFragment(f) && JsonCarriesPiece(c, f)
    ensures Read(c, Render(f)) == Piece(f)
  {
    FragmentRoundTrip(f);
    ObjectIsFragment(f);
    ObjectReads(c, Render(f), FragmentObject(f), f);
  }

  lemma ObjectReads(c: Codec, value: string, o: Object, f: Fragment)
    requires c.loads(value) == Some(Obj(o)) && Get(o, "k") == Some(Str("fragment")) && ParseFragment(o) == Ok(f)
    ensures Bounded(f) && Read(c, value) == Piece(f)
  {
    ParsedIsBounded(o);
  }

  lemma PieceIsGood(c: Codec, e: Envelope, raw: seq<byte>, chunkSize: nat, i: nat)
    requires Acceptable(c, e) && chunkSize > 0 && 1 <= |raw| <= MAX_PAYLOAD_BYTES && c.sha256(raw) != ""
    requires i < |Pieces(c, e, raw, chunkSize)| <= MAX_FRAGMENTS
    ensures GoodFragment(Pieces(c, e, raw, chunkSize)[i])
  {
    var encoded := Base64.StripPadding(Base64.Encode(Pack(c, raw, chunkSize).payload, true));
    CutSizes(encoded, chunkSize, i);
  }

  /** The joined text of all pieces rebuilds the envelope. */
  lemma RebuildsEnvelope(c: Codec, e: Envelope, text: string, chunkSize: nat, parts: nat)
    requires Encode(c, e).Ok? && Invertible(c, e) && chunkSize > 0 && text == c.dumps(ToDict(e))
    ensures var raw := Utf8.Encode(text);
      var pack := Pack(c, raw, chunkSize);
      Rebuild(c, e.id, HeaderOf(c, e, raw, pack.encoding, parts), Base64.Unpadded(pack.payload, true)) == Ok(e)
  {
    var raw := Utf8.Encode(text);
    var pack := Pack(c, raw, chunkSize);
    Base64.StrippedRoundTrip(pack.payload, true);
    assert Unpack(c, pack.payload, HeaderOf(c, e, raw, pack.encoding, parts)) == Ok(raw);
    Utf8.RoundTrip(text);
    TextRoundTrip(c, e, text);
  }

  lemma {:induction false} JoinedIsFlatten(chunks: seq<string>, n: nat)
    requires n <= |chunks|
    ensures var m := map i | i in Keys(|chunks|) :: chunks[i];
      Keys(n) <= m.Keys && Joined(m, n) == Flatten(chunks[..n])
  {
    var m := map i | i in Keys(|chunks|) :: chunks[i];
    if n > 0 {
      JoinedIsFlatten(chunks, n - 1);
      assert chunks[..n] == chunks[..n - 1] + [chunks[n - 1]];
      FlattenSnoc(chunks[..n - 1], chunks[n - 1]);
      assert n - 1 in Keys(n);
    }
  }

  lemma PiecesJoin(c: Codec, e: Envelope, raw: seq<byte>, chunkSize: nat, m: Message)
    requires chunkSize > 0 && m.pieces == Pieces(c, e, raw, chunkSize)
    ensures AllChunks(m) == Base64.Unpadded(Pack(c, raw, chunkSize).payload, true)
  {
    var payload := Pack(c, raw, chunkSize).payload;
    Base64.StripEncode(payload, true);
    var encoded := Base64.Unpadded(payload, true);
    var chunks := Cut(encoded, chunkSize);
    CutJoins(encoded, chunkSize);
    JoinedIsFlatten(chunks, |chunks|);
    assert chunks[..|chunks|] == chunks;
    assert ChunkMap(m, Keys(|m.pieces|)) == map i | i in Keys(|chunks|) :: chunks[i];
  }

  lemma PayloadIsNotEmpty(c: Codec, e: Envelope, raw: seq<byte>, chunkSize: nat)
    requires chunkSize > 0 && raw != [] && c.compress(raw) != []
    ensures |Pieces(c, e, raw, chunkSize)| >= 1
  {
    CountIsReal(Pack(c, raw, chunkSize).payload, chunkSize);
  }

  /** Every piece's text reads back as the piece. */
  ghost predicate AllRead(c: Codec, m: Message) {
    forall i :: 0 <= i < |m.pieces| ==> Bounded(m.pieces[i]) && Read(c, Render(m.pieces[i])) == Piece(m.pieces[i])
  }

  /** The message was cut from these bytes, into a number of pieces that may be sent. */
  ghost predicate CutFrom(c: Codec, m: Message, raw: seq<byte>, chunkSize: int) {
    && chunkSize > 0 && 1 <= |raw| <= MAX_PAYLOAD_BYTES && c.sha256(raw) != ""
    && m.pieces == Pieces(c, m.envelope, raw, chunkSize) && 1 <= |m.pieces| <= MAX_FRAGMENTS
  }

  lemma PieceIsSound(c: Codec, m: Message, raw: seq<byte>, chunkSize: int, i: nat)
    requires Acceptable(c, m.envelope) && CutFrom(c, m, raw, chunkSize)
    requires i < |m.pieces| && JsonCarriesPiece(c, m.pieces[i])
    ensures Bounded(m.pieces[i]) && Read(c, Render(m.pieces[i])) == Piece(m.pieces[i])
  {
    PieceIsGood(c, m.envelope, raw, chunkSize, i);
    PieceReads(c, m.pieces[i]);
  }

  /** All pieces are shaped and readable. */
  lemma PiecesAreSound(c: Codec, m: Message, raw: seq<byte>, chunkSize: int)
    requires Acceptable(c, m.envelope) && CutFrom(c, m, raw, chunkSize) && JsonCarriesAll(c, m.pieces)
    ensures Shaped(m) && AllRead(c, m)
  {
    forall i | 0 <= i < |m.pieces|
      ensures Bounded(m.pieces[i]) && Read(c, Render(m.pieces[i])) == Piece(m.pieces[i])
    {
      assert JsonCarriesPiece(c, m.pieces[i]);
      PieceIsSound(c, m, raw, chunkSize, i);
    }
    PiecesAreShaped(c, m, raw, chunkSize);
  }

  lemma PiecesAreShaped(c: Codec, m: Message, raw: seq<byte>, chunkSize: int)
    requires CutFrom(c, m, raw, chunkSize) && forall i :: 0 <= i < |m.pieces| ==> Bounded(m.pieces[i])
    ensures Shaped(m)
  {
  }

  /** These values read back as the message's pieces, or as its whole envelope. */
  ghost predicate Readable(c: Codec, m: Message, values: seq<string>) {
    Shaped(m) && |values| == m.Parts() && forall i :: 0 <= i < m.Parts() ==> Read(c, values[i]) == ReadingOf(m, i)
  }

  ghost predicate Rebuilds(c: Codec, m: Message) {
    m.pieces != [] ==>
      && m.pieces[0].header.size >= 0
      && Rebuild(c, m.envelope.id, m.pieces[0].header, AllChunks(m)) == Ok(m.envelope)
  }

  /** What fragment_envelope makes of an envelope that fits one tag. */
  lemma SmallIsWhole(c: Codec, e: Envelope, maxTagBytes: int, text: string)
    requires text == c.dumps(ToDict(e)) && WireSize(text) <= maxTagBytes && Fragmented(c, e, maxTagBytes).Ok?
    ensures MessageOf(c, e, maxTagBytes) == Message(e, []) && Fragmented(c, e, maxTagBytes) == Ok([text])
  {
  }

  lemma WholeIsReadable(c: Codec, m: Message, text: string)
    requires m.pieces == [] && text == c.dumps(ToDict(m.envelope)) && Acceptable(c, m.envelope)
      && JsonCarries(c, m.envelope)
    ensures Readable(c, m, [text])
  {
    WholeReads(c, m.envelope);
  }

  /** And of one that does not. */
  ghost predicate LargeCut(c: Codec, e: Envelope, maxTagBytes: int, raw: seq<byte>, m: Message, values: seq<string>) {
    && raw == Utf8.Encode(c.dumps(ToDict(e))) && |raw| <= MAX_PAYLOAD_BYTES && maxTagBytes > RESERVED
    && m == Message(e, PiecesFor(c, e, maxTagBytes)) && |m.pieces| <= MAX_FRAGMENTS
    && values == Rendered(m.pieces, Render)
  }

  lemma LargeIsRendered(c: Codec, e: Envelope, maxTagBytes: int, raw: seq<byte>)
    requires raw == Utf8.Encode(c.dumps(ToDict(e))) && WireSize(c.dumps(ToDict(e))) > maxTagBytes
    requires Fragmented(c, e, maxTagBytes).Ok?
    ensures LargeCut(c, e, maxTagBytes, raw, MessageOf(c, e, maxTagBytes), Fragmented(c, e, maxTagBytes).value)
  {
  }

  lemma LargeIsCut(c: Codec, raw: seq<byte>, chunkSize: int, m: Message)
    requires chunkSize > 0 && 1 <= |raw| <= MAX_PAYLOAD_BYTES && c.sha256(raw) != "" && c.compress(raw) != []
    requires m.pieces == Pieces(c, m.envelope, raw, chunkSize) && |m.pieces| <= MAX_FRAGMENTS
    ensures CutFrom(c, m, raw, chunkSize)
  {
    PayloadIsNotEmpty(c, m.envelope, raw, chunkSize);
  }

  ghost predicate CutReady(c: Codec, m: Message, raw: seq<byte>, chunkSize: int) {
    Acceptable(c, m.envelope) && CutFrom(c, m, raw, chunkSize) && JsonCarriesAll(c, m.pieces)
  }

  lemma CutIsReadable(c: Codec, raw: seq<byte>, chunkSize: int, m: Message, values: seq<string>)
    requires Given(CutReady(c, m, raw, chunkSize)) && values == Rendered(m.pieces, Render)
    ensures Given(Readable(c, m, values))
  {
    PiecesAreSound(c, m, raw, chunkSize);
    RenderedReads(c, m, values);
  }

  lemma LargeIsSent(c: Codec, e: Envelope, maxTagBytes: int, raw: seq<byte>, m: Message, values: seq<string>)
    requires raw != [] && LargeCut(c, e, maxTagBytes, raw, m, values) && Faithful(c, e, maxTagBytes)
    ensures CutReady(c, m, raw, maxTagBytes - RESERVED)
  {
    LargeIsCut(c, raw, maxTagBytes - RESERVED, m);
  }

  lemma FragmentedIsReadable(c: Codec, e: Envelope, maxTagBytes: int)
    requires Fragmented(c, e, maxTagBytes).Ok? && Faithful(c, e, maxTagBytes)
    ensures Readable(c, MessageOf(c, e, maxTagBytes), Fragmented(c, e, maxTagBytes).value)
  {
    var text := c.dumps(ToDict(e));
    if WireSize(text) <= maxTagBytes {
      SmallIsWhole(c, e, maxTagBytes, text);
      WholeIsReadable(c, Message(e, []), text);
    } else {
      ReadableLarge(c, e, maxTagBytes, MessageOf(c, e, maxTagBytes), Fragmented(c, e, maxTagBytes).value);
    }
  }

  lemma SentLarge(c: Codec, e: Envelope, maxTagBytes: int, m: Message, values: seq<string>) returns (raw: seq<byte>)
    requires m == MessageOf(c, e, maxTagBytes) && Fragmented(c, e, maxTagBytes) == Ok(values)
    requires WireSize(c.dumps(ToDict(e))) > maxTagBytes && Given(Faithful(c, e, maxTagBytes))
    ensures Given(CutReady(c, m, raw, maxTagBytes - RESERVED)) && values == Rendered(m.pieces, Render)
  {
    raw := Utf8.Encode(c.dumps(ToDict(e)));
    RawIsNotEmpty(c.dumps(ToDict(e)));
    LargeIsRendered(c, e, maxTagBytes, raw);
    assert LargeCut(c, e, maxTagBytes, raw, m, values);
    LargeIsSent(c, e, maxTagBytes, raw, m, values);
  }

  lemma ReadableLarge(c: Codec, e: Envelope, maxTagBytes: int, m: Message, values: seq<string>)
    requires m == MessageOf(c, e, maxTagBytes) && Fragmented(c, e, maxTagBytes) == Ok(values)
    requires WireSize(c.dumps(ToDict(e))) > maxTagBytes && Given(Faithful(c, e, maxTagBytes))
    ensures Given(Readable(c, m, values))
  {
    var raw := SentLarge(c, e, maxTagBytes, m, values);
    CutIsReadable(c, raw, maxTagBytes - RESERVED, m, values);
  }

  lemma RenderedReads(c: Codec, m: Message, values: seq<string>)
    requires Shaped(m) && m.pieces != [] && values == Rendered(m.pieces, Render)
    requires AllRead(c, m)
    ensures Readable(c, m, values)
  {
    forall i | 0 <= i < |m.pieces| ensures Read(c, values[i]) == Piece(m.pieces[i]) {
      assert values[i] == Render(m.pieces[i]);
    }
  }

  lemma FragmentedRebuilds(c: Codec, e: Envelope, maxTagBytes: int)
    requires Encode(c, e).Ok? && Invertible(c, e)
    ensures Rebuilds(c, MessageOf(c, e, maxTagBytes))
  {
    MessageIsCut(c, e, maxTagBytes);
    PiecesRebuild(c, e, maxTagBytes, MessageOf(c, e, maxTagBytes));
  }

  ghost predicate CutOf(c: Codec, e: Envelope, chunkSize: nat, m: Message)
    requires chunkSize > 0
  {
    m == Message(e, Pieces(c, e, Utf8.Encode(c.dumps(ToDict(e))), chunkSize))
  }

  /** The message is whole, or these pieces. */
  ghost predicate IsCut(c: Codec, e: Envelope, maxTagBytes: int, m: Message) {
    m.pieces != [] ==>
      maxTagBytes > RESERVED && Given(CutOf(c, e, maxTagBytes - RESERVED, m))
  }

  lemma PiecesRebuild(c: Codec, e: Envelope, maxTagBytes: int, m: Message)
    requires Encode(c, e).Ok? && Given(Invertible(c, e)) && Given(IsCut(c, e, maxTagBytes, m))
    ensures Given(Rebuilds(c, m))
  {
    if m.pieces == [] {
      NothingToRebuild(c, m);
    } else {
      RebuildsCut(c, e, maxTagBytes, m);
    }
  }

  lemma NothingToRebuild(c: Codec, m: Message)
    requires m.pieces == []
    ensures Given(Rebuilds(c, m))
  {
  }

  lemma MessageIsCut(c: Codec, e: Envelope, maxTagBytes: int)
    ensures IsCut(c, e, maxTagBytes, MessageOf(c, e, maxTagBytes))
  {
  }

  lemma RebuildsCut(c: Codec, e: Envelope, maxTagBytes: int, m: Message)
    requires Encode(c, e).Ok? && Given(Invertible(c, e)) && Given(IsCut(c, e, maxTagBytes, m)) && m.pieces != []
    ensures Given(Rebuilds(c, m))
  {
    CutRebuilds(c, e, maxTagBytes - RESERVED, m);
  }

  lemma CutRebuilds(c: Codec, e: Envelope, chunkSize: nat, m: Message)
    requires Encode(c, e).Ok? && Given(Invertible(c, e)) && chunkSize > 0
    requires Given(CutOf(c, e, chunkSize, m))
    ensures Given(Rebuilds(c, m))
  {
    var text := c.dumps(ToDict(e));
    var raw := Utf8.Encode(text);
    var pack := Pack(c, raw, chunkSize);
    RebuildsEnvelope(c, e, text, chunkSize, |m.pieces|);
    PiecesJoin(c, e, raw, chunkSize, m);
    FirstHeader(c, e, raw, chunkSize);
    RebuildsFrom(c, m, HeaderOf(c, e, raw, pack.encoding, |m.pieces|), Base64.Unpadded(pack.payload, true));
  }

  lemma FirstHeader(c: Codec, e: Envelope, raw: seq<byte>, chunkSize: nat)
    requires chunkSize > 0
    ensures var pieces := Pieces(c, e, raw, chunkSize);
      pieces != [] ==> pieces[0].header == HeaderOf(c, e, raw, Pack(c, raw, chunkSize).encoding, |pieces|)
  {
  }

  lemma RebuildsFrom(c: Codec, m: Message, h: Header, joined: string)
    requires m.pieces != [] ==> m.pieces[0].header == h
    requires AllChunks(m) == joined && h.size >= 0 && Rebuild(c, m.envelope.id, h, joined) == Ok(m.envelope)
    ensures Rebuilds(c, m)
  {
  }

  // ----- End to end -----

  /** The calls that hand over the values, in the schedule's order. */
  ghost predicate Hands(values: seq<seq<string>>, s: seq<Delivery>, calls: seq<Call>) {
    && |calls| == |s|
    && forall i :: 0 <= i < |s| ==> IsCall(values, s[i], calls[i])
  }

  ghost predicate IsCall(values: seq<seq<string>>, d: Delivery, call: Call) {
    d.message < |values| && d.part < |values[d.message]| && call == Call(values[d.message][d.part], d.at)
  }

  ghost predicate AllReadable(c: Codec, ms: seq<Message>, values: seq<seq<string>>) {
    |values| == |ms| && forall i :: 0 <= i < |ms| ==> Readable(c, ms[i], values[i])
  }

  ghost predicate AllRebuild(c: Codec, ms: seq<Message>) {
    forall i :: 0 <= i < |ms| ==> Rebuilds(c, ms[i])
  }

  lemma {:induction false} InputsAt(ms: seq<Message>, s: seq<Delivery>, i: nat)
    requires AllShaped(ms) && Lawful(ms, s) && i < |s|
    ensures |InputsOf(ms, s)| == |s| && s[i].message < |ms| && s[i].part < ms[s[i].message].Parts()
    ensures InputsOf(ms, s)[i] == Input(ReadingOf(ms[s[i].message], s[i].part), s[i].at)
    decreases |s|
  {
    InputsOrdered(ms, s);
    if i < |s| - 1 {
      InputsAt(ms, s[..|s| - 1], i);
    }
  }

  lemma HandedInputs(c: Codec, ms: seq<Message>, values: seq<seq<string>>, s: seq<Delivery>, calls: seq<Call>)
    requires AllReadable(c, ms, values) && Hands(values, s, calls) && AllShaped(ms) && Lawful(ms, s)
    ensures Inputs(c, calls) == InputsOf(ms, s)
  {
    InputsOrdered(ms, s);
    forall i | 0 <= i < |s| ensures Inputs(c, calls)[i] == InputsOf(ms, s)[i] {
      InputsAt(ms, s, i);
      assert IsCall(values, s[i], calls[i]) && Readable(c, ms[s[i].message], values[s[i].message]);
    }
  }

  function Answer(e: Envelope, complete: bool): Result<Option<Envelope>, ProtocolError> {
    Ok(if complete then Some(e) else None)
  }

  lemma DueSettles(c: Codec, m: Message, progress: Progress, v: Verdict)
    requires Due(m, progress, v) && Rebuilds(c, m)
    ensures Settle(c, v) == Answer(m.envelope, Complete(progress, m.Parts()))
  {
  }

  /** What the last delivery of a schedule should return. */
  function Expected(ms: seq<Message>, s: seq<Delivery>): Result<Option<Envelope>, ProtocolError>
    requires s != [] && s[|s| - 1].message < |ms|
  {
    var m := s[|s| - 1].message;
    Answer(ms[m].envelope, Complete(ProgressOf(s, m), ms[m].Parts()))
  }

  /**
   Any order: hand the values of up to sixteen messages with distinct ids to a new reassembler in
   any lawful order. Each call returns nothing, except the one that brings the last missing part
   of a message, which returns exactly its envelope. (Every non-empty prefix of a lawful schedule
   is one, so this speaks of every call.)
   */
  lemma AnyOrder(c: Codec, ms: seq<Message>, values: seq<seq<string>>, s: seq<Delivery>, calls: seq<Call>)
    requires AllReadable(c, ms, values) && AllRebuild(c, ms) && Deliverable(ms)
    requires s != [] && Lawful(ms, s) && Hands(values, s, calls)
    ensures LastResult(c, calls) == Expected(ms, s)
  {
    var m := s[|s| - 1].message;
    HandedInputs(c, ms, values, s, calls);
    LawfulIsFollowed(ms, s);
    DueSettles(c, ms[m], ProgressOf(s, m), LastVerdict(InputsOf(ms, s)));
  }

  ghost predicate Sendable(c: Codec, e: Envelope, maxTagBytes: int) {
    Fragmented(c, e, maxTagBytes).Ok? && Faithful(c, e, maxTagBytes)
  }

  ghost predicate AllSendable(c: Codec, es: seq<Envelope>, maxTagBytes: int) {
    && |es| <= MAX_INFLIGHT_MESSAGES
    && (forall i, j :: 0 <= i < j < |es| ==> es[i].id != es[j].id)
    && (forall i :: 0 <= i < |es| ==> Sendable(c, es[i], maxTagBytes))
  }

  function MessagesOf(c: Codec, es: seq<Envelope>, maxTagBytes: int): seq<Message> {
    seq(|es|, i requires 0 <= i < |es| => MessageOf(c, es[i], maxTagBytes))
  }

  /** The values fragment_envelope makes of each envelope. */
  function ValuesOf(c: Codec, es: seq<Envelope>, maxTagBytes: int): seq<seq<string>> {
    seq(|es|, i requires 0 <= i < |es| =>
      var r := Fragmented(c, es[i], maxTagBytes); if r.Ok? then r.value else [])
  }

  lemma AllAreReadable(c: Codec, es: seq<Envelope>, maxTagBytes: int)
    requires AllSendable(c, es, maxTagBytes)
    ensures AllReadable(c, MessagesOf(c, es, maxTagBytes), ValuesOf(c, es, maxTagBytes))
    ensures Deliverable(MessagesOf(c, es, maxTagBytes))
  {
    forall i | 0 <= i < |es|
      ensures Readable(c, MessagesOf(c, es, maxTagBytes)[i], ValuesOf(c, es, maxTagBytes)[i])
    {
      FragmentedIsReadable(c, es[i], maxTagBytes);
    }
  }

  lemma AllDoRebuild(c: Codec, es: seq<Envelope>, maxTagBytes: int)
    requires AllSendable(c, es, maxTagBytes)
    ensures AllRebuild(c, MessagesOf(c, es, maxTagBytes))
  {
    forall i | 0 <= i < |es| ensures Rebuilds(c, MessagesOf(c, es, maxTagBytes)[i]) {
      FragmentedRebuilds(c, es[i], maxTagBytes);
    }
  }

  /** End to end, from envelopes: what fragment_envelope cuts, any lawful order of delivery puts together. */
  lemma EnvelopesSurvive(c: Codec, es: seq<Envelope>, maxTagBytes: int, s: seq<Delivery>, calls: seq<Call>)
    requires AllSendable(c, es, maxTagBytes)
    requires s != [] && Lawful(MessagesOf(c, es, maxTagBytes), s)
    requires Hands(ValuesOf(c, es, maxTagBytes), s, calls)
    ensures LastResult(c, calls) == Expected(MessagesOf(c, es, maxTagBytes), s)
  {
    AllAreReadable(c, es, maxTagBytes);
    AllDoRebuild(c, es, maxTagBytes);
    AnyOrder(c, MessagesOf(c, es, maxTagBytes), ValuesOf(c, es, maxTagBytes), s, calls);
  }

  /** The line an agent writes for one value, and the value a client reads off it. */
  function Received(value: string, prefix: Option<string>, command: string, target: string): Option<string> {
    match Irc.ParseLine(Irc.FormatLine([Irc.Tag(Irc.PROTOCOL_TAG, value)], prefix, [command, target], None))
    case Ok(line) => if Irc.PROTOCOL_TAG in line.tags then line.tags[Irc.PROTOCOL_TAG] else None
    case Err(_) => None
  }

  /** A value read off its IRC line is the value that was written, so the line path changes nothing. */
  lemma LinesCarryValues(c: Codec, st: Messages, value: string, now: real,
                         prefix: Option<string>, command: string, target: string)
    requires Ranged(st) && (prefix.Some? ==> ' ' !in prefix.value)
    requires Irc.LegalWord(command) && Irc.LegalWord(target)
    ensures var r := Received(value, prefix, command, target);
      r.Some? && AddStep(c, st, r.value, now) == AddStep(c, st, value, now)
  {
    Irc.ProtocolValueSurvives(value, prefix, command, target);
  }
}
