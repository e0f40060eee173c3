/** What the reassembler refuses, what it keeps, and what it answers, over arbitrary input. */
module Refusals {
  import opened Common
  import opened Json
  import opened Envelopes
  import opened Fragments
  import opened Reassembly
  import Base64
  import Utf8

  // ----- What a text is -----

  /** Any text: it is taken as a fragment exactly when it parses to an object that says so and is one. */
  lemma PieceIff(c: Codec, value: string, f: BoundedFragment)
    ensures Read(c, value) == Piece(f) <==>
      && c.loads(value).Some? && c.loads(value).value.Obj?
      && var o := c.loads(value).value.fields;
         Get(o, "k") == Some(Str("fragment")) && TellsFragment(o, f) && GoodFragment(f)
  {
    if c.loads(value).Some? && c.loads(value).value.Obj? {
      ParsedIff(c.loads(value).value.fields, f);
    }
  }

  /** And answered at once as an envelope exactly when it parses to an object that is not a fragment, and is one. */
  lemma WholeIff(c: Codec, value: string, e: Envelope)
    ensures Read(c, value) == Whole(Ok(Some(e))) <==>
      && c.loads(value).Some? && c.loads(value).value.Obj?
      && var o := c.loads(value).value.fields;
         Get(o, "k") != Some(Str("fragment")) && TellsHead(o, e) && TellsOptions(o, e) && Acceptable(c, e)
  {
    if c.loads(value).Some? && c.loads(value).value.Obj? {
      FromDictIff(c, c.loads(value).value.fields, e);
    }
  }

  // ----- One fragment -----

  /** The fragment contradicts what is stored of its message. */
  predicate Contradicts(p: Partial, f: Fragment) {
    p.header != f.header || (f.part in p.chunks && p.chunks[f.part] != f.chunk)
  }

  /** A fragment for a stored message is refused, and the message dropped, exactly when it contradicts it. */
  lemma RefusedIff(ms: Messages, f: BoundedFragment, now: real)
    requires Ranged(ms) && f.id in Unexpired(ms, now)
    ensures var filed := FileStep(ms, Piece(f), now);
      && (filed.verdict.Refused? <==> Contradicts(ms[f.id], f))
      && (filed.verdict.Refused? ==>
            && filed.messages == Unexpired(ms, now) - {f.id}
            && filed.verdict.error
               == if ms[f.id].header != f.header then InconsistentMetadata else ConflictingDuplicate)
  {
  }

  /** The first fragment of a message is refused exactly when sixteen are under way, and then changes nothing. */
  lemma NewRefusedIff(ms: Messages, f: BoundedFragment, earlier: real, now: real)
    requires Safe(ms, earlier) && Ranged(ms) && earlier <= now && f.id !in Unexpired(ms, now)
    ensures var live, filed := Unexpired(ms, now), FileStep(ms, Piece(f), now);
      && (filed.verdict.Refused? <==> |live| == 16)
      && (filed.verdict.Refused? ==> filed == Filed(live, Refused(TooManyInFlight)))
  {
    ExpiryKeepsSafe(ms, earlier, now);
    RoomForOne(Unexpired(ms, now), now);
  }

  /** What is stored of a message: nothing yet, for one that is not there. */
  function Chunks(ms: Messages, id: string): map<int, string> {
    if id in ms then ms[id].chunks else map[]
  }

  predicate IsJoined(v: Verdict, f: Fragment, chunks: map<int, string>)
    requires f.header.parts >= 0
  {
    v.Full? && v.f == f && Keys(f.header.parts) <= chunks.Keys && v.joined == Joined(chunks, f.header.parts)
  }

  lemma StoredIff(ms: Messages, f: BoundedFragment, p: Partial)
    requires p.header == f.header && p.chunks.Keys <= Keys(f.header.parts)
    ensures var chunks, filed := p.chunks[f.part := f.chunk], Store(ms, f, p);
      && (filed.verdict.Full? <==> chunks.Keys == Keys(f.header.parts))
      && (filed.verdict.Full? ==> filed.messages == ms - {f.id} && IsJoined(filed.verdict, f, chunks))
      && (!filed.verdict.Full? ==> filed == Filed(ms[f.id := Partial(p.created, f.header, chunks)], Waiting))
  {
    var chunks := p.chunks[f.part := f.chunk];
    assert f.part in Keys(f.header.parts);
    FullIffCount(chunks.Keys, f.header.parts);
    MapCard(chunks);
  }

  /** What is stored of a message that is under way, or the empty beginning of a new one. */
  function Begun(ms: Messages, f: Fragment, now: real): Partial {
    if f.id in ms then ms[f.id] else Partial(now, f.header, map[])
  }

  /**
   A fragment that is not refused adds its chunk, and completes the message exactly if that was the last one
   missing.
   */
  lemma FiledIff(ms: Messages, f: BoundedFragment, now: real)
    requires Ranged(ms) && !FileStep(ms, Piece(f), now).verdict.Refused?
    ensures var live, filed := Unexpired(ms, now), FileStep(ms, Piece(f), now);
      var p := Begun(live, f, now);
      var chunks := p.chunks[f.part := f.chunk];
      && p.header == f.header
      && (filed.verdict.Full? <==> chunks.Keys == Keys(f.header.parts))
      && (filed.verdict.Full? ==> filed.messages == live - {f.id} && IsJoined(filed.verdict, f, chunks))
      && (!filed.verdict.Full? ==> filed == Filed(live[f.id := Partial(p.created, f.header, chunks)], Waiting))
  {
    var live := Unexpired(ms, now);
    var p := Begun(live, f, now);
    if f.id in live {
      RefusedIff(ms, f, now);
    }
    StoredIff(live, f, p);
  }

  // ----- Stored parts -----

  lemma AcceptLeaves(ms: Messages, f: BoundedFragment, now: real, id: string)
    requires Ranged(ms) && f.id != id
    ensures var ms' := Accept(ms, f, now).messages; (id in ms' <==> id in ms) && (id in ms' ==> ms'[id] == ms[id])
  {
  }

  /** Nothing but what expired, and the fragment's own message, is touched. */
  lemma OthersStay(ms: Messages, r: Reading, now: real, id: string)
    requires Ranged(ms) && !(r.Piece? && r.f.id == id)
    ensures var ms' := FileStep(ms, r, now).messages;
      && (id in ms' <==> id in ms && now - ms[id].created < 30.0)
      && (id in ms' ==> ms'[id] == ms[id])
  {
    if r.Piece? {
      AcceptLeaves(Unexpired(ms, now), r.f, now, id);
    }
  }

  /** A stored part keeps its chunk, unless the message expires or is dropped. */
  lemma StepKeepsPart(ms: Messages, r: Reading, now: real, id: string, part: int)
    requires Ranged(ms) && id in Unexpired(ms, now) && part in ms[id].chunks
    requires id in FileStep(ms, r, now).messages
    ensures var p := FileStep(ms, r, now).messages[id];
      && p.created == ms[id].created && p.header == ms[id].header
      && part in p.chunks && p.chunks[part] == ms[id].chunks[part]
  {
    if r.Piece? && r.f.id == id {
      RefusedIff(ms, r.f, now);
    } else {
      OthersStay(ms, r, now, id);
    }
  }

  /** The message is stored all the time from the i-th input to the j-th, without expiring. */
  ghost predicate StaysStored(inputs: seq<Input>, id: string, i: nat, j: nat) {
    && i <= j <= |inputs|
    && (forall m :: i <= m <= j ==> id in After(inputs[..m]))
    && (forall m :: i <= m < j ==> id in Unexpired(After(inputs[..m]), inputs[m].at))
  }

  /** Over any inputs, a part keeps the chunk it first arrived with for as long as its message is stored. */
  lemma {:induction false} FirstChunkStays(inputs: seq<Input>, id: string, part: int, i: nat, j: nat)
    requires StaysStored(inputs, id, i, j) && part in After(inputs[..i])[id].chunks
    ensures part in After(inputs[..j])[id].chunks
    ensures After(inputs[..j])[id].chunks[part] == After(inputs[..i])[id].chunks[part]
    ensures After(inputs[..j])[id].header == After(inputs[..i])[id].header
    decreases j - i
  {
    if i < j {
      FirstChunkStays(inputs, id, part, i, j - 1);
      assert inputs[..j][..j - 1] == inputs[..j - 1];
      StepKeepsPart(After(inputs[..j - 1]), inputs[j - 1].reading, inputs[j - 1].at, id, part);
    }
  }

  // ----- Answers -----

  /** The bytes the joined text stands for, unpacked. */
  ghost predicate Unpacks(c: Codec, h: Header, joined: string, payload: seq<byte>) {
    exists packed ::
      && Base64.Decode(joined + Base64.Padding(|joined|), true) == Some(packed)
      && (h.encoding != Some("zlib") ==> payload == packed)
      && (h.encoding == Some("zlib") ==>
          h.size >= 0 && c.inflate(packed, h.size + 1) == Some(Inflated(payload, true, false)))
  }

  /** The envelope of these bytes, under this header. */
  ghost predicate Carries(c: Codec, id: string, h: Header, payload: seq<byte>, e: Envelope) {
    && |payload| == h.size && c.sha256(payload) == h.sha256
    && Utf8.DecodeStrict(payload).Some? && Decode(c, Utf8.DecodeStrict(payload).value) == Ok(e)
    && e.id == id && e.kind == h.kind && e.messageType == h.messageType
    && e.epoch == h.epoch && e.sessionId == h.sessionId
  }

  /**
   Whatever text was joined: an envelope is answered exactly when the text unpacks to bytes of the declared
   size and digest that decode to it, and its own fields agree with the fragments'.
   */
  lemma RebuiltIff(c: Codec, id: string, h: Header, joined: string, e: Envelope)
    requires h.size >= 0
    ensures Rebuild(c, id, h, joined) == Ok(e) <==>
      exists payload :: Unpacks(c, h, joined, payload) && Carries(c, id, h, payload, e)
  {
    if Rebuild(c, id, h, joined) == Ok(e) {
      var packed := Base64.Decode(joined + Base64.Padding(|joined|), true).value;
      var payload := Unpack(c, packed, h).value;
      assert Unpacks(c, h, joined, payload) && Carries(c, id, h, payload, e);
    }
  }
}
