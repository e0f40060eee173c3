/** The strict in-order decoder of frames that a backend splits into chunks. */
module Omp {
  import opened Common
  import opened Json
  import Base64

  const MAX_FRAME_BYTES := 1024 * 1024
  const MAX_REASSEMBLED_BYTES := 64 * 1024 * 1024
  const CHUNK_BYTES := 256 * 1024

  datatype OmpError =
    | FrameTooLarge
    | NotJson
    | FrameNotAnObject
    | Interrupted
    | NotNegotiated
    | BadMetadata
    | BadData
    | ChunkTooLarge
    | MustStartAtZero
    | SequenceMismatch
    | ExceedsDeclared
    | LengthMismatch
    | ReassembledInvalid

  /** The sequence under way: its id, count and declared length, and what has come. */
  datatype Pending = Pending(id: string, count: int, length: int, nextIndex: int, chunks: seq<seq<byte>>, received: int)

  /** The limits in force, and whether chunks were negotiated. */
  datatype Limits = Limits(frame: int, total: int, protocol2: bool)

  datatype Chunk = Chunk(id: string, index: int, count: int, length: int, data: seq<byte>)

  type Answer = Result<Option<Object>, OmpError>

  datatype Outcome = Outcome(pending: Option<Pending>, answer: Answer)

  /** Strict decoding: only text that the encoder itself would write. */
  function StrictDecode(data: string): (r: Option<seq<byte>>)
    ensures r.Some? ==> Base64.Encode(r.value, false) == data
  {
    match Base64.Decode(data, false)
    case None => None
    case Some(b) => if Base64.Encode(b, false) == data then Some(b) else None
  }

  lemma StrictDecodeIff(data: string, b: seq<byte>)
    ensures StrictDecode(data) == Some(b) <==> Base64.Encode(b, false) == data
  {
    Base64.RoundTrip(b, false);
  }

  function IntOf(v: Option<Json>): Option<int> {
    match v
    case Some(Int(n)) => Some(n)
    case _ => None
  }

  /** The most chunks a sequence may declare: the total limit over the chunk size, rounded up. */
  function MaxCount(l: Limits): int {
    (l.total + 262143) / 262144
  }

  predicate GoodMetadata(l: Limits, id: string, index: int, count: int, length: int) {
    && 1 <= |id| <= 128
    && 2 <= count <= MaxCount(l)
    && 0 <= index < count
    && l.frame <= length <= l.total
  }

  function ReadChunk(l: Limits, o: Object): Result<Chunk, OmpError> {
    match (Get(o, "chunkId"), IntOf(Get(o, "index")), IntOf(Get(o, "count")), IntOf(Get(o, "byteLength")))
    case (Some(Str(id)), Some(index), Some(count), Some(length)) =>
      if !GoodMetadata(l, id, index, count, length) then Err(BadMetadata) else ReadData(o, id, index, count, length)
    case _ => Err(BadMetadata)
  }

  function ReadData(o: Object, id: string, index: int, count: int, length: int): Result<Chunk, OmpError> {
    match Get(o, "data")
    case Some(Str(data)) =>
      if data == "" then Err(BadData) else
        var decoded := StrictDecode(data);
        if decoded == None then Err(BadData)
        else if |decoded.value| > CHUNK_BYTES then Err(ChunkTooLarge)
        else Ok(Chunk(id, index, count, length, decoded.value))
    case _ => Err(BadData)
  }

  function Finish(parse: seq<byte> -> Option<Json>, p: Pending): Answer {
    if p.received != p.length then Err(LengthMismatch)
    else
      match parse(Flatten(p.chunks))
      case None => Err(ReassembledInvalid)
      case Some(Obj(o)) => Ok(Some(o))
      case Some(_) => Err(FrameNotAnObject)
  }

  /**
   Filing a chunk. The pending chunk list is shared, so a chunk that overflows the declared length
   stays in the list although the counters do not move.
   */
  function File(parse: seq<byte> -> Option<Json>, l: Limits, pending: Option<Pending>, c: Chunk): Outcome {
    if pending == None && c.index != 0 then Outcome(None, Err(MustStartAtZero))
    else
      var p := if pending == None then Pending(c.id, c.count, c.length, 0, [], 0) else pending.value;
      if p.id != c.id || p.count != c.count || p.length != c.length || p.nextIndex != c.index then
        Outcome(Some(p), Err(SequenceMismatch))
      else
        var more := p.(chunks := p.chunks + [c.data]);
        var received := p.received + |c.data|;
        if received > c.length || received > l.total then Outcome(Some(more), Err(ExceedsDeclared))
        else
          var next := more.(nextIndex := p.nextIndex + 1, received := received);
          if next.nextIndex < c.count then Outcome(Some(next), Ok(None)) else Outcome(None, Finish(parse, next))
  }

  /** What a line is: a chunk to file, or something answered at once. */
  function Step(parse: seq<byte> -> Option<Json>, l: Limits, pending: Option<Pending>, line: seq<byte>): Outcome {
    if |line| > l.frame then Outcome(pending, Err(FrameTooLarge))
    else
      match parse(line)
      case None => Outcome(pending, Err(NotJson))
      case Some(Obj(o)) =>
        if Get(o, "type") != Some(Str("rpc_chunk")) then
          Outcome(pending, if pending.Some? then Err(Interrupted) else Ok(Some(o)))
        else if !l.protocol2 then Outcome(pending, Err(NotNegotiated))
        else
          var c := ReadChunk(l, o);
          if c.Err? then Outcome(pending, Err(c.error)) else File(parse, l, pending, c.value)
      case Some(_) => Outcome(pending, Err(FrameNotAnObject))
  }

  class FrameDecoder {
    var limits: Limits
    var pending: Option<Pending>

    constructor ()
      ensures pending == None && limits == Limits(MAX_FRAME_BYTES, MAX_REASSEMBLED_BYTES, false)
    {
      limits := Limits(MAX_FRAME_BYTES, MAX_REASSEMBLED_BYTES, false);
      pending := None;
    }

    method Call(parse: seq<byte> -> Option<Json>, line: seq<byte>) returns (r: Answer)
      modifies this`pending
      ensures Outcome(pending, r) == Step(parse, limits, old(pending), line)
    {
      if |line| > limits.frame {
        return Err(FrameTooLarge);
      }
      match parse(line) {
        case None => return Err(NotJson);
        case Some(Obj(o)) =>
          if Get(o, "type") != Some(Str("rpc_chunk")) {
            if pending.Some? {
              return Err(Interrupted);
            }
            return Ok(Some(o));
          }
          if !limits.protocol2 {
            return Err(NotNegotiated);
          }
          var c :- ReadChunk(limits, o);
          r := FileChunk(parse, c);
        case Some(_) => return Err(FrameNotAnObject);
      }
    }

    method FileChunk(parse: seq<byte> -> Option<Json>, c: Chunk) returns (r: Answer)
      modifies this`pending
      ensures Outcome(pending, r) == File(parse, limits, old(pending), c)
    {
      if pending == None {
        if c.index != 0 {
          return Err(MustStartAtZero);
        }
        pending := Some(Pending(c.id, c.count, c.length, 0, [], 0));
      }
      var p := pending.value;
      if p.id != c.id || p.count != c.count || p.length != c.length || p.nextIndex != c.index {
        return Err(SequenceMismatch);
      }
      p := p.(chunks := p.chunks + [c.data]);
      pending := Some(p);
      var received := p.received + |c.data|;
      if received > c.length || received > limits.total {
        return Err(ExceedsDeclared);
      }
      p := p.(nextIndex := p.nextIndex + 1, received := received);
      pending := Some(p);
      if p.nextIndex < c.count {
        return Ok(None);
      }
      pending := None;
      return Finish(parse, p);
    }
  }

  // ----- The invariant between calls -----

  function Total(chunks: seq<seq<byte>>): nat {
    if chunks == [] then 0 else Total(chunks[..|chunks| - 1]) + |chunks[|chunks| - 1]|
  }

  lemma TotalSnoc(chunks: seq<seq<byte>>, b: seq<byte>)
    ensures Total(chunks + [b]) == Total(chunks) + |b|
  {
    assert (chunks + [b])[..|chunks|] == chunks;
  }

  /** The counters agree with the chunks, and stay within what was declared. */
  ghost predicate Consistent(l: Limits, pending: Option<Pending>) {
    pending.Some? ==>
      var p := pending.value;
      && p.nextIndex == |p.chunks| && 1 <= p.nextIndex < p.count <= MaxCount(l)
      && p.received == Total(p.chunks) && p.received <= p.length <= l.total
      && l.frame <= p.length
      && (forall i :: 0 <= i < |p.chunks| ==> |p.chunks[i]| <= CHUNK_BYTES)
  }

  predicate BoundedChunk(l: Limits, c: Chunk) {
    GoodMetadata(l, c.id, c.index, c.count, c.length) && |c.data| <= CHUNK_BYTES
  }

  lemma ReadIsBounded(l: Limits, o: Object)
    ensures ReadChunk(l, o).Ok? ==> BoundedChunk(l, ReadChunk(l, o).value)
  {
  }

  /** The sequence a chunk is filed under: the pending one, or a new one. */
  function Under(pending: Option<Pending>, c: Chunk): Pending {
    if pending == None then Pending(c.id, c.count, c.length, 0, [], 0) else pending.value
  }

  /** The chunk is the next of its sequence, but takes it over its declared length or the total limit. */
  predicate Overflows(l: Limits, pending: Option<Pending>, c: Chunk) {
    var p := Under(pending, c);
    && p.id == c.id && p.count == c.count && p.length == c.length && p.nextIndex == c.index
    && (p.received + |c.data| > p.length || p.received + |c.data| > l.total)
  }

  /** The line is filed as such a chunk. */
  predicate LineOverflows(parse: seq<byte> -> Option<Json>, l: Limits, pending: Option<Pending>, line: seq<byte>) {
    && |line| <= l.frame && parse(line).Some? && parse(line).value.Obj?
    && var o := parse(line).value.fields;
    && Get(o, "type") == Some(Str("rpc_chunk")) && l.protocol2
    && ReadChunk(l, o).Ok? && Overflows(l, pending, ReadChunk(l, o).value)
  }

  /** An overflowing chunk is the one thing that takes counters and chunks apart. */
  lemma FileConsistentIff(parse: seq<byte> -> Option<Json>, l: Limits, pending: Option<Pending>, c: Chunk)
    requires Consistent(l, pending) && BoundedChunk(l, c)
    ensures Consistent(l, File(parse, l, pending, c).pending) <==> !Overflows(l, pending, c)
    ensures File(parse, l, pending, c).answer == Err(ExceedsDeclared) <==> Overflows(l, pending, c)
  {
    TotalSnoc(if pending.Some? then pending.value.chunks else [], c.data);
  }

  /** Which lines a consistent decoder does not survive: they are refused, for this one reason. */
  lemma StepConsistentIff(parse: seq<byte> -> Option<Json>, l: Limits, pending: Option<Pending>, line: seq<byte>)
    requires Consistent(l, pending)
    ensures Consistent(l, Step(parse, l, pending, line).pending) <==> !LineOverflows(parse, l, pending, line)
    ensures Step(parse, l, pending, line).answer == Err(ExceedsDeclared) <==> LineOverflows(parse, l, pending, line)
  {
    if |line| <= l.frame && parse(line).Some? && parse(line).value.Obj? {
      var o := parse(line).value.fields;
      ReadIsBounded(l, o);
      if ReadChunk(l, o).Ok? {
        FileConsistentIff(parse, l, pending, ReadChunk(l, o).value);
      }
    }
  }

  /** A call that does not raise keeps the counters right. */
  lemma StepKeepsConsistent(parse: seq<byte> -> Option<Json>, l: Limits, pending: Option<Pending>, line: seq<byte>)
    requires Consistent(l, pending) && Step(parse, l, pending, line).answer.Ok?
    ensures Consistent(l, Step(parse, l, pending, line).pending)
  {
    StepConsistentIff(parse, l, pending, line);
  }

  /** The state after a run of lines, and whether none of them raised. */
  function After(parse: seq<byte> -> Option<Json>, l: Limits, lines: seq<seq<byte>>): Option<Pending>
    decreases |lines|
  {
    if lines == [] then None
    else Step(parse, l, After(parse, l, lines[..|lines| - 1]), lines[|lines| - 1]).pending
  }

  predicate Clean(parse: seq<byte> -> Option<Json>, l: Limits, lines: seq<seq<byte>>)
    decreases |lines|
  {
    lines == [] ||
    (Clean(parse, l, lines[..|lines| - 1])
     && Step(parse, l, After(parse, l, lines[..|lines| - 1]), lines[|lines| - 1]).answer.Ok?)
  }

  /** Over any run without an error. */
  lemma {:induction false} RunStaysConsistent(parse: seq<byte> -> Option<Json>, l: Limits, lines: seq<seq<byte>>)
    requires Clean(parse, l, lines)
    ensures Consistent(l, After(parse, l, lines))
    decreases |lines|
  {
    if lines != [] {
      var n := |lines| - 1;
      RunStaysConsistent(parse, l, lines[..n]);
      StepKeepsConsistent(parse, l, After(parse, l, lines[..n]), lines[n]);
    }
  }

  ghost predicate RightAt(parse: seq<byte> -> Option<Json>, l: Limits, lines: seq<seq<byte>>, n: nat)
    requires n <= |lines|
  {
    Consistent(l, After(parse, l, lines[..n]))
  }

  ghost predicate OverflowsAt(parse: seq<byte> -> Option<Json>, l: Limits, lines: seq<seq<byte>>, n: nat)
    requires n < |lines|
  {
    LineOverflows(parse, l, After(parse, l, lines[..n]), lines[n])
  }

  lemma RightNext(parse: seq<byte> -> Option<Json>, l: Limits, lines: seq<seq<byte>>, n: nat)
    requires n < |lines| && RightAt(parse, l, lines, n)
    ensures RightAt(parse, l, lines, n + 1) <==> !OverflowsAt(parse, l, lines, n)
  {
    assert lines[..n + 1][..n] == lines[..n];
    StepConsistentIff(parse, l, After(parse, l, lines[..n]), lines[n]);
  }

  lemma {:induction false} RightUpTo(parse: seq<byte> -> Option<Json>, l: Limits, lines: seq<seq<byte>>, n: nat)
    requires n <= |lines| && forall i :: 0 <= i < n ==> !OverflowsAt(parse, l, lines, i)
    ensures RightAt(parse, l, lines, n)
  {
    if n > 0 {
      RightUpTo(parse, l, lines, n - 1);
      RightNext(parse, l, lines, n - 1);
    }
  }

  /** Over any run at all, errors included: the decoder is right after every line exactly if no line overflows. */
  lemma RunConsistentIff(parse: seq<byte> -> Option<Json>, l: Limits, lines: seq<seq<byte>>)
    ensures (forall n :: 0 <= n <= |lines| ==> RightAt(parse, l, lines, n))
       <==> (forall n :: 0 <= n < |lines| ==> !OverflowsAt(parse, l, lines, n))
  {
    if forall n :: 0 <= n <= |lines| ==> RightAt(parse, l, lines, n) {
      forall n | 0 <= n < |lines| ensures !OverflowsAt(parse, l, lines, n) {
        assert RightAt(parse, l, lines, n) && RightAt(parse, l, lines, n + 1);
        RightNext(parse, l, lines, n);
      }
    }
    if forall n :: 0 <= n < |lines| ==> !OverflowsAt(parse, l, lines, n) {
      forall n | 0 <= n <= |lines| ensures RightAt(parse, l, lines, n) {
        RightUpTo(parse, l, lines, n);
      }
    }
  }

  // ----- A frame split into chunks comes back whole -----

  /** The lines a backend sends for a frame cut into these pieces. */
  ghost predicate Sends(parse: seq<byte> -> Option<Json>, l: Limits, id: string, frame: seq<byte>,
                        pieces: seq<seq<byte>>, lines: seq<seq<byte>>)
  {
    && |lines| == |pieces|
    && forall i :: 0 <= i < |pieces| ==>
         |lines[i]| <= l.frame && parse(lines[i]) == Some(Obj(ChunkObject(id, i, |pieces|, |frame|, pieces[i])))
  }

  function ChunkObject(id: string, index: int, count: int, length: int, data: seq<byte>): Object {
    map["type" := Str("rpc_chunk"), "chunkId" := Str(id), "index" := Int(index), "count" := Int(count),
        "byteLength" := Int(length), "data" := Str(Base64.Encode(data, false))]
  }

  /** A split the decoder must take: at least two non-empty pieces, all within the limits. */
  ghost predicate GoodSplit(l: Limits, id: string, frame: seq<byte>, pieces: seq<seq<byte>>) {
    && l.protocol2 && 1 <= |id| <= 128
    && 2 <= |pieces| <= MaxCount(l) && l.frame <= |frame| <= l.total
    && Flatten(pieces) == frame
    && (forall i :: 0 <= i < |pieces| ==> 1 <= |pieces[i]| <= CHUNK_BYTES)
  }

  lemma ChunkReadsBack(l: Limits, id: string, index: int, count: int, length: int, data: seq<byte>)
    requires GoodMetadata(l, id, index, count, length) && 1 <= |data| <= CHUNK_BYTES
    ensures var o := ChunkObject(id, index, count, length, data);
      Get(o, "type") == Some(Str("rpc_chunk")) && ReadChunk(l, o) == Ok(Chunk(id, index, count, length, data))
  {
    var o := ChunkObject(id, index, count, length, data);
    StrictDecodeIff(Base64.Encode(data, false), data);
    Base64.UnpaddedLength(data, false);
    assert Get(o, "data") == Some(Str(Base64.Encode(data, false)));
    assert Get(o, "chunkId") == Some(Str(id)) && Get(o, "index") == Some(Int(index));
    assert Get(o, "count") == Some(Int(count)) && Get(o, "byteLength") == Some(Int(length));
  }

  lemma {:induction false} TotalIsFlatten(chunks: seq<seq<byte>>)
    ensures |Flatten(chunks)| == Total(chunks)
    decreases |chunks|
  {
    if chunks != [] {
      var n := |chunks| - 1;
      TotalIsFlatten(chunks[..n]);
      assert chunks == chunks[..n] + [chunks[n]];
      FlattenSnoc(chunks[..n], chunks[n]);
    }
  }

  lemma PrefixTotal(chunks: seq<seq<byte>>, i: nat)
    requires i <= |chunks|
    ensures Total(chunks[..i]) <= |Flatten(chunks)|
  {
    TotalIsFlatten(chunks[..i]);
    FlattenAppend(chunks[..i], chunks[i..]);
    assert chunks == chunks[..i] + chunks[i..];
  }

  /** What is pending after the first i pieces. */
  function Halfway(id: string, frame: seq<byte>, pieces: seq<seq<byte>>, i: nat): Option<Pending>
    requires i <= |pieces|
  {
    if i == 0 || i == |pieces| then None
    else Some(Pending(id, |pieces|, |frame|, i, pieces[..i], Total(pieces[..i])))
  }

  lemma FilePiece(parse: seq<byte> -> Option<Json>, l: Limits, id: string, frame: seq<byte>, pieces: seq<seq<byte>>,
                  i: nat)
    requires GoodSplit(l, id, frame, pieces) && i < |pieces|
    ensures File(parse, l, Halfway(id, frame, pieces, i), Chunk(id, i, |pieces|, |frame|, pieces[i]))
         == Outcome(Halfway(id, frame, pieces, i + 1),
                    if i + 1 < |pieces| then Ok(None)
                    else Finish(parse, Pending(id, |pieces|, |frame|, i + 1, pieces, |frame|)))
  {
    assert pieces[..i + 1] == pieces[..i] + [pieces[i]];
    TotalSnoc(pieces[..i], pieces[i]);
    PrefixTotal(pieces, i + 1);
    if i + 1 == |pieces| {
      assert pieces[..i + 1] == pieces;
      TotalIsFlatten(pieces);
    }
  }

  /**
   Any split within the limits: every line but the last answers nothing, the last answers the
   original frame, and nothing is left pending.
   */
  lemma {:induction false} SplitRoundTrip(parse: seq<byte> -> Option<Json>, l: Limits, id: string, frame: seq<byte>,
                                          pieces: seq<seq<byte>>, lines: seq<seq<byte>>, n: nat)
    requires GoodSplit(l, id, frame, pieces) && Sends(parse, l, id, frame, pieces, lines) && n < |lines|
    ensures After(parse, l, lines[..n]) == Halfway(id, frame, pieces, n)
    ensures Step(parse, l, After(parse, l, lines[..n]), lines[n])
         == Outcome(Halfway(id, frame, pieces, n + 1), if n + 1 < |lines| then Ok(None) else Whole(parse, frame))
  {
    if n > 0 {
      SplitRoundTrip(parse, l, id, frame, pieces, lines, n - 1);
      assert lines[..n][..n - 1] == lines[..n - 1];
    }
    StepFiles(parse, l, Halfway(id, frame, pieces, n), lines[n], id, n, |pieces|, |frame|, pieces[n]);
    FilePiece(parse, l, id, frame, pieces, n);
  }

  /** A line that carries a chunk object within the limits is filed as that chunk. */
  lemma StepFiles(parse: seq<byte> -> Option<Json>, l: Limits, pending: Option<Pending>, line: seq<byte>,
                  id: string, index: int, count: int, length: int, data: seq<byte>)
    requires l.protocol2 && |line| <= l.frame && GoodMetadata(l, id, index, count, length) && 1 <= |data| <= CHUNK_BYTES
    requires parse(line) == Some(Obj(ChunkObject(id, index, count, length, data)))
    ensures Step(parse, l, pending, line) == File(parse, l, pending, Chunk(id, index, count, length, data))
  {
    ChunkReadsBack(l, id, index, count, length, data);
  }

  /** What the frame itself is, once joined. */
  function Whole(parse: seq<byte> -> Option<Json>, frame: seq<byte>): Answer {
    match parse(frame)
    case None => Err(ReassembledInvalid)
    case Some(Obj(o)) => Ok(Some(o))
    case Some(_) => Err(FrameNotAnObject)
  }

  // ----- What a refused chunk does to the frame it interrupts -----

  /** A split sent with one more chunk for place `at`, before the right one. */
  datatype Extra = Extra(id: string, frame: seq<byte>, pieces: seq<seq<byte>>, at: nat, data: seq<byte>)

  /** The split is legal, and the extra chunk, next in line at its place, goes beyond the declared length. */
  ghost predicate TooMuch(l: Limits, x: Extra) {
    && GoodSplit(l, x.id, x.frame, x.pieces) && x.at < |x.pieces| && 1 <= |x.data| <= CHUNK_BYTES
    && Total(x.pieces[..x.at]) + |x.data| > |x.frame|
  }

  /** The chunk that line n carries. */
  function ExtraChunk(x: Extra, n: nat): Chunk
    requires x.at < |x.pieces| && n <= |x.pieces|
  {
    var index := if n <= x.at then n else n - 1;
    Chunk(x.id, index, |x.pieces|, |x.frame|, if n == x.at then x.data else x.pieces[index])
  }

  ghost predicate SendsExtra(parse: seq<byte> -> Option<Json>, l: Limits, x: Extra, lines: seq<seq<byte>>)
    requires x.at < |x.pieces|
  {
    && |lines| == |x.pieces| + 1
    && forall n :: 0 <= n < |lines| ==> Carries(parse, l, lines[n], ExtraChunk(x, n))
  }

  ghost predicate Carries(parse: seq<byte> -> Option<Json>, l: Limits, line: seq<byte>, c: Chunk) {
    |line| <= l.frame && parse(line) == Some(Obj(ObjectOf(c)))
  }

  function ObjectOf(c: Chunk): Object {
    ChunkObject(c.id, c.index, c.count, c.length, c.data)
  }

  /** What is joined in the end. */
  function Spoilt(x: Extra, n: nat): seq<seq<byte>>
    requires x.at <= n <= |x.pieces|
  {
    x.pieces[..x.at] + [x.data] + x.pieces[x.at..n]
  }

  /** What is pending before line n, and what the line is answered. */
  function ExtraPending(x: Extra, n: nat): Option<Pending>
    requires x.at < |x.pieces| && n <= |x.pieces| + 1
  {
    if n <= x.at then Halfway(x.id, x.frame, x.pieces, n)
    else if n == |x.pieces| + 1 then None
    else Some(Pending(x.id, |x.pieces|, |x.frame|, n - 1, Spoilt(x, n - 1), Total(x.pieces[..n - 1])))
  }

  function ExtraAnswer(parse: seq<byte> -> Option<Json>, x: Extra, n: nat): Answer
    requires x.at < |x.pieces|
  {
    if n == x.at then Err(ExceedsDeclared)
    else if n < |x.pieces| then Ok(None)
    else Whole(parse, Flatten(Spoilt(x, |x.pieces|)))
  }

  lemma FileExtra(parse: seq<byte> -> Option<Json>, l: Limits, x: Extra)
    requires TooMuch(l, x)
    ensures File(parse, l, ExtraPending(x, x.at), ExtraChunk(x, x.at))
         == Outcome(ExtraPending(x, x.at + 1), Err(ExceedsDeclared))
    ensures Overflows(l, ExtraPending(x, x.at), ExtraChunk(x, x.at))
  {
    assert Spoilt(x, x.at) == x.pieces[..x.at] + [x.data];
  }

  lemma FileSpoilt(parse: seq<byte> -> Option<Json>, l: Limits, x: Extra, n: nat)
    requires TooMuch(l, x) && x.at < n <= |x.pieces|
    ensures File(parse, l, ExtraPending(x, n), ExtraChunk(x, n))
      == Outcome(ExtraPending(x, n + 1), ExtraAnswer(parse, x, n))
  {
    assert Spoilt(x, n) == Spoilt(x, n - 1) + [x.pieces[n - 1]];
    TotalUpTo(x.pieces, n);
  }

  lemma TotalUpTo(pieces: seq<seq<byte>>, n: nat)
    requires 0 < n <= |pieces|
    ensures Total(pieces[..n]) == Total(pieces[..n - 1]) + |pieces[n - 1]| <= |Flatten(pieces)|
    ensures n == |pieces| ==> Total(pieces[..n]) == |Flatten(pieces)|
  {
    assert pieces[..n] == pieces[..n - 1] + [pieces[n - 1]];
    TotalSnoc(pieces[..n - 1], pieces[n - 1]);
    PrefixTotal(pieces, n);
    if n == |pieces| {
      assert pieces[..n] == pieces;
      TotalIsFlatten(pieces);
    }
  }

  lemma ExtraStep(parse: seq<byte> -> Option<Json>, l: Limits, x: Extra, n: nat, line: seq<byte>)
    requires Given(TooMuch(l, x)) && n <= |x.pieces| && Carries(parse, l, line, ExtraChunk(x, n))
    ensures Step(parse, l, ExtraPending(x, n), line) == Outcome(ExtraPending(x, n + 1), ExtraAnswer(parse, x, n))
  {
    var c := ExtraChunk(x, n);
    StepFiles(parse, l, ExtraPending(x, n), line, c.id, c.index, c.count, c.length, c.data);
    if n < x.at {
      FilePiece(parse, l, x.id, x.frame, x.pieces, n);
    } else if n == x.at {
      FileExtra(parse, l, x);
    } else {
      FileSpoilt(parse, l, x, n);
    }
  }

  lemma AfterNext(parse: seq<byte> -> Option<Json>, l: Limits, lines: seq<seq<byte>>, n: nat)
    requires n < |lines|
    ensures After(parse, l, lines[..n + 1]) == Step(parse, l, After(parse, l, lines[..n]), lines[n]).pending
  {
    assert lines[..n + 1][..n] == lines[..n];
  }

  lemma {:induction false} ExtraLeft(parse: seq<byte> -> Option<Json>, l: Limits, x: Extra, lines: seq<seq<byte>>,
                                     n: nat)
    requires Given(TooMuch(l, x)) && Given(SendsExtra(parse, l, x, lines)) && n <= |lines|
    ensures After(parse, l, lines[..n]) == ExtraPending(x, n)
  {
    if n > 0 {
      ExtraLeft(parse, l, x, lines, n - 1);
      AfterNext(parse, l, lines, n - 1);
      assert Carries(parse, l, lines[n - 1], ExtraChunk(x, n - 1));
      ExtraStep(parse, l, x, n - 1, lines[n - 1]);
    }
  }

  /**
   An overflowing chunk is refused, but a backend that then goes on with the right one gets a frame
   with the refused bytes in it, though its length is the declared one by the decoder's count.
   */
  lemma OverflowLeavesChunk(parse: seq<byte> -> Option<Json>, l: Limits, x: Extra, lines: seq<seq<byte>>, n: nat)
    requires TooMuch(l, x) && SendsExtra(parse, l, x, lines) && n < |lines|
    ensures After(parse, l, lines[..n]) == ExtraPending(x, n)
    ensures Step(parse, l, After(parse, l, lines[..n]), lines[n]).answer == ExtraAnswer(parse, x, n)
  {
    ExtraLeft(parse, l, x, lines, n);
    ExtraStep(parse, l, x, n, lines[n]);
  }

  /** Such a chunk: 600 bytes in two halves, and 301 bytes where the second half belongs. */
  lemma OverflowExample(parse: seq<byte> -> Option<Json>)
    ensures var l := Limits(600, MAX_REASSEMBLED_BYTES, true);
      var half, extra := seq(300, i => 7 as byte), seq(301, i => 9 as byte);
      var before := Some(Pending("a", 2, 600, 1, [half], 300));
      var c := Chunk("a", 1, 2, 600, extra);
      && Consistent(l, before) && BoundedChunk(l, c) && Overflows(l, before, c)
      && File(parse, l, before, c) == Outcome(Some(before.value.(chunks := [half, extra])), Err(ExceedsDeclared))
      && !Consistent(l, File(parse, l, before, c).pending)
  {
    var half := seq(300, i => 7 as byte);
    assert Total([half]) == 300 by {
      TotalSnoc([], half);
      assert [] + [half] == [half];
    }
    assert [half] + [seq(301, i => 9 as byte)] == [half, seq(301, i => 9 as byte)];
  }
}
