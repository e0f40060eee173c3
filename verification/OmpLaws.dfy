/** What the chunk decoder takes and what it answers: only frames that were sent, whole and in order. */
module OmpLaws {
  import opened Common
  import opened Json
  import opened Omp
  import Base64

  type Parse = seq<byte> -> Option<Json>

  // ----- One chunk -----

  /** The object tells this chunk, within all limits. */
  ghost predicate TellsChunk(l: Limits, o: Object, c: Chunk) {
    && Get(o, "chunkId") == Some(Str(c.id)) && Get(o, "index") == Some(Int(c.index))
    && Get(o, "count") == Some(Int(c.count)) && Get(o, "byteLength") == Some(Int(c.length))
    && Get(o, "data") == Some(Str(Base64.Encode(c.data, false)))
    && 1 <= |c.id| <= 128 && 0 <= c.index < c.count && 2 <= c.count && (c.count - 1) * CHUNK_BYTES < l.total
    && l.frame <= c.length <= l.total && 1 <= |c.data| <= CHUNK_BYTES
  }

  /** A chunk object is taken exactly as the chunk it tells. */
  lemma ReadChunkIff(l: Limits, o: Object, c: Chunk)
    ensures ReadChunk(l, o) == Ok(c) <==> TellsChunk(l, o, c)
  {
    CountIff(l, c.count);
    DataIff(c.data);
    if ReadChunk(l, o) == Ok(c) {
      ReadTells(l, o, c);
    } else if TellsChunk(l, o, c) {
      ChunkTold(l, o, c);
    }
  }

  lemma CountIff(l: Limits, count: int)
    ensures count <= MaxCount(l) <==> (count - 1) * 262144 < l.total
  {
  }

  lemma DataIff(data: seq<byte>)
    ensures Base64.Encode(data, false) == "" <==> data == []
  {
    Base64.UnpaddedLength(data, false);
    if data == [] {
      assert Base64.Encode([], false) == "";
    }
  }

  lemma ReadTells(l: Limits, o: Object, c: Chunk)
    requires ReadChunk(l, o) == Ok(c)
    ensures TellsChunk(l, o, c)
  {
    CountIff(l, c.count);
    DataIff(c.data);
    var data := Get(o, "data").value.s;
    assert StrictDecode(data) == Some(c.data);
    StrictDecodeIff(data, c.data);
  }

  lemma ChunkTold(l: Limits, o: Object, c: Chunk)
    requires TellsChunk(l, o, c)
    ensures ReadChunk(l, o) == Ok(c)
  {
    CountIff(l, c.count);
    DataIff(c.data);
    StrictDecodeIff(Base64.Encode(c.data, false), c.data);
  }

  /** The chunk is the next of the sequence under way, or the first of a new one, and fits. */
  predicate IsNext(l: Limits, pending: Option<Pending>, c: Chunk) {
    && (if pending.None? then c.index == 0
        else pending.value.id == c.id && pending.value.count == c.count && pending.value.length == c.length
             && pending.value.nextIndex == c.index)
    && !Overflows(l, pending, c)
  }

  /** Any other chunk is refused; if it does not overflow, nothing changes. */
  lemma RefusedIff(parse: Parse, l: Limits, pending: Option<Pending>, c: Chunk)
    ensures !IsNext(l, pending, c) ==> File(parse, l, pending, c).answer.Err?
    ensures !IsNext(l, pending, c) && !Overflows(l, pending, c) ==> File(parse, l, pending, c).pending == pending
    ensures IsNext(l, pending, c) ==>
      var p := Under(pending, c);
      var next := p.(chunks := p.chunks + [c.data], nextIndex := p.nextIndex + 1, received := p.received + |c.data|);
      File(parse, l, pending, c)
      == if next.nextIndex < c.count then Outcome(Some(next), Ok(None)) else Outcome(None, Finish(parse, next))
  {
  }

  /** A whole frame on a line is answered exactly if no sequence is under way, and leaves it as it is. */
  lemma PlainLine(parse: Parse, l: Limits, pending: Option<Pending>, line: seq<byte>, o: Object)
    requires |line| <= l.frame && parse(line) == Some(Obj(o)) && Get(o, "type") != Some(Str("rpc_chunk"))
    ensures Step(parse, l, pending, line) == Outcome(pending, if pending.None? then Ok(Some(o)) else Err(Interrupted))
  {
  }

  // ----- Lines -----

  /** The line carries a chunk the decoder may take. */
  ghost predicate ChunkLine(parse: Parse, l: Limits, line: seq<byte>) {
    exists c :: IsChunk(parse, l, line, c)
  }

  ghost predicate IsChunk(parse: Parse, l: Limits, line: seq<byte>, c: Chunk) {
    && l.protocol2 && |line| <= l.frame && parse(line).Some? && parse(line).value.Obj?
    && var o := parse(line).value.fields; Get(o, "type") == Some(Str("rpc_chunk")) && TellsChunk(l, o, c)
  }

  /** Such a line is filed as the chunk it carries. */
  lemma ChunkIsFiled(parse: Parse, l: Limits, pending: Option<Pending>, line: seq<byte>, c: Chunk)
    requires IsChunk(parse, l, line, c)
    ensures Step(parse, l, pending, line) == File(parse, l, pending, c)
  {
    ReadChunkIff(l, parse(line).value.fields, c);
  }

  /** Any other line leaves the sequence as it was. */
  lemma OtherLine(parse: Parse, l: Limits, pending: Option<Pending>, line: seq<byte>)
    requires !ChunkLine(parse, l, line)
    ensures Step(parse, l, pending, line).pending == pending
    ensures Step(parse, l, pending, line).answer.Ok? ==>
      pending.None? && |line| <= l.frame && Step(parse, l, pending, line).answer.value.Some?
      && parse(line) == Some(Obj(Step(parse, l, pending, line).answer.value.value))
  {
    if parse(line).Some? && parse(line).value.Obj? {
      var o := parse(line).value.fields;
      if ReadChunk(l, o).Ok? {
        ReadChunkIff(l, o, ReadChunk(l, o).value);
        assert l.protocol2 && |line| <= l.frame && Get(o, "type") == Some(Str("rpc_chunk")) ==>
          IsChunk(parse, l, line, ReadChunk(l, o).value);
      }
    }
  }

  // ----- What a frame is made of -----

  /** These lines, in order, carry the chunks 0, 1, 2 and so on of one sequence, with this data. */
  ghost predicate MadeOf(parse: Parse, l: Limits, lines: seq<seq<byte>>, at: seq<nat>, id: string, count: int,
                         length: int,
                         chunks: seq<seq<byte>>)
  {
    && |at| == |chunks|
    && (forall k, m :: 0 <= k < m < |at| ==> at[k] < at[m])
    && (forall k :: 0 <= k < |at| ==>
          at[k] < |lines| && IsChunk(parse, l, lines[at[k]], Chunk(id, k, count, length, chunks[k])))
  }

  /** What is pending is made of lines that came. */
  ghost predicate PendingMade(parse: Parse, l: Limits, lines: seq<seq<byte>>, at: seq<nat>, pending: Option<Pending>) {
    pending.Some? ==>
      && pending.value.nextIndex == |pending.value.chunks|
      && MadeOf(parse, l, lines, at, pending.value.id, pending.value.count, pending.value.length, pending.value.chunks)
  }

  lemma MadeOfMore(parse: Parse, l: Limits, lines: seq<seq<byte>>, line: seq<byte>, at: seq<nat>, id: string,
                   count: int,
                   length: int, chunks: seq<seq<byte>>)
    requires MadeOf(parse, l, lines, at, id, count, length, chunks)
    ensures MadeOf(parse, l, lines + [line], at, id, count, length, chunks)
  {
    forall k | 0 <= k < |at| ensures (lines + [line])[at[k]] == lines[at[k]] {
    }
  }

  lemma MadeOfNext(parse: Parse, l: Limits, lines: seq<seq<byte>>, line: seq<byte>, at: seq<nat>, c: Chunk,
                   chunks: seq<seq<byte>>)
    requires MadeOf(parse, l, lines, at, c.id, c.count, c.length, chunks) && c.index == |chunks|
    requires IsChunk(parse, l, line, c)
    ensures Given(MadeOf(parse, l, lines + [line], at + [|lines|], c.id, c.count, c.length, chunks + [c.data]))
  {
    MadeOfMore(parse, l, lines, line, at, c.id, c.count, c.length, chunks);
    assert (lines + [line])[|lines|] == line;
  }

  /** One more line, in a decoder whose counters are right. */
  lemma LineMakes(parse: Parse, l: Limits, lines: seq<seq<byte>>, line: seq<byte>, at: seq<nat>,
                  pending: Option<Pending>)
    returns (next: seq<nat>)
    requires PendingMade(parse, l, lines, at, pending) && !LineOverflows(parse, l, pending, line)
    ensures PendingMade(parse, l, lines + [line], next, Step(parse, l, pending, line).pending)
  {
    next := at;
    if c :| IsChunk(parse, l, line, c) {
      ChunkIsFiled(parse, l, pending, line, c);
      ReadChunkIff(l, parse(line).value.fields, c);
      RefusedIff(parse, l, pending, c);
      if IsNext(l, pending, c) {
        var p := Under(pending, c);
        var begun := if pending.None? then [] else at;
        MadeOfNext(parse, l, lines, line, begun, c, p.chunks);
        next := begun + [|lines|];
      } else if pending.Some? {
        MadeOfMore(parse, l, lines, line, at, pending.value.id, pending.value.count, pending.value.length,
                   pending.value.chunks);
      }
    } else {
      OtherLine(parse, l, pending, line);
      if pending.Some? {
        MadeOfMore(parse, l, lines, line, at, pending.value.id, pending.value.count, pending.value.length,
                   pending.value.chunks);
      }
    }
  }

  lemma EarlierFit(parse: Parse, l: Limits, lines: seq<seq<byte>>, n: nat)
    requires n <= |lines| && forall m :: 0 <= m < |lines| ==> !OverflowsAt(parse, l, lines, m)
    ensures forall m :: 0 <= m < n ==> !OverflowsAt(parse, l, lines[..n], m)
  {
    forall m | 0 <= m < n ensures !OverflowsAt(parse, l, lines[..n], m) {
      assert lines[..n][..m] == lines[..m] && !OverflowsAt(parse, l, lines, m);
    }
  }

  lemma {:induction false} AlwaysMade(parse: Parse, l: Limits, lines: seq<seq<byte>>) returns (at: seq<nat>)
    requires forall n :: 0 <= n < |lines| ==> !OverflowsAt(parse, l, lines, n)
    ensures PendingMade(parse, l, lines, at, After(parse, l, lines))
    decreases |lines|
  {
    if lines == [] {
      at := [];
    } else {
      var n := |lines| - 1;
      EarlierFit(parse, l, lines, n);
      var before := AlwaysMade(parse, l, lines[..n]);
      assert !OverflowsAt(parse, l, lines, n);
      at := LineMakes(parse, l, lines[..n], lines[n], before, After(parse, l, lines[..n]));
      assert lines == lines[..n] + [lines[n]];
    }
  }

  /** The frame is on the line itself. */
  ghost predicate SentPlain(parse: Parse, l: Limits, line: seq<byte>, o: Object) {
    |line| <= l.frame && parse(line) == Some(Obj(o)) && !ChunkLine(parse, l, line)
  }

  /** The frame is what the chunks of one whole sequence make together, the last of them on the last line. */
  ghost predicate SentInChunks(parse: Parse, l: Limits, lines: seq<seq<byte>>, at: seq<nat>, id: string,
                               chunks: seq<seq<byte>>, o: Object)
  {
    && MadeOf(parse, l, lines, at, id, |chunks|, |Flatten(chunks)|, chunks)
    && at != [] && at[|at| - 1] == |lines| - 1
    && parse(Flatten(chunks)) == Some(Obj(o))
  }

  /**
   Whatever lines came before, as long as none overflowed its sequence: a frame is answered only if it is on
   the line itself, or if lines that came carry, in order, all chunks of one sequence of its declared length.
   */
  lemma AnswerWasSent(parse: Parse, l: Limits, lines: seq<seq<byte>>, o: Object)
    returns (at: seq<nat>, id: string, chunks: seq<seq<byte>>)
    requires lines != [] && forall n :: 0 <= n < |lines| ==> !OverflowsAt(parse, l, lines, n)
    requires var n := |lines| - 1; Step(parse, l, After(parse, l, lines[..n]), lines[n]).answer == Ok(Some(o))
    ensures SentPlain(parse, l, lines[|lines| - 1], o) || SentInChunks(parse, l, lines, at, id, chunks, o)
  {
    var n := |lines| - 1;
    at, id, chunks := [], "", [];
    if c :| IsChunk(parse, l, lines[n], c) {
      EarlierFit(parse, l, lines, n);
      at, id, chunks := ChunkedAnswer(parse, l, lines[..n], lines[n], c, o);
      assert lines[..n] + [lines[n]] == lines;
    } else {
      OtherLine(parse, l, After(parse, l, lines[..n]), lines[n]);
    }
  }

  lemma ChunkedAnswer(parse: Parse, l: Limits, front: seq<seq<byte>>, line: seq<byte>, c: Chunk, o: Object)
    returns (at: seq<nat>, id: string, chunks: seq<seq<byte>>)
    requires IsChunk(parse, l, line, c) && forall m :: 0 <= m < |front| ==> !OverflowsAt(parse, l, front, m)
    requires Step(parse, l, After(parse, l, front), line).answer == Ok(Some(o))
    ensures Given(SentInChunks(parse, l, front + [line], at, id, chunks, o))
  {
    RightUpTo(parse, l, front, |front|);
    assert front[..|front|] == front;
    var before := AlwaysMade(parse, l, front);
    at, id, chunks := ChunkAnswers(parse, l, front, line, before, After(parse, l, front), c, o);
  }

  lemma ChunkAnswers(parse: Parse, l: Limits, lines: seq<seq<byte>>, line: seq<byte>, before: seq<nat>,
                     pending: Option<Pending>, c: Chunk, o: Object)
    returns (at: seq<nat>, id: string, chunks: seq<seq<byte>>)
    requires PendingMade(parse, l, lines, before, pending) && Given(Consistent(l, pending))
      && IsChunk(parse, l, line, c)
    requires Step(parse, l, pending, line).answer == Ok(Some(o))
    ensures Given(SentInChunks(parse, l, lines + [line], at, id, chunks, o))
  {
    ChunkIsFiled(parse, l, pending, line, c);
    LastChunk(parse, l, pending, c, o);
    var p := Under(pending, c);
    var begun := if pending.None? then [] else before;
    MadeOfNext(parse, l, lines, line, begun, c, p.chunks);
    at, id, chunks := begun + [|lines|], c.id, p.chunks + [c.data];
    Assembled(parse, l, lines + [line], at, id, c.count, c.length, chunks, o);
  }

  lemma Assembled(parse: Parse, l: Limits, lines: seq<seq<byte>>, at: seq<nat>, id: string, count: int, length: int,
                  chunks: seq<seq<byte>>, o: Object)
    requires Given(MadeOf(parse, l, lines, at, id, count, length, chunks))
    requires count == |chunks| && length == |Flatten(chunks)| && at != [] && at[|at| - 1] == |lines| - 1
    requires parse(Flatten(chunks)) == Some(Obj(o))
    ensures Given(SentInChunks(parse, l, lines, at, id, chunks, o))
  {
  }

  /** A chunk that is answered with a frame is the last of its sequence, and completes the declared length. */
  lemma LastChunk(parse: Parse, l: Limits, pending: Option<Pending>, c: Chunk, o: Object)
    requires Given(Consistent(l, pending)) && c.index < c.count && File(parse, l, pending, c).answer == Ok(Some(o))
    ensures var p := Under(pending, c);
      && p.id == c.id && p.count == c.count && p.length == c.length && p.nextIndex == c.index == |p.chunks|
      && c.count == |p.chunks| + 1
    ensures var chunks := Under(pending, c).chunks + [c.data];
      |Flatten(chunks)| == c.length && parse(Flatten(chunks)) == Some(Obj(o))
  {
    var p := Under(pending, c);
    RefusedIff(parse, l, pending, c);
    TotalSnoc(p.chunks, c.data);
    TotalIsFlatten(p.chunks + [c.data]);
  }
}
