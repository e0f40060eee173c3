/** Packing a history page into chunks that fit one protocol payload. */
module HistoryChunks {
  import opened Common
  import Json

  const HISTORY_CHUNK_BYTES := 96 * 1024

  type Payload = Json.Json

  /** Sizes of serialized payloads; the codec is a parameter. */
  type Sizer = Payload -> nat

  function Total(h: seq<Payload>, size: Sizer): nat {
    if h == [] then 0 else size(h[0]) + Total(h[1..], size)
  }

  lemma {:induction false} TotalAppend(a: seq<Payload>, b: seq<Payload>, size: Sizer)
    ensures Total(a + b, size) == Total(a, size) + Total(b, size)
  {
    if a == [] {
      assert a + b == b;
    } else {
      assert (a + b)[1..] == a[1..] + b;
      TotalAppend(a[1..], b, size);
    }
  }

  /** A chunk may hold one payload of any size, or several that fit together. */
  predicate Fits(chunk: seq<Payload>, size: Sizer) {
    |chunk| == 1 || Total(chunk, size) <= HISTORY_CHUNK_BYTES
  }

  predicate AllFit(chunks: seq<seq<Payload>>, size: Sizer) {
    forall i :: 0 <= i < |chunks| ==> Fits(chunks[i], size)
  }

  /** How many payloads go into a chunk that already holds `used` bytes. */
  function Room(h: seq<Payload>, used: nat, size: Sizer): (n: nat)
    ensures n <= |h|
  {
    if h == [] || used + size(h[0]) > HISTORY_CHUNK_BYTES then 0
    else 1 + Room(h[1..], used + size(h[0]), size)
  }

  /** The length of the first chunk. */
  function First(h: seq<Payload>, size: Sizer): (n: nat)
    requires h != []
    ensures 1 <= n <= |h|
  {
    1 + Room(h[1..], size(h[0]), size)
  }

  function Packed(h: seq<Payload>, size: Sizer): seq<seq<Payload>>
    decreases |h|
  {
    if h == [] then [] else [h[..First(h, size)]] + Packed(h[First(h, size)..], size)
  }

  /** The packing that continues a chunk of so many bytes. */
  function Continued(current: seq<Payload>, used: nat, h: seq<Payload>, size: Sizer): seq<seq<Payload>> {
    if current == [] then Packed(h, size) else Closed(current, h, Room(h, used, size), size)
  }

  /** The packing that adds the next n payloads to the chunk, and then starts another. */
  function Closed(current: seq<Payload>, h: seq<Payload>, n: nat, size: Sizer): seq<seq<Payload>>
    requires n <= |h|
  {
    [current + h[..n]] + Packed(h[n..], size)
  }

  lemma CloseOver(current: seq<Payload>, h: seq<Payload>, n: nat, size: Sizer)
    requires h != [] && n < |h|
    ensures Closed(current, h, n + 1, size) == Closed(current + [h[0]], h[1..], n, size)
  {
    assert current + h[..n + 1] == current + [h[0]] + h[1..][..n];
    assert h[1..][n..] == h[n + 1..];
  }

  lemma StartOne(h: seq<Payload>, size: Sizer)
    requires h != []
    ensures Packed(h, size) == Continued([h[0]], size(h[0]), h[1..], size)
  {
    CloseOver([], h, Room(h[1..], size(h[0]), size), size);
    assert [] + [h[0]] == [h[0]] && [] + h[..First(h, size)] == h[..First(h, size)];
  }

  lemma ContinueOne(current: seq<Payload>, used: nat, h: seq<Payload>, size: Sizer)
    requires current != [] && h != [] && used + size(h[0]) <= HISTORY_CHUNK_BYTES
    ensures Continued(current, used, h, size) == Continued(current + [h[0]], used + size(h[0]), h[1..], size)
  {
    CloseOver(current, h, Room(h[1..], used + size(h[0]), size), size);
  }

  lemma CloseOne(current: seq<Payload>, used: nat, h: seq<Payload>, size: Sizer)
    requires current != []
    requires h == [] || used + size(h[0]) > HISTORY_CHUNK_BYTES
    ensures Continued(current, used, h, size) == [current] + Packed(h, size)
  {
    assert current + h[..0] == current && h[0..] == h;
  }

  /** The chunks closed so far, the one being filled, and its bytes. */
  datatype Packing = Packing(chunks: seq<seq<Payload>>, current: seq<Payload>, bytes: nat)

  function Add(p: Packing, payload: Payload, size: Sizer): Packing {
    if p.current != [] && p.bytes + size(payload) > HISTORY_CHUNK_BYTES
    then Packing(p.chunks + [p.current], [payload], size(payload))
    else p.(current := p.current + [payload], bytes := p.bytes + size(payload))
  }

  function Chunks(p: Packing): seq<seq<Payload>> {
    if p.current == [] then p.chunks else p.chunks + [p.current]
  }

  /** The chunks this packing ends with when these payloads follow. */
  function Whole(p: Packing, h: seq<Payload>, size: Sizer): seq<seq<Payload>> {
    p.chunks + Continued(p.current, p.bytes, h, size)
  }

  lemma AddStarts(p: Packing, h: seq<Payload>, size: Sizer)
    requires h != [] && p.current == [] && p.bytes == 0
    ensures Whole(Packing(p.chunks, p.current + [h[0]], p.bytes + size(h[0])), h[1..], size) == Whole(p, h, size)
  {
    StartOne(h, size);
    assert p.current + [h[0]] == [h[0]];
  }

  lemma AddContinues(p: Packing, h: seq<Payload>, size: Sizer)
    requires h != [] && p.current != [] && p.bytes + size(h[0]) <= HISTORY_CHUNK_BYTES
    ensures Whole(Packing(p.chunks, p.current + [h[0]], p.bytes + size(h[0])), h[1..], size) == Whole(p, h, size)
  {
    ContinueOne(p.current, p.bytes, h, size);
  }

  lemma AddCloses(p: Packing, h: seq<Payload>, size: Sizer)
    requires h != [] && p.current != [] && p.bytes + size(h[0]) > HISTORY_CHUNK_BYTES
    ensures Whole(Packing(p.chunks + [p.current], [h[0]], size(h[0])), h[1..], size) == Whole(p, h, size)
  {
    StartOne(h, size);
    CloseOne(p.current, p.bytes, h, size);
    var rest := Packed(h, size);
    assert p.chunks + ([p.current] + rest) == p.chunks + [p.current] + rest;
  }

  lemma AddOne(p: Packing, h: seq<Payload>, size: Sizer)
    requires h != [] && (p.current == [] ==> p.bytes == 0)
    ensures Whole(Add(p, h[0], size), h[1..], size) == Whole(p, h, size)
  {
    if p.current == [] {
      AddStarts(p, h, size);
    } else if p.bytes + size(h[0]) > HISTORY_CHUNK_BYTES {
      AddCloses(p, h, size);
    } else {
      AddContinues(p, h, size);
    }
  }

  lemma WholeEnds(p: Packing, h: seq<Payload>, size: Sizer)
    requires h == []
    ensures Whole(p, h, size) == Chunks(p)
  {
    if p.current != [] {
      CloseOne(p.current, p.bytes, h, size);
    }
  }

  function AddAll(p: Packing, h: seq<Payload>, size: Sizer): Packing
    decreases |h|
  {
    if h == [] then p else AddAll(Add(p, h[0], size), h[1..], size)
  }

  lemma {:induction false} AddAllIsWhole(p: Packing, h: seq<Payload>, size: Sizer)
    requires p.current == [] ==> p.bytes == 0
    ensures Chunks(AddAll(p, h, size)) == Whole(p, h, size)
    decreases |h|
  {
    if h == [] {
      WholeEnds(p, h, size);
    } else {
      AddOne(p, h, size);
      AddAllIsWhole(Add(p, h[0], size), h[1..], size);
    }
  }

  method PackHistory(history: seq<Payload>, size: Sizer) returns (chunks: seq<seq<Payload>>)
    ensures chunks == Packed(history, size)
  {
    chunks := [];
    var current: seq<Payload> := [];
    var currentBytes: nat := 0;
    ghost var start := Packing([], [], 0);
    assert history[0..] == history;
    for i := 0 to |history|
      invariant AddAll(Packing(chunks, current, currentBytes), history[i..], size) == AddAll(start, history, size)
      invariant current == [] ==> currentBytes == 0
    {
      var payload := history[i];
      var bytes := size(payload);
      ghost var before := Packing(chunks, current, currentBytes);
      assert history[i..][0] == payload && history[i..][1..] == history[i + 1..];
      if current != [] && currentBytes + bytes > HISTORY_CHUNK_BYTES {
        chunks := chunks + [current];
        current := [];
        currentBytes := 0;
      }
      current := current + [payload];
      currentBytes := currentBytes + bytes;
      assert Packing(chunks, current, currentBytes) == Add(before, payload, size);
    }
    AddAllIsWhole(start, history, size);
    if current != [] {
      chunks := chunks + [current];
    }
  }

  // ----- What packing promises -----

  lemma {:induction false} RoomFits(h: seq<Payload>, used: nat, size: Sizer, n: nat)
    requires n <= |h|
    ensures n <= Room(h, used, size) <==> n == 0 || used + Total(h[..n], size) <= HISTORY_CHUNK_BYTES
    decreases |h|
  {
    if n > 0 {
      RoomFits(h[1..], used + size(h[0]), size, n - 1);
      assert h[..n][1..] == h[1..][..n - 1];
    }
  }

  /** A prefix is at most as long as the first chunk exactly when it could be a chunk. */
  lemma FirstIsLongest(h: seq<Payload>, size: Sizer, n: nat)
    requires 1 <= n <= |h|
    ensures n <= First(h, size) <==> Fits(h[..n], size)
  {
    RoomFits(h[1..], size(h[0]), size, n - 1);
    assert h[..n][1..] == h[1..][..n - 1];
  }

  /** The chunks are the history in order, none is empty, and each is a singleton or fits. */
  lemma {:induction false} PackedIsValid(h: seq<Payload>, size: Sizer)
    ensures Flatten(Packed(h, size)) == h && AllFit(Packed(h, size), size)
    ensures forall i :: 0 <= i < |Packed(h, size)| ==> Packed(h, size)[i] != []
    decreases |h|
  {
    if h != [] {
      var n := First(h, size);
      PackedIsValid(h[n..], size);
      FirstIsLongest(h, size, n);
      assert h[..n] + h[n..] == h;
    }
  }

  lemma {:induction false} TotalPart(h: seq<Payload>, k: nat, n: nat, size: Sizer)
    requires k <= n <= |h|
    ensures Total(h[k..n], size) <= Total(h[..n], size)
  {
    assert h[..n] == h[..k] + h[k..n];
    TotalAppend(h[..k], h[k..n], size);
  }

  /** Starting later never takes more chunks. */
  lemma {:induction false} SuffixTakesNoMore(h: seq<Payload>, k: nat, size: Sizer)
    requires k <= |h|
    ensures |Packed(h[k..], size)| <= |Packed(h, size)|
    decreases |h|
  {
    if k == 0 {
      assert h[k..] == h;
    } else {
      var n := First(h, size);
      if k >= n {
        assert h[k..] == h[n..][k - n..];
        SuffixTakesNoMore(h[n..], k - n, size);
      } else {
        var later := h[k..];
        var m := First(later, size);
        FirstReachesAsFar(h, k, size);
        assert later[m..] == h[n..][k + m - n..];
        SuffixTakesNoMore(h[n..], k + m - n, size);
      }
    }
  }

  lemma FirstReachesAsFar(h: seq<Payload>, k: nat, size: Sizer)
    requires 0 < k < |h| && k < First(h, size)
    ensures k + First(h[k..], size) >= First(h, size)
  {
    var n := First(h, size);
    FirstIsLongest(h, size, n);
    TotalPart(h, k, n, size);
    assert h[k..][..n - k] == h[k..n];
    FirstIsLongest(h[k..], size, n - k);
  }

  /** Splitting off a prefix that fits takes one chunk more than the rest at most. */
  lemma OneMore(h: seq<Payload>, m: nat, size: Sizer)
    requires 1 <= m <= |h| && Fits(h[..m], size)
    ensures |Packed(h, size)| <= 1 + |Packed(h[m..], size)|
  {
    var n := First(h, size);
    FirstIsLongest(h, size, m);
    PackedCount(h, size, n, h[n..]);
    LaterTakesNoMore(h, m, n, size);
  }

  lemma LaterTakesNoMore(h: seq<Payload>, m: nat, n: nat, size: Sizer)
    requires m <= n <= |h|
    ensures |Packed(h[n..], size)| <= |Packed(h[m..], size)|
  {
    var rest := h[m..];
    SuffixTakesNoMore(rest, n - m, size);
    assert h[n..] == rest[n - m..];
  }

  lemma PackedCount(h: seq<Payload>, size: Sizer, n: nat, rest: seq<Payload>)
    requires h != [] && n == First(h, size) && rest == h[n..]
    ensures |Packed(h, size)| == 1 + |Packed(rest, size)|
  {
  }

  /** Greedy is optimal: no split in order that meets the rule uses fewer chunks. */
  lemma {:induction false} PackedIsOptimal(h: seq<Payload>, other: seq<seq<Payload>>, size: Sizer)
    requires Flatten(other) == h && AllFit(other, size)
    ensures |Packed(h, size)| <= |other|
    decreases |other|
  {
    if h != [] {
      var c, rest := other[0], other[1..];
      assert h == c + Flatten(rest);
      PackedIsOptimal(Flatten(rest), rest, size);
      if c != [] {
        assert h[|c|..] == Flatten(rest) && h[..|c|] == c && Fits(other[0], size);
        OneMore(h, |c|, size);
      }
    }
  }
}
