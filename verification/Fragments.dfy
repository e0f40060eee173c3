/** Cutting an envelope into fragments that fit the tag budget. */
module Fragments {
  import opened Common
  import opened Json
  import opened Envelopes
  import Base64
  import Irc
  import Utf8

  const MAX_TAG_SECTION_BYTES := 4094
  const MAX_TAG_VALUE_BYTES := MAX_TAG_SECTION_BYTES - |Irc.PROTOCOL_TAG| - 1
  const MAX_FRAGMENTS := 64
  const RESERVED := 360

  const FRAGMENT_FIELDS: set<string> := {
    "v", "k", "id", "of", "t", "epoch", "sid", "part", "parts", "bytes", "sha256", "encoding", "b64"
  }

  /** What all fragments of one message share. */
  datatype Header = Header(
    parts: int,
    size: int,
    sha256: string,
    kind: string,
    messageType: MessageType,
    epoch: Option<string>,
    sessionId: Option<string>,
    encoding: Option<string>)

  datatype Fragment = Fragment(id: string, header: Header, part: int, chunk: string)

  function WireSize(s: string): nat {
    Utf8.Size(Irc.Escape(s))
  }

  // ----- The fragment object -----

  function FragmentField(f: Fragment, key: string): Option<Json> {
    if key == "v" then Some(Int(PROTOCOL_VERSION))
    else if key == "k" then Some(Str("fragment"))
    else if key == "id" then Some(Str(f.id))
    else if key == "of" then Some(Str(f.header.kind))
    else if key == "t" then Some(Str(TypeName(f.header.messageType)))
    else if key == "epoch" then OptStr(f.header.epoch)
    else if key == "sid" then OptStr(f.header.sessionId)
    else if key == "part" then Some(Int(f.part))
    else if key == "parts" then Some(Int(f.header.parts))
    else if key == "bytes" then Some(Int(f.header.size))
    else if key == "sha256" then Some(Str(f.header.sha256))
    else if key == "encoding" then OptStr(f.header.encoding)
    else if key == "b64" then Some(Str(f.chunk))
    else None
  }

  function FragmentObject(f: Fragment): Object {
    map key | key in FRAGMENT_FIELDS && FragmentField(f, key).Some? :: FragmentField(f, key).value
  }

  /** The strict reader of fragment objects. */
  function ParseFragment(o: Object): Result<Fragment, ProtocolError> {
    var _ :- Check(o.Keys <= FRAGMENT_FIELDS, UnsupportedFields);
    var _ :- Check(WireInteger(Get(o, "v")) == Some(PROTOCOL_VERSION), UnsupportedVersion);
    var id :- RequiredString(o, "id");
    var parts := WireInteger(Get(o, "parts"));
    var part := WireInteger(Get(o, "part"));
    var size := WireInteger(Get(o, "bytes"));
    var digest :- RequiredString(o, "sha256");
    var kind :- RequiredString(o, "of");
    var typeName :- RequiredString(o, "t");
    var _ :- Check(TypeNamed(typeName).Some?, BadMessageType);
    var t := TypeNamed(typeName).value;
    var _ :- Check(KindAllowed(kind, t), UnsupportedKind);
    var epoch :- OptionalString(o, "epoch");
    var sessionId :- OptionalString(o, "sid");
    var encoding :- OptionalString(o, "encoding");
    var _ :- Check(encoding == None || encoding == Some("zlib"), UnsupportedEncoding);
    var chunk :- RequiredString(o, "b64");
    var _ :- Check(parts.Some? && 1 <= parts.value <= MAX_FRAGMENTS, BadFragmentCount);
    var _ :- Check(part.Some? && 0 <= part.value < parts.value, BadFragmentIndex);
    var _ :- Check(size.Some? && 1 <= size.value <= MAX_PAYLOAD_BYTES, BadByteCount);
    Ok(Fragment(id, Header(parts.value, size.value, digest, kind, t, epoch, sessionId, encoding), part.value, chunk))
  }

  /** Counts and sizes within their limits. */
  predicate Bounded(f: Fragment) {
    && 1 <= f.header.parts <= MAX_FRAGMENTS
    && 0 <= f.part < f.header.parts
    && 1 <= f.header.size <= MAX_PAYLOAD_BYTES
  }

  type BoundedFragment = f: Fragment | Bounded(f)
    witness Fragment("", Header(1, 1, "", "", Action, None, None, None), 0, "")

  predicate GoodFragment(f: Fragment) {
    && Bounded(f)
    && f.id != "" && f.chunk != "" && f.header.sha256 != ""
    && f.header.kind != "" && KindAllowed(f.header.kind, f.header.messageType)
    && NonEmptyIfSome(f.header.epoch) && NonEmptyIfSome(f.header.sessionId)
    && (f.header.encoding == None || f.header.encoding == Some("zlib"))
  }

  ghost predicate HoldsNames(o: Object, f: Fragment) {
    && o.Keys <= FRAGMENT_FIELDS
    && Get(o, "id") == Some(Str(f.id))
    && Get(o, "of") == Some(Str(f.header.kind))
    && Get(o, "t") == Some(Str(TypeName(f.header.messageType)))
    && Get(o, "epoch") == OptStr(f.header.epoch)
    && Get(o, "sid") == OptStr(f.header.sessionId)
  }

  ghost predicate HoldsContent(o: Object, f: Fragment) {
    && Get(o, "v") == Some(Int(PROTOCOL_VERSION))
    && Get(o, "part") == Some(Int(f.part))
    && Get(o, "parts") == Some(Int(f.header.parts))
    && Get(o, "bytes") == Some(Int(f.header.size))
    && Get(o, "sha256") == Some(Str(f.header.sha256))
    && Get(o, "encoding") == OptStr(f.header.encoding)
    && Get(o, "b64") == Some(Str(f.chunk))
  }

  lemma ObjectHoldsNames(f: Fragment)
    ensures HoldsNames(FragmentObject(f), f)
  {
  }

  lemma ObjectHoldsContent(f: Fragment)
    ensures HoldsContent(FragmentObject(f), f)
  {
  }

  lemma ObjectIsFragment(f: Fragment)
    ensures Get(FragmentObject(f), "k") == Some(Str("fragment"))
  {
  }

  lemma HeldFragmentReadsBack(o: Object, f: Fragment)
    requires HoldsNames(o, f) && HoldsContent(o, f)
    ensures ParseFragment(o).Ok? <==> GoodFragment(f)
    ensures GoodFragment(f) ==> ParseFragment(o) == Ok(f)
  {
  }

  /** A fragment object reads back as the same fragment, exactly when the fragment is well formed. */
  lemma FragmentRoundTrip(f: Fragment)
    ensures ParseFragment(FragmentObject(f)).Ok? <==> GoodFragment(f)
    ensures GoodFragment(f) ==> ParseFragment(FragmentObject(f)) == Ok(f)
  {
    ObjectHoldsNames(f);
    ObjectHoldsContent(f);
    HeldFragmentReadsBack(FragmentObject(f), f);
  }

  /** The object's fields are the fragment's; an integer may be written as a whole float. */
  ghost predicate TellsFragment(o: Object, f: Fragment) {
    && HoldsNames(o, f)
    && WireInteger(Get(o, "v")) == Some(PROTOCOL_VERSION)
    && WireInteger(Get(o, "part")) == Some(f.part) && WireInteger(Get(o, "parts")) == Some(f.header.parts)
    && WireInteger(Get(o, "bytes")) == Some(f.header.size)
    && Get(o, "sha256") == Some(Str(f.header.sha256)) && Get(o, "b64") == Some(Str(f.chunk))
    && Get(o, "encoding") == OptStr(f.header.encoding)
  }

  lemma TellingParses(o: Object, f: Fragment)
    requires TellsFragment(o, f) && GoodFragment(f)
    ensures ParseFragment(o) == Ok(f)
  {
  }

  lemma ParsedTells(o: Object, f: Fragment)
    requires ParseFragment(o) == Ok(f)
    ensures TellsFragment(o, f)
  {
  }

  lemma ParsedIsGood(o: Object, f: Fragment)
    requires ParseFragment(o) == Ok(f)
    ensures GoodFragment(f)
  {
  }

  /**
   An object is read as a fragment exactly when it has no unknown field, tells the fragment, and that is well
   formed.
   */
  lemma ParsedIff(o: Object, f: Fragment)
    ensures ParseFragment(o) == Ok(f) <==> TellsFragment(o, f) && GoodFragment(f)
  {
    if ParseFragment(o) == Ok(f) {
      ParsedTells(o, f);
      ParsedIsGood(o, f);
    } else if TellsFragment(o, f) && GoodFragment(f) {
      TellingParses(o, f);
    }
  }

  lemma ParsedIsBounded(o: Object)
    ensures ParseFragment(o).Ok? ==> Bounded(ParseFragment(o).value)
  {
  }

  // ----- The fragment's text -----

  function Pair(key: string, value: string): string {
    ['"'] + key + ['"', ':'] + value
  }

  /** A member that another one follows. */
  function Member(key: string, value: string): string {
    Pair(key, value) + ","
  }

  function OptMember(key: string, value: Option<string>): string {
    if value.Some? then Member(key, Quoted(value.value)) else ""
  }

  function RenderInt(n: int): string {
    if n < 0 then "-" + RenderNat(-n) else RenderNat(n)
  }

  /** Compact JSON with sorted keys. */
  function Render(f: Fragment): string {
    "{" + RenderFirst(f) + (RenderSecond(f) + RenderParts(f)) + RenderThird(f) + "}"
  }

  function RenderFirst(f: Fragment): string {
    Member("b64", Quoted(f.chunk)) + Member("bytes", RenderInt(f.header.size))
    + OptMember("encoding", f.header.encoding) + OptMember("epoch", f.header.epoch)
  }

  function RenderSecond(f: Fragment): string {
    Member("id", Quoted(f.id)) + Member("k", Quoted("fragment")) + Member("of", Quoted(f.header.kind))
  }

  function RenderParts(f: Fragment): string {
    Member("part", RenderInt(f.part)) + Member("parts", RenderInt(f.header.parts))
  }

  function RenderThird(f: Fragment): string {
    Member("sha256", Quoted(f.header.sha256)) + OptMember("sid", f.header.sessionId)
    + Member("t", Quoted(TypeName(f.header.messageType))) + Pair("v", RenderInt(PROTOCOL_VERSION))
  }

  // ----- Chunks -----

  /** Slices of n characters, the last one possibly shorter. */
  function Cut(s: string, n: nat): (chunks: seq<string>)
    requires n > 0
    decreases |s|
  {
    if s == "" then [] else if |s| <= n then [s] else [s[..n]] + Cut(s[n..], n)
  }

  lemma {:induction false} CutJoins(s: string, n: nat)
    requires n > 0
    ensures Flatten(Cut(s, n)) == s
  {
    if |s| > n {
      CutJoins(s[n..], n);
    } else if s != "" {
      assert Flatten([s]) == s + Flatten([]);
    }
  }

  lemma {:induction false} CutSizes(s: string, n: nat, i: nat)
    requires n > 0 && i < |Cut(s, n)|
    ensures 1 <= |Cut(s, n)[i]| <= n
    ensures forall j :: 0 <= j < |Cut(s, n)[i]| ==> Cut(s, n)[i][j] in s
  {
    if |s| > n && i > 0 {
      CutSizes(s[n..], n, i - 1);
    }
  }

  lemma {:induction false} CutCount(s: string, n: nat)
    requires n > 0
    ensures |Cut(s, n)| == (|s| + n - 1) / n
  {
    if |s| > n {
      CutCount(s[n..], n);
      assert |Cut(s, n)| == 1 + |Cut(s[n..], n)|;
      OneMorePart(|s|, n);
    } else if s != "" {
      OnePart(|s|, n);
    }
  }

  lemma OneMorePart(length: nat, n: nat)
    requires length > n > 0
    ensures (length + n - 1) / n == 1 + (length - n + n - 1) / n
  {
    DivStep(length - 1, n);
  }

  lemma OnePart(length: nat, n: nat)
    requires 0 < length <= n
    ensures (length + n - 1) / n == 1
  {
    DivStep(length - 1, n);
  }

  lemma DivStep(a: nat, n: nat)
    requires n > 0
    ensures (a + n) / n == a / n + 1
  {
    Quotient(a + n, n, a / n + 1, a % n);
  }

  lemma Quotient(x: nat, n: nat, q: nat, r: nat)
    requires r < n && x == q * n + r
    ensures x / n == q
  {
    var other := x / n;
    assert x == other * n + x % n;
    if other > q {
      Multiples(q + 1, other, n);
    } else if other < q {
      Multiples(other + 1, q, n);
    }
  }

  lemma Multiples(a: nat, b: nat, n: nat)
    requires a <= b
    ensures a * n <= b * n
  {
  }

  function FragmentCount(payload: seq<byte>, chunkSize: nat): nat
    requires chunkSize > 0
  {
    var encoded := Base64.StripPadding(Base64.Encode(payload, true));
    Max(1, (|encoded| + chunkSize - 1) / chunkSize)
  }

  /** The predicted count is the real one. */
  lemma CountIsReal(payload: seq<byte>, chunkSize: nat)
    requires chunkSize > 0 && payload != []
    ensures FragmentCount(payload, chunkSize) == |Cut(Base64.StripPadding(Base64.Encode(payload, true)), chunkSize)|
    ensures FragmentCount(payload, chunkSize) == ((4 * |payload| + 2) / 3 + chunkSize - 1) / chunkSize
  {
    Base64.StripEncode(payload, true);
    Base64.UnpaddedLength(payload, true);
    CutCount(Base64.Unpadded(payload, true), chunkSize);
    assert ((4 * |payload| + 2) / 3 - 1 + chunkSize) / chunkSize >= 1 by {
      DivStep((4 * |payload| + 2) / 3 - 1, chunkSize);
    }
  }

  // ----- Cutting an envelope -----

  datatype Packed = Packed(payload: seq<byte>, encoding: Option<string>)

  /** Compressed only when that saves a fragment. */
  function Pack(c: Codec, raw: seq<byte>, chunkSize: nat): Packed
    requires chunkSize > 0
  {
    if FragmentCount(c.compress(raw), chunkSize) < FragmentCount(raw, chunkSize)
    then Packed(c.compress(raw), Some("zlib")) else Packed(raw, None)
  }

  function ChunksOf(payload: seq<byte>, chunkSize: nat): seq<string>
    requires chunkSize > 0
  {
    Cut(Base64.StripPadding(Base64.Encode(payload, true)), chunkSize)
  }

  function HeaderOf(c: Codec, e: Envelope, raw: seq<byte>, encoding: Option<string>, parts: nat): Header {
    Header(parts, |raw|, c.sha256(raw), e.kind, e.messageType, e.epoch, e.sessionId, encoding)
  }

  /** The fragments of an envelope too large for one tag. */
  function Pieces(c: Codec, e: Envelope, raw: seq<byte>, chunkSize: nat): seq<Fragment>
    requires chunkSize > 0
  {
    var pack := Pack(c, raw, chunkSize);
    var chunks := ChunksOf(pack.payload, chunkSize);
    var header := HeaderOf(c, e, raw, pack.encoding, |chunks|);
    seq(|chunks|, i requires 0 <= i < |chunks| => Fragment(e.id, header, i, chunks[i]))
  }

  function Rendered(pieces: seq<Fragment>, render: Fragment -> string): seq<string> {
    seq(|pieces|, i requires 0 <= i < |pieces| => render(pieces[i]))
  }

  /** How many pieces these bytes really make. */
  function PartsOf(payload: seq<byte>, chunkSize: nat): nat
    requires chunkSize > 0
  {
    |Cut(Base64.StripPadding(Base64.Encode(payload, true)), chunkSize)|
  }

  /** Bytes are sent compressed exactly when that makes fewer pieces. */
  lemma CompressedIff(c: Codec, raw: seq<byte>, chunkSize: nat)
    requires chunkSize > 0 && raw != [] && c.compress(raw) != []
    ensures Pack(c, raw, chunkSize)
         == if PartsOf(c.compress(raw), chunkSize) < PartsOf(raw, chunkSize) then Packed(c.compress(raw), Some("zlib"))
            else Packed(raw, None)
  {
    CountIsReal(raw, chunkSize);
    CountIsReal(c.compress(raw), chunkSize);
  }

  function Fragmented(c: Codec, e: Envelope, maxTagBytes: int): Result<seq<string>, ProtocolError> {
    var text :- Encode(c, e);
    if WireSize(text) <= maxTagBytes then Ok([text]) else CutUp(c, e, Utf8.Encode(text), maxTagBytes)
  }

  function CutUp(c: Codec, e: Envelope, raw: seq<byte>, maxTagBytes: int): Result<seq<string>, ProtocolError> {
    if maxTagBytes - RESERVED <= 0 then Err(TagBudgetTooSmall)
    else Checked(Pieces(c, e, raw, maxTagBytes - RESERVED), maxTagBytes, Render)
  }

  /** The texts of the pieces, if there are not too many and all fit. */
  function Checked(pieces: seq<Fragment>, maxTagBytes: int, render: Fragment -> string)
    : Result<seq<string>, ProtocolError>
  {
    if |pieces| > MAX_FRAGMENTS then Err(TooManyFragments)
    else if AllFit(Rendered(pieces, render), maxTagBytes) then Ok(Rendered(pieces, render))
    else Err(FragmentExceedsBudget)
  }

  /** At most 64 values are sent, and each fits the budget it was cut for. */
  lemma SentFits(c: Codec, e: Envelope, maxTagBytes: int)
    requires Fragmented(c, e, maxTagBytes).Ok?
    ensures |Fragmented(c, e, maxTagBytes).value| <= 64
    ensures forall i :: 0 <= i < |Fragmented(c, e, maxTagBytes).value| ==>
      WireSize(Fragmented(c, e, maxTagBytes).value[i]) <= maxTagBytes
  {
  }

  /** Which error an envelope meets: its size, the budget, the number of pieces, and last a piece that does not fit. */
  lemma FailsIff(c: Codec, e: Envelope, maxTagBytes: int, raw: seq<byte>)
    requires raw == Utf8.Encode(c.dumps(ToDict(e)))
    ensures var out, chunkSize := Fragmented(c, e, maxTagBytes), maxTagBytes - RESERVED;
      var large := WireSize(c.dumps(ToDict(e))) > maxTagBytes;
      && (out == Err(PayloadTooLarge) <==> |raw| > 131072)
      && (out == Err(TagBudgetTooSmall) <==> |raw| <= 131072 && large && chunkSize <= 0)
      && (out == Err(TooManyFragments) <==>
            |raw| <= 131072 && large && chunkSize > 0 && |Pieces(c, e, raw, chunkSize)| > 64)
  {
  }

  predicate AllFit(values: seq<string>, maxTagBytes: int) {
    forall i :: 0 <= i < |values| ==> WireSize(values[i]) <= maxTagBytes
  }

  method FragmentEnvelope(c: Codec, e: Envelope, maxTagBytes: int) returns (r: Result<seq<string>, ProtocolError>)
    ensures r == Fragmented(c, e, maxTagBytes)
  {
    var text :- Encode(c, e);
    var whole := Irc.TagWireSize(text);
    if whole <= maxTagBytes {
      return Ok([text]);
    }
    r := FragmentLarge(c, e, Utf8.Encode(text), maxTagBytes);
  }

  method FragmentLarge(c: Codec, e: Envelope, raw: seq<byte>, maxTagBytes: int)
    returns (r: Result<seq<string>, ProtocolError>)
    ensures r == CutUp(c, e, raw, maxTagBytes)
  {
    var chunkSize := maxTagBytes - RESERVED;
    if chunkSize <= 0 {
      return Err(TagBudgetTooSmall);
    }
    r := FragmentRaw(c, e, raw, chunkSize, Render);
  }

  method FragmentRaw(c: Codec, e: Envelope, raw: seq<byte>, chunkSize: nat, render: Fragment -> string)
    returns (r: Result<seq<string>, ProtocolError>)
    requires chunkSize > 0
    ensures r == Checked(Pieces(c, e, raw, chunkSize), chunkSize + RESERVED, render)
  {
    var payload := raw;
    var encoding: Option<string> := None;
    var compressed := c.compress(raw);
    if FragmentCount(compressed, chunkSize) < FragmentCount(raw, chunkSize) {
      payload := compressed;
      encoding := Some("zlib");
    }
    var chunks := Cut(Base64.StripPadding(Base64.Encode(payload, true)), chunkSize);
    if |chunks| > MAX_FRAGMENTS {
      return Err(TooManyFragments);
    }
    var header := HeaderOf(c, e, raw, encoding, |chunks|);
    r := RenderAll(e.id, header, chunks, chunkSize + RESERVED, render, Pieces(c, e, raw, chunkSize));
  }

  method RenderAll(id: string, header: Header, chunks: seq<string>, maxTagBytes: int, render: Fragment -> string,
                   ghost pieces: seq<Fragment>)
    returns (r: Result<seq<string>, ProtocolError>)
    requires |pieces| == |chunks|
    requires forall i :: 0 <= i < |chunks| ==> pieces[i] == Fragment(id, header, i, chunks[i])
    ensures r == if AllFit(Rendered(pieces, render), maxTagBytes) then Ok(Rendered(pieces, render))
      else Err(FragmentExceedsBudget)
  {
    ghost var values := Rendered(pieces, render);
    var result := [];
    for part := 0 to |chunks|
      invariant |result| == part && result <= values
      invariant AllFit(result, maxTagBytes)
    {
      var value := render(Fragment(id, header, part, chunks[part]));
      assert values[part] == value;
      var size := Irc.TagWireSize(value);
      if size > maxTagBytes {
        return Err(FragmentExceedsBudget);
      }
      result := result + [value];
    }
    assert result == values;
    return Ok(result);
  }

  // ----- Capacity -----

  /** Characters that are one byte on the wire. */
  predicate TagSafe(s: string) {
    forall i :: 0 <= i < |s| ==> s[i] as int < 128 && Irc.EscapeChar(s[i]) == [s[i]]
  }

  lemma {:induction false} TagSafeSize(s: string)
    requires TagSafe(s)
    ensures WireSize(s) == |s|
  {
    if s != "" {
      TagSafeSize(s[1..]);
      assert Irc.Escape(s) == [s[0]] + Irc.Escape(s[1..]);
      assert Irc.Escape(s)[1..] == Irc.Escape(s[1..]);
      assert |Utf8.EncodeChar(s[0])| == 1;
    }
  }

  /** At most n characters, all one byte on the wire. */
  ghost predicate Fits(s: string, n: int) {
    TagSafe(s) && |s| <= n
  }

  lemma FitsJoin(a: string, m: int, b: string, n: int)
    requires Fits(a, m) && Fits(b, n)
    ensures Fits(a + b, m + n)
  {
  }

  lemma QuotedFits(s: string)
    requires Plain(s)
    ensures Fits(Quoted(s), |s| + 2)
  {
    PlainIsItself(s);
    assert forall i :: 0 <= i < |s| ==> PlainChar(s[i]);
  }

  lemma MemberFits(key: string, value: string, n: int)
    requires Plain(key) && Fits(value, n)
    ensures Fits(Pair(key, value), |key| + n + 3) && Fits(Member(key, value), |key| + n + 4)
  {
    assert forall i :: 0 <= i < |key| ==> PlainChar(key[i]);
  }

  lemma StringFits(key: string, value: string)
    requires Plain(key) && Plain(value)
    ensures Fits(Member(key, Quoted(value)), |key| + |value| + 6)
  {
    QuotedFits(value);
    MemberFits(key, Quoted(value), |value| + 2);
  }

  lemma OptionalFits(key: string, value: Option<string>)
    requires Plain(key) && (value.Some? ==> Plain(value.value))
    ensures Fits(OptMember(key, value), |key| + OptLength(value) + 6)
  {
    if value.Some? {
      StringFits(key, value.value);
    }
  }

  lemma IntFits(key: string, n: nat, k: nat)
    requires Plain(key) && k >= 1 && n < Power10(k)
    ensures Fits(Pair(key, RenderInt(n)), |key| + k + 3) && Fits(Member(key, RenderInt(n)), |key| + k + 4)
  {
    RenderNatPlain(n);
    assert forall i :: 0 <= i < |RenderNat(n)| ==> PlainChar(RenderNat(n)[i]);
    RenderNatLength(n, k, Power10(k));
    MemberFits(key, RenderInt(n), k);
  }

  function OptLength(s: Option<string>): nat {
    if s.Some? then |s.value| else 0
  }

  ghost predicate PlainFragment(f: Fragment) {
    && Plain(f.chunk) && Plain(f.id) && Plain(f.header.kind) && Plain(f.header.sha256)
    && (f.header.epoch.Some? ==> Plain(f.header.epoch.value))
    && (f.header.sessionId.Some? ==> Plain(f.header.sessionId.value))
    && (f.header.encoding.Some? ==> f.header.encoding == Some("zlib"))
    && 0 <= f.header.size <= MAX_PAYLOAD_BYTES && 0 <= f.part < f.header.parts <= MAX_FRAGMENTS
  }

  lemma Powers()
    ensures Power10(1) == 10 && Power10(2) == 100 && Power10(6) == 1000000
  {
    assert Power10(3) == 1000;
    assert Power10(4) == 10000;
    assert Power10(5) == 100000;
  }

  lemma FitsJoin4(a: string, m: int, b: string, n: int, c: string, o: int, d: string, p: int)
    requires Fits(a, m) && Fits(b, n) && Fits(c, o) && Fits(d, p)
    ensures Fits(a + b + c + d, m + n + o + p)
  {
    FitsJoin(a, m, b, n);
    FitsJoin(a + b, m + n, c, o);
    FitsJoin(a + b + c, m + n + o, d, p);
  }

  lemma FirstFits(f: Fragment)
    requires PlainFragment(f)
    ensures Fits(RenderFirst(f), |f.chunk| + OptLength(f.header.epoch) + 53)
  {
    Powers();
    var h := f.header;
    StringFits("b64", f.chunk);
    IntFits("bytes", h.size, 6);
    OptionalFits("encoding", h.encoding);
    OptionalFits("epoch", h.epoch);
    FitsJoin4(Member("b64", Quoted(f.chunk)), |f.chunk| + 9, Member("bytes", RenderInt(h.size)), 15,
              OptMember("encoding", h.encoding), 18, OptMember("epoch", h.epoch), OptLength(h.epoch) + 11);
  }

  lemma SecondFits(f: Fragment)
    requires PlainFragment(f)
    ensures Fits(RenderSecond(f), |f.id| + |f.header.kind| + 31)
  {
    var id, k, of := Member("id", Quoted(f.id)), Member("k", Quoted("fragment")), Member("of", Quoted(f.header.kind));
    StringFits("id", f.id);
    StringFits("k", "fragment");
    StringFits("of", f.header.kind);
    FitsJoin(id, |f.id| + 8, k, 15);
    FitsJoin(id + k, |f.id| + 23, of, |f.header.kind| + 8);
  }

  lemma PartsFit(f: Fragment)
    requires PlainFragment(f)
    ensures Fits(RenderParts(f), 21)
  {
    Powers();
    IntFits("part", f.part, 2);
    IntFits("parts", f.header.parts, 2);
    FitsJoin(Member("part", RenderInt(f.part)), 10, Member("parts", RenderInt(f.header.parts)), 11);
  }

  lemma ThirdFits(f: Fragment)
    requires PlainFragment(f)
    ensures Fits(RenderThird(f), |f.header.sha256| + OptLength(f.header.sessionId) + 39)
  {
    Powers();
    var h := f.header;
    var name := TypeName(h.messageType);
    StringFits("sha256", h.sha256);
    OptionalFits("sid", h.sessionId);
    StringFits("t", name);
    IntFits("v", PROTOCOL_VERSION, 1);
    FitsJoin4(Member("sha256", Quoted(h.sha256)), |h.sha256| + 12,
              OptMember("sid", h.sessionId), OptLength(h.sessionId) + 9,
              Member("t", Quoted(name)), 13, Pair("v", RenderInt(PROTOCOL_VERSION)), 5);
  }

  /** The exact allowance for a fragment's metadata, for a 36-character id and a 64-character digest. */
  lemma FragmentSize(f: Fragment)
    requires PlainFragment(f) && |f.id| == 36 && |f.header.sha256| == 64
    ensures WireSize(Render(f))
         <= |f.chunk| + 246 + OptLength(f.header.epoch) + |f.header.kind| + OptLength(f.header.sessionId)
  {
    FirstFits(f);
    SecondFits(f);
    ThirdFits(f);
    PartsFit(f);
    FitsJoin(RenderSecond(f), |f.header.kind| + 67, RenderParts(f), 21);
    BracedFits(RenderFirst(f), |f.chunk| + OptLength(f.header.epoch) + 53,
               RenderSecond(f) + RenderParts(f), |f.header.kind| + 88,
               RenderThird(f), OptLength(f.header.sessionId) + 103);
    TagSafeSize(Render(f));
  }

  lemma BracedFits(a: string, m: int, b: string, n: int, d: string, p: int)
    requires Fits(a, m) && Fits(b, n) && Fits(d, p)
    ensures Fits("{" + a + b + d + "}", m + n + p + 2)
  {
    FitsJoin4("{", 1, a, m, b, n, d, p);
    FitsJoin("{" + a + b + d, 1 + m + n + p, "}", 1);
  }

  /** What the size theorem asks of an envelope: plain metadata of bounded length, and a hexadecimal digest. */
  ghost predicate Modest(c: Codec, e: Envelope) {
    && |e.id| == 36 && Plain(e.id) && Plain(e.kind)
    && (e.epoch.Some? ==> Plain(e.epoch.value)) && (e.sessionId.Some? ==> Plain(e.sessionId.value))
    && OptLength(e.epoch) + |e.kind| + OptLength(e.sessionId) <= 114
    && (forall raw: seq<byte> :: |c.sha256(raw)| == 64 && Plain(c.sha256(raw)))
  }

  lemma PieceIsPlain(c: Codec, e: Envelope, raw: seq<byte>, chunkSize: nat, i: nat)
    requires Modest(c, e) && chunkSize > 0 && 1 <= |raw| <= MAX_PAYLOAD_BYTES
    requires i < |Pieces(c, e, raw, chunkSize)| <= MAX_FRAGMENTS
    ensures PlainFragment(Pieces(c, e, raw, chunkSize)[i]) && |Pieces(c, e, raw, chunkSize)[i].chunk| <= chunkSize
  {
    var payload := Pack(c, raw, chunkSize).payload;
    var encoded := Base64.Unpadded(payload, true);
    Base64.StripEncode(payload, true);
    Base64.UnpaddedIsBare(payload, true);
    CutSizes(encoded, chunkSize, i);
    var chunk := Cut(encoded, chunkSize)[i];
    assert forall j :: 0 <= j < |encoded| ==> Base64.Ordinary(encoded[j]);
    assert Plain(chunk);
  }

  lemma PieceFits(c: Codec, e: Envelope, raw: seq<byte>, chunkSize: nat, i: nat)
    requires Modest(c, e) && chunkSize > 0 && 1 <= |raw| <= MAX_PAYLOAD_BYTES
    requires i < |Pieces(c, e, raw, chunkSize)| <= MAX_FRAGMENTS
    ensures WireSize(Render(Pieces(c, e, raw, chunkSize)[i])) <= chunkSize + RESERVED
  {
    PieceIsPlain(c, e, raw, chunkSize, i);
    PlainFits(Pieces(c, e, raw, chunkSize)[i], chunkSize);
  }

  lemma PlainFits(f: Fragment, chunkSize: nat)
    requires PlainFragment(f) && |f.id| == 36 && |f.header.sha256| == 64 && |f.chunk| <= chunkSize
    requires 246 + OptLength(f.header.epoch) + |f.header.kind| + OptLength(f.header.sessionId) <= RESERVED
    ensures WireSize(Render(f)) <= chunkSize + RESERVED
  {
    FragmentSize(f);
  }

  lemma PiecesFit(c: Codec, e: Envelope, raw: seq<byte>, chunkSize: nat, pieces: seq<Fragment>)
    requires Modest(c, e) && chunkSize > 0 && 1 <= |raw| <= MAX_PAYLOAD_BYTES
    requires pieces == Pieces(c, e, raw, chunkSize) && |pieces| <= MAX_FRAGMENTS
    ensures AllFit(Rendered(pieces, Render), chunkSize + RESERVED)
  {
    forall i | 0 <= i < |pieces| ensures WireSize(Rendered(pieces, Render)[i]) <= chunkSize + RESERVED {
      PieceFits(c, e, raw, chunkSize, i);
    }
  }

  /** No budget makes a modest envelope raise the fragment size error. */
  lemma FragmentsAlwaysFit(c: Codec, e: Envelope, maxTagBytes: int)
    requires Modest(c, e)
    ensures Fragmented(c, e, maxTagBytes) != Err(FragmentExceedsBudget)
  {
    var chunkSize := maxTagBytes - RESERVED;
    if Encode(c, e).Ok? && WireSize(Encode(c, e).value) > maxTagBytes && chunkSize > 0 {
      var raw := Utf8.Encode(Encode(c, e).value);
      RawIsNotEmpty(Encode(c, e).value);
      if |Pieces(c, e, raw, chunkSize)| <= MAX_FRAGMENTS {
        PiecesFit(c, e, raw, chunkSize, Pieces(c, e, raw, chunkSize));
      }
    }
  }

  lemma RawIsNotEmpty(text: string)
    ensures WireSize(text) > 0 ==> |Utf8.Encode(text)| > 0
  {
  }

  /** The smaller of the two packings: never more parts than the raw bytes need. */
  lemma PartsBound(c: Codec, e: Envelope, raw: seq<byte>, chunkSize: nat)
    requires chunkSize > 0 && raw != []
    ensures 0 <= |Pieces(c, e, raw, chunkSize)| <= ((4 * |raw| + 2) / 3 + chunkSize - 1) / chunkSize
  {
    CountIsReal(raw, chunkSize);
    if c.compress(raw) != [] {
      CountIsReal(c.compress(raw), chunkSize);
    } else {
      Base64.StripEncode([], true);
    }
  }

  /** At the default budget every envelope that encodes needs at most 48 parts. */
  lemma PartsAtDefault(c: Codec, e: Envelope, raw: seq<byte>)
    requires 1 <= |raw| <= MAX_PAYLOAD_BYTES
    ensures |Pieces(c, e, raw, MAX_TAG_VALUE_BYTES - RESERVED)| <= 48
  {
    PartsBound(c, e, raw, MAX_TAG_VALUE_BYTES - RESERVED);
  }

  /** So there a modest envelope that encodes is always fragmented without error. */
  lemma DefaultNeverFails(c: Codec, e: Envelope)
    requires Modest(c, e) && Encode(c, e).Ok?
    ensures Fragmented(c, e, MAX_TAG_VALUE_BYTES).Ok? && |Fragmented(c, e, MAX_TAG_VALUE_BYTES).value| <= 48
  {
    var text := Encode(c, e).value;
    FragmentsAlwaysFit(c, e, MAX_TAG_VALUE_BYTES);
    if WireSize(text) > MAX_TAG_VALUE_BYTES {
      RawIsNotEmpty(text);
      PartsAtDefault(c, e, Utf8.Encode(text));
    }
  }
}
