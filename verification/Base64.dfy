/**
 Base64 (section 4 of RFC 4648) and base64url (section 5 of RFC 4648), together
 with the lenient decoder the fragment and OMP readers run: it skips characters
 outside the alphabet, stops at a completed pad sequence, and fails on an
 unfinished quad or a non-ASCII character.
 */
module Base64 {
  import opened Common

  type sextet = x: int | 0 <= x < 64

  /** A visible ASCII character other than the padding and those that JSON or tag values escape. */
  predicate Ordinary(c: char) {
    0x20 < c as int < 0x7F && c != '=' && c != '"' && c != '\\' && c != ';'
  }

  /** The alphabet; `url` selects `-` and `_` over `+` and `/`. */
  function Char(i: sextet, url: bool): (c: char)
    ensures Ordinary(c)
  {
    if i < 26 then ('A' as int + i) as char
    else if i < 52 then ('a' as int + i - 26) as char
    else if i < 62 then ('0' as int + i - 52) as char
    else if i == 62 then (if url then '-' else '+')
    else if url then '_' else '/'
  }

  /** base64url input is translated to the standard alphabet, which stays readable. */
  function Index(c: char, url: bool): Option<sextet> {
    if 'A' <= c <= 'Z' then Some(c as int - 'A' as int)
    else if 'a' <= c <= 'z' then Some(c as int - 'a' as int + 26)
    else if '0' <= c <= '9' then Some(c as int - '0' as int + 52)
    else if c == '+' || (url && c == '-') then Some(62)
    else if c == '/' || (url && c == '_') then Some(63)
    else None
  }

  lemma IndexOfChar(i: sextet, url: bool)
    ensures Index(Char(i, url), url) == Some(i)
  {
  }

  // ----- Encoding -----

  /** Encoded text without padding, as section 3.2 of RFC 4648 allows. */
  function Unpadded(b: seq<byte>, url: bool): string {
    if |b| == 0 then ""
    else if |b| == 1 then
      [Char(b[0] / 4, url), Char(b[0] % 4 * 16, url)]
    else if |b| == 2 then
      [Char(b[0] / 4, url), Char(b[0] % 4 * 16 + b[1] / 16, url), Char(b[1] % 16 * 4, url)]
    else
      Quad(b[0], b[1], b[2], url) + Unpadded(b[3..], url)
  }

  /** Three bytes are four characters. */
  function Quad(x: byte, y: byte, z: byte, url: bool): string {
    [Char(x / 4, url), Char(x % 4 * 16 + y / 16, url)]
    + ([Char(y % 16 * 4 + z / 64, url)] + [Char(z % 64, url)])
  }

  /** The `=` characters that complete a text of `n` characters: `-n % 4` in Python. */
  function Padding(n: nat): string {
    Repeat('=', (4 - n % 4) % 4)
  }

  function Encode(b: seq<byte>, url: bool): string {
    Unpadded(b, url) + Padding(|Unpadded(b, url)|)
  }

  function StripPadding(s: string): string {
    if s != "" && s[|s| - 1] == '=' then StripPadding(s[..|s| - 1]) else s
  }

  lemma {:induction false} UnpaddedLength(b: seq<byte>, url: bool)
    ensures |Unpadded(b, url)| == (4 * |b| + 2) / 3
  {
    if |b| >= 3 {
      UnpaddedLength(b[3..], url);
    }
  }

  predicate Bare(s: string) {
    forall i :: 0 <= i < |s| ==> Ordinary(s[i])
  }

  lemma {:induction false} UnpaddedIsBare(b: seq<byte>, url: bool)
    ensures Bare(Unpadded(b, url))
  {
    if |b| >= 3 {
      UnpaddedIsBare(b[3..], url);
    }
  }

  lemma {:induction false} StripRepeat(s: string, n: nat)
    requires s == "" || s[|s| - 1] != '='
    ensures StripPadding(s + Repeat('=', n)) == s
  {
    if n == 0 {
      assert s + Repeat('=', n) == s;
    } else {
      var t := s + Repeat('=', n);
      assert t[..|t| - 1] == s + Repeat('=', n - 1);
      StripRepeat(s, n - 1);
    }
  }

  /** Stripping the padding of the encoder recovers exactly the unpadded text. */
  lemma StripEncode(b: seq<byte>, url: bool)
    ensures StripPadding(Encode(b, url)) == Unpadded(b, url)
  {
    UnpaddedIsBare(b, url);
    StripRepeat(Unpadded(b, url), |Padding(|Unpadded(b, url)|)|);
    assert Padding(|Unpadded(b, url)|) == Repeat('=', |Padding(|Unpadded(b, url)|)|);
  }

  // ----- Decoding -----

  /** Position in the quad, bits carried over, pads seen, output, and whether padding ended it. */
  datatype Decoder = Decoder(quad: nat, left: nat, pads: nat, out: seq<byte>, done: bool) {
    predicate Valid() {
      && quad < 4
      && (quad == 0 ==> left == 0)
      && (quad == 1 ==> left < 64)
      && (quad == 2 ==> left < 16)
      && (quad == 3 ==> left < 4)
    }
  }

  const START := Decoder(0, 0, 0, [], false)

  /** The next six bits: each quad emits a byte from its second character on. */
  function Accept(d: Decoder, v: sextet): (r: Decoder)
    requires d.Valid()
    ensures r.Valid()
  {
    if d.quad == 0 then Decoder(1, v, 0, d.out, false)
    else if d.quad == 1 then Decoder(2, v % 16, 0, d.out + [d.left * 4 + v / 16], false)
    else if d.quad == 2 then Decoder(3, v % 4, 0, d.out + [d.left * 16 + v / 4], false)
    else Decoder(0, 0, 0, d.out + [d.left * 64 + v], false)
  }

  function Feed(d: Decoder, c: char, url: bool): (r: Decoder)
    requires d.Valid()
    ensures r.Valid()
  {
    if d.done then d
    else if c == '=' then
      if d.quad < 2 then d
      else if d.quad + d.pads + 1 >= 4 then d.(done := true)
      else d.(pads := d.pads + 1)
    else
      match Index(c, url)
      case None => d
      case Some(v) => Accept(d, v)
  }

  function FeedAll(d: Decoder, s: string, url: bool): (r: Decoder)
    requires d.Valid()
    ensures r.Valid()
    decreases |s|
  {
    if s == "" then d else FeedAll(Feed(d, s[0], url), s[1..], url)
  }

  /** None is the decoder's ValueError. */
  function Decode(s: string, url: bool): Option<seq<byte>> {
    if exists i :: 0 <= i < |s| && s[i] as int >= 128 then None
    else
      var d := FeedAll(START, s, url);
      if d.done || d.quad == 0 then Some(d.out) else None
  }

  lemma {:induction false} FeedAppend(d: Decoder, s: string, t: string, url: bool)
    requires d.Valid()
    ensures FeedAll(d, s + t, url) == FeedAll(FeedAll(d, s, url), t, url)
    decreases |s|
  {
    if s == "" {
      assert s + t == t;
    } else {
      assert (s + t)[1..] == s[1..] + t;
      FeedAppend(Feed(d, s[0], url), s[1..], t, url);
    }
  }

  lemma FeedChar(d: Decoder, v: sextet, t: string, url: bool)
    requires d.Valid() && !d.done
    ensures FeedAll(d, [Char(v, url)] + t, url) == FeedAll(Accept(d, v), t, url)
  {
    IndexOfChar(v, url);
    assert ([Char(v, url)] + t)[1..] == t;
  }

  lemma AcceptFirst(out: seq<byte>, x: byte, low: nat)
    requires low < 16
    ensures Accept(Accept(Decoder(0, 0, 0, out, false), x / 4), x % 4 * 16 + low)
      == Decoder(2, low, 0, out + [x], false)
  {
    assert x / 4 * 4 + (x % 4 * 16 + low) / 16 == x;
  }

  /** The first two characters of a quad carry its first byte. */
  lemma FeedFirst(out: seq<byte>, x: byte, low: nat, t: string, url: bool)
    requires low < 16
    ensures FeedAll(Decoder(0, 0, 0, out, false), [Char(x / 4, url), Char(x % 4 * 16 + low, url)] + t, url)
         == FeedAll(Decoder(2, low, 0, out + [x], false), t, url)
  {
    var v: sextet := x % 4 * 16 + low;
    assert [Char(x / 4, url), Char(v, url)] + t == [Char(x / 4, url)] + ([Char(v, url)] + t);
    FeedChar(Decoder(0, 0, 0, out, false), x / 4, [Char(v, url)] + t, url);
    FeedChar(Accept(Decoder(0, 0, 0, out, false), x / 4), v, t, url);
    AcceptFirst(out, x, low);
  }

  /** The third character completes the second byte. */
  lemma FeedSecond(out: seq<byte>, x: byte, low: nat, t: string, url: bool)
    requires low < 4
    ensures FeedAll(Decoder(2, x / 16, 0, out, false), [Char(x % 16 * 4 + low, url)] + t, url)
         == FeedAll(Decoder(3, low, 0, out + [x], false), t, url)
  {
    FeedChar(Decoder(2, x / 16, 0, out, false), x % 16 * 4 + low, t, url);
    assert x / 16 * 16 + (x % 16 * 4 + low) / 4 == x;
  }

  /** The fourth character completes the third byte. */
  lemma FeedThird(out: seq<byte>, x: byte, t: string, url: bool)
    ensures FeedAll(Decoder(3, x / 64, 0, out, false), [Char(x % 64, url)] + t, url)
         == FeedAll(Decoder(0, 0, 0, out + [x], false), t, url)
  {
    FeedChar(Decoder(3, x / 64, 0, out, false), x % 64, t, url);
  }

  lemma FeedLastTwo(out: seq<byte>, y: byte, z: byte, t: string, url: bool)
    ensures FeedAll(Decoder(2, y / 16, 0, out, false), [Char(y % 16 * 4 + z / 64, url)] + ([Char(z % 64, url)] + t),
                    url)
         == FeedAll(Decoder(0, 0, 0, out + [y] + [z], false), t, url)
  {
    FeedSecond(out, y, z / 64, [Char(z % 64, url)] + t, url);
    FeedThird(out + [y], z, t, url);
  }

  /** Three bytes, then whatever follows. */
  lemma FeedQuad(x: byte, y: byte, z: byte, out: seq<byte>, t: string, url: bool)
    ensures FeedAll(Decoder(0, 0, 0, out, false), Quad(x, y, z, url) + t, url)
         == FeedAll(Decoder(0, 0, 0, out + [x, y, z], false), t, url)
  {
    var s := [Char(y % 16 * 4 + z / 64, url)] + ([Char(z % 64, url)] + t);
    assert Quad(x, y, z, url) + t == [Char(x / 4, url), Char(x % 4 * 16 + y / 16, url)] + s;
    FeedFirst(out, x, y / 16, s, url);
    FeedLastTwo(out + [x], y, z, t, url);
    assert out + [x, y, z] == out + [x] + [y] + [z];
  }

  lemma EncodeOne(b: seq<byte>, url: bool)
    requires |b| == 1
    ensures Encode(b, url) == [Char(b[0] / 4, url), Char(b[0] % 4 * 16 + 0, url)] + "=="
  {
    assert Padding(2) == "==";
  }

  lemma EncodeTwo(b: seq<byte>, url: bool)
    requires |b| == 2
    ensures Encode(b, url) == [Char(b[0] / 4, url), Char(b[0] % 4 * 16 + b[1] / 16, url)]
                            + ([Char(b[1] % 16 * 4 + 0, url)] + "=")
  {
    assert Padding(3) == "=";
  }

  /** Only the last group is padded. */
  lemma EncodeSplit(b: seq<byte>, url: bool)
    requires |b| >= 3
    ensures Encode(b, url) == Quad(b[0], b[1], b[2], url) + Encode(b[3..], url)
  {
    var quad, tail := Quad(b[0], b[1], b[2], url), Unpadded(b[3..], url);
    assert |quad| == 4;
    PaddingShift(|tail|);
    assert (quad + tail) + Padding(|tail|) == quad + (tail + Padding(|tail|));
  }

  lemma PaddingShift(n: nat)
    ensures Padding(4 + n) == Padding(n)
  {
  }

  /** The decoder reads the encoding of `b`, appends `b`, and ends between quads or at padding. */
  ghost predicate Reads(b: seq<byte>, out: seq<byte>, url: bool) {
    var d := FeedAll(Decoder(0, 0, 0, out, false), Encode(b, url), url);
    d.out == out + b && (d.done || d.quad == 0)
  }

  lemma FeedPads(d: Decoder, url: bool)
    requires d.Valid() && !d.done && d.pads == 0 && d.quad >= 2
    ensures FeedAll(d, if d.quad == 2 then "==" else "=", url).done
    ensures FeedAll(d, if d.quad == 2 then "==" else "=", url).out == d.out
  {
    if d.quad == 2 {
      assert "=="[1..] == "=";
      assert "="[1..] == "";
      assert FeedAll(Feed(d, '=', url), "=", url) == FeedAll(Feed(Feed(d, '=', url), '=', url), "", url);
    } else {
      assert "="[1..] == "";
    }
  }

  lemma ReadsOne(b: seq<byte>, out: seq<byte>, url: bool)
    requires |b| == 1
    ensures Reads(b, out, url)
  {
    EncodeOne(b, url);
    FeedFirst(out, b[0], 0, "==", url);
    FeedPads(Decoder(2, 0, 0, out + [b[0]], false), url);
    assert b == [b[0]];
  }

  lemma ReadsTwo(b: seq<byte>, out: seq<byte>, url: bool)
    requires |b| == 2
    ensures Reads(b, out, url)
  {
    EncodeTwo(b, url);
    FeedFirst(out, b[0], b[1] / 16, [Char(b[1] % 16 * 4 + 0, url)] + "=", url);
    FeedSecond(out + [b[0]], b[1], 0, "=", url);
    FeedPads(Decoder(3, 0, 0, out + [b[0]] + [b[1]], false), url);
    assert out + b == out + [b[0]] + [b[1]];
  }

  lemma ReadsMore(b: seq<byte>, out: seq<byte>, url: bool)
    requires |b| >= 3
    requires Reads(b[3..], out + [b[0], b[1], b[2]], url)
    ensures Reads(b, out, url)
  {
    EncodeSplit(b, url);
    FeedQuad(b[0], b[1], b[2], out, Encode(b[3..], url), url);
    assert out + b == out + [b[0], b[1], b[2]] + b[3..];
  }

  lemma {:induction false} ReadsEncoding(b: seq<byte>, out: seq<byte>, url: bool)
    ensures Reads(b, out, url)
  {
    if |b| == 0 {
      assert Encode(b, url) == "";
    } else if |b| == 1 {
      ReadsOne(b, out, url);
    } else if |b| == 2 {
      ReadsTwo(b, out, url);
    } else {
      ReadsEncoding(b[3..], out + [b[0], b[1], b[2]], url);
      ReadsMore(b, out, url);
    }
  }

  /** Decoding undoes encoding, in either alphabet. */
  lemma RoundTrip(b: seq<byte>, url: bool)
    ensures Decode(Encode(b, url), url) == Some(b)
  {
    UnpaddedIsBare(b, url);
    assert forall i :: 0 <= i < |Encode(b, url)| ==> (Encode(b, url)[i] as int) < 128;
    ReadsEncoding(b, [], url);
    assert [] + b == b;
  }

  /** A stripped text, padded again by its length alone, decodes to the original bytes. */
  lemma StrippedRoundTrip(b: seq<byte>, url: bool)
    ensures var s := Unpadded(b, url); Decode(s + Padding(|s|), url) == Some(b)
  {
    RoundTrip(b, url);
  }
}
