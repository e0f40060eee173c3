/** UTF-8 (section 3 of RFC 3629) over Unicode scalar values. */
module Utf8 {
  import opened Common

  function EncodeChar(c: char): (b: seq<byte>)
    ensures 1 <= |b| <= 4
  {
    var p := c as int;
    if p < 0x80 then [p]
    else if p < 0x800 then [0xC0 + p / 64, 0x80 + p % 64]
    else if p < 0x10000 then [0xE0 + p / 4096, 0x80 + p / 64 % 64, 0x80 + p % 64]
    else [0xF0 + p / 262144, 0x80 + p / 4096 % 64, 0x80 + p / 64 % 64, 0x80 + p % 64]
  }

  function Encode(s: string): seq<byte> {
    if s == "" then [] else EncodeChar(s[0]) + Encode(s[1..])
  }

  /** The encoded size. */
  function Size(s: string): nat {
    |Encode(s)|
  }

  predicate Continues(b: byte) {
    0x80 <= b < 0xC0
  }

  /** A decoded character and the number of bytes it took. */
  datatype Head = Head(c: char, size: nat)

  /** The character at the head of `b`, if the bytes there are well formed. */
  function DecodeHead(b: seq<byte>): (r: Option<Head>)
    ensures r.Some? ==> 1 <= r.value.size <= |b|
  {
    if |b| >= 1 && b[0] < 0x80 then Some(Head(b[0] as char, 1))
    else if |b| >= 2 && 0xC2 <= b[0] < 0xE0 && Continues(b[1]) then
      Some(Head(Join2(b[0], b[1]) as char, 2))
    else if |b| >= 3 && 0xE0 <= b[0] < 0xF0 && Continues(b[1]) && Continues(b[2])
         && (b[0] == 0xE0 ==> b[1] >= 0xA0) && (b[0] == 0xED ==> b[1] < 0xA0) then
      Some(Head(Join3(b[0], b[1], b[2]) as char, 3))
    else if |b| >= 4 && 0xF0 <= b[0] <= 0xF4 && Continues(b[1]) && Continues(b[2]) && Continues(b[3])
         && (b[0] == 0xF0 ==> b[1] >= 0x90) && (b[0] == 0xF4 ==> b[1] < 0x90) then
      Some(Head(Join4(b[0], b[1], b[2], b[3]) as char, 4))
    else None
  }

  function Join2(a: int, b: int): int {
    (a - 0xC0) * 64 + (b - 0x80)
  }

  function Join3(a: int, b: int, c: int): int {
    (a - 0xE0) * 4096 + (b - 0x80) * 64 + (c - 0x80)
  }

  function Join4(a: int, b: int, c: int, d: int): int {
    (a - 0xF0) * 262144 + (b - 0x80) * 4096 + (c - 0x80) * 64 + (d - 0x80)
  }

  /** Decoding that drops every byte not part of a well-formed sequence. */
  function DecodeIgnore(b: seq<byte>): string
    decreases |b|
  {
    if b == [] then ""
    else
      match DecodeHead(b)
      case None => DecodeIgnore(b[1..])
      case Some(h) => [h.c] + DecodeIgnore(b[h.size..])
  }

  /** None is UnicodeDecodeError. */
  function DecodeStrict(b: seq<byte>): Option<string>
    decreases |b|
  {
    if b == [] then Some("")
    else
      match DecodeHead(b)
      case None => None
      case Some(h) =>
        match DecodeStrict(b[h.size..])
        case None => None
        case Some(rest) => Some([h.c] + rest)
  }

  lemma HeadOfEncoded(c: char, rest: seq<byte>)
    ensures DecodeHead(EncodeChar(c) + rest) == Some(Head(c, |EncodeChar(c)|))
  {
    var p, b := c as int, EncodeChar(c) + rest;
    if p < 0x80 {
    } else if p < 0x800 {
      assert Join2(b[0], b[1]) == p;
    } else if p < 0x10000 {
      Split3(p);
      assert b[..3] == EncodeChar(c);
    } else {
      Split4(p);
      assert b[..4] == EncodeChar(c);
    }
  }

  lemma Split3(p: int)
    requires 0x800 <= p < 0x10000
    ensures Join3(0xE0 + p / 4096, 0x80 + p / 64 % 64, 0x80 + p % 64) == p
    ensures p / 4096 < 16
    ensures p / 4096 == 0 ==> p / 64 % 64 >= 0x20
    ensures p / 4096 == 13 && p < 0xD800 ==> p / 64 % 64 < 0x20
  {
    assert p / 4096 == p / 64 / 64;
  }

  lemma Split4(p: int)
    requires 0x10000 <= p < 0x110000
    ensures Join4(0xF0 + p / 262144, 0x80 + p / 4096 % 64, 0x80 + p / 64 % 64, 0x80 + p % 64) == p
    ensures p / 262144 <= 4
    ensures p / 262144 == 0 ==> p / 4096 % 64 >= 0x10
    ensures p / 262144 == 4 ==> p / 4096 % 64 < 0x10
  {
    var q, r := p / 64, p / 4096;
    assert r == q / 64 && p / 262144 == r / 64;
  }

  lemma {:induction false} EncodeAppend(s: string, t: string)
    ensures Encode(s + t) == Encode(s) + Encode(t)
  {
    if s == "" {
      assert s + t == t;
    } else {
      assert (s + t)[1..] == s[1..] + t;
      EncodeAppend(s[1..], t);
    }
  }

  lemma {:induction false} RoundTrip(s: string)
    ensures DecodeStrict(Encode(s)) == Some(s)
  {
    if s != "" {
      HeadOfEncoded(s[0], Encode(s[1..]));
      assert Encode(s)[|EncodeChar(s[0])|..] == Encode(s[1..]);
      RoundTrip(s[1..]);
      assert s == [s[0]] + s[1..];
    }
  }

  // ----- Cutting encoded text -----

  /** The number of leading characters of `s` whose encoding fits in `n` bytes. */
  function Fit(s: string, n: nat): (k: nat)
    ensures k <= |s|
  {
    if s == "" || |EncodeChar(s[0])| > n then 0
    else 1 + Fit(s[1..], n - |EncodeChar(s[0])|)
  }

  /** The prefix fits, misses the bound by at most three bytes, and the next character does not fit. */
  lemma {:induction false} FitIsLongest(s: string, n: nat)
    ensures Size(s[..Fit(s, n)]) <= n
    ensures Fit(s, n) == |s| || (Size(s[..Fit(s, n)]) > n - 4 && Size(s[..Fit(s, n) + 1]) > n)
  {
    var k := Fit(s, n);
    if s == "" || |EncodeChar(s[0])| > n {
      if s != "" {
        assert s[..1] == [s[0]];
        assert Encode([s[0]]) == EncodeChar(s[0]) + Encode([s[0]][1..]);
      }
    } else {
      FitIsLongest(s[1..], n - |EncodeChar(s[0])|);
      assert s[..k][1..] == s[1..][..k - 1];
      if k < |s| {
        assert s[..k + 1][1..] == s[1..][..k];
      }
    }
  }

  /** A truncated multi-byte sequence decodes to nothing. */
  lemma FragmentDropped(c: char, n: nat)
    requires n < |EncodeChar(c)|
    ensures DecodeIgnore(EncodeChar(c)[..n]) == ""
  {
    var b := EncodeChar(c)[..n];
    assert forall i :: 1 <= i < |b| ==> Continues(b[i]);
    if n > 0 {
      assert DecodeHead(b).None?;
      ContinuationsDropped(b[1..]);
    }
  }

  lemma {:induction false} ContinuationsDropped(b: seq<byte>)
    requires forall i :: 0 <= i < |b| ==> Continues(b[i])
    ensures DecodeIgnore(b) == ""
  {
    if b != [] {
      assert DecodeHead(b).None?;
      ContinuationsDropped(b[1..]);
    }
  }

  /** Cutting encoded text anywhere and dropping the broken tail leaves the longest prefix that fits. */
  lemma {:induction false} CutDecodes(s: string, n: nat)
    requires n <= Size(s)
    ensures DecodeIgnore(Encode(s)[..n]) == s[..Fit(s, n)]
  {
    if s == "" {
    } else if |EncodeChar(s[0])| > n {
      assert Encode(s)[..n] == EncodeChar(s[0])[..n];
      FragmentDropped(s[0], n);
    } else {
      var m := |EncodeChar(s[0])|;
      var tail := Encode(s[1..])[..n - m];
      assert Encode(s)[..n] == EncodeChar(s[0]) + tail;
      HeadOfEncoded(s[0], tail);
      assert (EncodeChar(s[0]) + tail)[m..] == tail;
      CutDecodes(s[1..], n - m);
      assert s[..Fit(s, n)] == [s[0]] + s[1..][..Fit(s[1..], n - m)];
    }
  }

  lemma SizeMonotone(s: string, i: nat, j: nat)
    requires i <= j <= |s|
    ensures Size(s[..i]) <= Size(s[..j])
  {
    assert s[..j] == s[..i] + s[i..j];
    EncodeAppend(s[..i], s[i..j]);
  }

  lemma {:induction false} SizeAtLeastLength(s: string)
    ensures |s| <= Size(s) <= 4 * |s|
  {
    if s != "" {
      SizeAtLeastLength(s[1..]);
    }
  }
}
