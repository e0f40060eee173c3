/**
 JSON values and their compact rendering. Values are rendered concretely because their
 length on the wire matters; parsing is a parameter of the modules that need it.
 */
module Json {
  import opened Common

  datatype Json =
    | Null
    | Bool(b: bool)
    | Int(n: int)
    | Float(x: real)
    | NonFinite
    | Str(s: string)
    | Arr(items: seq<Json>)
    | Obj(fields: Object)

  type Object = map<string, Json>

  function Get(o: Object, key: string): Option<Json> {
    if key in o then Some(o[key]) else None
  }

  /** 1.0 is an integer; booleans, fractions and non-finite numbers are not. */
  function WireInteger(v: Option<Json>): Option<int> {
    match v
    case Some(Int(n)) => Some(n)
    case Some(Float(x)) => if x.Floor as real == x then Some(x.Floor) else None
    case _ => None
  }

  /** A value is read as an integer exactly if it is that integer, written as one or as a whole float. */
  lemma WireIntegerIff(v: Option<Json>, n: int)
    ensures WireInteger(v) == Some(n) <==> v == Some(Int(n)) || v == Some(Float(n as real))
  {
  }

  function Digit(n: nat): char
    requires n < 10
  {
    '0' + n as char
  }

  function RenderNat(n: nat): string {
    (if n < 10 then "" else RenderNat(n / 10)) + [Digit(n % 10)]
  }

  function Hex(n: nat): char
    requires n < 16
  {
    if n < 10 then '0' + n as char else 'a' + (n - 10) as char
  }

  function UnicodeEscape(n: nat): string
    requires n < 0x10000
  {
    ['\\', 'u', Hex(n / 4096), Hex(n / 256 % 16), Hex(n / 16 % 16), Hex(n % 16)]
  }

  /** A character of a string rendered in ASCII. */
  function AsciiChar(c: char): string {
    var p := c as int;
    if c == '"' then ['\\', '"']
    else if c == '\\' then ['\\', '\\']
    else if c == '\n' then ['\\', 'n']
    else if c == '\r' then ['\\', 'r']
    else if c == '\t' then ['\\', 't']
    else if p == 12 then ['\\', 'f']
    else if p == 8 then ['\\', 'b']
    else if 0x20 <= p < 0x7F then [c]
    else if p < 0x10000 then UnicodeEscape(p)
    else UnicodeEscape(0xD800 + (p - 0x10000) / 1024) + UnicodeEscape(0xDC00 + (p - 0x10000) % 1024)
  }

  function AsciiChars(s: string): string {
    if s == "" then "" else AsciiChar(s[0]) + AsciiChars(s[1..])
  }

  function Quoted(s: string): string {
    ['"'] + AsciiChars(s) + ['"']
  }

  /** Characters that neither the JSON rendering nor the tag escaping touches. */
  predicate PlainChar(c: char) {
    0x20 < c as int < 0x7F && c != '"' && c != '\\' && c != ';'
  }

  predicate Plain(s: string) {
    forall i :: 0 <= i < |s| ==> PlainChar(s[i])
  }

  lemma {:induction false} PlainIsItself(s: string)
    requires Plain(s)
    ensures AsciiChars(s) == s
  {
    if s != "" {
      assert PlainChar(s[0]);
      assert Plain(s[1..]);
      PlainIsItself(s[1..]);
      assert AsciiChar(s[0]) == [s[0]];
    }
  }

  lemma {:induction false} RenderNatPlain(n: nat)
    ensures Plain(RenderNat(n))
  {
    if n >= 10 {
      RenderNatPlain(n / 10);
    }
  }

  /** A number below ten to the k takes at most k digits. */
  lemma {:induction false} RenderNatLength(n: nat, k: nat, bound: nat)
    requires k >= 1 && n < bound && bound == Power10(k)
    ensures 1 <= |RenderNat(n)| <= k
  {
    if n >= 10 {
      RenderNatLength(n / 10, k - 1, Power10(k - 1));
    }
  }

  function Power10(k: nat): nat {
    if k == 0 then 1 else 10 * Power10(k - 1)
  }
}
