/** What every module shares, and the text codecs behind rendered literals: decimal integers, hexadecimal
    bytes and UTF-8. */
module TextCodec {

  datatype Option<+T> = None | Some(value: T)

  datatype Backend = Sqlite | Mariadb

  lemma Assoc<T>(a: seq<T>, b: seq<T>, c: seq<T>)
    ensures a + b + c == a + (b + c)
  {
  }

  type Byte = b: int | 0 <= b < 256

  // ----- decimal -----

  function DigitChar(d: nat): (c: char)
    requires d < 10
    ensures IsDigit(c) && DigitValue(c) == d
  {
    ('0' as int + d) as char
  }

  predicate IsDigit(c: char) {
    '0' <= c <= '9'
  }

  function DigitValue(c: char): nat
    requires IsDigit(c)
  {
    c as int - '0' as int
  }

  function Decimal(n: nat): (s: string)
    ensures s != [] && forall i :: 0 <= i < |s| ==> IsDigit(s[i])
  {
    if n < 10 then [DigitChar(n)] else Decimal(n / 10) + [DigitChar(n % 10)]
  }

  function DecimalValue(s: string): nat
    requires forall i :: 0 <= i < |s| ==> IsDigit(s[i])
  {
    if s == [] then 0 else 10 * DecimalValue(s[..|s| - 1]) + DigitValue(s[|s| - 1])
  }

  lemma {:induction false} DecimalRoundTrip(n: nat)
    ensures DecimalValue(Decimal(n)) == n
  {
    if n >= 10 {
      DecimalRoundTrip(n / 10);
      var s := Decimal(n);
      assert s[..|s| - 1] == Decimal(n / 10);
    } else {
      assert Decimal(n)[..0] == [];
    }
  }

  // ----- hexadecimal -----

  function HexDigit(d: nat): char
    requires d < 16
  {
    if d < 10 then ('0' as int + d) as char else ('a' as int + (d - 10)) as char
  }

  function HexValue(c: char): Option<nat> {
    if '0' <= c <= '9' then Some(c as int - '0' as int)
    else if 'a' <= c <= 'f' then Some(c as int - 'a' as int + 10)
    else if 'A' <= c <= 'F' then Some(c as int - 'A' as int + 10)
    else None
  }

  function ToHex(bytes: seq<Byte>): (s: string)
    ensures forall i :: 0 <= i < |s| ==> HexValue(s[i]).Some?
  {
    if bytes == [] then []
    else [HexDigit(bytes[0] / 16), HexDigit(bytes[0] % 16)] + ToHex(bytes[1..])
  }

  predicate IsHexSpace(c: char) {
    c in " \t\n\r" || c as int == 11 || c as int == 12
  }

  /** Whitespace may separate bytes, never the two digits of one. */
  function FromHex(s: string): Option<seq<Byte>> {
    if s == [] then Some([])
    else if IsHexSpace(s[0]) then FromHex(s[1..])
    else if |s| < 2 then None
    else
      match (HexValue(s[0]), HexValue(s[1]), FromHex(s[2..]))
      case (Some(high), Some(low), Some(rest)) =>
        (var b: int := 16 * high + low; if b < 256 then Some([b] + rest) else None)
      case _ => None
  }

  lemma {:induction false} HexRoundTrip(bytes: seq<Byte>)
    ensures FromHex(ToHex(bytes)) == Some(bytes)
  {
    if bytes != [] {
      HexRoundTrip(bytes[1..]);
      FirstByte(bytes[0], ToHex(bytes[1..]), bytes[1..]);
      assert [bytes[0]] + bytes[1..] == bytes;
    }
  }

  lemma DigitReads(d: nat)
    requires d < 16
    ensures HexValue(HexDigit(d)) == Some(d) && !IsHexSpace(HexDigit(d))
  {
  }

  lemma {:induction false} FirstByte(b: Byte, s: string, rest: seq<Byte>)
    requires FromHex(s) == Some(rest)
    ensures FromHex([HexDigit(b / 16), HexDigit(b % 16)] + s) == Some([b] + rest)
  {
    var whole := [HexDigit(b / 16), HexDigit(b % 16)] + s;
    DigitReads(b / 16);
    DigitReads(b % 16);
    assert whole[2..] == s;
    assert 16 * (b / 16) + b % 16 == b;
  }

  // ----- UTF-8 -----

  function EncodeScalar(c: char): (bs: seq<Byte>)
    ensures 1 <= |bs| <= 4
  {
    var n := c as int;
    if n < 0x80 then [n]
    else if n < 0x800 then [0xC0 + n / 64, 0x80 + n % 64]
    else if n < 0x1_0000 then [0xE0 + n / 4096, 0x80 + n / 64 % 64, 0x80 + n % 64]
    else [0xF0 + n / 262144, 0x80 + n / 4096 % 64, 0x80 + n / 64 % 64, 0x80 + n % 64]
  }

  predicate IsTail(b: Byte) {
    0x80 <= b < 0xC0
  }

  /** The six payload bits of a continuation byte, shifted by the bytes that follow it. */
  function Bits(b: Byte, lead: int, scale: int): int {
    (b as int - lead) * scale
  }

  predicate IsScalar(n: int) {
    0 <= n < 0xD800 || 0xE000 <= n < 0x11_0000
  }

  /** Strict decoding: overlong forms, surrogates and values past U+10FFFF are rejected. */
  function DecodeScalar(bs: seq<Byte>): (r: Option<(char, nat)>)
    ensures r.Some? ==> 1 <= r.value.1 <= |bs|
  {
    if bs == [] then None
    else if bs[0] < 0x80 then Some((bs[0] as char, 1))
    else if |bs| < 2 || !IsTail(bs[1]) then None
    else if 0xC2 <= bs[0] < 0xE0 then
      var n: int := Bits(bs[0], 0xC0, 64) + (bs[1] - 0x80);
      Some((n as char, 2))
    else if |bs| < 3 || !IsTail(bs[2]) then None
    else if 0xE0 <= bs[0] < 0xF0 then
      var n: int := Bits(bs[0], 0xE0, 4096) + Bits(bs[1], 0x80, 64) + (bs[2] - 0x80);
      if 0x800 <= n && IsScalar(n) then Some((n as char, 3)) else None
    else if |bs| < 4 || !IsTail(bs[3]) then None
    else if 0xF0 <= bs[0] < 0xF5 then
      var n: int := Bits(bs[0], 0xF0, 262144) + Bits(bs[1], 0x80, 4096) + Bits(bs[2], 0x80, 64) + (bs[3] - 0x80);
      if 0x1_0000 <= n && IsScalar(n) then Some((n as char, 4)) else None
    else None
  }

  function Utf8Encode(s: string): seq<Byte> {
    if s == [] then [] else EncodeScalar(s[0]) + Utf8Encode(s[1..])
  }

  function Utf8Decode(bs: seq<Byte>): Option<string> {
    if bs == [] then Some([])
    else
      match DecodeScalar(bs)
      case None => None
      case Some((c, width)) =>
        match Utf8Decode(bs[width..])
        case None => None
        case Some(rest) => Some([c] + rest)
  }

  lemma ScalarRoundTrip(c: char, rest: seq<Byte>)
    ensures DecodeScalar(EncodeScalar(c) + rest) == Some((c, |EncodeScalar(c)|))
  {
    var n := c as int;
    var bs := EncodeScalar(c) + rest;
    assert n == n / 64 * 64 + n % 64;
    assert n / 64 == n / 4096 * 64 + n / 64 % 64;
    assert n / 4096 == n / 262144 * 64 + n / 4096 % 64;
  }

  lemma {:induction false} Utf8RoundTrip(s: string)
    ensures Utf8Decode(Utf8Encode(s)) == Some(s)
  {
    if s != [] {
      ScalarRoundTrip(s[0], Utf8Encode(s[1..]));
      Utf8RoundTrip(s[1..]);
      var width := |EncodeScalar(s[0])|;
      assert Utf8Encode(s)[width..] == Utf8Encode(s[1..]);
      assert [s[0]] + s[1..] == s;
    }
  }

  /** The text of a hexadecimal literal, as the catalog reader recovers it. */
  function HexText(hex: string): Option<string> {
    match FromHex(hex)
    case None => None
    case Some(bytes) => Utf8Decode(bytes)
  }

  lemma {:induction false} HexTextRoundTrip(s: string)
    ensures HexText(ToHex(Utf8Encode(s))) == Some(s)
  {
    HexRoundTrip(Utf8Encode(s));
    Utf8RoundTrip(s);
  }
}
