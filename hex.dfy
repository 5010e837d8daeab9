/**
 * The hex rendering of a digest in src/pages/api/auth/login.ts: every byte
 * becomes `b.toString(16).padStart(2, '0')` and the pieces are joined with
 * nothing between them.
 */
module Hex {
  import opened Wrappers

  type Byte = b: int | 0 <= b < 256

  /** A digit of `toString(16)`: `0`-`9`, then lower-case `a`-`f`. */
  predicate IsLowerHex(c: char) {
    '0' <= c <= '9' || 'a' <= c <= 'f'
  }

  /** `d.toString(16)` for one digit. */
  function HexDigit(d: nat): (c: char)
    requires d < 16
    ensures IsLowerHex(c)
  {
    if d < 10 then ('0' as int + d) as char else ('a' as int + d - 10) as char
  }

  /** `b.toString(16)`: one digit below 16, two from 16 on. */
  function ByteToRadix16(b: Byte): (s: string)
    ensures 1 <= |s| <= 2
  {
    if b < 16 then [HexDigit(b)] else [HexDigit(b / 16), HexDigit(b % 16)]
  }

  /** `s.padStart(2, '0')`. */
  function PadStart2(s: string): (p: string)
    ensures |s| < 2 ==> p == seq(2 - |s|, _ => '0') + s
    ensures |s| >= 2 ==> p == s
    decreases 2 - |s|
  {
    if |s| < 2 then PadStart2(['0'] + s) else s
  }

  function HexByte(b: Byte): string {
    PadStart2(ByteToRadix16(b))
  }

  /** Every byte renders as its high and then its low nibble, zero-padded. */
  lemma HexByteDigits(b: Byte)
    ensures HexByte(b) == [HexDigit(b / 16), HexDigit(b % 16)]
  {
    if b < 16 {
      assert PadStart2(ByteToRadix16(b)) == ['0'] + [HexDigit(b)];
    }
  }

  /** The whole digest, byte by byte. */
  function ToHex(bytes: seq<Byte>): string {
    if bytes == [] then "" else HexByte(bytes[0]) + ToHex(bytes[1..])
  }

  /** The value of a lower-case hex digit. */
  function HexValue(c: char): (v: Option<nat>)
    ensures v.Some? <==> IsLowerHex(c)
    ensures v.Some? ==> v.value < 16 && HexDigit(v.value) == c
  {
    if '0' <= c <= '9' then Some(c as int - '0' as int)
    else if 'a' <= c <= 'f' then Some(c as int - 'a' as int + 10)
    else None
  }

  /** The inverse reading: pairs of lower-case digits back to bytes. */
  function FromHex(s: string): Option<seq<Byte>> {
    if s == [] then Some([])
    else if |s| < 2 then None
    else
      match (HexValue(s[0]), HexValue(s[1]), FromHex(s[2..]))
      case (Some(hi), Some(lo), Some(rest)) => Some([hi * 16 + lo] + rest)
      case _ => None
  }

  /** Two characters per byte, all of them lower-case hex digits. */
  lemma {:induction false} ToHexShape(bytes: seq<Byte>)
    ensures |ToHex(bytes)| == 2 * |bytes|
    ensures forall k :: 0 <= k < |ToHex(bytes)| ==> IsLowerHex(ToHex(bytes)[k])
  {
    if bytes != [] {
      HexByteDigits(bytes[0]);
      ToHexShape(bytes[1..]);
    }
  }

  lemma HexValueOfDigit(d: nat)
    requires d < 16
    ensures HexValue(HexDigit(d)) == Some(d)
  {
  }

  /** Reading the rendering back gives the digest. */
  lemma {:induction false} HexRoundTrip(bytes: seq<Byte>)
    ensures FromHex(ToHex(bytes)) == Some(bytes)
  {
    if bytes != [] {
      var b := bytes[0];
      HexByteDigits(b);
      HexRoundTrip(bytes[1..]);
      HexValueOfDigit(b / 16);
      HexValueOfDigit(b % 16);
      var hi, lo := b / 16, b % 16;
      assert hi * 16 + lo == b;
      var s := ToHex(bytes);
      assert s == [HexDigit(hi), HexDigit(lo)] + ToHex(bytes[1..]);
      assert s[0] == HexDigit(hi) && s[1] == HexDigit(lo) && s[2..] == ToHex(bytes[1..]);
      assert FromHex(s) == Some([b] + bytes[1..]);
      assert [b] + bytes[1..] == bytes;
    }
  }

  /** Different digests render differently. */
  lemma HexInjective(a: seq<Byte>, b: seq<Byte>)
    requires ToHex(a) == ToHex(b)
    ensures a == b
  {
    HexRoundTrip(a);
    HexRoundTrip(b);
  }
}
