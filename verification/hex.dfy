/** Hexadecimal text of bytes (the base16 alphabet of section 8 of RFC 4648).
    The encoder is events-create's
    `Array.from(pk).map(b => b.toString(16).padStart(2, "0")).join("")`;
    the decoder is the hex branch of mint's `decodePubkeyToU8`, which accepts
    digits of either case and reads each pair with `parseInt(pair, 16)`. */
module Hex {
  import opened Common

  /** Lower-case digit of a value below 16, as `Number.prototype.toString(16)` writes it. */
  function Digit(d: int): (c: char)
    requires 0 <= d < 16
  {
    if d < 10 then ('0' as int + d) as char else ('a' as int + d - 10) as char
  }

  /** `n.toString(16)`: the digits of `n` in base 16, without leading zeros. */
  function ToRadix16(n: nat): string
    decreases n
  {
    if n < 16 then [Digit(n)] else ToRadix16(n / 16) + [Digit(n % 16)]
  }

  /** `s.padStart(width, fill)` for a one-character filler. */
  function PadStart(s: string, width: nat, fill: char): (r: string)
    ensures |r| == Max(|s|, width)
  {
    if |s| >= width then s else seq(width - |s|, _ => fill) + s
  }

  /** The padded text is the fill character repeated in front of the text. */
  lemma PadStartShape(s: string, width: nat, fill: char)
    ensures var r := PadStart(s, width, fill);
      |r| == Max(|s|, width) && r[|r| - |s|..] == s &&
      forall i :: 0 <= i < |r| - |s| ==> r[i] == fill
  {
  }

  /** The two characters events-create writes for one byte. */
  function ByteText(b: Byte): string {
    PadStart(ToRadix16(b), 2, '0')
  }

  /** `map(...).join("")` over the bytes of a key. */
  function Encode(bytes: seq<Byte>): string
    decreases |bytes|
  {
    if bytes == [] then "" else ByteText(bytes[0]) + Encode(bytes[1..])
  }

  /** Each byte becomes exactly its high and its low nibble, zero-padded. */
  lemma ByteTextDigits(b: Byte)
    ensures ByteText(b) == [Digit(b / 16), Digit(b % 16)]
  {
    if b < 16 {
      assert ToRadix16(b) == [Digit(b)];
      assert b / 16 == 0 && Digit(0) == '0';
    } else {
      assert ToRadix16(b / 16) == [Digit(b / 16)];
      assert ToRadix16(b) == [Digit(b / 16), Digit(b % 16)];
    }
  }

  /** Lower-case hexadecimal text. */
  predicate IsLowerHex(s: string) {
    forall i :: 0 <= i < |s| ==> IsHexChar(s[i]) && !IsUpper(s[i])
  }

  predicate IsHexChar(c: char) {
    IsDigit(c) || 'a' <= c <= 'f' || 'A' <= c <= 'F'
  }

  /** The test `/^[0-9a-fA-F]+$/`: non-empty and hex digits only. */
  predicate IsHexText(s: string) {
    |s| > 0 && forall i :: 0 <= i < |s| ==> IsHexChar(s[i])
  }

  function DigitValue(c: char): (v: int)
    requires IsHexChar(c)
    ensures 0 <= v < 16
  {
    if IsDigit(c) then c as int - '0' as int
    else if 'a' <= c <= 'f' then c as int - 'a' as int + 10
    else c as int - 'A' as int + 10
  }

  /** `parseInt(s.slice(2 * i, 2 * i + 2), 16)`. */
  function PairValue(s: string, i: nat): (v: Byte)
    requires 2 * i + 2 <= |s| && IsHexChar(s[2 * i]) && IsHexChar(s[2 * i + 1])
  {
    DigitValue(s[2 * i]) * 16 + DigitValue(s[2 * i + 1])
  }

  /** Reference decoding of an even-length hex text, one byte per pair. */
  function Decode(s: string): (r: seq<Byte>)
    requires |s| % 2 == 0 && forall i :: 0 <= i < |s| ==> IsHexChar(s[i])
    decreases |s|
  {
    if s == [] then [] else [PairValue(s, 0)] + Decode(s[2..])
  }

  lemma {:induction false} DecodeAt(s: string, i: nat)
    requires |s| % 2 == 0 && forall k :: 0 <= k < |s| ==> IsHexChar(s[k])
    requires i < |s| / 2
    ensures |Decode(s)| == |s| / 2 && Decode(s)[i] == PairValue(s, i)
    decreases |s|
  {
    if i > 0 {
      DecodeAt(s[2..], i - 1);
      assert s[2..][2 * (i - 1)] == s[2 * i];
    } else if |s| > 2 {
      DecodeAt(s[2..], 0);
    }
  }

  lemma DigitValueOfDigit(d: int)
    requires 0 <= d < 16
    ensures IsHexChar(Digit(d)) && DigitValue(Digit(d)) == d
  {
  }

  /** The hex text of `n` bytes has `2n` lower-case hex digits. */
  lemma {:induction false} EncodeShape(bytes: seq<Byte>)
    ensures |Encode(bytes)| == 2 * |bytes| && IsLowerHex(Encode(bytes))
    decreases |bytes|
  {
    if bytes != [] {
      ByteTextDigits(bytes[0]);
      EncodeShape(bytes[1..]);
      var head := [Digit(bytes[0] / 16), Digit(bytes[0] % 16)];
      var tail := Encode(bytes[1..]);
      assert IsLowerHex(head);
      assert Encode(bytes) == head + tail;
      LowerHexConcat(head, tail);
    }
  }

  lemma LowerHexConcat(a: string, b: string)
    requires IsLowerHex(a) && IsLowerHex(b)
    ensures IsLowerHex(a + b)
  {
    forall i | 0 <= i < |a + b|
      ensures IsHexChar((a + b)[i]) && !IsUpper((a + b)[i])
    {
      if i >= |a| {
        assert (a + b)[i] == b[i - |a|];
      }
    }
  }

  /** Reading events-create's hex text back pair by pair gives the bytes. */
  lemma {:induction false} RoundTrip(bytes: seq<Byte>)
    ensures var s := Encode(bytes);
      |s| % 2 == 0 && (forall i :: 0 <= i < |s| ==> IsHexChar(s[i])) && Decode(s) == bytes
    decreases |bytes|
  {
    EncodeShape(bytes);
    if bytes != [] {
      var s := Encode(bytes);
      ByteTextDigits(bytes[0]);
      RoundTrip(bytes[1..]);
      DigitValueOfDigit(bytes[0] / 16);
      DigitValueOfDigit(bytes[0] % 16);
      assert s[2..] == Encode(bytes[1..]);
      assert PairValue(s, 0) == bytes[0];
      assert [bytes[0]] + bytes[1..] == bytes;
    }
  }
}
