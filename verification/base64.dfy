/** Base64 as the edge functions use it: `btoa(String.fromCharCode(...bytes))`
    is the encoder of section 4 of RFC 4648 (standard alphabet, `=` padding),
    and `Uint8Array.from(atob(s), c => c.charCodeAt(0))` (the `b64ToU8` helper
    of supabase/functions/mint/index.ts and supabase/functions/qr-issue/index.ts)
    is the WHATWG "forgiving-base64 decode" that `atob` performs: ASCII
    whitespace is dropped, up to two trailing `=` are optional, and the bits
    left over in a final partial group are discarded. */
module Base64 {
  import opened Common

  type Sextet = x: int | 0 <= x < 64

  predicate IsAlphabetChar(c: char) {
    IsUpper(c) || IsLower(c) || IsDigit(c) || c == '+' || c == '/'
  }

  predicate AllAlphabet(s: string) {
    forall i :: 0 <= i < |s| ==> IsAlphabetChar(s[i])
  }

  /** The character of RFC 4648's Table 1 for a 6-bit value. */
  function CharOf(v: Sextet): (c: char)
    ensures IsAlphabetChar(c)
  {
    if v < 26 then ('A' as int + v) as char
    else if v < 52 then ('a' as int + v - 26) as char
    else if v < 62 then ('0' as int + v - 52) as char
    else if v == 62 then '+'
    else '/'
  }

  /** The 6-bit value of an alphabet character (inverse of CharOf). */
  function ValueOf(c: char): (v: Sextet)
    requires IsAlphabetChar(c)
  {
    if IsUpper(c) then c as int - 'A' as int
    else if IsLower(c) then c as int - 'a' as int + 26
    else if IsDigit(c) then c as int - '0' as int + 52
    else if c == '+' then 62
    else 63
  }

  lemma ValueOfCharOf(v: Sextet)
    ensures ValueOf(CharOf(v)) == v
  {
  }

  /** The encoding without its padding: four characters per full group of
      three bytes, then two characters for one trailing byte or three for two. */
  function EncodeUnpadded(b: seq<Byte>): (r: string)
    ensures AllAlphabet(r)
    decreases |b|
  {
    if |b| == 0 then ""
    else if |b| == 1 then [CharOf(b[0] / 4), CharOf(b[0] % 4 * 16)]
    else if |b| == 2 then [CharOf(b[0] / 4), CharOf(b[0] % 4 * 16 + b[1] / 16), CharOf(b[1] % 16 * 4)]
    else
      [CharOf(b[0] / 4), CharOf(b[0] % 4 * 16 + b[1] / 16), CharOf(b[1] % 16 * 4 + b[2] / 64), CharOf(b[2] % 64)]
      + EncodeUnpadded(b[3..])
  }

  /** Four characters per full group, two or three for a partial one; so
      never one character more than a multiple of four. */
  lemma {:induction false} EncodeUnpaddedLength(b: seq<Byte>)
    ensures |EncodeUnpadded(b)| == |b| / 3 * 4 + (if |b| % 3 == 0 then 0 else |b| % 3 + 1)
    ensures |EncodeUnpadded(b)| % 4 != 1
    decreases |b|
  {
    var q, r := |b| / 3, |b| % 3;
    var extra := if r == 0 then 0 else r + 1;
    if |b| >= 3 {
      EncodeUnpaddedLength(b[3..]);
      ThirdsStep(|b| - 3);
      assert |EncodeUnpadded(b)| == 4 + |EncodeUnpadded(b[3..])|;
    }
    QuartersRemainder(q, extra);
  }

  lemma ThirdsStep(n: nat)
    ensures (n + 3) / 3 == n / 3 + 1 && (n + 3) % 3 == n % 3
  {
  }

  lemma QuartersRemainder(q: int, c: int)
    requires 0 <= c < 4
    ensures (q * 4 + c) % 4 == c
  {
  }

  function Padding(n: nat): string {
    if n % 3 == 1 then "==" else if n % 3 == 2 then "=" else ""
  }

  /** `btoa(String.fromCharCode(...b))`. */
  function Encode(b: seq<Byte>): string {
    EncodeUnpadded(b) + Padding(|b|)
  }

  /** The encoding is four characters per started group of three bytes, each
      from the alphabet except the trailing `=` padding. */
  lemma EncodeShape(b: seq<Byte>)
    ensures |Encode(b)| == (|b| + 2) / 3 * 4
    ensures |Encode(b)| % 4 == 0
    ensures forall i :: 0 <= i < |Encode(b)| ==> IsAlphabetChar(Encode(b)[i]) || Encode(b)[i] == '='
    ensures |b| % 3 == 0 <==> (forall i :: 0 <= i < |Encode(b)| ==> Encode(b)[i] != '=')
  {
    var e := Encode(b);
    var u := EncodeUnpadded(b);
    var q, r := |b| / 3, |b| % 3;
    EncodeUnpaddedLength(b);
    PaddedGroups(|b|);
    assert e == u + Padding(|b|);
    assert |e| == (if r == 0 then q else q + 1) * 4;
    QuartersRemainder(if r == 0 then q else q + 1, 0);
    forall i | 0 <= i < |e|
      ensures IsAlphabetChar(e[i]) || e[i] == '='
      ensures r == 0 ==> e[i] != '='
    {
      if i < |u| {
        assert e[i] == u[i];
      }
    }
    if r != 0 {
      assert e[|e| - 1] == '=';
    }
  }

  lemma PaddedGroups(n: nat)
    ensures (n + 2) / 3 == (if n % 3 == 0 then n / 3 else n / 3 + 1)
  {
  }

  predicate IsAsciiWhitespace(c: char) {
    c == '\t' || c == '\n' || c == '\U{C}' || c == '\r' || c == ' '
  }

  function StripWhitespace(s: string): (r: string)
    ensures forall i :: 0 <= i < |r| ==> !IsAsciiWhitespace(r[i])
    decreases |s|
  {
    if s == [] then ""
    else if IsAsciiWhitespace(s[0]) then StripWhitespace(s[1..])
    else [s[0]] + StripWhitespace(s[1..])
  }

  /** When the length is a multiple of four, one or two trailing `=` are removed. */
  function StripPadding(s: string): string {
    if |s| % 4 != 0 then s
    else if |s| >= 2 && s[|s| - 2..] == "==" then s[..|s| - 2]
    else if |s| >= 1 && s[|s| - 1] == '=' then s[..|s| - 1]
    else s
  }

  /** Decoding of padding-free alphabet text, three bytes per four characters;
      a final group of two or three characters gives one or two bytes and its
      left-over low bits are dropped. */
  function DecodeUnpadded(s: string): (r: seq<Byte>)
    requires AllAlphabet(s) && |s| % 4 != 1
    decreases |s|
  {
    if |s| == 0 then []
    else if |s| == 2 then Bytes1(ValueOf(s[0]), ValueOf(s[1]))
    else if |s| == 3 then Bytes2(ValueOf(s[0]), ValueOf(s[1]), ValueOf(s[2]))
    else Bytes3(ValueOf(s[0]), ValueOf(s[1]), ValueOf(s[2]), ValueOf(s[3])) + DecodeUnpadded(s[4..])
  }

  /** The byte of a final group of two sextets. */
  function Bytes1(v0: Sextet, v1: Sextet): seq<Byte> {
    [v0 * 4 + v1 / 16]
  }

  /** The two bytes of a final group of three sextets. */
  function Bytes2(v0: Sextet, v1: Sextet, v2: Sextet): seq<Byte> {
    [v0 * 4 + v1 / 16, v1 % 16 * 16 + v2 / 4]
  }

  /** The three bytes of one full group of four sextets. */
  function Bytes3(v0: Sextet, v1: Sextet, v2: Sextet, v3: Sextet): seq<Byte> {
    [v0 * 4 + v1 / 16, v1 % 16 * 16 + v2 / 4, v2 % 4 * 64 + v3]
  }

  /** `b64ToU8(s)`: None where `atob` throws (a length of 1 modulo 4 after
      padding removal, or a character outside the alphabet). */
  function Decode(s: string): Option<seq<Byte>> {
    var d := StripPadding(StripWhitespace(s));
    if |d| % 4 == 1 || !AllAlphabet(d) then None else Some(DecodeUnpadded(d))
  }

  /** The bit arithmetic of one group: splitting three bytes into four
      sextets and joining them again gives back the bytes. */
  lemma RegroupBits(b0: Byte, b1: Byte, b2: Byte)
    ensures b0 / 4 * 4 + (b0 % 4 * 16 + b1 / 16) / 16 == b0
    ensures (b0 % 4 * 16 + b1 / 16) % 16 * 16 + (b1 % 16 * 4 + b2 / 64) / 4 == b1
    ensures (b1 % 16 * 4 + b2 / 64) % 4 * 64 + b2 % 64 == b2
  {
  }

  lemma DecodeGroup(b0: Byte, b1: Byte, b2: Byte)
    ensures Bytes3(ValueOf(CharOf(b0 / 4)), ValueOf(CharOf(b0 % 4 * 16 + b1 / 16)),
                   ValueOf(CharOf(b1 % 16 * 4 + b2 / 64)), ValueOf(CharOf(b2 % 64))) == [b0, b1, b2]
  {
    RegroupBits(b0, b1, b2);
    ValueOfCharOf(b0 / 4);
    ValueOfCharOf(b0 % 4 * 16 + b1 / 16);
    ValueOfCharOf(b1 % 16 * 4 + b2 / 64);
    ValueOfCharOf(b2 % 64);
  }

  lemma {:induction false} DecodeEncodeUnpadded(b: seq<Byte>)
    ensures |EncodeUnpadded(b)| % 4 != 1 && DecodeUnpadded(EncodeUnpadded(b)) == b
    decreases |b|
  {
    EncodeUnpaddedLength(b);
    if |b| == 1 {
      DecodeTail1(b[0]);
    } else if |b| == 2 {
      DecodeTail2(b[0], b[1]);
    } else if |b| >= 3 {
      DecodeEncodeUnpadded(b[3..]);
      DecodeStep(b);
    }
  }

  lemma DecodeTail1(b0: Byte)
    ensures |EncodeUnpadded([b0])| == 2 && DecodeUnpadded(EncodeUnpadded([b0])) == [b0]
  {
    var v0, v1 := b0 / 4, b0 % 4 * 16;
    RegroupBits(b0, 0, 0);
    ValueOfCharOf(v0);
    ValueOfCharOf(v1);
    assert Bytes1(ValueOf(CharOf(v0)), ValueOf(CharOf(v1))) == [b0];
    var u := EncodeUnpadded([b0]);
    assert u == [CharOf(v0), CharOf(v1)];
  }

  lemma DecodeTail2(b0: Byte, b1: Byte)
    ensures |EncodeUnpadded([b0, b1])| == 3 && DecodeUnpadded(EncodeUnpadded([b0, b1])) == [b0, b1]
  {
    var v0, v1, v2 := b0 / 4, b0 % 4 * 16 + b1 / 16, b1 % 16 * 4;
    RegroupBits(b0, b1, 0);
    ValueOfCharOf(v0);
    ValueOfCharOf(v1);
    ValueOfCharOf(v2);
    assert Bytes2(ValueOf(CharOf(v0)), ValueOf(CharOf(v1)), ValueOf(CharOf(v2))) == [b0, b1];
    var u := EncodeUnpadded([b0, b1]);
    assert u == [CharOf(v0), CharOf(v1), CharOf(v2)];
  }

  /** Decoding works group by group from the front. */
  lemma DecodeFront(g: string, rest: string)
    requires |g| == 4 && AllAlphabet(g) && AllAlphabet(rest) && |rest| % 4 != 1
    ensures AllAlphabet(g + rest) && |g + rest| % 4 != 1
    ensures DecodeUnpadded(g + rest) == Bytes3(ValueOf(g[0]), ValueOf(g[1]), ValueOf(g[2]), ValueOf(g[3])) + DecodeUnpadded(rest)
  {
    var s := g + rest;
    forall i | 0 <= i < |s|
      ensures IsAlphabetChar(s[i])
    {
      if i < 4 {
        assert s[i] == g[i];
      } else {
        assert s[i] == rest[i - 4];
      }
    }
    QuartersRemainder(|rest| / 4 + 1, |rest| % 4);
    assert s[4..] == rest;
    assert s[0] == g[0] && s[1] == g[1] && s[2] == g[2] && s[3] == g[3];
  }

  /** The first four characters of an encoding of at least three bytes,
      returned as a value so that callers see only what is stated. */
  lemma FirstGroup(b: seq<Byte>) returns (g: string)
    requires |b| >= 3
    ensures |g| == 4 && AllAlphabet(g)
    ensures EncodeUnpadded(b) == g + EncodeUnpadded(b[3..])
    ensures Bytes3(ValueOf(g[0]), ValueOf(g[1]), ValueOf(g[2]), ValueOf(g[3])) == [b[0], b[1], b[2]]
  {
    g := [CharOf(b[0] / 4), CharOf(b[0] % 4 * 16 + b[1] / 16), CharOf(b[1] % 16 * 4 + b[2] / 64), CharOf(b[2] % 64)];
    DecodeGroup(b[0], b[1], b[2]);
  }

  lemma DecodeStep(b: seq<Byte>)
    requires |b| >= 3
    requires |EncodeUnpadded(b[3..])| % 4 != 1 && DecodeUnpadded(EncodeUnpadded(b[3..])) == b[3..]
    ensures |EncodeUnpadded(b)| % 4 != 1 && DecodeUnpadded(EncodeUnpadded(b)) == b
  {
    var g := FirstGroup(b);
    DecodeJoin(b, g, EncodeUnpadded(b[3..]));
  }

  lemma DecodeJoin(b: seq<Byte>, g: string, rest: string)
    requires |b| >= 3 && |g| == 4 && AllAlphabet(g) && AllAlphabet(rest) && |rest| % 4 != 1
    requires Bytes3(ValueOf(g[0]), ValueOf(g[1]), ValueOf(g[2]), ValueOf(g[3])) == [b[0], b[1], b[2]]
    requires DecodeUnpadded(rest) == b[3..]
    ensures AllAlphabet(g + rest) && |g + rest| % 4 != 1
    ensures DecodeUnpadded(g + rest) == b
  {
    DecodeFront(g, rest);
    assert [b[0], b[1], b[2]] + b[3..] == b;
  }

  lemma {:induction false} StripWhitespaceIdentity(s: string)
    requires forall i :: 0 <= i < |s| ==> !IsAsciiWhitespace(s[i])
    ensures StripWhitespace(s) == s
    decreases |s|
  {
    if s != [] {
      StripWhitespaceIdentity(s[1..]);
      assert [s[0]] + s[1..] == s;
    }
  }

  /** Unpadded text and its padding fill whole groups of four. */
  lemma EncodedGroups(b: seq<Byte>)
    ensures (|EncodeUnpadded(b)| + |Padding(|b|)|) % 4 == 0
  {
    var q, r := |b| / 3, |b| % 3;
    EncodeUnpaddedLength(b);
    assert |EncodeUnpadded(b)| + |Padding(|b|)| == (if r == 0 then q else q + 1) * 4;
    QuartersRemainder(if r == 0 then q else q + 1, 0);
  }

  /** Alphabet text followed by padding holds no whitespace. */
  lemma PaddedHasNoWhitespace(u: string, n: nat)
    requires AllAlphabet(u)
    ensures StripWhitespace(u + Padding(n)) == u + Padding(n)
  {
    var e := u + Padding(n);
    forall i | 0 <= i < |e|
      ensures !IsAsciiWhitespace(e[i])
    {
      if i < |u| {
        assert e[i] == u[i];
      }
    }
    StripWhitespaceIdentity(e);
  }

  /** Removing the padding of whole groups gives back the alphabet text. */
  lemma StripPaddingAfter(u: string, n: nat)
    requires AllAlphabet(u) && (|u| + |Padding(n)|) % 4 == 0
    ensures StripPadding(u + Padding(n)) == u
  {
    var e := u + Padding(n);
    if n % 3 == 1 {
      assert e[|e| - 2..] == "==" && e[..|e| - 2] == u;
    } else if n % 3 == 2 {
      assert e[|e| - 2] == u[|u| - 1] != '=';
      assert e[..|e| - 1] == u;
    } else if |e| >= 1 {
      assert e == u && e[|e| - 1] != '=';
    }
  }

  /** What `atob` removes from an encoding is exactly its padding. */
  lemma StripEncoding(b: seq<Byte>)
    ensures StripPadding(StripWhitespace(Encode(b))) == EncodeUnpadded(b)
  {
    EncodedGroups(b);
    PaddedHasNoWhitespace(EncodeUnpadded(b), |b|);
    StripPaddingAfter(EncodeUnpadded(b), |b|);
  }

  /** The round trip between the events-create encoder and the b64ToU8 decoder:
      every byte string survives `btoa` followed by `atob`. */
  lemma RoundTrip(b: seq<Byte>)
    ensures Decode(Encode(b)) == Some(b)
  {
    StripEncoding(b);
    EncodeUnpaddedLength(b);
    DecodeEncodeUnpadded(b);
  }

  /** `s.replace(/=+$/, "")`: drop every trailing `=`. */
  function TrimTrailingPad(s: string): (r: string)
    ensures |r| <= |s| && r == s[..|r|]
    ensures |r| > 0 ==> r[|r| - 1] != '='
    ensures forall i :: |r| <= i < |s| ==> s[i] == '='
    decreases |s|
  {
    if |s| > 0 && s[|s| - 1] == '=' then TrimTrailingPad(s[..|s| - 1]) else s
  }
}
