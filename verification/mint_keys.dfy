/** The byte helpers of the mint function: `concatBytes`, which lays byte
    arrays end to end, and `decodePubkeyToU8`, which reads a public key
    written as hex (with or without "0x") or, failing that, as base58. */
module MintKeys {
  import opened Common
  import Hex
  import opened Foreign

  /** The arrays laid end to end, in argument order. */
  function Flatten(arrays: seq<seq<Byte>>): seq<Byte>
    decreases |arrays|
  {
    if arrays == [] then [] else Flatten(arrays[..|arrays| - 1]) + arrays[|arrays| - 1]
  }

  /** `arrays.reduce((acc, arr) => acc + arr.length, 0)` */
  function TotalLength(arrays: seq<seq<Byte>>): nat
    decreases |arrays|
  {
    if arrays == [] then 0 else TotalLength(arrays[..|arrays| - 1]) + |arrays[|arrays| - 1]|
  }

  /** Where argument `i` starts in the concatenation. */
  function Offset(arrays: seq<seq<Byte>>, i: nat): nat
    requires i <= |arrays|
  {
    TotalLength(arrays[..i])
  }

  lemma {:induction false} FlattenLength(arrays: seq<seq<Byte>>)
    ensures |Flatten(arrays)| == TotalLength(arrays)
    decreases |arrays|
  {
    if arrays != [] {
      FlattenLength(arrays[..|arrays| - 1]);
    }
  }

  /** `concatBytes(...arrays)`: a fresh buffer of the summed length, filled
      argument by argument at a running offset. */
  method ConcatBytes(arrays: seq<seq<Byte>>) returns (result: array<Byte>)
    ensures fresh(result)
    ensures result.Length == TotalLength(arrays) && result[..] == Flatten(arrays)
  {
    FlattenLength(arrays);
    result := new Byte[TotalLength(arrays)](_ => 0);
    var offset := 0;
    for k := 0 to |arrays|
      invariant offset == TotalLength(arrays[..k]) && offset <= result.Length
      invariant result[..offset] == Flatten(arrays[..k])
    {
      assert arrays[..k + 1][..k] == arrays[..k];
      FlattenLength(arrays[..k + 1]);
      PrefixTotalBound(arrays, k + 1);
      Set(result, arrays[k], offset);
      offset := offset + |arrays[k]|;
    }
    assert arrays[..|arrays|] == arrays;
  }

  /** `result.set(arr, offset)`: copies `arr` in at `offset`, keeping what precedes it. */
  method Set(result: array<Byte>, arr: seq<Byte>, offset: nat)
    requires offset + |arr| <= result.Length
    modifies result
    ensures result[..offset + |arr|] == old(result[..offset]) + arr
    ensures result[offset + |arr|..] == old(result[offset + |arr|..])
  {
    ghost var before := result[..offset];
    ghost var after := result[offset + |arr|..];
    for j := 0 to |arr|
      invariant result[..offset] == before
      invariant result[offset..offset + j] == arr[..j]
      invariant result[offset + |arr|..] == after
    {
      result[offset + j] := arr[j];
      assert result[offset..offset + j + 1] == result[offset..offset + j] + [arr[j]];
    }
    assert result[..offset + |arr|] == result[..offset] + result[offset..offset + |arr|];
  }

  lemma {:induction false} PrefixTotalBound(arrays: seq<seq<Byte>>, k: nat)
    requires k <= |arrays|
    ensures TotalLength(arrays[..k]) <= TotalLength(arrays)
    decreases |arrays| - k
  {
    if k < |arrays| {
      PrefixTotalBound(arrays, k + 1);
      assert arrays[..k + 1][..k] == arrays[..k];
    } else {
      assert arrays[..k] == arrays;
    }
  }

  /** Argument `i` occupies `[Offset(i), Offset(i) + |arrays[i]|)` of the result. */
  lemma {:induction false} ConcatOffsets(arrays: seq<seq<Byte>>, i: nat, j: nat)
    requires i < |arrays| && j < |arrays[i]|
    ensures Offset(arrays, i) + |arrays[i]| <= |Flatten(arrays)|
    ensures Flatten(arrays)[Offset(arrays, i) + j] == arrays[i][j]
    decreases |arrays|
  {
    var n := |arrays| - 1;
    var init := arrays[..n];
    FlattenLength(arrays);
    FlattenLength(init);
    if i == n {
      assert arrays[..i] == init;
    } else {
      ConcatOffsets(init, i, j);
      assert init[..i] == arrays[..i];
    }
  }

  /** `s.startsWith("0x") ? s.slice(2) : s` */
  function StripHexPrefix(s: string): string {
    if StartsWith(s, "0x") then s[2..] else s
  }

  /** The hex branch applies: `/^[0-9a-fA-F]+$/` holds and the length is even. */
  predicate HexShaped(hex: string) {
    Hex.IsHexText(hex) && |hex| % 2 == 0
  }

  const KeyLengthError := "invalid public key length"

  /** What `decodePubkeyToU8(s)` returns, or the message it throws. */
  function DecodePubkey(f: Foreign, s: string): (r: Result<seq<Byte>, string>)
    ensures r.Ok? ==> |r.value| == 32
  {
    var hex := StripHexPrefix(s);
    if HexShaped(hex) && |hex| / 2 == 32 then
      Hex.DecodeAt(hex, 0);
      Ok(Hex.Decode(hex))
    else
      match f.base58Decode(s)
      case Err(m) => Err(m)
      case Ok(b) => if |b| != 32 then Err(KeyLengthError) else Ok(b)
  }

  /** `decodePubkeyToU8`: the hex digits are read pair by pair into a fresh
      buffer, which is kept only when it holds 32 bytes. */
  method DecodePubkeyToU8(f: Foreign, s: string) returns (r: Result<seq<Byte>, string>)
    ensures r == DecodePubkey(f, s)
  {
    var hex := if StartsWith(s, "0x") then s[2..] else s;
    if Hex.IsHexText(hex) && |hex| % 2 == 0 {
      var out := new Byte[|hex| / 2];
      for i := 0 to out.Length
        invariant forall k :: 0 <= k < i ==> out[k] == Hex.PairValue(hex, k)
      {
        out[i] := Hex.PairValue(hex, i);
      }
      if out.Length == 32 {
        forall k | 0 <= k < 32
          ensures k < |Hex.Decode(hex)| && out[..][k] == Hex.Decode(hex)[k]
        {
          Hex.DecodeAt(hex, k);
        }
        Hex.DecodeAt(hex, 0);
        assert out[..] == Hex.Decode(hex);
        assert hex == StripHexPrefix(s);
        return Ok(out[..]);
      }
    }
    var b := f.base58Decode(s);
    if b.Err? {
      return Err(b.error);
    }
    if |b.value| != 32 {
      return Err(KeyLengthError);
    }
    return Ok(b.value);
  }

  /** The lower-case hex that events-create stores for a 32-byte key decodes
      to that key, with or without a "0x" prefix, whatever base58 would say. */
  lemma HexKeyRoundTrip(f: Foreign, key: seq<Byte>)
    requires |key| == 32
    ensures DecodePubkey(f, Hex.Encode(key)) == Ok(key)
    ensures DecodePubkey(f, "0x" + Hex.Encode(key)) == Ok(key)
  {
    var text := Hex.Encode(key);
    Hex.EncodeShape(key);
    Hex.RoundTrip(key);
    assert text[1] != 'x';
    assert !StartsWith(text, "0x");
    assert ("0x" + text)[2..] == text;
  }

  /** 64 hex digits of either case (after an optional "0x") are read as hex;
      anything else is handed to base58, and its result is kept only when it
      is 32 bytes long. */
  lemma DecodePubkeyCases(f: Foreign, s: string)
    ensures var hex := StripHexPrefix(s);
      HexShaped(hex) && |hex| == 64 ==>
        DecodePubkey(f, s) == Ok(Hex.Decode(hex)) && |Hex.Decode(hex)| == 32
    ensures var hex := StripHexPrefix(s);
      !(HexShaped(hex) && |hex| == 64) ==>
        DecodePubkey(f, s) == (match f.base58Decode(s)
                               case Err(m) => Err(m)
                               case Ok(b) => if |b| == 32 then Ok(b) else Err(KeyLengthError))
  {
    var hex := StripHexPrefix(s);
    if HexShaped(hex) && |hex| == 64 {
      Hex.DecodeAt(hex, 0);
    }
  }
}
