/**
 * Byte-level codecs the client relies on: big-endian unsigned integers as
 * algosdk's `encodeUint64` / `decodeUint64` produce and read them, and the
 * lower-case hexadecimal text of `Buffer.toString("hex")`.
 */
module Bytes {
  import opened Wrappers

  type byte = x: int | 0 <= x < 256

  const UINT64_LIMIT: nat := 0x1_0000_0000_0000_0000
  /** Number.MAX_SAFE_INTEGER, 2^53 - 1. */
  const MAX_SAFE_INTEGER: nat := 0x1F_FFFF_FFFF_FFFF

  function Pow256(n: nat): (r: nat)
    ensures r >= 1
  {
    if n == 0 then 1 else 256 * Pow256(n - 1)
  }

  /** The unsigned big-endian value of a byte string. */
  function BeValue(s: seq<byte>): nat
  {
    if s == [] then 0 else BeValue(s[..|s| - 1]) * 256 + s[|s| - 1]
  }

  lemma {:induction false} BeValueBound(s: seq<byte>)
    ensures BeValue(s) < Pow256(|s|)
  {
    if s != [] {
      BeValueBound(s[..|s| - 1]);
    }
  }

  /** Leading zero bytes do not change the value (the padding decodeUint64 inserts). */
  lemma {:induction false} BeValueZeroPadding(k: nat, s: seq<byte>)
    ensures BeValue(seq(k, _ => 0) + s) == BeValue(s)
    decreases |s|
  {
    var z: seq<byte> := seq(k, _ => 0);
    if s == [] {
      assert z + s == z;
      ZerosValue(k);
    } else {
      assert (z + s)[..|z + s| - 1] == z + s[..|s| - 1];
      BeValueZeroPadding(k, s[..|s| - 1]);
    }
  }

  lemma {:induction false} ZerosValue(k: nat)
    ensures BeValue(seq(k, _ => 0)) == 0
  {
    if k > 0 {
      var z: seq<byte> := seq(k, _ => 0);
      assert z[..k - 1] == seq(k - 1, _ => 0);
      ZerosValue(k - 1);
    }
  }

  /** The `width`-byte big-endian encoding of `n` (which must fit). */
  function BeEncode(n: nat, width: nat): (r: seq<byte>)
    requires n < Pow256(width)
    ensures |r| == width
  {
    if width == 0 then [] else BeEncode(n / 256, width - 1) + [n % 256]
  }

  lemma {:induction false} DecodeEncode(n: nat, width: nat)
    requires n < Pow256(width)
    ensures BeValue(BeEncode(n, width)) == n
  {
    if width > 0 {
      var e := BeEncode(n, width);
      assert e[..|e| - 1] == BeEncode(n / 256, width - 1);
      DecodeEncode(n / 256, width - 1);
    }
  }

  lemma {:induction false} EncodeDecode(s: seq<byte>)
    ensures BeValue(s) < Pow256(|s|)
    ensures BeEncode(BeValue(s), |s|) == s
  {
    BeValueBound(s);
    if s != [] {
      var p := s[..|s| - 1];
      EncodeDecode(p);
      assert BeValue(s) / 256 == BeValue(p);
      assert BeValue(s) % 256 == s[|s| - 1];
      assert s == p + [s[|s| - 1]];
    }
  }

  lemma Pow256Of8()
    ensures Pow256(8) == UINT64_LIMIT
  {
  }

  /** JavaScript's `Uint8Array.prototype.slice(from, to)`: bounds are clamped to the length. */
  function Slice(s: seq<byte>, from: nat, to: nat): (r: seq<byte>)
    ensures |r| == if from <= to && from <= |s| then (if to <= |s| then to else |s|) - from else 0
  {
    var a := if from <= |s| then from else |s|;
    var b := if to <= |s| then to else |s|;
    if a <= b then s[a..b] else []
  }

  datatype DecodingMode = Safe | BigInt

  datatype CodecError =
    | UnacceptableLength(length: nat)   // decodeUint64 given 0 or more than 8 bytes
    | UnsafeInteger(value: nat)         // "safe" decoding of a value above 2^53 - 1
    | NotUint64(value: nat)             // encodeUint64 given a value outside [0, 2^64)

  /**
   * algosdk `decodeUint64(data, mode)`: one to eight bytes, left-padded to eight and read
   * big-endian; in "safe" mode a value that is not a safe JavaScript integer is refused.
   */
  function DecodeUint64(data: seq<byte>, mode: DecodingMode): (r: Result<nat, CodecError>)
    ensures r.Ok? <==> 1 <= |data| <= 8 && (mode == Safe ==> BeValue(data) <= MAX_SAFE_INTEGER)
    ensures r.Ok? ==> r.value == BeValue(data) && r.value < UINT64_LIMIT
  {
    if |data| == 0 || |data| > 8 then Err(UnacceptableLength(|data|))
    else
      var padded := seq(8 - |data|, _ => 0) + data;
      BeValueZeroPadding(8 - |data|, data);
      BeValueBound(padded);
      Pow256Of8();
      var n := BeValue(padded);
      if mode == Safe && n > MAX_SAFE_INTEGER then Err(UnsafeInteger(n)) else Ok(n)
  }

  /** algosdk `encodeUint64(n)`: eight big-endian bytes, or an error outside the uint64 range. */
  function EncodeUint64(n: nat): (r: Result<seq<byte>, CodecError>)
    ensures r.Ok? <==> n < UINT64_LIMIT
    ensures r.Ok? ==> |r.value| == 8 && BeValue(r.value) == n
  {
    Pow256Of8();
    if n < UINT64_LIMIT then
      DecodeEncode(n, 8);
      Ok(BeEncode(n, 8))
    else Err(NotUint64(n))
  }

  /** Decoding in "bigint" mode inverts encoding for every uint64, and "safe" mode exactly up to 2^53 - 1. */
  lemma Uint64RoundTrip(n: nat)
    requires n < UINT64_LIMIT
    ensures EncodeUint64(n).Ok?
    ensures DecodeUint64(EncodeUint64(n).value, BigInt) == Ok(n)
    ensures DecodeUint64(EncodeUint64(n).value, Safe) == if n <= MAX_SAFE_INTEGER then Ok(n) else Err(UnsafeInteger(n))
  {
  }

  // ---- hexadecimal text -----------------------------------------------------------

  function HexDigit(d: nat): (c: char)
    requires d < 16
  {
    if d < 10 then '0' + d as char else 'a' + (d - 10) as char
  }

  function HexDigitValue(c: char): nat
  {
    if '0' <= c <= '9' then (c - '0') as nat
    else if 'a' <= c <= 'f' then (c - 'a') as nat + 10
    else 0
  }

  /** `Buffer.from(bytes).toString("hex")`: two lower-case hexadecimal digits per byte. */
  function Hex(bytes: seq<byte>): (r: string)
    ensures |r| == 2 * |bytes|
  {
    if bytes == [] then []
    else [HexDigit(bytes[0] / 16), HexDigit(bytes[0] % 16)] + Hex(bytes[1..])
  }

  function HexDecode(s: string): (r: seq<byte>)
    requires |s| % 2 == 0
    requires forall i :: 0 <= i < |s| ==> HexDigitValue(s[i]) < 16
  {
    if s == [] then []
    else [HexDigitValue(s[0]) * 16 + HexDigitValue(s[1])] + HexDecode(s[2..])
  }

  lemma {:induction false} HexRoundTrip(bytes: seq<byte>)
    ensures forall i :: 0 <= i < |Hex(bytes)| ==> HexDigitValue(Hex(bytes)[i]) < 16
    ensures HexDecode(Hex(bytes)) == bytes
  {
    if bytes != [] {
      HexRoundTrip(bytes[1..]);
      var h := Hex(bytes);
      assert h[2..] == Hex(bytes[1..]);
    }
  }
}
