/** Decoding of the downlink audio: raw bytes holding little-endian signed
    16-bit PCM become samples in [-1, 1) by dividing by 32768. The base64
    step in front of it (base64ToUint8Array) is not part of this model. */
module Pcm16 {

  type byte = b: int | 0 <= b < 256

  /** The little-endian two's-complement 16-bit value of the byte pair
      (DataView.getInt16 with littleEndian set). */
  function Int16LE(lo: byte, hi: byte): (v: int)
    ensures -32768 <= v <= 32767
    ensures (v < 0) <==> hi >= 128
  {
    var u := lo + 256 * hi;
    if u >= 32768 then u - 65536 else u
  }

  /** The bytes that hold a 16-bit value, low byte first: an independent
      reference for Int16LE. */
  function Int16Bytes(v: int): (pair: (byte, byte))
    requires -32768 <= v <= 32767
  {
    var u := if v < 0 then v + 65536 else v;
    (u % 256, u / 256)
  }

  /** Reading back the bytes of a 16-bit value gives the value. */
  lemma Int16RoundTrip(v: int)
    requires -32768 <= v <= 32767
    ensures Int16LE(Int16Bytes(v).0, Int16Bytes(v).1) == v
  {
  }

  /** Every byte pair is the encoding of the value it decodes to, so the
      decoding is one-to-one. */
  lemma Int16BytesOfDecoded(lo: byte, hi: byte)
    ensures Int16Bytes(Int16LE(lo, hi)) == (lo, hi)
  {
  }

  /** The number of whole samples in a byte buffer, Math.floor(n / 2). */
  function SampleCount(bytes: seq<byte>): nat {
    |bytes| / 2
  }

  /** Sample i of a PCM16 buffer. */
  function SampleAt(bytes: seq<byte>, i: nat): (x: real)
    requires i < SampleCount(bytes)
    ensures -1.0 <= x < 1.0
  {
    Int16LE(bytes[2 * i], bytes[2 * i + 1]) as real / 32768.0
  }

  /** The samples a downlink chunk decodes to. */
  function Decode(bytes: seq<byte>): (samples: seq<real>) {
    seq(SampleCount(bytes), i requires 0 <= i < SampleCount(bytes) => SampleAt(bytes, i))
  }

  /** Decoding yields floor(n / 2) samples, a trailing odd byte is dropped,
      and every sample lies in [-1, 1). */
  lemma DecodeShape(bytes: seq<byte>)
    ensures |Decode(bytes)| == |bytes| / 2
    ensures |bytes| % 2 == 1 ==> Decode(bytes) == Decode(bytes[..|bytes| - 1])
    ensures forall i :: 0 <= i < |Decode(bytes)| ==> -1.0 <= Decode(bytes)[i] < 1.0
  {
  }

  /** Sample i is determined by bytes 2i and 2i+1 alone: the bytes of a value
      v decode to v / 32768 wherever they sit. */
  lemma DecodeOfEncoded(prefix: seq<byte>, v: int, suffix: seq<byte>)
    requires -32768 <= v <= 32767 && |prefix| % 2 == 0
    ensures var bytes := prefix + [Int16Bytes(v).0, Int16Bytes(v).1] + suffix;
      |prefix| / 2 < |Decode(bytes)| && Decode(bytes)[|prefix| / 2] == v as real / 32768.0
  {
    var bytes := prefix + [Int16Bytes(v).0, Int16Bytes(v).1] + suffix;
    var k := |prefix| / 2;
    assert bytes[2 * k] == Int16Bytes(v).0 && bytes[2 * k + 1] == Int16Bytes(v).1;
    Int16RoundTrip(v);
  }

  /** The decoding loop of the message handler: a buffer of floor(n / 2)
      samples filled one sample at a time. */
  method DecodeChunk(rawBytes: seq<byte>) returns (channelData: array<real>)
    ensures fresh(channelData)
    ensures channelData[..] == Decode(rawBytes)
  {
    channelData := new real[|rawBytes| / 2];
    var i := 0;
    while i < channelData.Length
      invariant 0 <= i <= channelData.Length
      invariant forall k :: 0 <= k < i ==> channelData[k] == SampleAt(rawBytes, k)
    {
      channelData[i] := Int16LE(rawBytes[i * 2], rawBytes[i * 2 + 1]) as real / 32768.0;
      i := i + 1;
    }
  }
}
