/**
 * PCM sample arithmetic shared by the output sinks: 16-bit signed samples,
 * their raw two-byte memory image and the mono-to-stereo upmix of the I2S sink.
 */
module Pcm {

  /** `int16_t`: one linear PCM sample as produced by the synthesis engine. */
  newtype int16 = x: int | -0x8000 <= x < 0x8000

  /** `uint8_t`: one byte handed to `Print::write`. */
  newtype uint8 = x: int | 0 <= x < 0x100

  /** Bytes occupied by one sample (`sizeof(int16_t)`). */
  const SampleBytes: nat := 2

  /** Low-order byte of the two's-complement image of `s`. */
  function LowByte(s: int16): uint8
  {
    ((s as int) % 0x100) as uint8
  }

  /** High-order byte of the two's-complement image of `s`. */
  function HighByte(s: int16): uint8
  {
    (((s as int) + 0x10000) % 0x10000 / 0x100) as uint8
  }

  /** The sample whose little-endian image is `lo, hi`. */
  function SampleOf(lo: uint8, hi: uint8): int16
  {
    var u := hi as int * 0x100 + lo as int;
    if u >= 0x8000 then (u - 0x10000) as int16 else u as int16
  }

  /** The two bytes of one sample decode back to that sample. */
  lemma SampleBytesRoundTrip(s: int16)
    ensures SampleOf(LowByte(s), HighByte(s)) == s
  {
    var v := s as int;
    var u := (v + 0x10000) % 0x10000;
    assert u == (if v < 0 then v + 0x10000 else v);
    assert v % 0x100 == u % 0x100;
    assert u / 0x100 * 0x100 + u % 0x100 == u;
  }

  /**
   * The memory image of a sample buffer on a little-endian target: what
   * `write((const uint8_t *) buffer, n * sizeof(int16_t))` sends.
   */
  function EncodeLE(s: seq<int16>): (b: seq<uint8>)
    ensures |b| == SampleBytes * |s|
    ensures forall j :: 0 <= j < |s| ==> b[2 * j] == LowByte(s[j]) && b[2 * j + 1] == HighByte(s[j])
  {
    if s == [] then [] else [LowByte(s[0]), HighByte(s[0])] + EncodeLE(s[1..])
  }

  /** Reads a byte image back as samples, two bytes per sample, low byte first. */
  function DecodeLE(b: seq<uint8>): (s: seq<int16>)
    requires |b| % 2 == 0
    ensures SampleBytes * |s| == |b|
  {
    if b == [] then [] else [SampleOf(b[0], b[1])] + DecodeLE(b[2..])
  }

  /** Every sample survives the trip through its raw byte image unchanged. */
  lemma {:induction false} DecodeEncode(s: seq<int16>)
    ensures DecodeLE(EncodeLE(s)) == s
  {
    if s != [] {
      var b := EncodeLE(s);
      assert b[2..] == EncodeLE(s[1..]);
      SampleBytesRoundTrip(s[0]);
      DecodeEncode(s[1..]);
    }
  }

  /** One stereo frame `{s, s}` per mono sample, in order. */
  function Upmix(s: seq<int16>): (frames: seq<seq<int16>>)
    ensures |frames| == |s|
    ensures forall j :: 0 <= j < |s| ==> frames[j] == [s[j], s[j]]
  {
    if s == [] then [] else [[s[0], s[0]]] + Upmix(s[1..])
  }

  /** The left channel of a frame sequence. */
  function LeftChannel(frames: seq<seq<int16>>): seq<int16>
    requires forall j :: 0 <= j < |frames| ==> |frames[j]| == 2
  {
    if frames == [] then [] else [frames[0][0]] + LeftChannel(frames[1..])
  }

  /** The right channel of a frame sequence. */
  function RightChannel(frames: seq<seq<int16>>): seq<int16>
    requires forall j :: 0 <= j < |frames| ==> |frames[j]| == 2
  {
    if frames == [] then [] else [frames[0][1]] + RightChannel(frames[1..])
  }

  /** Upmixing loses nothing: both channels of the frames carry the mono input. */
  lemma {:induction false} UpmixChannels(s: seq<int16>)
    ensures LeftChannel(Upmix(s)) == s
    ensures RightChannel(Upmix(s)) == s
  {
    if s != [] {
      assert Upmix(s)[1..] == Upmix(s[1..]);
      UpmixChannels(s[1..]);
    }
  }
}
