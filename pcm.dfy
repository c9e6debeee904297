/** Sample formats used along the audio path: 16-bit signed PCM, its
    little-endian byte view (what `new Uint8Array(int16.buffer)` and
    `new Int16Array(buffer)` expose), and the float scaling of the
    playback worklet and of the recorder. Float samples are reals. */
module Pcm {

  type byte = x: int | 0 <= x < 0x100
  type int16 = x: int | -0x8000 <= x < 0x8000

  // ---------------------------------------------------------------
  // Byte view of an Int16Array (little-endian platform order)
  // ---------------------------------------------------------------

  function SampleBytes(x: int16): seq<byte> {
    var u := if x < 0 then x + 0x10000 else x;
    [u % 0x100, u / 0x100]
  }

  function SampleOf(lo: byte, hi: byte): int16 {
    var u := lo + 0x100 * hi;
    if u >= 0x8000 then u - 0x10000 else u
  }

  /** The bytes of an Int16Array's buffer, two per sample. */
  function ToBytes(s: seq<int16>): (b: seq<byte>)
    ensures |b| == 2 * |s|
  {
    if s == [] then [] else SampleBytes(s[0]) + ToBytes(s[1..])
  }

  /** The samples of an Int16Array laid over a byte buffer; a trailing odd
      byte is not part of any sample (length floor(n / 2)). */
  function FromBytes(b: seq<byte>): (s: seq<int16>)
    ensures |s| == |b| / 2
  {
    if |b| < 2 then [] else [SampleOf(b[0], b[1])] + FromBytes(b[2..])
  }

  lemma SampleRoundTrip(x: int16)
    ensures SampleOf(SampleBytes(x)[0], SampleBytes(x)[1]) == x
  {
  }

  /** Viewing the bytes of an Int16Array as samples gives the samples back. */
  lemma {:induction false} FromToBytes(s: seq<int16>)
    ensures FromBytes(ToBytes(s)) == s
  {
    if s != [] {
      var b := ToBytes(s);
      assert b[2..] == ToBytes(s[1..]);
      SampleRoundTrip(s[0]);
      FromToBytes(s[1..]);
    }
  }

  // ---------------------------------------------------------------
  // Float scaling (float32 rounding is not modelled)
  // ---------------------------------------------------------------

  /** `int16 < 0 ? int16 / 0x8000 : int16 / 0x7fff` of the playback worklet. */
  function Int16ToFloat(x: int16): (f: real)
    ensures -1.0 <= f <= 1.0
    ensures (f < 0.0) == (x < 0)
  {
    if x < 0 then x as real / 32768.0 else x as real / 32767.0
  }

  /** ECMAScript ToInt16 of a value already in [-32768, 32767]: truncation
      toward zero. */
  function TruncateToInt16(v: real): (t: int16)
    requires -32768.0 <= v <= 32767.0
    ensures v >= 0.0 ==> t as real <= v < t as real + 1.0
    ensures v < 0.0 ==> t as real - 1.0 < v <= t as real
  {
    if v < 0.0 then -((-v).Floor) else v.Floor
  }

  function Clamp(s: real): (c: real)
    ensures -1.0 <= c <= 1.0
    ensures -1.0 <= s <= 1.0 ==> c == s
  {
    if s < -1.0 then -1.0 else if s > 1.0 then 1.0 else s
  }

  /** One sample of `float32ToInt16`: clamp to [-1, 1], scale by 0x8000 below
      zero and by 0x7fff otherwise, store into an Int16Array. */
  function FloatToInt16(s: real): int16 {
    var c := Clamp(s);
    TruncateToInt16(if c < 0.0 then c * 32768.0 else c * 32767.0)
  }

  /** Converting a sample in [-1, 1] to int16 and back is off by less than one
      quantisation step (the larger step is 1/32767). */
  lemma QuantisationError(x: real)
    requires -1.0 <= x <= 1.0
    ensures var y := Int16ToFloat(FloatToInt16(x));
            -1.0 / 32767.0 < y - x < 1.0 / 32767.0
  {
    var t := FloatToInt16(x);
    if x >= 0.0 {
      assert t as real <= x * 32767.0 < t as real + 1.0;
      assert t >= 0;
      assert Int16ToFloat(t) == t as real / 32767.0;
    } else {
      var v := x * 32768.0;
      assert t as real - 1.0 < v <= t as real;
      if t < 0 {
        assert Int16ToFloat(t) == t as real / 32768.0;
        assert t as real / 32768.0 - 1.0 / 32768.0 < x;
      } else {
        assert t == 0;
        assert -1.0 / 32768.0 < x;
      }
    }
  }
}
