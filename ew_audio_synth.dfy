/** Model of the PWM output stage of the synthesizer library: the three
    `EwAudioSynth::audioWrite` overloads, each of which turns one sample into
    the 8-bit compare value of the PWM timer.  The hardware register
    (`PWM_VALUE`, a per-board alias of an 8-bit timer compare register) is the
    field `pwmValue` of class `AudioSynth`. */
module EwAudioSynth {

  /** `Sample` (a typedef of `int8_t`), `uint16_t`, `int16_t`, and the
      unsigned 8-bit register.  The unsigned 16-bit type is a bit-vector,
      since its overload masks it bitwise. */
  type Sample = x: int | -0x80 <= x <= 0x7F
  type UInt16 = bv16
  type Int16 = x: int | -0x8000 <= x <= 0x7FFF
  type Byte = x: int | 0 <= x <= 0xFF

  /** Storing an `int` into the 8-bit register keeps its low eight bits
      (C's conversion to an unsigned 8-bit type). */
  function ToRegister(x: int): (r: Byte)
    ensures (x - r) % 0x100 == 0
    ensures 0 <= x <= 0xFF ==> r == x
  {
    x % 0x100
  }

  /** `sample & 0x00FF` on a 16-bit unsigned value. */
  function LowByte(x: UInt16): (r: UInt16)
    ensures r <= 0xFF
    ensures x <= 0xFF ==> r == x
    ensures r == x % 0x100
  {
    x & 0x00FF
  }

  /** The clip of the `uint16_t` overload: values above 255 become 255. */
  function ClipU16(sample: UInt16): (r: UInt16)
    ensures r <= 0xFF
    ensures sample <= 0xFF ==> r == sample
    ensures sample > 0xFF ==> r == 0xFF
  {
    if sample > 255 then 255 else sample
  }

  /** The clamp of the `int16_t` overload into the `int8_t` range. */
  function ClampI16(sample: Int16): (r: Int16)
    ensures -0x80 <= r <= 0x7F
    ensures -0x80 <= sample <= 0x7F ==> r == sample
    ensures sample > 0x7F ==> r == 0x7F
    ensures sample < -0x80 ==> r == -0x80
  {
    if sample > 127 then 127 else if sample < -128 then -128 else sample
  }

  /** The register level each overload should produce, stated directly:
      the signed sample shifted up by 128, or saturated at the ends. */
  function SampleLevel(sample: Sample): Byte
  {
    sample + 128
  }

  function U16Level(sample: UInt16): Byte
  {
    if sample <= 255 then sample as int else 255
  }

  function I16Level(sample: Int16): Byte
  {
    if sample < -128 then 0 else if sample > 127 then 255 else sample + 128
  }

  /** The output stage.  The source's class is static and writes a global
      register; here that register is the one field of the object. */
  class AudioSynth {
    var pwmValue: Byte

    /** `audioWrite(Sample)`: offset the signed 8-bit sample by 128. */
    method AudioWrite(sample: Sample)
      modifies this`pwmValue
      ensures pwmValue == SampleLevel(sample)
    {
      pwmValue := ToRegister(sample + 128);
    }

    /** `audioWrite(uint16_t)`: clip at 255, mask the low byte, write. */
    method AudioWriteU16(sample: UInt16)
      modifies this`pwmValue
      ensures pwmValue == U16Level(sample)
    {
      var s := ClipU16(sample);
      pwmValue := ToRegister(LowByte(s) as int);
    }

    /** `audioWrite(int16_t)`: clamp to [-128, 127], offset by 128, write. */
    method AudioWriteI16(sample: Int16)
      modifies this`pwmValue
      ensures pwmValue == I16Level(sample)
    {
      var s := ClampI16(sample);
      pwmValue := ToRegister(s + 128);
    }
  }

  /** The mask in the `uint16_t` overload never changes a clipped value. */
  lemma MaskAfterClipIsNoOp(sample: UInt16)
    ensures LowByte(ClipU16(sample)) == ClipU16(sample)
  {
  }

  /** Without the clip, the mask alone would wrap values above 255 around:
      every such value whose low byte is not 0xFF would be written wrongly. */
  lemma MaskAloneWraps(x: UInt16)
    requires x > 0xFF && x % 0x100 != 0xFF
    ensures LowByte(x) != ClipU16(x)
    ensures LowByte(x) as int != U16Level(x)
  {
  }

  /** On inputs inside the `int8_t` range the `int16_t` overload writes the
      same level as the `Sample` overload. */
  lemma I16AgreesWithSample(sample: Int16)
    requires -128 <= sample <= 127
    ensures I16Level(sample) == SampleLevel(sample)
  {
  }

  /** Each overload is monotone: a larger input never gives a lower level. */
  lemma SampleLevelMonotone(a: Sample, b: Sample)
    requires a <= b
    ensures SampleLevel(a) <= SampleLevel(b)
  {
  }

  lemma U16LevelMonotone(a: UInt16, b: UInt16)
    requires a <= b
    ensures U16Level(a) <= U16Level(b)
  {
  }

  lemma I16LevelMonotone(a: Int16, b: Int16)
    requires a <= b
    ensures I16Level(a) <= I16Level(b)
  {
  }

  /** Clamping twice is clamping once. */
  lemma ClampIdempotent(sample: Int16)
    ensures ClampI16(ClampI16(sample)) == ClampI16(sample)
  {
  }

  /** The `Sample` overload loses no information: distinct samples give
      distinct levels, and every level is reached by some sample. */
  lemma SampleLevelBijective(a: Sample, b: Sample, level: Byte)
    ensures SampleLevel(a) == SampleLevel(b) ==> a == b
    ensures SampleLevel(level - 128) == level
  {
  }
}
