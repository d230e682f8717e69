/** `LedCommandBuilder`: the 9-byte frames of the strip's protocol. Each
    builder checks its arguments with `require` and returns a Kotlin byte
    array; the contracts state the frames in wire (unsigned) bytes, against
    the layouts the builder's documentation gives. */
module CommandBuilder {
  import opened Wrappers
  import opened Checks
  import opened Bytes
  import opened Rgb

  /** Kotlin `ByteArray`. */
  type ByteArray = seq<Int8>

  const FrameLength: nat := 9
  const FrameStart: UInt8 := 0x7E
  const FrameEnd: UInt8 := 0xEF

  /** The documented layouts, as they go on the wire. */
  function ColorLayout(r: UInt8, g: UInt8, b: UInt8): seq<UInt8> {
    [0x7E, 0x00, 0x05, 0x03, r, g, b, 0x00, 0xEF]
  }

  function BrightnessLayout(v: UInt8): seq<UInt8> {
    [0x7E, 0x00, 0x01, v, v, 0x00, 0x00, 0x00, 0xEF]
  }

  const PowerOnLayout: seq<UInt8> := [0x7E, 0x04, 0x04, 0xF0, 0x00, 0x01, 0xFF, 0x00, 0xEF]
  const PowerOffLayout: seq<UInt8> := [0x7E, 0x04, 0x04, 0x00, 0x00, 0x00, 0xFF, 0x00, 0xEF]

  /** The envelope every frame of this protocol has. */
  predicate IsFrame(frame: ByteArray) {
    |frame| == FrameLength && BitPattern(frame[0]) == FrameStart && BitPattern(frame[FrameLength - 1]) == FrameEnd
  }

  /** `buildColorCommand(r, g, b)`: fails on the same channel, checked in
      the same order, as the `RgbColor` constructor (the exception messages
      are not modelled); otherwise the colour frame. */
  function BuildColorCommand(r: int, g: int, b: int): (res: Result<ByteArray, IllegalArgument>)
    ensures res.Success? <==> InByteRange(r) && InByteRange(g) && InByteRange(b)
    ensures res.Failure? ==> MakeRgbColor(r, g, b) == Failure(res.error)
    ensures res.Success? ==> Unsigned(res.value) == ColorLayout(r, g, b)
  {
    if !InByteRange(r) then Failure(OutOfRange(RedParam, r))
    else if !InByteRange(g) then Failure(OutOfRange(GreenParam, g))
    else if !InByteRange(b) then Failure(OutOfRange(BlueParam, b))
    else
      var frame := [ToByte(0x7E), ToByte(0x00), ToByte(0x05), ToByte(0x03),
                    ToByte(r), ToByte(g), ToByte(b), ToByte(0x00), ToByte(0xEF)];
      KotlinFrame(ColorLayout(r, g, b), frame);
      Success(frame)
  }

  /** `buildColorCommand(rgb)`: a constructed colour is always in range, so
      this overload never fails and agrees with the three-argument one. */
  function BuildColorCommandRgb(rgb: RgbColor): (frame: ByteArray)
    ensures BuildColorCommand(rgb.r, rgb.g, rgb.b) == Success(frame)
    ensures Unsigned(frame) == ColorLayout(rgb.r, rgb.g, rgb.b)
  {
    BuildColorCommand(rgb.r, rgb.g, rgb.b).value
  }

  /** `buildBrightnessCommand(brightness)`. */
  function BuildBrightnessCommand(brightness: int): (res: Result<ByteArray, IllegalArgument>)
    ensures res.Success? <==> InByteRange(brightness)
    ensures res.Failure? ==> res.error == OutOfRange(BrightnessParam, brightness)
    ensures res.Success? ==> Unsigned(res.value) == BrightnessLayout(brightness)
  {
    if !InByteRange(brightness) then Failure(OutOfRange(BrightnessParam, brightness))
    else
      var frame := [ToByte(0x7E), ToByte(0x00), ToByte(0x01), ToByte(brightness),
                    ToByte(brightness), ToByte(0x00), ToByte(0x00), ToByte(0x00), ToByte(0xEF)];
      KotlinFrame(BrightnessLayout(brightness), frame);
      Success(frame)
  }

  function BuildPowerOnCommand(): (frame: ByteArray)
    ensures Unsigned(frame) == PowerOnLayout
  {
    var frame := [ToByte(0x7E), ToByte(0x04), ToByte(0x04), ToByte(0xF0),
                  ToByte(0x00), ToByte(0x01), ToByte(0xFF), ToByte(0x00), ToByte(0xEF)];
    KotlinFrame(PowerOnLayout, frame);
    frame
  }

  function BuildPowerOffCommand(): (frame: ByteArray)
    ensures Unsigned(frame) == PowerOffLayout
  {
    var frame := [ToByte(0x7E), ToByte(0x04), ToByte(0x04), ToByte(0x00),
                  ToByte(0x00), ToByte(0x00), ToByte(0xFF), ToByte(0x00), ToByte(0xEF)];
    KotlinFrame(PowerOffLayout, frame);
    frame
  }

  /** A byte array made by narrowing each wire value with `toByte()` reads
      back as those wire values. */
  lemma {:induction false} KotlinFrame(layout: seq<UInt8>, frame: ByteArray)
    requires |frame| == |layout|
    requires forall i :: 0 <= i < |layout| ==> frame[i] == ToByte(layout[i])
    ensures Unsigned(frame) == layout
  {
    forall i | 0 <= i < |layout|
      ensures Unsigned(frame)[i] == layout[i]
    {
      ByteRoundTrip(layout[i]);
    }
  }

  /** Every frame the builder produces is 9 bytes from 0x7E to 0xEF. */
  lemma AllFramesHaveEnvelope(r: int, g: int, b: int, v: int)
    ensures BuildColorCommand(r, g, b).Success? ==> IsFrame(BuildColorCommand(r, g, b).value)
    ensures BuildBrightnessCommand(v).Success? ==> IsFrame(BuildBrightnessCommand(v).value)
    ensures IsFrame(BuildPowerOnCommand()) && IsFrame(BuildPowerOffCommand())
  {
  }

  /** The two power frames differ only at indices 3 and 5. */
  lemma PowerFramesDifferAt3And5()
    ensures |BuildPowerOnCommand()| == |BuildPowerOffCommand()| == FrameLength
    ensures forall i :: 0 <= i < FrameLength ==>
      (BuildPowerOnCommand()[i] != BuildPowerOffCommand()[i] <==> i == 3 || i == 5)
  {
  }

  /** Equal colour frames come from equal channels. */
  lemma ColorCommandInjective(r1: int, g1: int, b1: int, r2: int, g2: int, b2: int)
    requires BuildColorCommand(r1, g1, b1).Success? && BuildColorCommand(r2, g2, b2).Success?
    requires BuildColorCommand(r1, g1, b1).value == BuildColorCommand(r2, g2, b2).value
    ensures r1 == r2 && g1 == g2 && b1 == b2
  {
  }

  /** Equal brightness frames come from equal levels. */
  lemma BrightnessCommandInjective(v1: int, v2: int)
    requires BuildBrightnessCommand(v1).Success? && BuildBrightnessCommand(v2).Success?
    requires BuildBrightnessCommand(v1).value == BuildBrightnessCommand(v2).value
    ensures v1 == v2
  {
  }
}
