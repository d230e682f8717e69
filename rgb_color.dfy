/** `RgbColor`: an immutable colour whose three channels are checked to lie
    in 0..255 when it is constructed. */
module Rgb {
  import opened Wrappers
  import opened Checks

  type Channel = x: int | 0 <= x <= 255

  /** A constructed colour. Datatype values never change, like the data
      class's `val` fields, and compare component by component. */
  datatype RgbColor = RgbColor(r: Channel, g: Channel, b: Channel)

  /** The data class constructor with its `init` block: red is checked
      first, then green, then blue, and the first failing check throws. */
  function MakeRgbColor(r: int, g: int, b: int): (res: Result<RgbColor, IllegalArgument>)
    ensures res.Success? <==> InByteRange(r) && InByteRange(g) && InByteRange(b)
    ensures res.Success? ==> res.value.r == r && res.value.g == g && res.value.b == b
    ensures !InByteRange(r) ==> res == Failure(OutOfRange(RedParam, r))
    ensures InByteRange(r) && !InByteRange(g) ==> res == Failure(OutOfRange(GreenParam, g))
    ensures InByteRange(r) && InByteRange(g) && !InByteRange(b) ==> res == Failure(OutOfRange(BlueParam, b))
  {
    if !InByteRange(r) then Failure(OutOfRange(RedParam, r))
    else if !InByteRange(g) then Failure(OutOfRange(GreenParam, g))
    else if !InByteRange(b) then Failure(OutOfRange(BlueParam, b))
    else Success(RgbColor(r, g, b))
  }

  /** Every colour that exists passes the constructor's checks and is
      rebuilt from its own components. */
  lemma ConstructedColorIsValid(c: RgbColor)
    ensures InByteRange(c.r) && InByteRange(c.g) && InByteRange(c.b)
    ensures MakeRgbColor(c.r, c.g, c.b) == Success(c)
  {
  }

  /** Data-class equality: two colours are equal iff their components are. */
  lemma RgbColorEquality(x: RgbColor, y: RgbColor)
    ensures x == y <==> x.r == y.r && x.g == y.g && x.b == y.b
  {
  }
}
