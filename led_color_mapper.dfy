/** `LedColorMapper`: the fixed table from the named colours to RGB. */
module ColorMapper {
  import opened Wrappers
  import opened Rgb

  /** The colour names the UI and the shortcuts offer. */
  datatype LedColor = Red | Blue | Green | Purple | White | Custom

  /** Total lookup; CUSTOM has no colour of its own and falls back to white.
      Every entry is a fully saturated, lit colour. */
  function MapToRgb(color: LedColor): (rgb: RgbColor)
    ensures MakeRgbColor(rgb.r, rgb.g, rgb.b) == Success(rgb)
    ensures rgb.r in {0, 255} && rgb.g in {0, 255} && rgb.b in {0, 255}
    ensures rgb != RgbColor(0, 0, 0)
    ensures color == Custom ==> rgb == RgbColor(255, 255, 255)
  {
    match color
    case Red => RgbColor(255, 0, 0)
    case Blue => RgbColor(0, 0, 255)
    case Green => RgbColor(0, 255, 0)
    case Purple => RgbColor(255, 0, 255)
    case White => RgbColor(255, 255, 255)
    case Custom => RgbColor(255, 255, 255)
  }

  lemma PrimaryColors()
    ensures MapToRgb(Red) == RgbColor(255, 0, 0)
    ensures MapToRgb(Blue) == RgbColor(0, 0, 255)
    ensures MapToRgb(Green) == RgbColor(0, 255, 0)
  {
  }

  lemma MixedColors()
    ensures MapToRgb(Purple) == RgbColor(255, 0, 255)
    ensures MapToRgb(White) == RgbColor(255, 255, 255)
  {
  }

  lemma CustomIsWhite()
    ensures MapToRgb(Custom) == MapToRgb(White)
  {
  }

  /** The five real names map to five different colours. */
  lemma NamedColorsDistinct(c1: LedColor, c2: LedColor)
    requires c1 != Custom && c2 != Custom && c1 != c2
    ensures MapToRgb(c1) != MapToRgb(c2)
  {
  }
}
