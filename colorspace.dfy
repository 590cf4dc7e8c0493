/**
 * The mapping from a decoded frame's colour description (FFmpeg's
 * AVColorSpace and AVColorRange) to the colour space of the SDL texture
 * that displays it. The texture manager and the display share it.
 */
module Colorspace {
  import opened Wrappers

  /** FFmpeg's AVColorSpace (matrix coefficients), in the order of libavutil/pixfmt.h. */
  datatype AvColorSpace =
    | Rgb | Bt709 | Unspecified | Reserved | Fcc | Bt470bg | Smpte170m
    | Smpte240m | Ycgco | Bt2020Ncl | Bt2020Cl | Smpte2085
    | ChromaDerivedNcl | ChromaDerivedCl | Ictcp | IptC2 | YcgcoRe | YcgcoRo

  /** FFmpeg's AVColorRange: JPEG is full range, MPEG is limited range. */
  datatype AvColorRange = RangeUnspecified | RangeMpeg | RangeJpeg

  /** The SDL colour spaces the mapping can produce. */
  datatype SdlColorspace =
    | Jpeg
    | Bt601Limited | Bt601Full
    | Bt709Limited | Bt709Full
    | Bt2020Limited | Bt2020Full

  /** The three YCbCr standards the mapping distinguishes. */
  datatype Standard = Bt601 | Bt709Standard | Bt2020

  /** The standard an FFmpeg colour space belongs to, if the mapping recognises it. */
  function StandardOf(space: AvColorSpace): Option<Standard> {
    match space
    case Bt709 | Rgb => Some(Bt709Standard)
    case Bt470bg | Smpte170m => Some(Bt601)
    case Bt2020Ncl | Bt2020Cl => Some(Bt2020)
    case _ => None
  }

  /** The standard of an SDL colour space other than the JPEG default. */
  function SdlStandard(c: SdlColorspace): Option<Standard> {
    match c
    case Jpeg => None
    case Bt601Limited | Bt601Full => Some(Bt601)
    case Bt709Limited | Bt709Full => Some(Bt709Standard)
    case Bt2020Limited | Bt2020Full => Some(Bt2020)
  }

  predicate IsFullRange(c: SdlColorspace) {
    c == Bt601Full || c == Bt709Full || c == Bt2020Full
  }

  /**
   * The colour space of the texture: a recognised space gives its standard,
   * full range exactly when the frame's range is JPEG; every other space gives
   * JPEG whatever the range.
   */
  function ToSdlColorSpace(space: AvColorSpace, range: AvColorRange): (c: SdlColorspace)
    ensures SdlStandard(c) == StandardOf(space)
    ensures StandardOf(space).Some? ==> (IsFullRange(c) <==> range == RangeJpeg)
    ensures StandardOf(space).None? ==> c == Jpeg
  {
    var fullRange := range == RangeJpeg;
    match space
    case Bt709 | Rgb => if fullRange then Bt709Full else Bt709Limited
    case Bt470bg | Smpte170m => if fullRange then Bt601Full else Bt601Limited
    case Bt2020Ncl | Bt2020Cl => if fullRange then Bt2020Full else Bt2020Limited
    case _ => Jpeg
  }

  /** The mapping is decided by the standard and the full-range flag alone. */
  lemma ColorSpaceDeterminedByStandardAndRange(s1: AvColorSpace, r1: AvColorRange, s2: AvColorSpace, r2: AvColorRange)
    requires StandardOf(s1) == StandardOf(s2)
    requires StandardOf(s1).Some? ==> (r1 == RangeJpeg <==> r2 == RangeJpeg)
    ensures ToSdlColorSpace(s1, r1) == ToSdlColorSpace(s2, r2)
  {
  }
}
