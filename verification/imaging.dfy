/**
 * Bitmaps as the server holds them after decoding: a width, a height and the
 * pixels in row-major order. Decoding, encoding and resampling belong to the
 * imaging library and are not part of this model.
 */
module Imaging {

  newtype byte = x: int | 0 <= x < 256

  datatype Rgb = Rgb(r: byte, g: byte, b: byte)

  datatype Rgba = Rgba(r: byte, g: byte, b: byte, a: byte)

  datatype RgbImage = RgbImage(width: nat, height: nat, pixels: seq<Rgb>)

  datatype RgbaImage = RgbaImage(width: nat, height: nat, pixels: seq<Rgba>)

  const Transparent := Rgba(0, 0, 0, 0)

  /** One pixel of `image.convert('RGBA')` on an RGB image: the colour kept, fully opaque. */
  function Opaque(p: Rgb): Rgba {
    Rgba(p.r, p.g, p.b, 255)
  }

  /** `image.convert('RGBA')` on an RGB image: same size, every pixel kept and fully opaque. */
  function ConvertRgba(image: RgbImage): (r: RgbaImage)
    ensures r.width == image.width && r.height == image.height
    ensures |r.pixels| == |image.pixels|
    ensures forall i :: 0 <= i < |image.pixels| ==>
      r.pixels[i].r == image.pixels[i].r && r.pixels[i].g == image.pixels[i].g
      && r.pixels[i].b == image.pixels[i].b && r.pixels[i].a == 255
  {
    RgbaImage(image.width, image.height, seq(|image.pixels|, i requires 0 <= i < |image.pixels| => Opaque(image.pixels[i])))
  }

  /**
   * `image.convert('RGBA')` followed by `putalpha(mask)` with a 0/255 mask:
   * the colour channels are kept and a pixel is opaque exactly where the mask is set.
   */
  function PutAlpha(image: RgbImage, mask: seq<bool>): (r: RgbaImage)
    requires |mask| == |image.pixels|
    ensures r.width == image.width && r.height == image.height
    ensures |r.pixels| == |image.pixels|
    ensures forall i :: 0 <= i < |r.pixels| ==>
      r.pixels[i].r == image.pixels[i].r && r.pixels[i].g == image.pixels[i].g
      && r.pixels[i].b == image.pixels[i].b
      && (r.pixels[i].a == 255 <==> mask[i]) && (r.pixels[i].a == 0 <==> !mask[i])
  {
    var px := seq(|mask|, i requires 0 <= i < |mask| =>
      var p := image.pixels[i]; Rgba(p.r, p.g, p.b, if mask[i] then 255 else 0));
    RgbaImage(image.width, image.height, px)
  }
}
