/**
 * The cache-key model: a `CachedImage` names one transform of one
 * site-local image. The crate's optimizer module, which defines these
 * types and the key-to-URL encoder, is not part of this model; the key is
 * kept as a plain datatype with structural equality, and the encoders are
 * opaque function values, so nothing is assumed of them beyond being
 * deterministic functions.
 */
module Optimizer {

  /** Rust's `u8`, the type of the `quality` prop. */
  type u8 = x: int | 0 <= x < 0x100

  /** Rust's `u32`, the type of the `width` and `height` props. */
  type u32 = x: int | 0 <= x < 0x1_0000_0000

  /** `CachedImageOption`: a full-size resize, or a tiny blurred placeholder. */
  datatype CachedImageOption =
    | Resize(quality: u8, width: u32, height: u32)
    | Blur(width: u32, height: u32, svgWidth: u32, svgHeight: u32, sigma: u32)

  /** `CachedImage`: the identity of one image variant, used as a map key. */
  datatype CachedImage = CachedImage(src: string, option: CachedImageOption)

  /** The placeholder cache provided as `ImageCacheContext`: key to SVG text. */
  type ImageCache = map<CachedImage, string>

  /**
   * The two encoders the component calls but whose code is outside the
   * model: `CachedImage::get_url_encoded`, and the standard base64 engine
   * of the `base64` crate (the alphabet of section 4 of RFC 4648) applied
   * to the bytes of a string.
   */
  datatype Encoders = Encoders(urlEncoded: CachedImage -> string, base64: string -> string)
}
