/**
 * The `Image` component and its `CacheImage` child. Leptos' context
 * lookups are replaced by explicit parameters: the introspection registry
 * (present only while the crawl renders a page) and the placeholder cache
 * (present when the application provides it). The rendered markup is
 * reduced to a descriptor `View`.
 */
module Image {
  import opened Wrappers
  import opened Optimizer
  import opened ImageRegistry

  /** The component's props; `className` is the `class` prop. */
  datatype ImageProps = ImageProps(
    src: string,
    height: u32,
    width: u32,
    quality: u8,
    blur: bool,
    priority: bool,
    alt: string,
    className: string)

  const DefaultQuality: u8 := 75

  /** The props as a caller gets them when giving only `src`, `height` and `width`. */
  function WithDefaults(src: string, height: u32, width: u32): ImageProps
  {
    ImageProps(src, height, width, DefaultQuality, false, false, "", "")
  }

  predicate StartsWith(s: string, prefix: string)
  {
    |prefix| <= |s| && s[..|prefix|] == prefix
  }

  /** Sources the component refuses to optimise: a plain prefix test, so `https…` matches too. */
  predicate IsExternal(src: string)
  {
    StartsWith(src, "http")
  }

  /** The full-size key, built from the caller's quality, width and height. */
  function ResizeKey(p: ImageProps): CachedImage
  {
    CachedImage(p.src, Resize(p.quality, p.width, p.height))
  }

  /** The placeholder key, whose parameters are fixed whatever the props say. */
  function BlurKey(src: string): CachedImage
  {
    CachedImage(src, Blur(25, 25, 100, 100, 15))
  }

  /**
   * What one `Image` appends to a registry when one is present: nothing
   * for an external source, else the resize key, then the blur key when
   * `blur` is set.
   */
  function Registrations(p: ImageProps): (r: seq<CachedImage>)
    ensures IsExternal(p.src) ==> r == []
    ensures !IsExternal(p.src) ==> |r| == (if p.blur then 2 else 1)
    ensures !IsExternal(p.src) ==> r[0] == CachedImage(p.src, Resize(p.quality, p.width, p.height))
    ensures !IsExternal(p.src) && p.blur ==> r[1] == CachedImage(p.src, Blur(25, 25, 100, 100, 15))
    ensures forall k :: k in r ==> k.src == p.src && !IsExternal(k.src)
  {
    if IsExternal(p.src) then []
    else [ResizeKey(p)] + (if p.blur then [BlurKey(p.src)] else [])
  }

  /** `SvgImage`: the placeholder, either embedded or fetched by URL. */
  datatype SvgImage = InMemory(svgData: string) | Request(svgUrl: string)

  /**
   * The placeholder choice of a blurred image: the cached SVG when the
   * cache is present and holds the blur key, else the encoded URL of the
   * blur key.
   */
  function Placeholder(src: string, cache: Option<ImageCache>, enc: Encoders): (svg: SvgImage)
    ensures svg.InMemory? <==> cache.Some? && BlurKey(src) in cache.value
    ensures svg.InMemory? ==> svg.svgData == cache.value[BlurKey(src)]
    ensures svg.Request? ==> svg.svgUrl == enc.urlEncoded(BlurKey(src))
  {
    if cache.Some? && BlurKey(src) in cache.value then InMemory(cache.value[BlurKey(src)])
    else Request(enc.urlEncoded(BlurKey(src)))
  }

  const StylePrefix: string :=
    "color:transparent;background-size:cover;background-position:50% 50%;background-repeat:no-repeat;background-image:"

  const DataUrlPrefix: string := "data:image/svg+xml;base64,"

  /** CSS `url('…')` around a target. */
  function CssUrl(target: string): string
  {
    "url('" + target + "')"
  }

  /** The target a placeholder's background points to. */
  function PlaceholderTarget(svg: SvgImage, enc: Encoders): string
  {
    match svg
    case InMemory(data) => DataUrlPrefix + enc.base64(data)
    case Request(url) => url
  }

  /** The `background-image` value of `CacheImage`. */
  function BackgroundImage(svg: SvgImage, enc: Encoders): string
  {
    CssUrl(PlaceholderTarget(svg, enc))
  }

  /** The inline style of `CacheImage` around a background value. */
  function Style(background: string): string
  {
    StylePrefix + background + ";"
  }

  /** Reads the target back out of a CSS `url('…')`; the inverse of `CssUrl`. */
  function CssUrlTarget(css: string): Option<string>
  {
    if 7 <= |css| && css[..5] == "url('" && css[|css| - 2..] == "')" then Some(css[5..|css| - 2])
    else None
  }

  /** Reads the background back out of a style; the inverse of `Style`. */
  function StyleBackground(style: string): Option<string>
  {
    if |StylePrefix| + 1 <= |style| && style[..|StylePrefix|] == StylePrefix && style[|style| - 1] == ';'
    then Some(style[|StylePrefix|..|style| - 1])
    else None
  }

  lemma CssUrlRoundTrip(target: string)
    ensures CssUrlTarget(CssUrl(target)) == Some(target)
  {
  }

  /** A CSS url the parser accepts is exactly the url of what it returns. */
  lemma CssUrlTargetSound(css: string, target: string)
    requires CssUrlTarget(css) == Some(target)
    ensures css == CssUrl(target)
  {
  }

  lemma StyleRoundTrip(background: string)
    ensures StyleBackground(Style(background)) == Some(background)
  {
  }

  /** A style the parser accepts is exactly the style of what it returns. */
  lemma StyleBackgroundSound(style: string, background: string)
    requires StyleBackground(style) == Some(background)
    ensures style == Style(background)
  {
  }

  /** An embedded placeholder shows as a base64 data URL, a fetched one as its own URL. */
  lemma BackgroundTarget(svg: SvgImage, enc: Encoders)
    ensures svg.InMemory? ==>
      CssUrlTarget(BackgroundImage(svg, enc)) == Some(DataUrlPrefix + enc.base64(svg.svgData))
    ensures svg.Request? ==> CssUrlTarget(BackgroundImage(svg, enc)) == Some(svg.svgUrl)
  {
  }

  /** `<Link rel="preload" as_="image" href=…/>`. */
  datatype Preload = Preload(href: string)

  /** The markup an `Image` produces, reduced to what distinguishes it. */
  datatype View =
    | Img(src: string, alt: string, className: string)
    | CacheImg(src: string, alt: string, className: string, style: string, preload: Option<Preload>)

  /**
   * `CacheImage`: the optimised image with the placeholder as its
   * background, preceded by a preload link exactly when `priority` is set.
   */
  function CacheImage(svg: SvgImage, optImage: string, alt: string, className: string, priority: bool, enc: Encoders): (v: View)
    ensures v.CacheImg? && v.src == optImage && v.alt == alt && v.className == className
    ensures v.preload.Some? <==> priority
    ensures v.preload.Some? ==> v.preload.value.href == v.src
    ensures StyleBackground(v.style) == Some(BackgroundImage(svg, enc))
  {
    var style := Style(BackgroundImage(svg, enc));
    CacheImg(optImage, alt, className, style, if priority then Some(Preload(optImage)) else None)
  }

  /** The markup of `Image` for the given props, cache and encoders. */
  function ImageView(p: ImageProps, cache: Option<ImageCache>, enc: Encoders): View
  {
    if IsExternal(p.src) then Img(p.src, p.alt, p.className)
    else if p.blur then
      CacheImage(Placeholder(p.src, cache, enc), enc.urlEncoded(ResizeKey(p)), p.alt, p.className, p.priority, enc)
    else Img(enc.urlEncoded(ResizeKey(p)), p.alt, p.className)
  }

  /**
   * What `Image` renders: a plain `img` with the source unchanged for an
   * external source; a plain `img` at the encoded resize key when `blur`
   * is off; otherwise a `CacheImage` at the encoded resize key with the
   * chosen placeholder as background and a preload link to that same URL
   * exactly when `priority` is set.
   */
  lemma ImageViewSpec(p: ImageProps, cache: Option<ImageCache>, enc: Encoders)
    ensures var v := ImageView(p, cache, enc);
      (IsExternal(p.src) ==> v == Img(p.src, p.alt, p.className)) &&
      (!IsExternal(p.src) ==>
        v.src == enc.urlEncoded(CachedImage(p.src, Resize(p.quality, p.width, p.height))) &&
        v.alt == p.alt && v.className == p.className &&
        (v.CacheImg? <==> p.blur)) &&
      (v.CacheImg? ==>
        StyleBackground(v.style) == Some(BackgroundImage(Placeholder(p.src, cache, enc), enc)) &&
        (v.preload.Some? <==> p.priority) &&
        (v.preload.Some? ==> v.preload.value.href == v.src))
  {
  }

  /** Without `blur` the cache is never consulted: any two caches give the same markup. */
  lemma UnblurredIgnoresCache(p: ImageProps, cache1: Option<ImageCache>, cache2: Option<ImageCache>, enc: Encoders)
    requires !p.blur
    ensures ImageView(p, cache1, enc) == ImageView(p, cache2, enc)
    ensures ImageView(p, cache1, enc).Img?
  {
  }

  /** An external source ignores both the cache and the encoders. */
  lemma ExternalIgnoresCacheAndEncoders(p: ImageProps, cache1: Option<ImageCache>, cache2: Option<ImageCache>,
                                         enc1: Encoders, enc2: Encoders)
    requires IsExternal(p.src)
    ensures ImageView(p, cache1, enc1) == ImageView(p, cache2, enc2) == Img(p.src, p.alt, p.className)
    ensures Registrations(p) == []
  {
  }

  /**
   * A blurred image embeds the cached SVG, base64 encoded, exactly when
   * the cache holds the blur key, and otherwise points at the encoded
   * blur key.
   */
  lemma BlurredPlaceholder(p: ImageProps, cache: Option<ImageCache>, enc: Encoders)
    requires !IsExternal(p.src) && p.blur
    ensures var v := ImageView(p, cache, enc);
      v.CacheImg? &&
      (cache.Some? && BlurKey(p.src) in cache.value ==>
        v.style == Style(CssUrl(DataUrlPrefix + enc.base64(cache.value[BlurKey(p.src)])))) &&
      (!(cache.Some? && BlurKey(p.src) in cache.value) ==>
        v.style == Style(CssUrl(enc.urlEncoded(CachedImage(p.src, Blur(25, 25, 100, 100, 15))))))
  {
  }

  /** With only the required props, an `Image` registers one resize key at quality 75. */
  lemma DefaultRegistration(src: string, height: u32, width: u32, cache: Option<ImageCache>, enc: Encoders)
    requires !IsExternal(src)
    ensures Registrations(WithDefaults(src, height, width)) == [CachedImage(src, Resize(75, width, height))]
    ensures ImageView(WithDefaults(src, height, width), cache, enc).Img?
  {
  }

  /**
   * Renders one `Image`: appends its keys to the registry when one is
   * present and returns its markup, which does not depend on whether a
   * registry is present.
   */
  method RenderImage(p: ImageProps, registry: IntrospectImageContext?, cache: Option<ImageCache>, enc: Encoders)
    returns (v: View)
    modifies registry
    ensures v == ImageView(p, cache, enc)
    ensures registry != null ==> registry.images == old(registry.images) + Registrations(p)
  {
    if IsExternal(p.src) {
      return Img(p.src, p.alt, p.className);
    }
    var blurImage := BlurKey(p.src);
    var optImage := ResizeKey(p);
    if registry != null {
      registry.Push(optImage);
      if p.blur {
        registry.Push(blurImage);
      }
    }
    var placeholderSvg: Option<string> :=
      if cache.Some? && blurImage in cache.value then Some(cache.value[blurImage]) else None;
    var optUrl := enc.urlEncoded(optImage);
    if p.blur {
      var svg := if placeholderSvg.Some? then InMemory(placeholderSvg.value) else Request(enc.urlEncoded(blurImage));
      v := CacheImage(svg, optUrl, p.alt, p.className, p.priority, enc);
    } else {
      v := Img(optUrl, p.alt, p.className);
    }
  }
}
