# leptos_image: image registration and the introspection crawl

This project models, in Dafny, the server-side core of the `leptos_image`
crate:

- the `Image` component (`src/image.rs`). It passes external sources (any
  `src` starting with `http`) through unoptimised. It builds the two cache keys of an image: the
  resize key from the caller's quality, width and height, and the blur key
  with fixed parameters. When an introspection registry is present, it
  appends the resize key to it, then the blur key when `blur` is set. It picks the placeholder: the cached SVG when the
  placeholder cache holds the blur key, else the blur key's encoded URL. It
  then renders a plain `img` or a `CacheImage` with an inline background
  style and, when `priority` is set, a preload link;
- the crawl of `src/introspect.rs`. `find_app_images_from_paths` renders
  every path once against the request `http://leptos.dev<path>`. Each pass
  has a fresh empty registry, runs the hooks around a render with
  resource loading suppressed, and discards the view. The registries are
  concatenated in path order, duplicates kept. `find_app_images_with_mount`
  feeds it the route list's paths, and `find_app_images` does the same
  with no-op hooks.

Leptos' context lookups become explicit parameters: the registry, an
optional placeholder cache, and a `Host` object. `Host` holds the
thread-wide `suppress_resource_load` flag and a trace of observable effects
(hook calls, flag switches, renders). The application is a function from a
request URL to the `Image` props its page instantiates, in render order. The
key encoder (`get_url_encoded`) and base64 are opaque function values. The
model assumes nothing about them except that they are deterministic
functions.

Files: `wrappers.dfy` (Option), `optimizer.dfy` (cache key types and
encoders), `registry.dfy` (the per-render registry), `image.dfy` (the
component), `introspect.dfy` (the crawl).

The model follows the code as written, which matters in four places:
- The crawl does not deduplicate. It concatenates each path's registry
  contents, so an image on two pages, or twice on one page, appears more
  than once.
- The suppression flag is one thread-wide toggle, switched on before each
  render and off after it. It is not a per-render field.
- There is no error path. A render either completes or panics, and a panic
  aborts the whole crawl. Nothing is merged from a failed render because
  there is no failed render to merge.
- These files do no route filtering. Every path the route list holds is
  crawled literally, parameterised patterns such as `/post/:id` included.
  Whether the route list generator leaves any route out is outside this
  model.

Two behaviours of the code are worth knowing:
- `priority` only has an effect when `blur` is set. An unblurred image is a
  plain `img` with no preload link (`src/image.rs:95-96`).
- `quality` is a `u8` and is not clamped to 0-100.

## Model

| member | source | states |
|---|---|---|
| Image.Registrations | src/image.rs:32-70 | an external `src` registers nothing; otherwise exactly the resize key (caller's quality, width, height) and then, iff `blur`, the blur key `Blur(25, 25, 100, 100, 15)`, all with the same local `src` |
| Image.DefaultRegistration | src/image.rs:22-26 | with only `src`, `height` and `width` given, the registered key is `Resize(75, width, height)` and the output is a plain `img`, for any cache and any encoders |
| Image.Placeholder | src/image.rs:74-93 | the placeholder is `InMemory(p)` exactly when a cache is present and maps the blur key to `p`; otherwise it is `Request` of the encoded blur key |
| Image.CssUrlRoundTrip | src/image.rs:117-125 | reading the target back out of `url('…')` gives the original target |
| Image.CssUrlTargetSound | src/image.rs:117-125 | anything the `url('…')` reader accepts is exactly `url('` + target + `')` |
| Image.StyleRoundTrip | src/image.rs:126-128 | reading the background back out of the style gives the original background |
| Image.StyleBackgroundSound | src/image.rs:126-128 | anything the style reader accepts is exactly the fixed prefix, the background and `;` |
| Image.BackgroundTarget | src/image.rs:117-125 | an in-memory placeholder is shown as `data:image/svg+xml;base64,` + base64 of the SVG; a requested one as its own URL |
| Image.CacheImage | src/image.rs:105-178 | the `img` shows the optimised URL with the given alt and class; its style carries the placeholder background; a preload link is present iff `priority`, and its `href` is the `img` source |
| Image.ImageViewSpec | src/image.rs:32-97 | external `src`: plain `img` with `src` unchanged; otherwise the source is the encoded resize key, and the output is a `CacheImage` iff `blur`, with the placeholder background and a preload link iff `priority` |
| Image.UnblurredIgnoresCache | src/image.rs:83-96 | without `blur` the output is a plain `img` and is the same for any two caches, even one holding the blur key |
| Image.ExternalIgnoresCacheAndEncoders | src/image.rs:32-35 | an external `src` gives the same plain `img` for any cache and any encoders, and registers nothing |
| Image.BlurredPlaceholder | src/image.rs:74-94 | a blurred local image's style embeds the base64 of the cached SVG on a cache hit, and points at the encoded blur key on a miss |
| Image.RenderImage | src/image.rs:13-98 | the output is the component's markup whether or not a registry is present; a present registry gets exactly the image's registrations appended, earlier entries unchanged |
| ImageRegistry.IntrospectImageContext.constructor | src/introspect.rs:45-47 | a new registry is empty |
| ImageRegistry.IntrospectImageContext.Push | src/image.rs:65-69 | a push appends one key and keeps the earlier ones |
| Introspect.RequestUrlInjective | src/introspect.rs:71 | distinct paths are rendered against distinct request URLs |
| Introspect.RequestUrls | src/introspect.rs:69-71 | path `i` is rendered against `http://leptos.dev` + path `i`, one URL per path, in order |
| Introspect.RoutePaths | src/introspect.rs:31-35 | the paths are the route list's paths, one per route, in route-list order |
| Introspect.PropsImagesAppend | src/image.rs:64-70 | the keys registered by two runs of images are those of the first followed by those of the second |
| Introspect.PropsImagesSnoc | src/image.rs:64-70 | rendering one more `Image` appends exactly its own registrations |
| Introspect.PropsImagesMember | src/image.rs:64-70 | a key is registered by a page iff one of its `Image`s registers it |
| Introspect.CrawlImagesAppend | src/introspect.rs:69-100 | crawling two path lists one after the other gives the concatenation of their results |
| Introspect.CrawlTraceAppend | src/introspect.rs:69-100 | the effects of crawling two path lists are the effects of the first followed by those of the second |
| Introspect.CrawlSnoc | src/introspect.rs:69-100 | crawling one more path appends exactly that path's keys and that path's pass effects |
| Introspect.CrawlImagesAt | src/introspect.rs:85-95 | path `i`'s part of the result is exactly what its own render registered, whatever the other paths are |
| Introspect.CrawlImagesLength | src/introspect.rs:69-100 | the result's length is the sum of the per-path counts |
| Introspect.DuplicatesKept | src/introspect.rs:99-100 | a path crawled twice contributes its keys twice; nothing is deduplicated |
| Introspect.CrawlImagesMember | src/introspect.rs:69-100 | a key is in the result iff some path's render registered it |
| Introspect.CrawlImagesLocal | src/image.rs:32-59 | every collected key has a local (non-`http`) source and is a resize key or the fixed blur key |
| Introspect.CrawlRendersEachPath | src/introspect.rs:69-92 | the crawl renders each path exactly once, in path order, against its request URL |
| Introspect.CrawlRendersSuppressed | src/introspect.rs:88-92 | every render of the crawl runs with resource loading suppressed |
| Introspect.WarmCacheEmbeds | src/image.rs:64-93 | once a cache holds every blur key the crawl collected, every blurred local image on a crawled page embeds its cached placeholder |
| Introspect.HeroExample | src/introspect.rs:69-100 | a site with `/` showing one blurred `hero.png` and an image-less `/about` yields the resize key and then the blur key of `hero.png` |
| Introspect.Host.SetSuppressResourceLoad | src/introspect.rs:89-91 | switching the flag sets it and records the switch |
| Introspect.Host.RunHook | src/introspect.rs:88-92 | calling a hook records its call (none for a no-op) and leaves the flag unchanged |
| Introspect.RenderApp | src/introspect.rs:90 | a render records one render of the URL under the current flag and appends the page's registrations to the registry |
| Introspect.RunPass | src/introspect.rs:72-97 | one pass returns exactly the page's registrations from a fresh registry; its effects are before hook, suppression on, suppressed render of the request URL, suppression off, after hook; the flag ends off |
| Introspect.FindAppImagesFromPaths | src/introspect.rs:51-105 | the result is the per-path registrations concatenated in path order; the effects are one pass per path in order; the flag ends off unless there were no paths (an empty list gives an empty result) |
| Introspect.FindAppImagesWithMount | src/introspect.rs:16-43 | crawls the route list's paths in route-list order with the given hooks |
| Introspect.FindAppImages | src/introspect.rs:7-12 | the same crawl with no-op hooks |

## Left out

- The Leptos runtime, scopes, `provide_context`/`use_context`, `run_scope` and `runtime.dispose()`. Registry, cache and suppression flag are explicit parameters.
- Route list generation (`leptos_router::generate_route_list_inner`). It is a foreign call, so the route list is an input. Whether it leaves out any route is not modelled.
- `CachedImage`, `CachedImageOption` and `get_url_encoded` are defined in `src/optimizer.rs`, which is not part of this model. The key is a plain datatype and the encoder an opaque function. The types of the `Blur` fields are assumed to be `u32`.
- Base64 encoding (the standard alphabet of section 4 of RFC 4648) is an opaque function from the SVG text to its encoding.
- Client-side behaviour: the style signal, the `create_effect` load listener that clears the style, the `wasm_bindgen` closure and the node ref. This is UI and event wiring.
- Logging (`debug_warn!`, `log!`, `error!`) and `#[cfg(feature = "ssr")]`. Registration is modelled as compiled in, as on the server.
- Markup generation. The output is a descriptor: a plain `img`, or a `CacheImage` with its style and optional preload link. The `alt` and `class` props are carried through unchanged.
- Introspect.RenderApp: does not return the rendered view, because the crawl discards it.
- The application's page is an abstract list of `Image` props per request URL. Nesting, conditional rendering and other components are not modelled; only the order in which `Image`s render matters.
- Introspect.Host.RunHook: hooks are modelled as observable calls that neither switch `suppress_resource_load` nor change what the application renders. The source's `before_mount` and `after_mount` are arbitrary closures, and `after_mount` runs after the flag is switched off. So "the flag ends off" in `Introspect.RunPass`, `Introspect.FindAppImagesFromPaths`, `Introspect.FindAppImagesWithMount` and `Introspect.FindAppImages` holds only when `after_mount` leaves the flag alone.
- Blur generation and cache warm-up are not in these files. `Introspect.WarmCacheEmbeds` states only what a warmed cache gives the renderer.
