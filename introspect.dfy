/**
 * The introspection crawl: every path is rendered once, in isolation,
 * against a synthetic request, with a fresh image registry and resource
 * loading suppressed; the registries are concatenated in path order.
 *
 * The Leptos runtime is replaced by a `Host` object holding the
 * thread-wide `suppress_resource_load` flag and a trace of the observable
 * effects (hook calls, flag switches, renders). The application is an
 * abstract function from a request URL to the `Image` props its page
 * instantiates, in render order.
 */
module Introspect {
  import opened Wrappers
  import opened Optimizer
  import opened ImageRegistry
  import opened Image

  /** The application: its page for each request URL, and the placeholder cache it provides, if any. */
  datatype App = App(pages: string -> seq<ImageProps>, cache: Option<ImageCache>)

  /** A `before_mount`/`after_mount` closure: a no-op, or one whose call is observable. */
  datatype Hook = NoOp | Callback(name: string)

  datatype Event =
    | HookRan(name: string)
    | SuppressResourceLoad(on: bool)
    | Rendered(url: string, suppressed: bool)

  /** One entry of the route list; only its path is used. */
  datatype RouteListing = RouteListing(path: string)

  const Origin: string := "http://leptos.dev"

  /** The URL of the synthetic request for a path. */
  function RequestUrl(path: string): string
  {
    Origin + path
  }

  /** Distinct paths are rendered against distinct requests. */
  lemma RequestUrlInjective(path1: string, path2: string)
    requires RequestUrl(path1) == RequestUrl(path2)
    ensures path1 == path2
  {
    assert path1 == RequestUrl(path1)[|Origin|..];
    assert path2 == RequestUrl(path2)[|Origin|..];
  }

  function HookTrace(h: Hook): seq<Event>
  {
    match h
    case NoOp => []
    case Callback(name) => [HookRan(name)]
  }

  /** The effects of one pass: before hook, suppression on, render, suppression off, after hook. */
  function PassTrace(url: string, before: Hook, after: Hook): seq<Event>
  {
    HookTrace(before) + [SuppressResourceLoad(true), Rendered(url, true), SuppressResourceLoad(false)] + HookTrace(after)
  }

  function CrawlTrace(paths: seq<string>, before: Hook, after: Hook): seq<Event>
  {
    if paths == [] then [] else PassTrace(RequestUrl(paths[0]), before, after) + CrawlTrace(paths[1..], before, after)
  }

  /** The keys the given `Image` instances register, in render order. */
  function PropsImages(props: seq<ImageProps>): seq<CachedImage>
  {
    if props == [] then [] else Registrations(props[0]) + PropsImages(props[1..])
  }

  /** The keys a page registers when rendered against a request URL. */
  function PageImages(app: App, url: string): seq<CachedImage>
  {
    PropsImages(app.pages(url))
  }

  /** The crawl's result: each path's registry contents, in path order, duplicates kept. */
  function CrawlImages(app: App, paths: seq<string>): seq<CachedImage>
  {
    if paths == [] then [] else PageImages(app, RequestUrl(paths[0])) + CrawlImages(app, paths[1..])
  }

  /** The request URLs of the given paths, in order. */
  function RequestUrls(paths: seq<string>): (urls: seq<string>)
    ensures |urls| == |paths|
    ensures forall i :: 0 <= i < |paths| ==> urls[i] == RequestUrl(paths[i])
  {
    if paths == [] then [] else [RequestUrl(paths[0])] + RequestUrls(paths[1..])
  }

  /** The URLs rendered in a trace, in order. */
  function RenderedUrls(trace: seq<Event>): seq<string>
  {
    if trace == [] then []
    else (if trace[0].Rendered? then [trace[0].url] else []) + RenderedUrls(trace[1..])
  }

  /** The paths of a route list, in route-list order. */
  function RoutePaths(routes: seq<RouteListing>): (paths: seq<string>)
    ensures |paths| == |routes|
    ensures forall i :: 0 <= i < |routes| ==> paths[i] == routes[i].path
  {
    if routes == [] then [] else [routes[0].path] + RoutePaths(routes[1..])
  }

  function Sum(counts: seq<nat>): nat
  {
    if counts == [] then 0 else counts[0] + Sum(counts[1..])
  }

  /** How many keys each path's render registers. */
  function PageCounts(app: App, paths: seq<string>): (counts: seq<nat>)
    ensures |counts| == |paths|
  {
    seq(|paths|, i requires 0 <= i < |paths| => |PageImages(app, RequestUrl(paths[i]))|)
  }

  lemma {:induction false} PropsImagesAppend(props1: seq<ImageProps>, props2: seq<ImageProps>)
    ensures PropsImages(props1 + props2) == PropsImages(props1) + PropsImages(props2)
  {
    if props1 != [] {
      assert (props1 + props2)[0] == props1[0];
      assert (props1 + props2)[1..] == props1[1..] + props2;
      PropsImagesAppend(props1[1..], props2);
      assert PropsImages(props1 + props2) == Registrations(props1[0]) + PropsImages(props1[1..] + props2);
    } else {
      assert props1 + props2 == props2;
    }
  }

  /** Rendering one more `Image` appends exactly its own keys. */
  lemma PropsImagesSnoc(props: seq<ImageProps>, j: nat)
    requires j < |props|
    ensures PropsImages(props[..j + 1]) == PropsImages(props[..j]) + Registrations(props[j])
  {
    assert props[..j + 1] == props[..j] + [props[j]];
    PropsImagesAppend(props[..j], [props[j]]);
    assert PropsImages([props[j]]) == Registrations(props[j]) + PropsImages([]);
  }

  /** A key is registered by a page exactly when one of its `Image`s registers it. */
  lemma {:induction false} PropsImagesMember(props: seq<ImageProps>, key: CachedImage)
    ensures key in PropsImages(props) <==> exists j :: 0 <= j < |props| && key in Registrations(props[j])
  {
    if props != [] {
      PropsImagesMember(props[1..], key);
      if key in PropsImages(props[1..]) {
        var j :| 0 <= j < |props[1..]| && key in Registrations(props[1..][j]);
        assert key in Registrations(props[j + 1]);
      }
      if exists j :: 0 <= j < |props| && key in Registrations(props[j]) {
        var j :| 0 <= j < |props| && key in Registrations(props[j]);
        if j > 0 {
          assert key in Registrations(props[1..][j - 1]);
        }
      }
    }
  }

  lemma {:induction false} CrawlImagesAppend(app: App, paths1: seq<string>, paths2: seq<string>)
    ensures CrawlImages(app, paths1 + paths2) == CrawlImages(app, paths1) + CrawlImages(app, paths2)
  {
    if paths1 != [] {
      assert (paths1 + paths2)[0] == paths1[0];
      assert (paths1 + paths2)[1..] == paths1[1..] + paths2;
      CrawlImagesAppend(app, paths1[1..], paths2);
      assert CrawlImages(app, paths1 + paths2) ==
        PageImages(app, RequestUrl(paths1[0])) + CrawlImages(app, paths1[1..] + paths2);
    } else {
      assert paths1 + paths2 == paths2;
    }
  }

  lemma {:induction false} CrawlTraceAppend(paths1: seq<string>, paths2: seq<string>, before: Hook, after: Hook)
    ensures CrawlTrace(paths1 + paths2, before, after) == CrawlTrace(paths1, before, after) + CrawlTrace(paths2, before, after)
  {
    if paths1 != [] {
      assert (paths1 + paths2)[0] == paths1[0];
      assert (paths1 + paths2)[1..] == paths1[1..] + paths2;
      CrawlTraceAppend(paths1[1..], paths2, before, after);
      assert CrawlTrace(paths1 + paths2, before, after) ==
        PassTrace(RequestUrl(paths1[0]), before, after) + CrawlTrace(paths1[1..] + paths2, before, after);
    } else {
      assert paths1 + paths2 == paths2;
    }
  }

  /** Crawling one more path appends exactly that path's keys and pass trace. */
  lemma CrawlSnoc(app: App, paths: seq<string>, i: nat, before: Hook, after: Hook)
    requires i < |paths|
    ensures CrawlImages(app, paths[..i + 1]) == CrawlImages(app, paths[..i]) + PageImages(app, RequestUrl(paths[i]))
    ensures CrawlTrace(paths[..i + 1], before, after) ==
      CrawlTrace(paths[..i], before, after) + PassTrace(RequestUrl(paths[i]), before, after)
  {
    assert paths[..i + 1] == paths[..i] + [paths[i]];
    CrawlImagesAppend(app, paths[..i], [paths[i]]);
    CrawlTraceAppend(paths[..i], [paths[i]], before, after);
    assert CrawlImages(app, [paths[i]]) == PageImages(app, RequestUrl(paths[i])) + CrawlImages(app, []);
    assert CrawlTrace([paths[i]], before, after) == PassTrace(RequestUrl(paths[i]), before, after) + CrawlTrace([], before, after);
  }

  /**
   * Isolation: the part of the result contributed by path `i` is exactly
   * what that path's own render registers, whatever comes before or after.
   */
  lemma CrawlImagesAt(app: App, paths: seq<string>, i: nat)
    requires i < |paths|
    ensures CrawlImages(app, paths) ==
      CrawlImages(app, paths[..i]) + PageImages(app, RequestUrl(paths[i])) + CrawlImages(app, paths[i + 1..])
  {
    assert paths == paths[..i] + ([paths[i]] + paths[i + 1..]);
    CrawlImagesAppend(app, paths[..i], [paths[i]] + paths[i + 1..]);
    assert ([paths[i]] + paths[i + 1..])[1..] == paths[i + 1..];
  }

  /** The result's length is the sum of the per-path counts. */
  lemma {:induction false} CrawlImagesLength(app: App, paths: seq<string>)
    ensures |CrawlImages(app, paths)| == Sum(PageCounts(app, paths))
  {
    if paths != [] {
      CrawlImagesLength(app, paths[1..]);
      assert PageCounts(app, paths)[1..] == PageCounts(app, paths[1..]);
    }
  }

  /** Nothing is deduplicated: a path crawled twice contributes its keys twice. */
  lemma DuplicatesKept(app: App, path: string)
    ensures CrawlImages(app, [path, path]) == PageImages(app, RequestUrl(path)) + PageImages(app, RequestUrl(path))
  {
    assert [path, path][1..] == [path];
    assert [path][1..] == [];
    assert CrawlImages(app, [path]) == PageImages(app, RequestUrl(path)) + CrawlImages(app, []);
  }

  /** A key is in the result exactly when some path's render registers it. */
  lemma {:induction false} CrawlImagesMember(app: App, paths: seq<string>, key: CachedImage)
    ensures key in CrawlImages(app, paths) <==>
      exists i :: 0 <= i < |paths| && key in PageImages(app, RequestUrl(paths[i]))
  {
    if paths != [] {
      CrawlImagesMember(app, paths[1..], key);
      if key in CrawlImages(app, paths[1..]) {
        var i :| 0 <= i < |paths[1..]| && key in PageImages(app, RequestUrl(paths[1..][i]));
        assert key in PageImages(app, RequestUrl(paths[i + 1]));
      }
      if exists i :: 0 <= i < |paths| && key in PageImages(app, RequestUrl(paths[i])) {
        var i :| 0 <= i < |paths| && key in PageImages(app, RequestUrl(paths[i]));
        if i > 0 {
          assert key in PageImages(app, RequestUrl(paths[1..][i - 1]));
        }
      }
    }
  }

  /**
   * Every collected key has a site-local source and is either a resize
   * key or the fixed blur key.
   */
  lemma CrawlImagesLocal(app: App, paths: seq<string>, key: CachedImage)
    requires key in CrawlImages(app, paths)
    ensures !IsExternal(key.src)
    ensures key.option.Resize? || key == BlurKey(key.src)
  {
    CrawlImagesMember(app, paths, key);
    var i :| 0 <= i < |paths| && key in PageImages(app, RequestUrl(paths[i]));
    PropsImagesMember(app.pages(RequestUrl(paths[i])), key);
  }

  lemma {:induction false} RenderedUrlsAppend(trace1: seq<Event>, trace2: seq<Event>)
    ensures RenderedUrls(trace1 + trace2) == RenderedUrls(trace1) + RenderedUrls(trace2)
  {
    if trace1 != [] {
      assert (trace1 + trace2)[0] == trace1[0];
      assert (trace1 + trace2)[1..] == trace1[1..] + trace2;
      RenderedUrlsAppend(trace1[1..], trace2);
    } else {
      assert trace1 + trace2 == trace2;
    }
  }

  lemma HookRendersNothing(h: Hook)
    ensures RenderedUrls(HookTrace(h)) == []
  {
  }

  /** The crawl renders each path exactly once, in order, against its request URL. */
  lemma {:induction false} CrawlRendersEachPath(paths: seq<string>, before: Hook, after: Hook)
    ensures RenderedUrls(CrawlTrace(paths, before, after)) == RequestUrls(paths)
  {
    if paths != [] {
      var url := RequestUrl(paths[0]);
      var middle := [SuppressResourceLoad(true), Rendered(url, true), SuppressResourceLoad(false)];
      RenderedUrlsAppend(HookTrace(before) + middle + HookTrace(after), CrawlTrace(paths[1..], before, after));
      RenderedUrlsAppend(HookTrace(before) + middle, HookTrace(after));
      RenderedUrlsAppend(HookTrace(before), middle);
      HookRendersNothing(before);
      HookRendersNothing(after);
      assert RenderedUrls(middle) == [url] by {
        assert middle[1..][1..][1..] == [];
        assert RenderedUrls(middle[1..][1..]) == RenderedUrls(middle[1..][1..][1..]);
        assert RenderedUrls(middle[1..]) == [url] + RenderedUrls(middle[1..][1..]);
      }
      CrawlRendersEachPath(paths[1..], before, after);
    }
  }

  /** Every render of the crawl runs with resource loading suppressed. */
  lemma {:induction false} CrawlRendersSuppressed(paths: seq<string>, before: Hook, after: Hook, e: Event)
    requires e in CrawlTrace(paths, before, after) && e.Rendered?
    ensures e.suppressed
  {
    if paths != [] {
      if e !in PassTrace(RequestUrl(paths[0]), before, after) {
        CrawlRendersSuppressed(paths[1..], before, after, e);
      }
    }
  }

  /**
   * Crawl and serve use the same keys: once a cache holds every blur key
   * the crawl collected, each blurred local `Image` on a crawled page
   * finds its placeholder in that cache and embeds it.
   */
  lemma WarmCacheEmbeds(app: App, paths: seq<string>, i: nat, j: nat, cache: ImageCache, enc: Encoders)
    requires i < |paths| && j < |app.pages(RequestUrl(paths[i]))|
    requires app.pages(RequestUrl(paths[i]))[j].blur && !IsExternal(app.pages(RequestUrl(paths[i]))[j].src)
    requires forall key :: key in CrawlImages(app, paths) && key.option.Blur? ==> key in cache
    ensures BlurKey(app.pages(RequestUrl(paths[i]))[j].src) in cache
    ensures Placeholder(app.pages(RequestUrl(paths[i]))[j].src, Some(cache), enc) ==
      InMemory(cache[BlurKey(app.pages(RequestUrl(paths[i]))[j].src)])
  {
    var props := app.pages(RequestUrl(paths[i]));
    var key := BlurKey(props[j].src);
    assert key == Registrations(props[j])[1];
    PropsImagesMember(props, key);
    CrawlImagesMember(app, paths, key);
  }

  /** A two-route site whose home page shows one blurred image. */
  lemma HeroExample()
    ensures var hero := ImageProps("hero.png", 600, 800, 75, true, false, "", "");
      var app := App((url: string) => if url == RequestUrl("/") then [hero] else [], None);
      CrawlImages(app, ["/", "/about"]) ==
        [CachedImage("hero.png", Resize(75, 800, 600)), CachedImage("hero.png", Blur(25, 25, 100, 100, 15))]
  {
    var hero := ImageProps("hero.png", 600, 800, 75, true, false, "", "");
    var app := App((url: string) => if url == RequestUrl("/") then [hero] else [], None);
    assert "hero.png"[..4][1] == 'e';
    assert RequestUrl("/about") != RequestUrl("/") by {
      assert RequestUrl("/about")[|Origin| + 1] == 'a';
      assert |RequestUrl("/")| == |Origin| + 1;
    }
    assert ["/", "/about"][1..] == ["/about"];
    assert ["/about"][1..] == [];
    assert [hero][1..] == [];
  }

  lemma AppendAssoc<T>(a: seq<T>, b: seq<T>, c: seq<T>)
    ensures a + (b + c) == (a + b) + c
  {
  }

  /** Leptos' thread-wide state as the crawl sees it, with a trace of observable effects. */
  class Host {
    var suppressResourceLoad: bool
    var trace: seq<Event>

    /** `leptos::suppress_resource_load(on)`. */
    method SetSuppressResourceLoad(on: bool)
      modifies this
      ensures suppressResourceLoad == on
      ensures trace == old(trace) + [SuppressResourceLoad(on)]
    {
      suppressResourceLoad := on;
      trace := trace + [SuppressResourceLoad(on)];
    }

    /** Calls a hook closure. */
    method RunHook(h: Hook)
      modifies this
      ensures suppressResourceLoad == old(suppressResourceLoad)
      ensures trace == old(trace) + HookTrace(h)
    {
      match h
      case NoOp =>
      case Callback(name) => trace := trace + [HookRan(name)];
    }
  }

  /**
   * `_ = app_fn(cx).into_view(cx)`: renders the page for `url`, each
   * `Image` in turn against the registry and the application's cache. The
   * crawl discards the view, so none is returned.
   */
  method RenderApp(host: Host, app: App, url: string, registry: IntrospectImageContext, enc: Encoders)
    modifies host, registry
    ensures registry.images == old(registry.images) + PageImages(app, url)
    ensures host.suppressResourceLoad == old(host.suppressResourceLoad)
    ensures host.trace == old(host.trace) + [Rendered(url, old(host.suppressResourceLoad))]
  {
    var props := app.pages(url);
    ghost var registered := registry.images;
    var j := 0;
    while j < |props|
      invariant 0 <= j <= |props|
      invariant registry.images == registered + PropsImages(props[..j])
      invariant unchanged(host)
    {
      var _ := RenderImage(props[j], registry, app.cache, enc);
      PropsImagesSnoc(props, j);
      AppendAssoc(registered, PropsImages(props[..j]), Registrations(props[j]));
      j := j + 1;
    }
    assert props[..j] == props;
    host.trace := host.trace + [Rendered(url, host.suppressResourceLoad)];
  }

  /**
   * One isolated pass: a fresh empty registry, the hooks around a
   * suppressed render of the path's request, the view discarded and the
   * registry's contents returned.
   */
  method RunPass(host: Host, app: App, path: string, before: Hook, after: Hook, enc: Encoders)
    returns (images: seq<CachedImage>)
    modifies host
    ensures images == PageImages(app, RequestUrl(path))
    ensures !host.suppressResourceLoad
    ensures host.trace == old(host.trace) + PassTrace(RequestUrl(path), before, after)
  {
    var url := RequestUrl(path);
    var context := new IntrospectImageContext();
    host.RunHook(before);
    host.SetSuppressResourceLoad(true);
    RenderApp(host, app, url, context, enc);
    host.SetSuppressResourceLoad(false);
    host.RunHook(after);
    images := context.images;
  }

  /** `find_app_images_from_paths`: one pass per path, results concatenated in path order. */
  method FindAppImagesFromPaths(host: Host, app: App, paths: seq<string>, before: Hook, after: Hook, enc: Encoders)
    returns (images: seq<CachedImage>)
    modifies host
    ensures images == CrawlImages(app, paths)
    ensures host.trace == old(host.trace) + CrawlTrace(paths, before, after)
    ensures host.suppressResourceLoad == if paths == [] then old(host.suppressResourceLoad) else false
  {
    ghost var trace0 := host.trace;
    images := [];
    var i := 0;
    while i < |paths|
      invariant 0 <= i <= |paths|
      invariant images == CrawlImages(app, paths[..i])
      invariant host.trace == trace0 + CrawlTrace(paths[..i], before, after)
      invariant i > 0 ==> !host.suppressResourceLoad
      invariant i == 0 ==> host.suppressResourceLoad == old(host.suppressResourceLoad)
    {
      ghost var done := CrawlTrace(paths[..i], before, after);
      var pathImages := RunPass(host, app, paths[i], before, after, enc);
      CrawlSnoc(app, paths, i, before, after);
      AppendAssoc(trace0, done, PassTrace(RequestUrl(paths[i]), before, after));
      images := images + pathImages;
      i := i + 1;
    }
    assert paths[..i] == paths;
  }

  /** `find_app_images_with_mount`: crawls the route list's paths in route-list order. */
  method FindAppImagesWithMount(host: Host, app: App, routes: seq<RouteListing>, before: Hook, after: Hook, enc: Encoders)
    returns (images: seq<CachedImage>)
    modifies host
    ensures images == CrawlImages(app, RoutePaths(routes))
    ensures host.trace == old(host.trace) + CrawlTrace(RoutePaths(routes), before, after)
    ensures host.suppressResourceLoad == if routes == [] then old(host.suppressResourceLoad) else false
  {
    var paths := RoutePaths(routes);
    images := FindAppImagesFromPaths(host, app, paths, before, after, enc);
  }

  /** `find_app_images`: the same crawl with no-op hooks. */
  method FindAppImages(host: Host, app: App, routes: seq<RouteListing>, enc: Encoders)
    returns (images: seq<CachedImage>)
    modifies host
    ensures images == CrawlImages(app, RoutePaths(routes))
    ensures host.trace == old(host.trace) + CrawlTrace(RoutePaths(routes), NoOp, NoOp)
    ensures host.suppressResourceLoad == if routes == [] then old(host.suppressResourceLoad) else false
  {
    images := FindAppImagesWithMount(host, app, routes, NoOp, NoOp, enc);
  }
}
