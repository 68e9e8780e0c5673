/**
 * `IntrospectImageContext`: the per-render image registry, a shared
 * `Vec<CachedImage>` that `Image` components append to while a page is
 * rendered for introspection.
 */
module ImageRegistry {
  import opened Optimizer

  class IntrospectImageContext {
    /** The keys pushed so far, oldest first. */
    var images: seq<CachedImage>

    /** `IntrospectImageContext::default()`: an empty registry. */
    constructor ()
      ensures images == []
    {
      images := [];
    }

    /** `images.push(key)`: appends one key and keeps every earlier one. */
    method Push(key: CachedImage)
      modifies this
      ensures images == old(images) + [key]
    {
      images := images + [key];
    }
  }
}
