/** Image URLs for the server-rendered site. A URL builder exists only when the
    content store client does; a request accumulates the source and the
    requested dimensions, and the URL itself is an abstract rendering of the
    finished request. */
module ImageUrls {
  import opened Wrappers
  import Content
  import Sanity

  /** `imageUrlBuilder(sanityClient)`, modelled by the client it was made from. */
  datatype ImageBuilder = ImageBuilder(client: Sanity.ClientConfig)

  /** `builder.image(source)` with the dimensions set on it so far. */
  datatype ImageUrlRequest = ImageUrlRequest(
    builder: ImageBuilder,
    source: Content.SanityImage,
    width: Option<int>,
    height: Option<int>)
  {
    /** `.width(w)` */
    function Width(w: int): ImageUrlRequest { this.(width := Some(w)) }

    /** `.height(h)` */
    function Height(h: int): ImageUrlRequest { this.(height := Some(h)) }
  }

  /** `.url()`: the URL the image service would serve for a request. */
  type UrlRenderer = ImageUrlRequest -> string

  /** A numeric argument is truthy when it is given and not zero. */
  predicate Truthy(n: Option<int>) {
    n.Some? && n.value != 0
  }

  /** The module-level builder: present exactly when the client is. */
  function Builder(client: Option<Sanity.ClientConfig>): (b: Option<ImageBuilder>)
    ensures b.Some? <==> client.Some?
    ensures b.Some? ==> b.value.client == client.value
  {
    if client.Some? then Some(ImageBuilder(client.value)) else None
  }

  /** With the store unconfigured there is no builder, so no image ever has a URL request. */
  lemma UnconfiguredHasNoImages(env: Sanity.Environment, source: Option<Content.SanityImage>)
    ensures UrlForImage(Builder(Sanity.SanityClient(env)), source).None? <==>
      !Sanity.IsSanityConfigured(env) || source.None?
  {
  }

  /** `urlForImage(source)`: no request without a builder or without a source;
      otherwise a request for the source with no dimensions set. */
  function UrlForImage(builder: Option<ImageBuilder>, source: Option<Content.SanityImage>): (r: Option<ImageUrlRequest>)
    ensures r.None? <==> builder.None? || source.None?
    ensures r.Some? ==> r.value == ImageUrlRequest(builder.value, source.value, None, None)
  {
    if builder.None? || source.None? then None
    else Some(ImageUrlRequest(builder.value, source.value, None, None))
  }

  /** `getImageUrl(source, width, height)` as evidently intended, with each
      setter's result kept (`urlBuilder = urlBuilder.width(width)`): the URL of
      the request that asks for exactly the truthy dimensions, or none when
      `urlForImage` gives none. The code as written is `GetImageUrlAsWritten`. */
  method GetImageUrl(
    builder: Option<ImageBuilder>, source: Option<Content.SanityImage>,
    width: Option<int>, height: Option<int>, url: UrlRenderer)
    returns (r: Option<string>)
    ensures r.None? <==> UrlForImage(builder, source).None?
    ensures r.Some? ==> r.value == url(ImageUrlRequest(builder.value, source.value,
      if Truthy(width) then width else None,
      if Truthy(height) then height else None))
  {
    var urlBuilder := UrlForImage(builder, source);
    if urlBuilder.None? {
      return None;
    }
    var request := urlBuilder.value;
    if Truthy(width) {
      request := request.Width(width.value);
    }
    if Truthy(height) {
      request := request.Height(height.value);
    }
    r := Some(url(request));
  }

  datatype ResponsiveUrls = ResponsiveUrls(
    small: Option<string>,
    medium: Option<string>,
    large: Option<string>,
    original: Option<string>)

  /** `getResponsiveImageUrls(source)`: nothing for an absent source; otherwise
      widths 640, 1024 and 1920 and the original size, each absent when there
      is no builder. */
  method GetResponsiveImageUrls(builder: Option<ImageBuilder>, source: Option<Content.SanityImage>, url: UrlRenderer)
    returns (r: Option<ResponsiveUrls>)
    ensures r.None? <==> source.None?
    ensures r.Some? && builder.None? ==>
      r.value == ResponsiveUrls(None, None, None, None)
    ensures r.Some? && builder.Some? ==>
      && r.value.small == Some(url(ImageUrlRequest(builder.value, source.value, Some(640), None)))
      && r.value.medium == Some(url(ImageUrlRequest(builder.value, source.value, Some(1024), None)))
      && r.value.large == Some(url(ImageUrlRequest(builder.value, source.value, Some(1920), None)))
      && r.value.original == Some(url(ImageUrlRequest(builder.value, source.value, None, None)))
  {
    if source.None? {
      return None;
    }
    var small := GetImageUrl(builder, source, Some(640), None, url);
    var medium := GetImageUrl(builder, source, Some(1024), None, url);
    var large := GetImageUrl(builder, source, Some(1920), None, url);
    var original := GetImageUrl(builder, source, None, None, url);
    r := Some(ResponsiveUrls(small, medium, large, original));
  }

  // ---------------------------------------------------------------------
  // The code as written: `urlBuilder.width(width)` and
  // `urlBuilder.height(height)` are called for their effect, but a setter of
  // the image URL builder returns a new builder and leaves its receiver as it
  // was. The dimensions are therefore lost.

  /** `getImageUrl` with the setters' results dropped: the URL of the unsized
      request, whatever the width and height. */
  method GetImageUrlAsWritten(
    builder: Option<ImageBuilder>, source: Option<Content.SanityImage>,
    width: Option<int>, height: Option<int>, url: UrlRenderer)
    returns (r: Option<string>)
    ensures r.None? <==> UrlForImage(builder, source).None?
    ensures r.Some? ==> r.value == url(ImageUrlRequest(builder.value, source.value, None, None))
  {
    var urlBuilder := UrlForImage(builder, source);
    if urlBuilder.None? {
      return None;
    }
    if Truthy(width) {
      var discarded := urlBuilder.value.Width(width.value);
    }
    if Truthy(height) {
      var discarded := urlBuilder.value.Height(height.value);
    }
    r := Some(url(urlBuilder.value));
  }

  /** `getResponsiveImageUrls` over the code as written: with a builder, the
      small, medium, large and original URLs are one and the same. */
  method GetResponsiveImageUrlsAsWritten(builder: Option<ImageBuilder>, source: Option<Content.SanityImage>, url: UrlRenderer)
    returns (r: Option<ResponsiveUrls>)
    ensures r.None? <==> source.None?
    ensures r.Some? && builder.None? ==>
      r.value == ResponsiveUrls(None, None, None, None)
    ensures r.Some? && builder.Some? ==>
      var unsized := Some(url(ImageUrlRequest(builder.value, source.value, None, None)));
      r.value == ResponsiveUrls(unsized, unsized, unsized, unsized)
  {
    if source.None? {
      return None;
    }
    var small := GetImageUrlAsWritten(builder, source, Some(640), None, url);
    var medium := GetImageUrlAsWritten(builder, source, Some(1024), None, url);
    var large := GetImageUrlAsWritten(builder, source, Some(1920), None, url);
    var original := GetImageUrlAsWritten(builder, source, None, None, url);
    r := Some(ResponsiveUrls(small, medium, large, original));
  }
}
