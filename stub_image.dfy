/** The image helper of the single-page application, which has no image
    service: it never produces a URL. */
module StubImage {
  import opened Wrappers
  import Content

  /** `getImageUrl(image, _width)`: absent for an absent image, and absent
      for a present one as well. */
  function GetImageUrl(image: Option<Content.SanityImage>, width: Option<int>): (r: Option<string>)
    ensures r.None?
  {
    match image
    case None => None
    case Some(_) => None
  }

  /** The requested width never changes the result. */
  lemma WidthIgnored(image: Option<Content.SanityImage>, w1: Option<int>, w2: Option<int>)
    ensures GetImageUrl(image, w1) == GetImageUrl(image, w2)
  {
  }
}
