/** The landing page of the single-page application: it shows a few events and
    a few posts taken from the bundled sample data. */
module HomePage {
  import opened Sequences
  import opened Selections
  import Content

  /** `mockEvents.slice(0, 3)`: the first three events, or all when fewer. */
  function FeaturedEvents(mockEvents: seq<Content.Event>): (r: seq<Content.Event>)
    ensures |r| == Min(3, |mockEvents|)
    ensures r == mockEvents[..|r|]
  {
    FirstN(mockEvents, 3)
  }

  /** The featured posts when at least one is marked featured, otherwise the
      first posts whatever their flag; at most three either way. */
  function FeaturedPosts(mockBlog: seq<Content.BlogPost>): (r: seq<Content.BlogPost>)
    ensures |r| <= 3
    ensures IsSubsequence(r, mockBlog)
    ensures HasFeatured(mockBlog) ==> r == FirstN(OnlyFeatured(mockBlog), 3)
    ensures HasFeatured(mockBlog) ==> forall p :: p in r ==> p.IsFeatured()
    ensures !HasFeatured(mockBlog) ==> r == mockBlog[..Min(3, |mockBlog|)]
    ensures r == [] <==> mockBlog == []
  {
    var featured := OnlyFeatured(mockBlog);
    FirstNIsSubsequence(featured, 3);
    FirstNIsSubsequence(mockBlog, 3);
    SubsequenceTransitive(FirstN(featured, 3), featured, mockBlog);
    if |FirstN(featured, 3)| > 0 then FirstN(featured, 3) else FirstN(mockBlog, 3)
  }
}
