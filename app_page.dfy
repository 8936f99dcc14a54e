/** The landing page of the server-rendered site: each section fetches from the
    content store and falls back to a slice of the bundled sample data. */
module AppPage {
  import opened Wrappers
  import opened Sequences
  import opened Selections
  import Content
  import Queries
  import Sanity
  import HomePage

  /** The featured-events fallback: `mockEvents.slice(0, 3)`. */
  function FallbackEvents(mockEvents: seq<Content.Event>): (r: seq<Content.Event>)
    ensures |r| == Min(3, |mockEvents|)
    ensures r == mockEvents[..|r|]
  {
    FirstN(mockEvents, 3)
  }

  /** The featured-posts fallback: the featured posts only, at most three. */
  function FallbackPosts(mockBlog: seq<Content.BlogPost>): (r: seq<Content.BlogPost>)
    ensures |r| <= 3
    ensures IsSubsequence(r, mockBlog)
    ensures forall p :: p in r ==> p.IsFeatured()
    ensures r == [] <==> !HasFeatured(mockBlog)
  {
    var featured := OnlyFeatured(mockBlog);
    FirstNIsSubsequence(featured, 3);
    SubsequenceTransitive(FirstN(featured, 3), featured, mockBlog);
    FirstN(featured, 3)
  }

  /** The events section: what the store returns for the featured-events
      query, or the fallback. */
  function GetFeaturedEvents(
    client: Option<Sanity.ClientConfig>, mockEvents: seq<Content.Event>, store: Sanity.Store<seq<Content.Event>>): (r: seq<Content.Event>)
    ensures r == FallbackEvents(mockEvents)
      || (client.Some? && store(client.value, Queries.FeaturedEventsQuery, Queries.NoParams) == Ok(r))
    ensures client.None? ==> r == FallbackEvents(mockEvents)
    ensures client.Some? && store(client.value, Queries.FeaturedEventsQuery, Queries.NoParams).Ok? ==>
      r == store(client.value, Queries.FeaturedEventsQuery, Queries.NoParams).value
    ensures client.Some? && store(client.value, Queries.FeaturedEventsQuery, Queries.NoParams).Err? ==>
      r == FallbackEvents(mockEvents)
  {
    Sanity.FetchFromSanity(client, Queries.FeaturedEventsQuery, Queries.NoParams, FallbackEvents(mockEvents), store)
  }

  /** The posts section: what the store returns for the featured-posts query,
      or the fallback. */
  function GetFeaturedBlogPosts(
    client: Option<Sanity.ClientConfig>, mockBlog: seq<Content.BlogPost>, store: Sanity.Store<seq<Content.BlogPost>>): (r: seq<Content.BlogPost>)
    ensures r == FallbackPosts(mockBlog)
      || (client.Some? && store(client.value, Queries.FeaturedBlogPostsQuery, Queries.NoParams) == Ok(r))
    ensures client.None? ==> r == FallbackPosts(mockBlog)
    ensures client.Some? && store(client.value, Queries.FeaturedBlogPostsQuery, Queries.NoParams).Ok? ==>
      r == store(client.value, Queries.FeaturedBlogPostsQuery, Queries.NoParams).value
    ensures client.Some? && store(client.value, Queries.FeaturedBlogPostsQuery, Queries.NoParams).Err? ==>
      r == FallbackPosts(mockBlog)
  {
    Sanity.FetchFromSanity(client, Queries.FeaturedBlogPostsQuery, Queries.NoParams, FallbackPosts(mockBlog), store)
  }

  /** Both landing pages take the same three events. */
  lemma EventFallbacksAgree(mockEvents: seq<Content.Event>)
    ensures FallbackEvents(mockEvents) == HomePage.FeaturedEvents(mockEvents)
  {
  }

  /** The two landing pages pick the same posts exactly when some post is
      featured or there are none at all; otherwise the single-page home page
      shows the first posts and this fallback shows nothing. */
  lemma PostPoliciesDiffer(mockBlog: seq<Content.BlogPost>)
    ensures FallbackPosts(mockBlog) == HomePage.FeaturedPosts(mockBlog) <==> mockBlog == [] || HasFeatured(mockBlog)
    ensures mockBlog != [] && !HasFeatured(mockBlog) ==>
      FallbackPosts(mockBlog) == [] && HomePage.FeaturedPosts(mockBlog) == mockBlog[..Min(3, |mockBlog|)]
  {
    if mockBlog != [] && !HasFeatured(mockBlog) {
      assert HomePage.FeaturedPosts(mockBlog) != [];
    }
  }
}
