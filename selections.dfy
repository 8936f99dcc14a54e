/** Selections over the bundled post list shared by both home pages. */
module Selections {
  import opened Sequences
  import Content

  /** Some post of `posts` is marked featured. */
  ghost predicate HasFeatured(posts: seq<Content.BlogPost>) {
    exists i :: 0 <= i < |posts| && posts[i].IsFeatured()
  }

  /** `posts.filter((post) => post.featured)`. */
  function OnlyFeatured(posts: seq<Content.BlogPost>): (r: seq<Content.BlogPost>)
    ensures IsSubsequence(r, posts)
    ensures forall p :: p in r <==> p in posts && p.IsFeatured()
    ensures forall p :: multiset(r)[p] == if p.IsFeatured() then multiset(posts)[p] else 0
    ensures r == [] <==> !HasFeatured(posts)
    decreases |posts|
  {
    if posts == [] then []
    else
      var rest := OnlyFeatured(posts[1..]);
      assert posts == [posts[0]] + posts[1..];
      assert HasFeatured(posts) <==> posts[0].IsFeatured() || HasFeatured(posts[1..]) by {
        if HasFeatured(posts) {
          var i :| 0 <= i < |posts| && posts[i].IsFeatured();
          if i > 0 { assert posts[1..][i - 1] == posts[i]; }
        }
        if HasFeatured(posts[1..]) {
          var j :| 0 <= j < |posts[1..]| && posts[1..][j].IsFeatured();
          assert posts[j + 1] == posts[1..][j];
        }
      }
      if posts[0].IsFeatured() then [posts[0]] + rest else rest
  }

  /** The first `n` elements of a sequence are a subsequence of it. */
  lemma FirstNIsSubsequence<T>(s: seq<T>, n: nat)
    ensures IsSubsequence(FirstN(s, n), s)
  {
    PrefixIsSubsequence(s, Min(n, |s|));
  }
}
