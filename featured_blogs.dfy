/** The featured-posts section (`FeaturedBlogs`): the featured posts, or the first three
    when none is featured. */
module FeaturedBlogs {
  import opened Seqs
  import opened Blogs

  const FallbackCount: nat := 3
  const SkeletonCards: nat := 3

  function Min(a: nat, b: nat): nat {
    if a <= b then a else b
  }

  /** `displayBlogs`. */
  function DisplayBlogs(blogs: seq<Blog>): (r: seq<Blog>)
    ensures (exists i :: 0 <= i < |blogs| && blogs[i].featured) ==> r == GetFeaturedBlogs(blogs)
    ensures (forall i :: 0 <= i < |blogs| ==> !blogs[i].featured) ==> r == blogs[..Min(FallbackCount, |blogs|)]
    ensures blogs != [] ==> r != []
  {
    var featured := GetFeaturedBlogs(blogs);
    SomeFeatured(blogs);
    if |featured| > 0 then featured else blogs[..Min(FallbackCount, |blogs|)]
  }

  /** The featured list is non-empty exactly when some post is featured. */
  lemma SomeFeatured(blogs: seq<Blog>)
    ensures |GetFeaturedBlogs(blogs)| > 0 <==> exists i :: 0 <= i < |blogs| && blogs[i].featured
  {
    FilterCounts(blogs, (b: Blog) => b.featured);
    if exists i :: 0 <= i < |blogs| && blogs[i].featured {
      var i :| 0 <= i < |blogs| && blogs[i].featured;
      assert blogs[i] in GetFeaturedBlogs(blogs);
    }
  }

  /** Whenever something is featured, the section shows exactly the featured posts, in order. */
  lemma DisplaysExactlyFeatured(blogs: seq<Blog>, i: nat)
    requires i < |blogs| && blogs[i].featured
    ensures Selects(DisplayBlogs(blogs), blogs, (b: Blog) => b.featured)
    ensures blogs[i] in DisplayBlogs(blogs)
  {
    FilterCounts(blogs, (b: Blog) => b.featured);
  }

  datatype FeaturedView = Skeletons(count: nat) | Nothing | Cards(blogs: seq<Blog>)

  /** Three skeleton cards while loading; nothing at all when there is nothing to show. */
  function Render(blogs: seq<Blog>, isLoading: bool): (r: FeaturedView)
    ensures isLoading ==> r == Skeletons(SkeletonCards)
    ensures !isLoading && blogs == [] ==> r == Nothing
    ensures !isLoading && blogs != [] ==> r == Cards(DisplayBlogs(blogs)) && r.blogs != []
  {
    if isLoading then Skeletons(SkeletonCards)
    else
      var shown := DisplayBlogs(blogs);
      if |shown| == 0 then Nothing else Cards(shown)
  }
}
