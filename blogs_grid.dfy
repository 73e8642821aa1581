/** The blog grid section (`BlogsGrid`): the non-featured posts, narrowed by the tag
    filter whose selection is the section's one state cell. */
module BlogsGrid {
  import opened Seqs
  import opened Blogs

  const AllTag: string := "all"
  const GridPlaceholders: nat := 6

  /** What a post must satisfy to appear under the given tag. */
  predicate InGrid(b: Blog, activeTag: string)
  {
    !b.featured && (activeTag == AllTag || activeTag in b.tags)
  }

  /** `filteredBlogs`. */
  function GridBlogs(blogs: seq<Blog>, activeTag: string): (r: seq<Blog>)
    ensures activeTag == AllTag ==> Selects(r, blogs, (b: Blog) => !b.featured)
    ensures activeTag != AllTag ==> Selects(r, blogs, (b: Blog) => activeTag in b.tags && !b.featured)
  {
    if activeTag == AllTag then
      FilterSelects(blogs, (b: Blog) => !b.featured);
      Filter(blogs, (b: Blog) => !b.featured)
    else
      FilterSelects(blogs, (b: Blog) => activeTag in b.tags && !b.featured);
      Filter(blogs, (b: Blog) => activeTag in b.tags && !b.featured)
  }

  /** A post is in the grid exactly when it is an input post that is not featured and,
      unless the tag is "all", carries the tag; so no featured post is ever shown. */
  lemma GridMembership(blogs: seq<Blog>, activeTag: string, b: Blog)
    ensures b in GridBlogs(blogs, activeTag) <==> b in blogs && InGrid(b, activeTag)
  {
    if activeTag == AllTag {
      FilterCounts(blogs, (b: Blog) => !b.featured);
    } else {
      FilterCounts(blogs, (b: Blog) => activeTag in b.tags && !b.featured);
    }
  }

  lemma GridMembershipAll(blogs: seq<Blog>, activeTag: string)
    ensures forall b :: b in GridBlogs(blogs, activeTag) <==> b in blogs && InGrid(b, activeTag)
  {
    forall b {
      GridMembership(blogs, activeTag, b);
    }
  }

  /** Each tag's grid is a subsequence of the "all" grid. */
  lemma TagGridWithinAll(blogs: seq<Blog>, activeTag: string)
    ensures IsSubsequence(GridBlogs(blogs, activeTag), GridBlogs(blogs, AllTag))
  {
    if activeTag == AllTag {
      SubsequenceOfSelf(GridBlogs(blogs, AllTag));
    } else {
      FilterMonotone(blogs, (b: Blog) => activeTag in b.tags && !b.featured, (b: Blog) => !b.featured);
    }
  }

  /** The grid is the "all" list of `getBlogsByTag` without its featured posts. */
  lemma GridIsUnfeaturedByTag(blogs: seq<Blog>, activeTag: string, b: Blog)
    requires activeTag != AllTag
    ensures b in GridBlogs(blogs, activeTag) <==> b in GetBlogsByTag(blogs, activeTag) && !b.featured
  {
    GridMembership(blogs, activeTag, b);
  }

  datatype GridView = Placeholders(count: nat) | Cards(blogs: seq<Blog>, emptyState: bool)

  /** The section as rendered: six placeholders while loading, otherwise the cards and the
      empty-state message when there are none. */
  function Render(blogs: seq<Blog>, isLoading: bool, activeTag: string): (r: GridView)
    ensures isLoading <==> r.Placeholders?
    ensures r.Placeholders? ==> r.count == GridPlaceholders
    ensures r.Cards? ==> r.blogs == GridBlogs(blogs, activeTag) && (r.emptyState <==> r.blogs == [])
  {
    if isLoading then Placeholders(GridPlaceholders)
    else
      var shown := GridBlogs(blogs, activeTag);
      Cards(shown, |shown| == 0)
  }

  /** The section's state: the selected filter tag. */
  class Grid {
    var activeTag: string

    constructor ()
      ensures activeTag == AllTag
    {
      activeTag := AllTag;
    }

    /** A tag button click: `setActiveTag(tag.id)`. */
    method SelectTag(tag: string)
      modifies this
      ensures activeTag == tag
    {
      activeTag := tag;
    }

    /** The section under the selected tag: placeholders while loading, otherwise exactly
        the input posts that are not featured and carry the tag (any post under "all"). */
    function View(blogs: seq<Blog>, isLoading: bool): (r: GridView)
      reads this
      ensures isLoading <==> r.Placeholders?
      ensures isLoading ==> r.count == GridPlaceholders
      ensures !isLoading ==> r.Cards? && r.blogs == GridBlogs(blogs, activeTag)
                             && (r.emptyState <==> r.blogs == [])
      ensures !isLoading ==> forall b :: b in r.blogs <==> b in blogs && InGrid(b, activeTag)
    {
      GridMembershipAll(blogs, activeTag);
      Render(blogs, isLoading, activeTag)
    }
  }
}
