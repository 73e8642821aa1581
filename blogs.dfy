/** The local blog list (`data/blogs.ts`): the `Blog` record shared with the Hashnode
    mapping, the tag list, the six local posts, and the lookups over them. */
module Blogs {
  import opened Wrappers
  import opened Seqs

  datatype Blog = Blog(id: string, slug: string, title: string, subtitle: Option<string>,
                       excerpt: string, content: string, tags: seq<string>,
                       publishDate: string, readingTime: string, featured: bool,
                       coverImage: Option<string>)

  /** The tag filter buttons, by id, in order. */
  const BlogTagIds: seq<string> := ["all", "engineering", "systems", "learning", "career", "tools"]

  /** A local post; its excerpt and HTML body are prose and are not part of the model. */
  function LocalPost(id: string, title: string, subtitle: string, tags: seq<string>, date: string,
                     readingTime: string, featured: bool, cover: Option<string>): Blog
  {
    Blog(id, id, title, Some(subtitle), "", "", tags, date, readingTime, featured, cover)
  }

  const AllBlogs: seq<Blog> := [
    LocalPost("building-systems-that-scale", "Building Systems That Scale",
              "Lessons from designing distributed architectures", ["engineering", "systems"],
              "2024-12-15", "8 min read", true,
              Some("https://images.unsplash.com/photo-1558494949-ef010cbdcc31?w=800&q=80")),
    LocalPost("learning-in-public", "Learning in Public",
              "Why sharing your journey accelerates growth", ["learning", "career"],
              "2024-11-28", "5 min read", true,
              Some("https://images.unsplash.com/photo-1456324504439-367cee3b3c32?w=800&q=80")),
    LocalPost("tool-philosophy", "On Choosing Tools",
              "A framework for technology decisions", ["tools", "engineering"],
              "2024-10-12", "6 min read", true,
              Some("https://images.unsplash.com/photo-1504868584819-f8e8b4b6d7e3?w=800&q=80")),
    LocalPost("debugging-mindset", "The Debugging Mindset",
              "Approaching problems systematically", ["engineering", "learning"],
              "2024-09-20", "5 min read", false, None),
    LocalPost("documentation-as-design", "Documentation as Design",
              "Writing docs before writing code", ["engineering", "tools"],
              "2024-08-15", "4 min read", false, None),
    LocalPost("career-leverage", "Finding Career Leverage",
              "Working smarter in tech", ["career", "learning"],
              "2024-07-08", "4 min read", false, None)
  ]

  /** `getFeaturedBlogs`, over a given list. */
  function GetFeaturedBlogs(bs: seq<Blog>): (r: seq<Blog>)
    ensures Selects(r, bs, (b: Blog) => b.featured)
  {
    FilterSelects(bs, (b: Blog) => b.featured);
    Filter(bs, (b: Blog) => b.featured)
  }

  /** `getBlogBySlug`: the first post with that slug. */
  function GetBlogBySlug(bs: seq<Blog>, slug: string): (r: Option<Blog>)
    ensures r.None? <==> forall i :: 0 <= i < |bs| ==> bs[i].slug != slug
    ensures r.Some? ==> exists i :: 0 <= i < |bs| && bs[i] == r.value && bs[i].slug == slug
                          && forall j :: 0 <= j < i ==> bs[j].slug != slug
  {
    Find(bs, (b: Blog) => b.slug == slug)
  }

  /** `getBlogsByTag`: "all" is the whole list, any other tag keeps the posts carrying it. */
  function GetBlogsByTag(bs: seq<Blog>, tag: string): (r: seq<Blog>)
    ensures tag == "all" ==> r == bs
    ensures tag != "all" ==> Selects(r, bs, (b: Blog) => tag in b.tags)
  {
    if tag == "all" then bs
    else
      FilterSelects(bs, (b: Blog) => tag in b.tags);
      Filter(bs, (b: Blog) => tag in b.tags)
  }

  /** In the local data every slug equals its id, no slug occurs twice, and every tag is
      one of the filter tags other than "all". */
  lemma LocalDataFacts()
    ensures forall i :: 0 <= i < |AllBlogs| ==> AllBlogs[i].slug == AllBlogs[i].id
    ensures forall i, j :: 0 <= i < j < |AllBlogs| ==> AllBlogs[i].slug != AllBlogs[j].slug
    ensures forall i, t :: 0 <= i < |AllBlogs| && t in AllBlogs[i].tags ==>
              t in BlogTagIds && t != "all"
  {
  }

  /** The first three local posts are the featured ones. */
  lemma LocalFeatured()
    ensures GetFeaturedBlogs(AllBlogs) == AllBlogs[..3]
  {
    var p := (b: Blog) => b.featured;
    assert AllBlogs == AllBlogs[..3] + AllBlogs[3..];
    FilterAppend(AllBlogs[..3], AllBlogs[3..], p);
    FilterAll(AllBlogs[..3], p);
    FilterNone(AllBlogs[3..], p);
  }
}
