/** The Hashnode service (`services/hashnode.ts`): turning a parsed GraphQL answer into
    `Blog` records. The HTTP request itself is an input: either it failed (the `catch`
    branch) or it produced a parsed body. */
module Hashnode {
  import opened Wrappers
  import opened Seqs
  import opened Text
  import opened Blogs

  datatype Tag = Tag(name: string, slug: string)

  datatype Cover = Cover(url: string)

  /** A post as the API returns it; `tags` and `coverImage` may be absent. */
  datatype Post = Post(id: string, slug: string, title: string, brief: string,
                       contentHtml: string, coverImage: Option<Cover>, publishedAt: string,
                       readTimeInMinutes: int, tags: Option<seq<Tag>>)

  datatype Edge = Edge(node: Post)

  /** `json.data?.publication?.posts?.edges`, each link possibly missing. */
  datatype PostsConnection = PostsConnection(edges: Option<seq<Edge>>)
  datatype PostsPublication = PostsPublication(posts: Option<PostsConnection>)
  datatype PostsData = PostsData(publication: Option<PostsPublication>)
  datatype PostsResponse = PostsResponse(data: Option<PostsData>)

  /** `json.data?.publication?.post`. */
  datatype PostPublication = PostPublication(post: Option<Post>)
  datatype PostData = PostData(publication: Option<PostPublication>)
  datatype PostResponse = PostResponse(data: Option<PostData>)

  /** What the network call produced: an exception, or a parsed body. */
  datatype Fetched<T> = Failed | Received(body: T)

  const ReadingSuffix: string := " min read"

  /** `node.tags?.map(t => t.name) || []`. */
  function TagNames(tags: Option<seq<Tag>>): (r: seq<string>)
    ensures tags.None? ==> r == []
    ensures tags.Some? ==> |r| == |tags.value|
                           && forall i :: 0 <= i < |r| ==> r[i] == tags.value[i].name
  {
    match tags
    case None => []
    case Some(ts) => seq(|ts|, i requires 0 <= i < |ts| => ts[i].name)
  }

  /** `node.tags?.some(t => t.name.toLowerCase() === 'featured') || false`. */
  predicate HasFeaturedTag(tags: Option<seq<Tag>>)
  {
    tags.Some? && exists i :: 0 <= i < |tags.value| && Lower(tags.value[i].name) == "featured"
  }

  /** `${node.readTimeInMinutes} min read` for a whole number of minutes. */
  function ReadingTime(minutes: int): (r: string)
    ensures EndsWith(r, ReadingSuffix)
  {
    var r := IntToDecimal(minutes) + ReadingSuffix;
    assert r[|r| - |ReadingSuffix|..] == ReadingSuffix;
    r
  }

  /** `mapHashnodePostToBlog`. */
  function MapPostToBlog(p: Post): (r: Blog)
    ensures r.id == p.id && r.slug == p.slug && r.title == p.title
    ensures r.subtitle == Some(p.brief) && r.excerpt == p.brief
    ensures r.content == p.contentHtml && r.publishDate == p.publishedAt
    ensures r.tags == TagNames(p.tags)
    ensures r.readingTime == ReadingTime(p.readTimeInMinutes)
    ensures r.featured <==> HasFeaturedTag(p.tags)
    ensures r.coverImage.Some? <==> p.coverImage.Some? && p.coverImage.value.url != ""
    ensures r.coverImage.Some? ==> r.coverImage.value == p.coverImage.value.url
  {
    Blog(p.id, p.slug, p.title, Some(p.brief), p.brief, p.contentHtml, TagNames(p.tags),
         p.publishedAt, ReadingTime(p.readTimeInMinutes), HasFeaturedTag(p.tags),
         if p.coverImage.Some? && p.coverImage.value.url != "" then Some(p.coverImage.value.url)
         else None)
  }

  /** The reading-time label gives back the minutes: strip the suffix and parse. */
  lemma ReadingTimeRoundTrip(minutes: nat)
    ensures var s := ReadingTime(minutes);
            |s| > |ReadingSuffix| && AllDigits(s[..|s| - |ReadingSuffix|])
            && ParseDecimal(s[..|s| - |ReadingSuffix|]) == minutes
  {
    var s := ReadingTime(minutes);
    assert s[..|s| - |ReadingSuffix|] == NatToDecimal(minutes);
    ParseRendered(minutes);
  }

  /** A tag named "featured" in any letter case marks the post featured. */
  lemma FeaturedTagAnyCase(p: Post, i: nat)
    requires p.tags.Some? && i < |p.tags.value| && Lower(p.tags.value[i].name) == "featured"
    ensures MapPostToBlog(p).featured
    ensures MapPostToBlog(p).tags[i] == p.tags.value[i].name
  {
  }

  /** `data?.publication?.posts?.edges`: the edge list, when every link of the chain is present. */
  function Edges(resp: PostsResponse): (r: Option<seq<Edge>>)
    ensures r.Some? <==> resp.data.Some? && resp.data.value.publication.Some?
                         && resp.data.value.publication.value.posts.Some?
                         && resp.data.value.publication.value.posts.value.edges.Some?
    ensures r.Some? ==> r.value == resp.data.value.publication.value.posts.value.edges.value
  {
    match resp.data
    case None => None
    case Some(d) =>
      match d.publication
      case None => None
      case Some(pub) =>
        match pub.posts
        case None => None
        case Some(conn) => conn.edges
  }

  /** `edges.map(({ node }) => mapHashnodePostToBlog(node))`. */
  function MapEdges(es: seq<Edge>): (r: seq<Blog>)
    ensures |r| == |es|
    ensures forall i :: 0 <= i < |es| ==> r[i] == MapPostToBlog(es[i].node)
  {
    seq(|es|, i requires 0 <= i < |es| => MapPostToBlog(es[i].node))
  }

  /** `fetchHashnodePosts`: the posts in response order; `[]` on failure or missing edges. */
  function FetchPosts(f: Fetched<PostsResponse>): (r: seq<Blog>)
    ensures f.Failed? ==> r == []
    ensures f.Received? && Edges(f.body).None? ==> r == []
    ensures f.Received? && Edges(f.body).Some? ==> r == MapEdges(Edges(f.body).value)
  {
    match f
    case Failed => []
    case Received(resp) =>
      match Edges(resp)
      case None => []
      case Some(es) => MapEdges(es)
  }

  /** `data?.publication?.post`: the post, when every link of the chain is present. */
  function SinglePost(resp: PostResponse): (r: Option<Post>)
    ensures r.Some? <==> resp.data.Some? && resp.data.value.publication.Some?
                         && resp.data.value.publication.value.post.Some?
    ensures r.Some? ==> r.value == resp.data.value.publication.value.post.value
  {
    match resp.data
    case None => None
    case Some(d) =>
      match d.publication
      case None => None
      case Some(pub) => pub.post
  }

  /** `fetchHashnodePost`: the mapped post, or `null` on failure or a missing post. */
  function FetchPost(f: Fetched<PostResponse>): (r: Option<Blog>)
    ensures f.Failed? ==> r.None?
    ensures f.Received? ==> (r.Some? <==> SinglePost(f.body).Some?)
    ensures r.Some? ==> r.value == MapPostToBlog(SinglePost(f.body).value)
  {
    match f
    case Failed => None
    case Received(resp) =>
      match SinglePost(resp)
      case None => None
      case Some(p) => Some(MapPostToBlog(p))
  }

  /** The fetched list keeps every post's slug in place. */
  lemma SlugsKept(es: seq<Edge>)
    ensures forall i :: 0 <= i < |es| ==> MapEdges(es)[i].slug == es[i].node.slug
  {
  }

  /** Looking a slug up in the fetched list fails exactly when no post has that slug. */
  lemma SlugLookupMisses(es: seq<Edge>, slug: string)
    ensures GetBlogBySlug(MapEdges(es), slug).None? <==> forall i :: 0 <= i < |es| ==> es[i].node.slug != slug
  {
    SlugsKept(es);
  }

  /** Otherwise it finds the first post with that slug. */
  lemma SlugLookupFindsFirst(es: seq<Edge>, slug: string, i: nat)
    requires i < |es| && es[i].node.slug == slug
    requires forall j :: 0 <= j < i ==> es[j].node.slug != slug
    ensures GetBlogBySlug(MapEdges(es), slug) == Some(MapPostToBlog(es[i].node))
  {
    var bs := MapEdges(es);
    SlugsKept(es);
    var r := GetBlogBySlug(bs, slug);
    var k :| 0 <= k < |bs| && bs[k] == r.value && bs[k].slug == slug
             && forall j :: 0 <= j < k ==> bs[j].slug != slug;
    assert bs[k].slug == es[k].node.slug && bs[i].slug == slug;
    assert k == i;
  }
}
