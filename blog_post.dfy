/**
  The post page at `/blog/:slug`: the first post whose slug equals the route
  parameter, rendered through the Markdown converter, or the not-found view.
  The converter is not part of this model; it is a parameter, and the page
  records every string it hands to it.
 */
module BlogPost {
  import opened Common
  import opened Blog

  /** `posts.find(p => p.slug === slug)`: exact, case-sensitive comparison. */
  function FindPost(posts: seq<Post>, slug: string): (r: Option<Post>)
    ensures r.Some? ==> r.value in posts && r.value.slug == slug
    ensures r.None? <==> forall p :: p in posts ==> p.slug != slug
  {
    if posts == [] then None
    else if posts[0].slug == slug then Some(posts[0])
    else FindPost(posts[1..], slug)
  }

  /**
    The post found is the earliest one with that slug: a later post that
    shares the slug is never shown.
   */
  lemma {:induction false} FindPostEarliest(posts: seq<Post>, slug: string, k: nat)
    requires k < |posts| && posts[k].slug == slug
    requires forall j :: 0 <= j < k ==> posts[j].slug != slug
    ensures FindPost(posts, slug) == Some(posts[k])
  {
    if k > 0 {
      FindPostEarliest(posts[1..], slug, k - 1);
    }
  }

  /** `k` is the index of the earliest post with the slug. */
  predicate FirstWithSlug(posts: seq<Post>, slug: string, k: int) {
    0 <= k < |posts| && posts[k].slug == slug && forall j :: 0 <= j < k ==> posts[j].slug != slug
  }

  /** What the page shows: the article, or the not-found view. */
  datatype Page =
    | NotFound
    | Article(title: string, date: string, image: Option<string>, html: string)

  /** The page together with the inputs the converter received, in order. */
  datatype Rendered = Rendered(page: Page, converterInputs: seq<string>)

  /**
    `BlogPost()`: look the slug up in `settings.blog?.posts || []`; on a miss
    return the not-found view without converting anything, otherwise convert
    exactly the found post's `content`.
   */
  function RenderBlogPost(blog: Option<BlogConfig>, slug: string, convert: string -> string): (r: Rendered)
    ensures r.page.NotFound? <==> forall p :: p in PostsOf(blog) ==> p.slug != slug
    ensures r.page.NotFound? ==> r.converterInputs == []
    ensures r.page.Article? ==>
      exists p :: p in PostsOf(blog) && p.slug == slug &&
        r.converterInputs == [p.content] &&
        r.page == Article(p.title, p.date, p.image, convert(p.content))
    ensures forall k :: FirstWithSlug(PostsOf(blog), slug, k) ==>
      var p := PostsOf(blog)[k];
      r == Rendered(Article(p.title, p.date, p.image, convert(p.content)), [p.content])
  {
    var posts := PostsOf(blog);
    forall k | FirstWithSlug(posts, slug, k)
      ensures FindPost(posts, slug) == Some(posts[k])
    {
      FindPostEarliest(posts, slug, k);
    }
    match FindPost(posts, slug)
    case None => Rendered(NotFound, [])
    case Some(post) =>
      Rendered(Article(post.title, post.date, post.image, convert(post.content)), [post.content])
  }

  /** With no `blog` section, or no `posts` in it, every slug is not found. */
  lemma MissingPostsNotFound(blog: Option<BlogConfig>, slug: string, convert: string -> string)
    requires blog.None? || blog.value.posts.None?
    ensures RenderBlogPost(blog, slug, convert) == Rendered(NotFound, [])
  {
  }

  /**
    A character the URL parser keeps as it is in a path: printable ASCII
    other than `/` and `\` (segment separators), `?` and `#` (they start the
    query or fragment), `%` (an escape) and the characters it percent-encodes
    (`"`, `<`, `>`, `` ` ``, `{`, `}`). Space, tab, line breaks and other
    control characters, and every non-ASCII character, are excluded.
   */
  predicate IsPlainPathChar(c: char) {
    0x21 <= c as int <= 0x7E && c !in "/\\?#%\"<>`{}"
  }

  /**
    A slug that fills the `:slug` segment of `/blog/:slug` as it stands: not
    empty (`/blog/` is the list page), not `.` or `..` (dot segments, which
    the URL parser resolves to `/blog/` and `/`), and made of plain path
    characters only.
   */
  predicate IsRouteSegment(slug: string) {
    && slug != [] && slug != "." && slug != ".."
    && forall i :: 0 <= i < |slug| ==> IsPlainPathChar(slug[i])
  }

  /**
    Dot segments, back-slashes, tabs and percent escapes are not route
    segments; an ordinary slug is.
   */
  lemma RouteSegmentExamples()
    ensures !IsRouteSegment(".") && !IsRouteSegment("..") && !IsRouteSegment("")
    ensures !IsRouteSegment("a\\b") && !IsRouteSegment("a\tb") && !IsRouteSegment("a%2Fb")
    ensures IsRouteSegment("my-first-post") && IsRouteSegment("...")
  {
    assert !IsPlainPathChar("a\\b"[1]);
    assert !IsPlainPathChar("a\tb"[1]);
    assert !IsPlainPathChar("a%2Fb"[1]);
  }

  /**
    Following a link from the Blog page reaches a post with the linked slug;
    when slugs are unique it is the very post that was listed.
   */
  lemma ListedPostResolves(blog: Option<BlogConfig>, term: string, k: nat, convert: string -> string)
    requires k < |FilteredPosts(PostsOf(blog), term)|
    requires IsRouteSegment(FilteredPosts(PostsOf(blog), term)[k].slug)
    ensures var listed := FilteredPosts(PostsOf(blog), term)[k];
      var r := RenderBlogPost(blog, ListedHrefs(PostsOf(blog), term)[k][|BlogRoute|..], convert);
      r.page.Article? &&
      ((forall i, j :: 0 <= i < j < |PostsOf(blog)| ==> PostsOf(blog)[i].slug != PostsOf(blog)[j].slug) ==>
        r.page == Article(listed.title, listed.date, listed.image, convert(listed.content)))
  {
    var posts := PostsOf(blog);
    var listed := FilteredPosts(posts, term)[k];
    assert listed in FilteredPosts(posts, term);
    assert ListedHrefs(posts, term)[k][|BlogRoute|..] == listed.slug;
    var i :| 0 <= i < |posts| && posts[i] == listed;
    if forall i, j :: 0 <= i < j < |posts| ==> posts[i].slug != posts[j].slug {
      FindPostEarliest(posts, listed.slug, i);
    }
  }
}
