/**
  The Blog page: the post list narrowed by a case-insensitive search over
  title and excerpt, each entry linking to its post's route.
 */
module Blog {
  import opened Common
  import opened Sequences

  datatype Post = Post(
    slug: string,
    title: string,
    date: string,
    content: string,
    image: Option<string>,
    tags: Option<seq<string>>,
    excerpt: string)

  /** The `blog` section of the settings document. */
  datatype BlogConfig = BlogConfig(
    pageTitle: Option<string>,
    pageSubtitle: Option<string>,
    posts: Option<seq<Post>>)

  /**
    `(settings.blog || {}).posts || []`, which is also what
    `settings.blog?.posts || []` gives on the post page.
   */
  function PostsOf(blog: Option<BlogConfig>): (r: seq<Post>)
    ensures blog.None? || blog.value.posts.None? ==> r == []
    ensures blog.Some? && blog.value.posts.Some? ==> r == blog.value.posts.value
  {
    if blog.None? then [] else OrList(blog.value.posts, [])
  }

  /**
    `post.title.toLowerCase().includes(term.toLowerCase()) ||
     post.excerpt.toLowerCase().includes(term.toLowerCase())`.
   */
  predicate MatchesSearch(post: Post, term: string) {
    Contains(ToLower(post.title), ToLower(term)) || Contains(ToLower(post.excerpt), ToLower(term))
  }

  /** `posts.filter(post => MatchesSearch(post, searchTerm))`. */
  function FilteredPosts(posts: seq<Post>, term: string): (r: seq<Post>)
    ensures IsSubsequence(r, posts)
    ensures forall p :: p in r <==> p in posts && MatchesSearch(p, term)
  {
    FilterIsSubsequence(posts, p => MatchesSearch(p, term));
    forall p ensures p in Filter(posts, p => MatchesSearch(p, term)) <==> p in posts && MatchesSearch(p, term) {
      FilterMembership(posts, p => MatchesSearch(p, term), p);
    }
    Filter(posts, p => MatchesSearch(p, term))
  }

  /** Each matching post is listed as often as it occurs, the others never. */
  lemma FilteredPostsCount(posts: seq<Post>, term: string, p: Post)
    ensures multiset(FilteredPosts(posts, term))[p] ==
      if MatchesSearch(p, term) then multiset(posts)[p] else 0
  {
    FilterCount(posts, q => MatchesSearch(q, term), p);
  }

  /** The empty search box lists every post. */
  lemma EmptySearchKeepsAll(posts: seq<Post>)
    ensures FilteredPosts(posts, "") == posts
  {
    forall k | 0 <= k < |posts|
      ensures MatchesSearch(posts[k], "")
    {
      ContainsEmpty(ToLower(posts[k].title));
    }
    FilterKeepsAll(posts, p => MatchesSearch(p, ""));
  }

  /** A post matching a longer term also matches every part of it. */
  lemma MatchesSearchNarrowing(post: Post, term: string, longer: string)
    requires Contains(longer, term)
    requires MatchesSearch(post, longer)
    ensures MatchesSearch(post, term)
  {
    ContainsLower(longer, term);
    if Contains(ToLower(post.title), ToLower(longer)) {
      ContainsTransitive(ToLower(post.title), ToLower(longer), ToLower(term));
    } else {
      ContainsTransitive(ToLower(post.excerpt), ToLower(longer), ToLower(term));
    }
  }

  /**
    Typing more narrows the list: when `term` occurs in `longer`, the posts
    found for `longer` are a subsequence of those found for `term`.
   */
  lemma SearchNarrowing(posts: seq<Post>, term: string, longer: string)
    requires Contains(longer, term)
    ensures IsSubsequence(FilteredPosts(posts, longer), FilteredPosts(posts, term))
  {
    forall k | 0 <= k < |posts| && MatchesSearch(posts[k], longer)
      ensures MatchesSearch(posts[k], term)
    {
      MatchesSearchNarrowing(posts[k], term, longer);
    }
    FilterMonotone(posts, p => MatchesSearch(p, longer), p => MatchesSearch(p, term));
  }

  /** Searching for a post's own title, in any ASCII case, lists that post. */
  lemma SearchByTitleFindsPost(posts: seq<Post>, p: Post)
    requires p in posts
    ensures p in FilteredPosts(posts, p.title) && p in FilteredPosts(posts, ToLower(p.title))
  {
    ContainsSelf(ToLower(p.title));
    ToLowerIdempotent(p.title);
  }

  /** Searching ignores ASCII case in the term. */
  lemma SearchIgnoresCase(posts: seq<Post>, term: string)
    ensures FilteredPosts(posts, ToLower(term)) == FilteredPosts(posts, term)
  {
    ToLowerIdempotent(term);
    FilterCongruent(posts, p => MatchesSearch(p, ToLower(term)), p => MatchesSearch(p, term));
  }

  const BlogRoute: string := "/blog/"

  /** The link of a listed post: `/blog/${post.slug}`. */
  function PostHref(slug: string): (r: string)
    ensures |r| == |BlogRoute| + |slug|
    ensures r[..|BlogRoute|] == BlogRoute && r[|BlogRoute|..] == slug
  {
    BlogRoute + slug
  }

  /** The links of the listed posts, one per listed post, in order. */
  function ListedHrefs(posts: seq<Post>, term: string): (r: seq<string>)
    ensures |r| == |FilteredPosts(posts, term)|
    ensures forall k :: 0 <= k < |r| ==> r[k] == PostHref(FilteredPosts(posts, term)[k].slug)
  {
    var shown := FilteredPosts(posts, term);
    seq(|shown|, k requires 0 <= k < |shown| => PostHref(shown[k].slug))
  }

  /** "No blog posts found." is shown exactly when the filtered list is empty. */
  predicate ShowsNoPostsMessage(posts: seq<Post>, term: string) {
    |FilteredPosts(posts, term)| == 0
  }

  /** Without a configured post list the page shows only the empty message. */
  lemma MissingPostsShowsNoPostsMessage(blog: Option<BlogConfig>, term: string)
    requires blog.None? || blog.value.posts.None?
    ensures PostsOf(blog) == [] && ShowsNoPostsMessage(PostsOf(blog), term)
  {
  }

  /** The state cell `searchTerm`, starting empty. */
  class SearchBox {
    var searchTerm: string

    constructor ()
      ensures searchTerm == ""
    {
      searchTerm := "";
    }

    /** The input's `onChange`: the term becomes the typed value. */
    method Input(value: string)
      modifies this
      ensures searchTerm == value
    {
      searchTerm := value;
    }
  }
}
