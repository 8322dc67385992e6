/** The blog pages: the list of published posts and the detail page of one
    published post with its related posts. */
module BlogViews {
  import opened Common
  import opened Ordering
  import opened Catalogue

  /** `publishedAt` is optional: a published flag does not imply a publication time. */
  datatype BlogPost = BlogPost(
    id: nat, slug: string, title: string, category: Option<Ref>,
    isPublished: bool, publishedAt: Option<int>)

  /** BlogPost: `ordering = ['-published_at']`. Descending order puts NULL first,
      as PostgreSQL does, then the latest publication time. */
  function PostKey(p: BlogPost): Key
  {
    if p.publishedAt.None? then [Num(0), Num(0)] else [Num(1), Num(-p.publishedAt.value)]
  }

  /** Newer posts come first; an undated post precedes every dated one. */
  lemma NewerPostFirst(a: BlogPost, b: BlogPost)
    ensures a.publishedAt.Some? && b.publishedAt.Some? && a.publishedAt.value > b.publishedAt.value
            ==> !KeyLe(PostKey(b), PostKey(a))
    ensures a.publishedAt.None? && b.publishedAt.Some? ==> !KeyLe(PostKey(b), PostKey(a))
  {
  }

  /** A blog category; the model declares no ordering. */
  datatype BlogCategory = BlogCategory(id: nat, slug: string, name: string, isActive: bool)

  /** `BlogListView.get_context_data`: the active categories. With no ordering on
      the model they come in table order, so a table of active categories is
      listed as it stands. */
  function ListCategories(categories: seq<BlogCategory>): (r: seq<BlogCategory>)
    ensures forall c :: c in r <==> c in categories && c.isActive
    ensures (forall c :: c in categories ==> c.isActive) ==> r == categories
  {
    var active := Filter(categories, (c: BlogCategory) => c.isActive);
    if forall c :: c in categories ==> c.isActive then
      FilterAll(categories, (c: BlogCategory) => c.isActive);
      active
    else
      active
  }

  /** `BlogListView.get_queryset` */
  function BlogList(posts: seq<BlogPost>, params: map<string, string>): (r: seq<BlogPost>)
    ensures forall p :: p in r <==>
      (p in posts && p.isPublished && (Get(params, "category", "") == "" || SlugIs(p.category, Get(params, "category", ""))))
    ensures SortedBy(r, PostKey)
    ensures multiset(r) == multiset(Filter(When(posts, Get(params, "category", "") != "",
                (p: BlogPost) => SlugIs(p.category, Get(params, "category", ""))), (p: BlogPost) => p.isPublished))
  {
    var category := Get(params, "category", "");
    var q0 := When(posts, category != "", (p: BlogPost) => SlugIs(p.category, category));
    var q1 := Filter(q0, (p: BlogPost) => p.isPublished);
    SortSorted(q1, PostKey);
    SortPermutes(q1, PostKey);
    Sort(q1, PostKey)
  }

  datatype BlogDetail = BlogDetail(post: BlogPost, relatedPosts: seq<BlogPost>)

  /** `filter(is_published=True, category=post.category).exclude(id=post.id)[:3]`;
      a post without a category is related to the other posts without one. */
  function RelatedPosts(posts: seq<BlogPost>, post: BlogPost): (r: seq<BlogPost>)
    ensures |r| <= 3
    ensures forall p :: p in r ==> p in posts && p.isPublished && RefId(p.category) == RefId(post.category) && p.id != post.id
    ensures multiset(r) <= multiset(Filter(posts, (p: BlogPost) => p.isPublished && RefId(p.category) == RefId(post.category) && p.id != post.id))
    ensures SortedBy(r, PostKey)
    ensures |r| < 3 ==> forall p ::
      (p in posts && p.isPublished && RefId(p.category) == RefId(post.category) && p.id != post.id) ==> p in r
  {
    var cands := Filter(posts, (p: BlogPost) => p.isPublished && RefId(p.category) == RefId(post.category) && p.id != post.id);
    SortSorted(cands, PostKey);
    SortPermutes(cands, PostKey);
    var sorted := Sort(cands, PostKey);
    SortedPrefix(sorted, |Take(sorted, 3)|, PostKey);
    assert sorted == Take(sorted, 3) + sorted[|Take(sorted, 3)|..];
    Take(sorted, 3)
  }

  /** `BlogDetailView`: a post is found by slug among the published posts only. */
  function BlogDetailPage(posts: seq<BlogPost>, slug: string): (r: Lookup<BlogDetail>)
    ensures r.NotFound? <==> forall p :: p in posts ==> !(p.isPublished && p.slug == slug)
    ensures r.Found? ==> r.row.post in posts && r.row.post.isPublished && r.row.post.slug == slug
    ensures r.Found? ==> r.row.relatedPosts == RelatedPosts(posts, r.row.post)
  {
    match GetWhere(posts, (p: BlogPost) => p.isPublished && p.slug == slug)
    case Found(p) => Found(BlogDetail(p, RelatedPosts(posts, p)))
    case NotFound => NotFound
    case MultipleFound => MultipleFound
  }

  /** An unpublished post never has a detail page, whatever its slug. */
  lemma UnpublishedHasNoPage(posts: seq<BlogPost>, p: BlogPost)
    requires p in posts && !p.isPublished
    requires forall q :: q in posts && q.slug == p.slug ==> q == p
    ensures BlogDetailPage(posts, p.slug).NotFound?
  {
  }
}
