/**
 * The article lists of src/pages/BlogPage.tsx: the category filter, the
 * featured post picked from all posts, the non-featured posts, and the
 * grid, which shows the filtered posts without the featured ones.
 */
module BlogPage {
  import opened Wrappers
  import Seqs

  const ALL := "all"

  datatype Post = Post(title: string, category: string, featured: bool)

  /** The six posts, in page order; only the first is featured. */
  function Posts(): (posts: seq<Post>)
    ensures |posts| == 6
  {
    [ Post("The Future of Human-Centered AI", "AI Research", true),
      Post("Building Empathetic AI Systems", "AI Research", false),
      Post("The Ethics of AI Development", "Ethics", false),
      Post("Designing Intuitive AI Interfaces", "Design", false),
      Post("AI in Everyday Life: A User Study", "Research", false),
      Post("The Technology Behind Humanbo", "Technology", false) ]
  }

  /** The category buttons. */
  function Categories(): (categories: seq<string>)
    ensures |categories| == 6 && categories[0] == ALL
  {
    [ALL, "AI Research", "Ethics", "Design", "Research", "Technology"]
  }

  predicate IsFeatured(post: Post) { post.featured }
  predicate IsRegular(post: Post) { !post.featured }

  /** `filteredPosts`: every post for "all", else those of the selected category, in page order. */
  function FilteredPosts(posts: seq<Post>, selected: string): (shown: seq<Post>)
    ensures selected == ALL ==> shown == posts
    ensures selected != ALL ==> forall i | 0 <= i < |shown| :: shown[i] in posts && shown[i].category == selected
    ensures selected != ALL ==> forall i | 0 <= i < |posts| :: posts[i].category == selected ==> posts[i] in shown
    ensures Seqs.IsSubsequence(shown, posts)
    ensures forall p {:trigger multiset(shown)[p]} :: multiset(shown)[p] == if selected == ALL || p.category == selected then multiset(posts)[p] else 0
  {
    if selected == ALL then Seqs.SubsequenceOfItself(posts); posts
    else
      Seqs.FilterIsSubsequence(posts, (p: Post) => p.category == selected);
      Seqs.FilterCount(posts, (p: Post) => p.category == selected);
      Seqs.Filter(posts, (p: Post) => p.category == selected)
  }

  /** `featuredPost`: the first featured post of all posts, whatever the category. */
  function FeaturedPost(posts: seq<Post>): (featured: Option<Post>)
    ensures featured.None? <==> forall i | 0 <= i < |posts| :: !posts[i].featured
    ensures featured.Some? ==> exists k | 0 <= k < |posts| ::
              posts[k] == featured.value && posts[k].featured && forall j | 0 <= j < k :: !posts[j].featured
  {
    Seqs.Find(posts, IsFeatured)
  }

  /** `regularPosts`: the posts that are not featured, in page order. */
  function RegularPosts(posts: seq<Post>): (regular: seq<Post>)
    ensures forall i | 0 <= i < |regular| :: regular[i] in posts && !regular[i].featured
    ensures forall i | 0 <= i < |posts| :: !posts[i].featured ==> posts[i] in regular
    ensures Seqs.IsSubsequence(regular, posts)
  {
    Seqs.FilterIsSubsequence(posts, IsRegular);
    Seqs.Filter(posts, IsRegular)
  }

  /** The featured posts and the regular posts split the list: together they hold every post exactly once. */
  lemma FeaturedAndRegularPartition(posts: seq<Post>)
    ensures multiset(Seqs.Filter(posts, IsFeatured)) + multiset(RegularPosts(posts)) == multiset(posts)
    ensures |Seqs.Filter(posts, IsFeatured)| + |RegularPosts(posts)| == |posts|
  {
    Seqs.FilterPartition(posts, IsFeatured, IsRegular);
  }

  /** The article grid: the filtered posts without the featured ones. */
  function GridPosts(posts: seq<Post>, selected: string): (grid: seq<Post>)
    ensures forall i | 0 <= i < |grid| :: grid[i] in FilteredPosts(posts, selected) && !grid[i].featured
    ensures forall p | p in FilteredPosts(posts, selected) && !p.featured :: p in grid
  {
    var filtered := FilteredPosts(posts, selected);
    var grid := Seqs.Filter(filtered, IsRegular);
    assert forall p | p in filtered && !p.featured :: p in grid by {
      forall p | p in filtered && !p.featured ensures p in grid {
        var i :| 0 <= i < |filtered| && filtered[i] == p;
      }
    }
    grid
  }

  /** Under "all", the grid is exactly the regular posts. */
  lemma GridForAllIsRegular(posts: seq<Post>)
    ensures GridPosts(posts, ALL) == RegularPosts(posts)
  {
  }

  /** Under a category, the grid is exactly the regular posts of that category, in page order. */
  lemma GridForCategory(posts: seq<Post>, selected: string)
    requires selected != ALL
    ensures GridPosts(posts, selected) == Seqs.Filter(posts, (p: Post) => p.category == selected && !p.featured)
  {
    Seqs.FilterTwice(posts, (p: Post) => p.category == selected, IsRegular,
                     (p: Post) => p.category == selected && !p.featured);
  }

  /** The page's data features its first post. */
  lemma FirstPostIsFeatured()
    ensures FeaturedPost(Posts()) == Some(Posts()[0])
  {
  }

  /** The "No articles found" message: shown when the category has no post at all, and then the grid is empty too. */
  function ShowsNoArticles(posts: seq<Post>, selected: string): (empty: bool)
    ensures empty <==> FilteredPosts(posts, selected) == []
    ensures empty ==> GridPosts(posts, selected) == []
  {
    |FilteredPosts(posts, selected)| == 0
  }

  /**
   * "No articles found" depends on the filtered list alone: where every
   * filtered post is featured, the grid is empty and the message is still
   * not shown.
   */
  lemma EmptyGridWithoutEmptyState(posts: seq<Post>, selected: string)
    requires FilteredPosts(posts, selected) != []
    requires forall i | 0 <= i < |FilteredPosts(posts, selected)| :: FilteredPosts(posts, selected)[i].featured
    ensures GridPosts(posts, selected) == []
    ensures !ShowsNoArticles(posts, selected)
  {
    Seqs.FilterRejectsAll(FilteredPosts(posts, selected), IsRegular);
  }
}
