/**
 * The blog list page (app/routes/blogs/index.tsx): the loader that maps the
 * content API's posts, the case-insensitive search, the page of nine posts and
 * the search and page state.
 */
module BlogsPage {
  import opened Wrappers
  import opened Types
  import opened Strings
  import opened Lists
  import opened Paging
  import Media
  import Pagination

  const PostsPerPage: nat := 9

  /**
   * One post of the loader's `json.data.map(...)`: the id as text, the image
   * resolved against the media host, the other fields copied.
   */
  function TransformPost(item: StrapiPost): (r: Post)
    ensures r.id == TextId(DecimalString(item.id))
    ensures r.title == item.title && r.slug == item.slug && r.excerpt == item.excerpt
    ensures r.date == item.date && r.body == Some(item.body) && r.author == None
    ensures r.image == Media.ResolveMediaUrl(item.image)
  {
    Post(
      id := TextId(DecimalString(item.id)),
      title := item.title,
      slug := item.slug,
      date := item.date,
      excerpt := item.excerpt,
      author := None,
      image := Media.ResolveMediaUrl(item.image),
      body := Some(item.body))
  }

  /**
   * The list `loader`: the mapped `data` array of an `ok` response, and no
   * posts when the request fails, the response is not `ok` (the thrown error
   * is caught), or `data` is missing or not an array.
   */
  function Loader(fetched: Fetched<PostsJson>): (r: seq<Post>)
    ensures fetched.Response? && fetched.ok && fetched.body.data.Present? ==>
      |r| == |fetched.body.data.value| &&
      forall i :: 0 <= i < |r| ==> r[i] == TransformPost(fetched.body.data.value[i])
    ensures !(fetched.Response? && fetched.ok && fetched.body.data.Present?) ==> r == []
  {
    match fetched
    case Failed => []
    case Response(ok, json) =>
      if !ok then []
      else if !json.data.Present? then []
      else
        var items := json.data.value;
        seq(|items|, i requires 0 <= i < |items| => TransformPost(items[i]))
  }

  /** Posts with distinct numeric ids get distinct text ids. */
  lemma LoaderKeepsIdsDistinct(fetched: Fetched<PostsJson>, i: nat, j: nat)
    requires fetched.Response? && fetched.ok && fetched.body.data.Present?
    requires i < |fetched.body.data.value| && j < |fetched.body.data.value|
    requires fetched.body.data.value[i].id != fetched.body.data.value[j].id
    ensures Loader(fetched)[i].id != Loader(fetched)[j].id
  {
    var items := fetched.body.data.value;
    if Loader(fetched)[i].id == Loader(fetched)[j].id {
      DecimalStringInjective(items[i].id, items[j].id);
    }
  }

  /** The search: the lower-cased title or excerpt includes the lower-cased query. */
  predicate Matches(post: Post, query: string)
  {
    Includes(Lower(post.title), Lower(query)) || Includes(Lower(post.excerpt), Lower(query))
  }

  /** `posts.filter(...)` with the search: exactly the matching posts, in order. */
  function FilterPosts(posts: seq<Post>, query: string): (r: seq<Post>)
    ensures |r| <= |posts|
    ensures forall i :: 0 <= i < |r| ==> r[i] in posts && Matches(r[i], query)
    ensures forall i :: 0 <= i < |posts| && Matches(posts[i], query) ==> posts[i] in r
  {
    Filter(posts, (p: Post) => Matches(p, query))
  }

  /** The search keeps the posts' order: it distributes over concatenation. */
  lemma FilterPostsKeepsOrder(a: seq<Post>, b: seq<Post>, query: string)
    ensures FilterPosts(a + b, query) == FilterPosts(a, query) + FilterPosts(b, query)
  {
    FilterAppend(a, b, (p: Post) => Matches(p, query));
  }

  /** The empty query keeps every post, since every string includes "". */
  lemma EmptyQueryKeepsAll(posts: seq<Post>)
    ensures FilterPosts(posts, "") == posts
  {
    forall i | 0 <= i < |posts|
      ensures Matches(posts[i], "")
    {
      IncludesEmpty(Lower(posts[i].title));
    }
    FilterKeepsAll(posts, (p: Post) => Matches(p, ""));
  }

  /** The search ignores letter case: "REACT" finds the post titled "My React App". */
  lemma SearchIgnoresCase(post: Post)
    requires post.title == "My React App"
    ensures Matches(post, "REACT")
  {
    assert Lower("REACT") == "react";
    assert Lower(post.title)[3..8] == "react";
    IncludesFromOccurrence(Lower(post.title), "react", 3);
  }

  /** `Math.ceil(filteredPosts.length / 9)`. */
  function TotalPages(filtered: seq<Post>): (r: nat)
    ensures r * PostsPerPage >= |filtered|
    ensures r > 0 ==> (r - 1) * PostsPerPage < |filtered|
  {
    PageCount(|filtered|, PostsPerPage)
  }

  /** `filteredPosts.slice((currentPage - 1) * 9, currentPage * 9)`. */
  function CurrentPosts(filtered: seq<Post>, currentPage: PageNumber): (r: seq<Post>)
    ensures |r| <= PostsPerPage
    ensures currentPage > TotalPages(filtered) ==> r == []
    ensures currentPage <= TotalPages(filtered) ==>
      r != [] && r == filtered[(currentPage - 1) * PostsPerPage..Min(currentPage * PostsPerPage, |filtered|)]
  {
    PageSlice(filtered, currentPage, PostsPerPage)
  }

  /** The pages 1..`TotalPages` of the search result, put together, are that result. */
  lemma PagesCoverFiltered(filtered: seq<Post>)
    ensures Pages(filtered, PostsPerPage, TotalPages(filtered)) == filtered
  {
    PagesConcatenate(filtered, PostsPerPage);
  }

  const NoMatchMessage: string := "No blog posts found matching your search."
  const NoPostsMessage: string := "No blog posts available yet."

  /** What the page shows below the search box. */
  datatype View =
    | PostGrid(posts: seq<Post>, pagination: Option<seq<Pagination.Button>>)
    | EmptyState(message: string, clearSearchButton: bool)

  /** The state of the blog page: the loaded posts, the search text and the current page. */
  class BlogPageState {
    const posts: seq<Post>
    var searchQuery: string
    var currentPage: PageNumber

    /** The current page is the first page or one that holds posts. */
    ghost predicate Valid()
      reads this
    {
      currentPage == 1 || currentPage <= TotalPages(Filtered())
    }

    function Filtered(): seq<Post>
      reads this
    {
      FilterPosts(posts, searchQuery)
    }

    function Current(): seq<Post>
      reads this
    {
      CurrentPosts(Filtered(), currentPage)
    }

    /** The page as first rendered: empty search, page 1. */
    constructor (loaded: seq<Post>)
      ensures Valid()
      ensures posts == loaded && searchQuery == "" && currentPage == 1
    {
      posts := loaded;
      searchQuery := "";
      currentPage := 1;
    }

    /** `onSearchChange`: set the search text and go back to page 1. */
    method OnSearchChange(query: string)
      requires Valid()
      modifies this
      ensures Valid()
      ensures searchQuery == query && currentPage == 1
    {
      searchQuery := query;
      currentPage := 1;
    }

    /** "Clear Search": empties the search text and leaves the page number alone. */
    method ClearSearch()
      requires Valid()
      modifies this
      ensures Valid()
      ensures searchQuery == "" && currentPage == old(currentPage)
      ensures Filtered() == posts
    {
      var before := Filtered();
      searchQuery := "";
      EmptyQueryKeepsAll(posts);
      PageCountMonotone(|before|, |posts|, PostsPerPage);
    }

    /** A page button's click, which only offers pages 1..`TotalPages`. */
    method ChangePage(page: PageNumber)
      requires Valid() && page <= TotalPages(Filtered())
      modifies this
      ensures Valid()
      ensures currentPage == page && searchQuery == old(searchQuery)
    {
      currentPage := page;
    }

    /**
     * The grid of the current page, with the pagination when there is more
     * than one page; else the empty state, whose message and "Clear Search"
     * button depend on whether there is a search text.
     */
    function Render(): (r: View)
      reads this
      ensures r.PostGrid? <==> Current() != []
      ensures r.PostGrid? ==> r.posts == Current()
      ensures r.PostGrid? ==> (r.pagination.Some? <==> TotalPages(Filtered()) > 1)
      ensures r.PostGrid? ==> r.pagination == Pagination.Render(TotalPages(Filtered()), currentPage)
      ensures r.EmptyState? ==> r.clearSearchButton == (searchQuery != "")
      ensures r.EmptyState? ==> r.message == (if searchQuery != "" then NoMatchMessage else NoPostsMessage)
    {
      var current := Current();
      var total := TotalPages(Filtered());
      if |current| > 0 then
        PostGrid(current, if total > 1 then Pagination.Render(total, currentPage) else None)
      else
        EmptyState(if searchQuery != "" then NoMatchMessage else NoPostsMessage, searchQuery != "")
    }
  }

  /** In a valid state the page is empty only when the search matches nothing. */
  lemma ValidStateShowsPosts(page: BlogPageState)
    requires page.Valid()
    ensures page.Current() == [] <==> page.Filtered() == []
  {
  }
}
