/** The "Latest Posts" list (app/components/LatestPosts.tsx). */
module LatestPosts {
  import opened Wrappers
  import opened Types
  import opened Strings
  import opened Lists
  import opened Sorting

  /** A post's publication time, given the date-to-timestamp conversion. */
  function PostTime(timestamp: string -> int): Post -> int
  {
    (p: Post) => timestamp(p.date)
  }

  /**
   * Sort a copy of the posts newest first and keep the first `limit` (3 by
   * default); no posts when there are none (`null`). None of the posts left
   * out is newer than a post shown.
   */
  function Latest(posts: Option<seq<Post>>, timestamp: string -> int, limit: nat := 3): (r: seq<Post>)
    ensures posts.None? ==> r == []
    ensures |r| == Min(limit, |posts.GetOr([])|)
    ensures NewestFirst(r, PostTime(timestamp))
    ensures multiset(r) <= multiset(posts.GetOr([]))
    ensures forall x, y :: x in r && y in multiset(posts.GetOr([])) - multiset(r) ==>
      timestamp(y.date) <= timestamp(x.date)
  {
    Newest(posts.GetOr([]), PostTime(timestamp), limit)
  }

  const LinkPrefix: string := "/blogs/"

  /** Each entry links to `/blogs/` followed by the post's slug. */
  function Link(post: Post): (r: string)
    ensures StartsWith(r, LinkPrefix) && r[|LinkPrefix|..] == post.slug
  {
    LinkPrefix + post.slug
  }
}
