/** The loader of the blog post page (app/routes/blogs/details.tsx). */
module BlogDetails {
  import opened Wrappers
  import opened Types
  import BlogsPage

  /**
   * The post of the response to the slug query: the first element of `data`,
   * mapped as on the list page; no post when the request fails, the response
   * is not `ok` (thrown and caught), or `data` is missing, empty or not an array.
   */
  function Loader(fetched: Fetched<PostsJson>): (r: Option<Post>)
    ensures r.Some? <==>
      fetched.Response? && fetched.ok && fetched.body.data.Present? && fetched.body.data.value != []
    ensures r.Some? ==> r.value == BlogsPage.TransformPost(fetched.body.data.value[0])
  {
    match fetched
    case Failed => None
    case Response(ok, json) =>
      if !ok then None
      else if !json.data.Present? || json.data.value == [] then None
      else Some(BlogsPage.TransformPost(json.data.value[0]))
  }

  /** Given the same response, the post page shows the first post of the list page. */
  lemma DetailIsFirstOfList(fetched: Fetched<PostsJson>)
    ensures Loader(fetched).Some? <==> BlogsPage.Loader(fetched) != []
    ensures Loader(fetched).Some? ==> Loader(fetched).value == BlogsPage.Loader(fetched)[0]
  {
  }
}
