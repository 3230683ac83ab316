/**
 * The home page's loader (app/routes/home/index.tsx): at most two projects and
 * the mapped posts, both empty when no API URL is configured.
 */
module Home {
  import opened Wrappers
  import opened Types
  import opened Lists
  import Media
  import ProjectsPage

  /**
   * `transformStrapiPost`: the numeric id copied, the image URL as it is (no
   * media host) or the placeholder, the excerpt, and the author "Anonymous".
   */
  function TransformStrapiPost(item: StrapiPost): (r: Post)
    ensures r.author == Some("Anonymous")
    ensures r.id == NumId(item.id) && r.title == item.title && r.slug == item.slug && r.date == item.date
    ensures r.excerpt == item.excerpt
    ensures r.body == None
    ensures Media.HasUrl(item.image) ==> r.image == item.image.value.url
    ensures !Media.HasUrl(item.image) ==> r.image == Media.Placeholder
  {
    Post(
      id := NumId(item.id),
      title := item.title,
      slug := item.slug,
      date := item.date,
      excerpt := if item.excerpt != "" then item.excerpt else "",
      author := Some("Anonymous"),
      image := Media.ImageOrPlaceholder(item.image),
      body := None)
  }

  /**
   * `normalizeProjects`: the same accepted shapes as the projects page, then
   * only the first two projects. Unlike the projects page it tests the
   * properties with `'data' in projectsJson`, which throws on a truthy value
   * that is not an object; `None` stands for that throw.
   */
  function NormalizeProjects(json: ProjectsJson): (r: Option<seq<Project>>)
    ensures r.None? <==> json.PrimitiveJson?
    ensures json.NullJson? ==> r == Some([])
    ensures r.Some? ==> |r.value| <= 2
    ensures r.Some? ==> r.value == Take(ProjectsPage.NormalizeProjectsData(json), 2)
  {
    match json
    case NullJson => Some([])
    case PrimitiveJson => None
    case ProjectArray(items) => Some(Take(items, 2))
    case ProjectsObject(data, projects) =>
      var projects :=
        if data.Present? then ProjectsPage.TransformAll(data.value)
        else if projects.Present? then projects.value
        else [];
      Some(Take(projects, 2))
  }

  /**
   * `fetchPostsFromAPI`: the parsed body of an `ok` response; `null` for a
   * response that is not `ok` or a failed request.
   */
  function FetchPosts(fetched: Fetched<PostsJson>): (r: Option<PostsJson>)
    ensures r.Some? <==> fetched.Response? && fetched.ok
    ensures r.Some? ==> r.value == fetched.body
  {
    match fetched
    case Failed => None
    case Response(ok, body) => if ok then Some(body) else None
  }

  datatype HomeData = HomeData(projects: seq<Project>, posts: seq<Post>)

  /**
   * `postsData?.data?.map(transformStrapiPost) || []`. A `data` that is present
   * but not an array has no `map`, and calling it throws; `None` stands for
   * that throw.
   */
  function PostsOf(postsData: Option<PostsJson>): (r: Option<seq<Post>>)
    ensures r.None? <==> postsData.Some? && postsData.value.data.Malformed?
    ensures postsData.None? || postsData.value.data.Absent? ==> r == Some([])
    ensures postsData.Some? && postsData.value.data.Present? ==>
      r.Some? && |r.value| == |postsData.value.data.value| &&
      forall i :: 0 <= i < |r.value| ==> r.value[i] == TransformStrapiPost(postsData.value.data.value[i])
  {
    match postsData
    case None => Some([])
    case Some(json) =>
      match json.data
      case Absent => Some([])
      case Malformed => None
      case Present(items) =>
        Some(seq(|items|, i requires 0 <= i < |items| => TransformStrapiPost(items[i])))
  }

  /**
   * The home `loader`: both fetches only when the API URL is configured, at
   * most two normalised projects, and the mapped posts. `None` when the
   * projects normalisation or the posts mapping throws; both run outside the
   * loader's `try`.
   */
  function Loader(apiConfigured: bool, projectsFetched: Fetched<ProjectsJson>, postsFetched: Fetched<PostsJson>)
    : (r: Option<HomeData>)
    ensures !apiConfigured ==> r == Some(HomeData([], []))
    ensures r.Some? ==> |r.value.projects| <= 2
    ensures apiConfigured ==>
      (r.None? <==>
        || (projectsFetched.Response? && projectsFetched.ok && projectsFetched.body.PrimitiveJson?)
        || (postsFetched.Response? && postsFetched.ok && postsFetched.body.data.Malformed?))
    ensures apiConfigured && r.Some? ==>
      r.value.projects == Take(ProjectsPage.NormalizeProjectsData(ProjectsPage.FetchProjects(projectsFetched)), 2)
    ensures apiConfigured && r.Some? ==>
      Some(r.value.posts) == PostsOf(FetchPosts(postsFetched))
  {
    var projectsJson := if apiConfigured then ProjectsPage.FetchProjects(projectsFetched) else NullJson;
    var postsData := if apiConfigured then FetchPosts(postsFetched) else None;
    match NormalizeProjects(projectsJson)
    case None => None
    case Some(projects) =>
      match PostsOf(postsData)
      case None => None
      case Some(posts) => Some(HomeData(projects, posts))
  }
}
