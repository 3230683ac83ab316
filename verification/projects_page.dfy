/**
 * The projects list page (app/routes/Projects/index.tsx): fetching and
 * normalising the projects, the category buttons and filter, the page of ten
 * projects, and the page state that a category click resets.
 */
module ProjectsPage {
  import opened Wrappers
  import opened Types
  import opened Strings
  import opened Lists
  import opened Paging
  import Media
  import Pagination

  const ProjectsPerPage: nat := 10

  /** The category button that shows every project. */
  const AllCategories: string := "All"

  /** The link of a project's own page is this prefix followed by its id. */
  const ProjectLinkPrefix: string := "/projects/"

  /**
   * `fetchProjectsFromAPI`: the parsed body of an `ok` response, and `null`
   * for a failed request or a response that is not `ok`.
   */
  function FetchProjects(fetched: Fetched<ProjectsJson>): (r: ProjectsJson)
    ensures fetched.Response? && fetched.ok ==> r == fetched.body
    ensures !(fetched.Response? && fetched.ok) ==> r == NullJson
  {
    match fetched
    case Failed => NullJson
    case Response(ok, body) => if ok then body else NullJson
  }

  /**
   * `transformStrapiProject`: the record's fields are copied, its image is
   * its URL or the placeholder, and its excerpt is not carried over.
   */
  function TransformStrapiProject(item: StrapiProject): (r: Project)
    ensures r.id == NumId(item.id) && r.documentId == item.documentId && r.title == item.title
    ensures r.description == item.description && r.url == item.url && r.date == item.date
    ensures r.category == item.category && r.featured == item.featured
    ensures r.excerpt == None
    ensures r.image != ""
    ensures Media.HasUrl(item.image) ==> r.image == item.image.value.url
    ensures !Media.HasUrl(item.image) ==> r.image == Media.Placeholder
  {
    Project(
      id := NumId(item.id),
      documentId := item.documentId,
      title := item.title,
      description := item.description,
      excerpt := None,
      image := Media.ImageOrPlaceholder(item.image),
      url := item.url,
      date := item.date,
      category := item.category,
      featured := item.featured)
  }

  /** `json.data.map(transformStrapiProject)`. */
  function TransformAll(items: seq<StrapiProject>): (r: seq<Project>)
    ensures |r| == |items|
    ensures forall i :: 0 <= i < |items| ==> r[i] == TransformStrapiProject(items[i])
  {
    seq(|items|, i requires 0 <= i < |items| => TransformStrapiProject(items[i]))
  }

  /**
   * `normalizeProjectsData`: nothing for a falsy body, a bare array as it is,
   * the transformed `data` array, else the `projects` array as it is, else
   * nothing. A truthy primitive has neither property (`json?.data` is
   * `undefined`), so it gives nothing too.
   */
  function NormalizeProjectsData(json: ProjectsJson): (r: seq<Project>)
    ensures json.NullJson? || json.PrimitiveJson? ==> r == []
    ensures json.ProjectArray? ==> r == json.items
    ensures json.ProjectsObject? && json.data.Present? ==>
      |r| == |json.data.value| &&
      forall i :: 0 <= i < |r| ==> r[i] == TransformStrapiProject(json.data.value[i])
    ensures json.ProjectsObject? && !json.data.Present? && json.projects.Present? ==>
      r == json.projects.value
    ensures json.ProjectsObject? && !json.data.Present? && !json.projects.Present? ==> r == []
  {
    match json
    case NullJson => []
    case PrimitiveJson => []
    case ProjectArray(items) => items
    case ProjectsObject(data, projects) =>
      if data.Present? then TransformAll(data.value)
      else if projects.Present? then projects.value
      else []
  }

  /**
   * The `projects` state after loading: the normalised list, or `null` when it
   * is empty. Without a configured API URL nothing is fetched.
   */
  function LoadedProjects(apiConfigured: bool, fetched: Fetched<ProjectsJson>): (r: Option<seq<Project>>)
    ensures r.Some? ==> r.value != []
    ensures !apiConfigured ==> r == None
    ensures r.GetOr([]) == NormalizeProjectsData(if apiConfigured then FetchProjects(fetched) else NullJson)
  {
    var projects := NormalizeProjectsData(if apiConfigured then FetchProjects(fetched) else NullJson);
    if |projects| > 0 then Some(projects) else None
  }

  function CategoriesOf(projects: seq<Project>): (r: seq<string>)
    ensures |r| == |projects|
    ensures forall i :: 0 <= i < |projects| ==> r[i] == projects[i].category
  {
    seq(|projects|, i requires 0 <= i < |projects| => projects[i].category)
  }

  /**
   * `['All', ...new Set(projects.map(p => p.category))]`: "All", then every
   * category once. Only the categories are de-duplicated, so a project whose
   * category is itself "All" adds a second "All".
   */
  function Categories(projects: seq<Project>): (r: seq<string>)
    ensures |r| >= 1 && r[0] == AllCategories
    ensures projects == [] ==> r == [AllCategories]
    ensures forall i :: 0 <= i < |projects| ==> projects[i].category in r[1..]
    ensures forall i :: 1 <= i < |r| ==> exists j :: 0 <= j < |projects| && projects[j].category == r[i]
    ensures forall i, j :: 1 <= i < j < |r| ==> r[i] != r[j]
  {
    var cats := CategoriesOf(projects);
    var distinct := Dedup(cats);
    assert forall i :: 1 <= i < |[AllCategories] + distinct| ==>
      ([AllCategories] + distinct)[i] == distinct[i - 1];
    assert forall i :: 0 <= i < |projects| ==> cats[i] in distinct;
    [AllCategories] + distinct
  }

  /** The categories after "All" come in the order in which they first occur. */
  lemma CategoriesFirstOccurrenceOrder(projects: seq<Project>)
    ensures var r := Categories(projects);
      forall i, j :: 1 <= i < j < |r| ==>
        FirstIndex(CategoriesOf(projects), r[i]) < FirstIndex(CategoriesOf(projects), r[j])
  {
    var cats := CategoriesOf(projects);
    DedupFirstOccurrenceOrder(cats);
    assert Categories(projects)[1..] == Dedup(cats);
  }

  /**
   * The selected category's projects: all of them for "All", else exactly
   * those whose category is the selection.
   */
  function FilterByCategory(projects: seq<Project>, selected: string): (r: seq<Project>)
    ensures |r| <= |projects|
    ensures selected == AllCategories ==> r == projects
    ensures selected != AllCategories ==>
      (forall i :: 0 <= i < |r| ==> r[i] in projects && r[i].category == selected) &&
      (forall i :: 0 <= i < |projects| && projects[i].category == selected ==> projects[i] in r)
  {
    if selected == AllCategories then projects
    else Filter(projects, (p: Project) => p.category == selected)
  }

  /** Filtering keeps the original order: it distributes over concatenation. */
  lemma FilterByCategoryKeepsOrder(a: seq<Project>, b: seq<Project>, selected: string)
    ensures FilterByCategory(a + b, selected) == FilterByCategory(a, selected) + FilterByCategory(b, selected)
  {
    if selected != AllCategories {
      FilterAppend(a, b, (p: Project) => p.category == selected);
    }
  }

  /** `Math.ceil(filteredProjects.length / 10)`. */
  function TotalPages(filtered: seq<Project>): (r: nat)
    ensures r * ProjectsPerPage >= |filtered|
    ensures r > 0 ==> (r - 1) * ProjectsPerPage < |filtered|
  {
    PageCount(|filtered|, ProjectsPerPage)
  }

  /** `filteredProjects.slice((currentPage - 1) * 10, currentPage * 10)`. */
  function CurrentProjects(filtered: seq<Project>, currentPage: PageNumber): (r: seq<Project>)
    ensures |r| <= ProjectsPerPage
    ensures currentPage > TotalPages(filtered) ==> r == []
    ensures currentPage <= TotalPages(filtered) ==>
      r != [] && r == filtered[(currentPage - 1) * ProjectsPerPage..Min(currentPage * ProjectsPerPage, |filtered|)]
  {
    PageSlice(filtered, currentPage, ProjectsPerPage)
  }

  /** The pages 1..`TotalPages` of a filtered list, put together, are that list. */
  lemma PagesCoverFiltered(filtered: seq<Project>)
    ensures Pages(filtered, ProjectsPerPage, TotalPages(filtered)) == filtered
  {
    PagesConcatenate(filtered, ProjectsPerPage);
  }

  /** The grid card's subtitle: the description, cut at 100 characters. */
  function Subtitle(description: string): (r: string)
    ensures |description| <= 100 ==> r == description
    ensures |description| > 100 ==> r == description[..100] + "..."
  {
    Truncate(description, 100)
  }

  /** One entry of the project grid. */
  datatype GridItem = GridItem(image: string, title: string, subtitle: string, url: string, project: Project)

  function ToGridItem(p: Project): (r: GridItem)
    ensures r.image == p.image && r.title == p.title && r.project == p
    ensures r.subtitle == Subtitle(p.description)
    ensures StartsWith(r.url, ProjectLinkPrefix) && r.url[|ProjectLinkPrefix|..] == IdText(p.id)
  {
    GridItem(p.image, p.title, Subtitle(p.description), ProjectLinkPrefix + IdText(p.id), p)
  }

  /** One category button: its category, and whether it is shown as selected. */
  datatype CategoryButton = CategoryButton(category: string, highlighted: bool)

  /** One button per category, in order; only the selected category's is highlighted. */
  function CategoryButtons(categories: seq<string>, selected: string): (r: seq<CategoryButton>)
    ensures |r| == |categories|
    ensures forall i :: 0 <= i < |r| ==>
      r[i].category == categories[i] && (r[i].highlighted <==> categories[i] == selected)
  {
    seq(|categories|, i requires 0 <= i < |categories| => CategoryButton(categories[i], categories[i] == selected))
  }

  /** What the loaded page shows. */
  datatype View =
    | NoProjectsFound
    | Grid(categories: seq<CategoryButton>, items: seq<GridItem>,
           pagination: Option<seq<Pagination.Button>>)

  /**
   * The state of the projects page once its data has loaded: the selected
   * category, the current page and the loaded projects (`null` when none).
   */
  class ProjectPageState {
    var selectedCategory: string
    var currentPage: PageNumber
    var projects: Option<seq<Project>>

    /** The current page is the first page or one that holds projects. */
    ghost predicate Valid()
      reads this
    {
      currentPage == 1 || currentPage <= TotalPages(Filtered())
    }

    /** `projects?.…`: a `null` list behaves as an empty one. */
    function Projects(): seq<Project>
      reads this
    {
      projects.GetOr([])
    }

    function Filtered(): seq<Project>
      reads this
    {
      FilterByCategory(Projects(), selectedCategory)
    }

    function Current(): seq<Project>
      reads this
    {
      CurrentProjects(Filtered(), currentPage)
    }

    /** The page after mounting and loading: "All", page 1, the loaded projects. */
    constructor (apiConfigured: bool, fetched: Fetched<ProjectsJson>)
      ensures Valid()
      ensures selectedCategory == AllCategories && currentPage == 1
      ensures projects == LoadedProjects(apiConfigured, fetched)
    {
      selectedCategory := AllCategories;
      currentPage := 1;
      projects := LoadedProjects(apiConfigured, fetched);
    }

    /** A category button's click: select it and go back to page 1. */
    method SelectCategory(category: string)
      requires Valid()
      modifies this
      ensures Valid()
      ensures selectedCategory == category && currentPage == 1
      ensures projects == old(projects)
    {
      selectedCategory := category;
      currentPage := 1;
    }

    /** A page button's click, which only offers pages 1..`TotalPages`. */
    method ChangePage(page: PageNumber)
      requires Valid() && page <= TotalPages(Filtered())
      modifies this
      ensures Valid()
      ensures currentPage == page
      ensures selectedCategory == old(selectedCategory) && projects == old(projects)
    {
      currentPage := page;
    }

    /**
     * The page: "No projects found." when the current page is empty, else the
     * category buttons (the selected category's shown as selected), the grid
     * of the current page and the pagination.
     */
    function Render(): (r: View)
      reads this
      ensures r.NoProjectsFound? <==> Current() == []
      ensures r.Grid? ==> |r.categories| == |Categories(Projects())|
      ensures r.Grid? ==> forall i :: 0 <= i < |r.categories| ==>
        r.categories[i].category == Categories(Projects())[i] &&
        (r.categories[i].highlighted <==> r.categories[i].category == selectedCategory)
      ensures r.Grid? ==> |r.items| == |Current()| <= ProjectsPerPage
      ensures r.Grid? ==> forall i :: 0 <= i < |r.items| ==> r.items[i] == ToGridItem(Current()[i])
      ensures r.Grid? ==> r.pagination == Pagination.Render(TotalPages(Filtered()), currentPage)
    {
      var current := Current();
      if current == [] then NoProjectsFound
      else
        Grid(CategoryButtons(Categories(Projects()), selectedCategory),
             seq(|current|, i requires 0 <= i < |current| => ToGridItem(current[i])),
             Pagination.Render(TotalPages(Filtered()), currentPage))
    }
  }

  /** In a valid state the page is empty only when the selection matches nothing. */
  lemma ValidStateShowsProjects(page: ProjectPageState)
    requires page.Valid()
    ensures page.Current() == [] <==> page.Filtered() == []
  {
  }
}
