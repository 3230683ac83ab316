# Portfolio content pipeline, modelled in Dafny

This project models the content-list pipeline of a personal portfolio site
(React Router, data from a Strapi content API) and proves its properties.

- **Normalisation.** The loaders turn raw Strapi records into `Project` and `Post`
  values. The image URL is kept verbatim, put on the media host, or replaced by the
  `/images/no-image.png` placeholder. Posts get author `'Anonymous'` on the home page.
- **Filtering.** Projects are filtered by category, with `'All'` showing every project.
  Posts are filtered by a case-insensitive search over title and excerpt.
- **Paging.** There are `ceil(n / size)` pages of 10 projects or 9 posts. Page `p` is
  `slice((p - 1) * size, p * size)`. The pagination control shows nothing for at most
  one page. Selecting a category or typing a search resets the page to 1.
- **"Latest" lists.** A copy is sorted newest first, then cut to a limit.
- **Small total functions.** Card text truncation, the SEO tags of the project page,
  the bundler's chunk classifier, and the animation settings derived from device and
  connection.

Each source file has its own module: `ProjectsPage`, `BlogsPage`, `BlogDetails`,
`Home`, `ProjectDetails`, `Pagination`, `LatestPosts`, `RecentProjects`,
`ProjectCard`, `ViteConfig` and `Performance`. Shared modules model what the pages
repeat or take from JavaScript:
- `Types`: the records of `app/types.ts`.
- `Media`: the two image rules.
- `Paging`: page count and page slice.
- `Sorting`: newest-first sorting and top-N.
- `Strings`: `includes`, `startsWith`, `toLowerCase`, truncation and `String(n)`.
- `Lists`: `slice`, `filter`, and `Set` de-duplication.

The two list pages keep state that their event handlers update. That state is
modelled by the classes `ProjectsPage.ProjectPageState` and `BlogsPage.BlogPageState`.
Each class has an invariant: the current page is page 1 or a page that holds items.
Its methods keep that invariant.

The network is an input, not something the model performs. A request is
`Fetched<T>`: either it failed (network error or a body that is not JSON), or a
response arrived with its `ok` flag and its parsed body. A JSON property that a
loader tests is `Field<T>`: absent, present but not an array, or an array. Whether
the API URL is configured is a boolean parameter. The conversion of a date string to
a timestamp is a function parameter.

## Model

| member | source | states |
|---|---|---|
| Media.ImageOrPlaceholder | app/routes/Projects/index.tsx:40 | The image is the URL when the image and a non-empty URL exist, else the placeholder; never empty |
| Media.ResolveMediaUrl | app/routes/blogs/index.tsx:34-39 | The placeholder exactly when there is no URL; an `http…` URL verbatim; any other URL prefixed with the media host; the result is always the placeholder or starts with `http` |
| Media.ResolveAgain | app/routes/blogs/details.tsx:29-34 | Resolving a resolved URL again is the identity, except for the placeholder, which would get the host prefix |
| ProjectsPage.FetchProjects | app/routes/Projects/index.tsx:17-27 | The body of an `ok` response; `null` for a failed request or a non-ok response |
| ProjectsPage.TransformStrapiProject | app/routes/Projects/index.tsx:34-46 | Fields copied, numeric id kept, excerpt not carried over, image by the placeholder rule |
| ProjectsPage.TransformAll | app/routes/Projects/index.tsx:62-64 | `data.map(transform)`: same length, element i is the transform of raw element i |
| ProjectsPage.NormalizeProjectsData | app/routes/Projects/index.tsx:53-72 | `[]` for a falsy body; a bare array unchanged; `{data: xs}` mapped in order; else `{projects}` unchanged; else `[]`, including for a truthy primitive body |
| ProjectsPage.LoadedProjects | app/routes/Projects/index.tsx:85-98 | The `projects` state after loading is the normalised list, or `null` when it is empty or no API URL is set |
| ProjectsPage.Categories | app/routes/Projects/index.tsx:119 | Starts with `'All'`; then every project category exactly once and nothing else; exactly `['All']` without projects |
| ProjectsPage.CategoriesFirstOccurrenceOrder | app/routes/Projects/index.tsx:119 | The categories after `'All'` appear in first-occurrence order |
| ProjectsPage.FilterByCategory | app/routes/Projects/index.tsx:121-124 | Never longer than the input; `'All'` gives the full list; otherwise exactly the projects whose category equals the selection |
| ProjectsPage.FilterByCategoryKeepsOrder | app/routes/Projects/index.tsx:121-124 | The filter distributes over concatenation, so kept projects keep their original order |
| ProjectsPage.TotalPages | app/routes/Projects/index.tsx:127-129 | The page count is the ceiling of the filtered length over 10 |
| ProjectsPage.CurrentProjects | app/routes/Projects/index.tsx:131-135 | Page p has at most 10 projects; it is elements `[(p-1)*10, min(p*10, n))` and non-empty when p ≤ totalPages, else empty |
| ProjectsPage.PagesCoverFiltered | app/routes/Projects/index.tsx:127-135 | Pages 1..totalPages concatenated give back the filtered list |
| ProjectsPage.Subtitle | app/routes/Projects/index.tsx:145-148 | A description longer than 100 characters becomes its first 100 plus `...`; a shorter one is unchanged |
| ProjectsPage.ToGridItem | app/routes/Projects/index.tsx:142-153 | The grid entry carries the image, title and truncated subtitle; its URL is `/projects/` followed by the id |
| ProjectsPage.ProjectPageState.constructor | app/routes/Projects/index.tsx:75-98 | The loaded page starts on `'All'`, page 1, with the loaded projects |
| ProjectsPage.ProjectPageState.SelectCategory | app/routes/Projects/index.tsx:172-175 | A category click sets the category and resets the page to 1; the invariant is kept |
| ProjectsPage.ProjectPageState.ChangePage | app/routes/Projects/index.tsx:212-216 | A page button sets the page it names; the invariant is kept |
| ProjectsPage.ProjectPageState.Render | app/routes/Projects/index.tsx:137-216 | "No projects found." exactly when the current page is empty; otherwise one category button per category, shown as selected exactly when it is the selected category, one grid entry per project of the current page (at most 10, each the entry `ToGridItem` builds), and the pagination control for the total pages and the current page |
| ProjectsPage.ValidStateShowsProjects | app/routes/Projects/index.tsx:172-175 | While the invariant holds, the current page is empty only when the filtered list is empty |
| Paging.PageCount | app/routes/blogs/index.tsx:75 | `ceil(n/size)`: the least count of pages whose capacity covers n; zero exactly for no items |
| Paging.PageSlice | app/routes/blogs/index.tsx:76-78 | The clipped slice `[(p-1)*size, p*size)`: at most size items, empty past the last page, the exact range otherwise |
| Paging.PagesConcatenate | app/routes/blogs/index.tsx:75-78 | Concatenating pages 1..PageCount gives back the list |
| BlogsPage.TransformPost | app/routes/blogs/index.tsx:32-50 | `id` is `String(item.id)`; title, slug, excerpt, body and date copied; no author; image by the three-way rule |
| BlogsPage.Loader | app/routes/blogs/index.tsx:15-57 | A failed request, a non-ok response, or a missing or non-array `data` gives `[]`; otherwise the mapping keeps length and order |
| BlogsPage.LoaderKeepsIdsDistinct | app/routes/blogs/index.tsx:42 | Posts with distinct numeric ids get distinct string ids |
| BlogsPage.FilterPosts | app/routes/blogs/index.tsx:67-72 | A post is kept exactly when its lower-cased title or excerpt includes the lower-cased query |
| BlogsPage.FilterPostsKeepsOrder | app/routes/blogs/index.tsx:67-72 | The search distributes over concatenation, so kept posts keep their order |
| BlogsPage.EmptyQueryKeepsAll | app/routes/blogs/index.tsx:67-72 | The empty query keeps every post |
| BlogsPage.SearchIgnoresCase | app/routes/blogs/index.tsx:70-71 | The query `REACT` matches the title `My React App` |
| BlogsPage.TotalPages | app/routes/blogs/index.tsx:75 | The page count is the ceiling of the filtered length over 9 |
| BlogsPage.CurrentPosts | app/routes/blogs/index.tsx:76-78 | Page p has at most 9 posts; it is `[(p-1)*9, min(p*9, n))` and non-empty when p ≤ totalPages, else empty |
| BlogsPage.PagesCoverFiltered | app/routes/blogs/index.tsx:75-78 | Pages 1..totalPages concatenated give back the search result |
| BlogsPage.BlogPageState.constructor | app/routes/blogs/index.tsx:59-64 | The page starts with an empty query on page 1 |
| BlogsPage.BlogPageState.OnSearchChange | app/routes/blogs/index.tsx:100-103 | A new query is set and the page resets to 1 |
| BlogsPage.BlogPageState.ClearSearch | app/routes/blogs/index.tsx:141-147 | "Clear Search" sets only the query; the page is kept, and the invariant still holds because every post then matches |
| BlogsPage.BlogPageState.ChangePage | app/routes/blogs/index.tsx:124-128 | A page button sets the page it names; the invariant is kept |
| BlogsPage.BlogPageState.Render | app/routes/blogs/index.tsx:108-149 | The grid of the current page exactly when it is non-empty, with the pagination control for the total pages and the current page exactly when totalPages > 1; the empty-state message and the Clear button depend on whether the query is non-empty |
| BlogsPage.ValidStateShowsPosts | app/routes/blogs/index.tsx:100-103 | While the invariant holds, the current page is empty only when no post matches |
| BlogDetails.Loader | app/routes/blogs/details.tsx:5-51 | No post for a failed request, a non-ok response (thrown and caught), or a missing or empty `data`; otherwise the post built from `data[0]` only |
| BlogDetails.DetailIsFirstOfList | app/routes/blogs/details.tsx:26-44 | For the same response, the detail post is the first post of the list loader |
| Home.TransformStrapiPost | app/routes/home/index.tsx:45-61 | Author is always `'Anonymous'`; numeric id and fields copied; image is the raw URL (no host) or the placeholder |
| Home.NormalizeProjects | app/routes/home/index.tsx:79-113 | `[]` for null; a throw exactly for a truthy primitive body (`'data' in` a non-object); otherwise at most 2 projects, exactly the first two of the projects page's normalisation |
| Home.FetchPosts | app/routes/home/index.tsx:24-42 | The body of an `ok` response, else `null` |
| Home.PostsOf | app/routes/home/index.tsx:137 | `[]` for a null body or a missing `data`; a mapping that keeps length and order for an array; a throw for a non-array `data` |
| Home.Loader | app/routes/home/index.tsx:116-144 | Without an API URL both lists are empty; the loader throws exactly on an `ok` projects body that is a truthy primitive or an `ok` posts body whose `data` is not an array; otherwise the first two normalised projects and the posts as `PostsOf` maps them |
| ProjectDetails.ProjectUrl | app/routes/Projects/details.tsx:15 | The page URL is the site's `/projects/` prefix followed by the documentId |
| ProjectDetails.Meta | app/routes/Projects/details.tsx:5-62 | No project gives exactly the "Project Not Found" title and robots `noindex`; otherwise 16 tags, no two with the same key, headed by the title tag built from the project title and with robots `index, follow`; `noindex` appears exactly when there is no project |
| ProjectDetails.MetaFixedTags | app/routes/Projects/details.tsx:29-57 | A found project's author, og:type, og:title, twitter:card, twitter:title and twitter:creator tags carry their fixed texts, and both social descriptions are the description (empty when it is) |
| ProjectDetails.MetaFallbacks | app/routes/Projects/details.tsx:15-56 | The description tag falls back to "Explore …"; keywords start with the category or `web development`; og:url and twitter:url are the same page URL; og:image and twitter:image fall back to the profile image |
| ProjectDetails.Loader | app/routes/Projects/details.tsx:64-99 | No project for a failed request, a non-ok response, or a body without `data`; otherwise the project transform of `data` |
| ProjectDetails.LoadedProjectImageTags | app/routes/Projects/details.tsx:85-87 | A loaded project always has an image, so its image tags carry that image |
| Pagination.Render | app/components/Pagination.tsx:8-27 | Nothing exactly when totalPages ≤ 1; otherwise totalPages buttons numbered 1..totalPages in order; a button is highlighted exactly when its number is the current page; a click passes the button's number |
| Pagination.HighlightAndClicks | app/components/Pagination.tsx:15-23 | At most one button is highlighted; none when the current page is out of range; clicks ask for a page in 1..totalPages |
| Sorting.SortNewestFirst | app/components/LatestPosts.tsx:11-14 | The sorted copy is newest first and a permutation of the input |
| Sorting.SortSortedIsIdentity | app/components/RecentProjects.tsx:12-14 | A list that is already newest first sorts to itself |
| Sorting.SortIdempotent | app/components/LatestPosts.tsx:11-14 | Sorting twice is sorting once |
| Sorting.Newest | app/components/RecentProjects.tsx:12-17 | `min(limit, n)` items, newest first, a sub-multiset of the input; every omitted item is no newer than every shown one |
| LatestPosts.Latest | app/components/LatestPosts.tsx:9-17 | Null posts give `[]`; length `min(Limit, n)` (Limit defaults to 3); newest first; omitted posts are no newer than shown ones |
| LatestPosts.Link | app/components/LatestPosts.tsx:27 | Each entry links to `/blogs/` followed by the slug |
| RecentProjects.Recent | app/components/RecentProjects.tsx:10-17 | Length `min(limit, n)` (limit defaults to 3); newest first; omitted projects are no newer than shown ones |
| RecentProjects.Render | app/components/RecentProjects.tsx:19-30 | "No projects available yet." exactly when there are no projects or the limit is 0; otherwise 1..limit cards |
| ProjectCard.CardText | app/components/ProjectCard.tsx:21-25 | A non-empty excerpt verbatim; otherwise a description over 30 characters cut to 30 plus `...`; otherwise the description |
| ProjectCard.Link | app/components/ProjectCard.tsx:8 | The card links to `/projects/` followed by the id, the same link as the projects page's grid entry |
| ProjectCard.ApiProjectCardShowsDescription | app/components/ProjectCard.tsx:21-25 | A project normalised from the API has no excerpt, so its card shows the truncated description |
| ViteConfig.ManualChunks | vite.config.ts:12-30 | No chunk exactly for ids outside `node_modules`; a `node_modules` id containing `react` goes to `react-vendor` |
| ViteConfig.ReactTestSubsumes | vite.config.ts:17-19 | Every id containing `react-dom`, `react-router` or `react-icons` contains `react` |
| ViteConfig.ChunkNames | vite.config.ts:14-30 | The result is one of no chunk, `react-vendor`, `vendor`; `icons` is never returned |
| ViteConfig.IconsModuleGoesToReactVendor | vite.config.ts:16-26 | The id `node_modules/react-icons` is classified `react-vendor` as written, and `icons` by the corrected classifier |
| ViteConfig.ManualChunksIconsFirst | vite.config.ts:23-26 | Corrected classifier: no chunk exactly outside `node_modules` |
| ViteConfig.IconsFirstSeparatesIcons | vite.config.ts:23-26 | In the corrected classifier, `icons` is returned exactly for `node_modules` ids containing `react-icons`; on other ids it agrees with the original |
| Performance.IsDesktop | app/hooks/usePerformance.ts:8-13 | Desktop exactly when the width is strictly greater than the breakpoint |
| Performance.DesktopThreshold | app/hooks/usePerformance.ts:8-13 | With the default breakpoint 768, a width of 768 is not desktop and 769 is; a wider window stays desktop |
| Performance.IsSlowConnection | app/hooks/usePerformance.ts:54-79 | Slow exactly when effectiveType is `slow-2g` or `2g`, or saveData is true; never without the Network Information API |
| Performance.PerformanceSettings | app/hooks/usePerformance.ts:85-109 | Heavy animations imply tilt; tilt equals hover effects; reduced motion disables all three; the duration is `fast` exactly on a slow connection; isMobile is not isDesktop |
| Strings.DecimalRoundTrip | app/routes/blogs/index.tsx:42 | `String(id)` loses nothing: reading its digits back gives the id |
| Strings.IncludesIffOccurs | app/routes/blogs/index.tsx:70-71 | `includes` holds exactly when the text occurs at some position |

## Behaviour notes

- Normalisation is not idempotent. A normalised `Project` stores its image as a
  string, and a string has no `url`. Passing the project through
  `transformStrapiProject` again would therefore replace its image with the
  placeholder. Only the blog rule comes close: re-resolving an image is the
  identity except for the placeholder (`Media.ResolveAgain`).
- The two project normalisers differ on a truthy body that is not an object (a
  number, a string, `true`). The projects page reads `json?.data`, gets `undefined`
  and shows nothing. The home page evaluates `'data' in projectsJson`, which throws,
  and the throw escapes its loader.
- Only the blog loaders test for `http` and prefix the media host. The project
  transforms and the home page's post transform keep the URL as given.
- The category list de-duplicates only the project categories. A project whose
  category is itself `All` adds a second `All` button, and selecting it shows every
  project.
- "Clear Search" does not reset the page. `BlogsPage.BlogPageState.ClearSearch`
  shows this is harmless: the empty query matches every post, so the page stays
  within range.

## Findings

| source | as written | input that shows it | evidently intended | confidence | as-written member | corrected member |
|---|---|---|---|---|---|---|
| vite.config.ts:16-26 | The React test comes first. Every id containing `react-icons` also contains `react`, so the `icons` chunk is never produced | `node_modules/react-icons` is classified `react-vendor` | The icon library gets its own `icons` chunk | medium, not executed | ViteConfig.IconsModuleGoesToReactVendor | ViteConfig.IconsFirstSeparatesIcons |

## Left out

- HTTP: `fetch`, request URLs and their sort, filter and populate query strings are
  not modelled. Each request is the input `Fetched<T>`, and the configured API URL is
  a boolean.
- Dates: parsing, formatting and invalid-date `NaN` are not modelled. The timestamp of
  a date string is a function parameter.
- Text: `toLowerCase` lower-cases ASCII letters only. String lengths and `substring`
  count characters, not UTF-16 code units.
- React: `useState`/`useEffect` plumbing, the loading screens and their 1300/1500 ms
  timers, animations, ChromaGrid and ProfileCard are not modelled. The same holds for
  the window, media-query and connection event listeners, and the initial `false` of
  each hook before its effect runs. The loaded page is the constructor of each state
  class.
- Home.TransformStrapiPost: the `|| ''` excerpt default is modelled but always the
  identity. `StrapiPost` declares the excerpt required, so the typed record cannot
  lack one.
- Sorting.SortNewestFirst: stability is not stated. The function puts each item ahead
  of later items with the same date, as a stable `sort` does, but no lemma says so.
- Ids: app/types.ts declares every `id` a string. The model departs from that and gives
  the raw Strapi records the numeric id the content API sends, which the loaders copy
  or convert with `String(id)`.
- Typed records: raw API items are typed records, so missing fields and categories
  that are `undefined` are outside the model. So is the source's acceptance of any
  array content in the bare-array and `{projects}` shapes.
- BlogDetails.Loader: a `data` value that is neither an array nor absent yields no
  post. In the source, a non-empty string would be indexed character by character.
- Home page rendering: the grid subtitles repeat the projects page's truncation and
  are not modelled separately. The dates shown by the cards are not modelled.
- The other components, the layouts, the contact form and the route configuration are
  presentational and not part of this model.
