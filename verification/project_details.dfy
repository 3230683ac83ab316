/**
 * The project page (app/routes/Projects/details.tsx): the SEO tags of `meta`,
 * with their fallbacks, and the `loader` that maps one project.
 */
module ProjectDetails {
  import opened Wrappers
  import opened Types
  import opened Strings
  import Media
  import ProjectsPage

  /** One tag of the page head: the title, a `name` tag or a `property` tag. */
  datatype MetaTag = Title(content: string) | Named(name: string, content: string) | Property(property: string, content: string)

  /** What identifies a tag in the head: "title", or its name or property. */
  function Key(tag: MetaTag): string
  {
    match tag
    case Title(_) => "title"
    case Named(name, _) => name
    case Property(property, _) => property
  }

  const SiteProjectsUrl: string := "https://www.pixcelcraftedbyram.tech/projects/"
  const ProfileImageUrl: string := "https://www.pixcelcraftedbyram.tech/images/profile.png"
  const NotFoundTitle: string := "Project Not Found | Ram Reddy Portfolio"

  /** `value || fallback` on a string: the fallback replaces the empty string. */
  function Or(value: string, fallback: string): (r: string)
    ensures value != "" ==> r == value
    ensures value == "" ==> r == fallback
  {
    if value != "" then value else fallback
  }

  function ProjectUrl(documentId: string): (r: string)
    ensures StartsWith(r, SiteProjectsUrl) && r[|SiteProjectsUrl|..] == documentId
  {
    SiteProjectsUrl + documentId
  }

  function DefaultDescription(title: string): string
  {
    "Explore " + title + ", a web development project by Ram Reddy."
  }

  /** The keys of a found project's tags, in the order `meta` lists them. */
  const FoundKeys: seq<string> := [
    "title", "description", "keywords", "author",
    "og:type", "og:url", "og:title", "og:description", "og:image",
    "twitter:card", "twitter:url", "twitter:title", "twitter:description", "twitter:image", "twitter:creator",
    "robots"]

  /** No key occurs twice, so no tag of a found project overrides another. */
  lemma FoundKeysDistinct()
    ensures |FoundKeys| == 16
    ensures forall i, j :: 0 <= i < j < |FoundKeys| ==> FoundKeys[i] != FoundKeys[j]
  {
  }

  /** The tags of a found project, one per entry of `FoundKeys`, in that order. */
  function FoundMeta(p: Project): (r: seq<MetaTag>)
    ensures |r| == |FoundKeys|
    ensures forall i :: 0 <= i < |r| ==> Key(r[i]) == FoundKeys[i]
    ensures r[0] == Title(p.title + " - Web Development Project | Ram Reddy")
    ensures r[15] == Named("robots", "index, follow")
  {
    var url := ProjectUrl(p.documentId);
    [ Title(p.title + " - Web Development Project | Ram Reddy"),
      Named("description", Or(p.description, DefaultDescription(p.title))),
      Named("keywords", Or(p.category, "web development") + ", React project, portfolio, " + p.title),
      Named("author", "Ram Reddy"),
      Property("og:type", "website"),
      Property("og:url", url),
      Property("og:title", p.title + " - Web Development Project"),
      Property("og:description", Or(p.description, "")),
      Property("og:image", Or(p.image, ProfileImageUrl)),
      Named("twitter:card", "summary_large_image"),
      Named("twitter:url", url),
      Named("twitter:title", p.title),
      Named("twitter:description", Or(p.description, "")),
      Named("twitter:image", Or(p.image, ProfileImageUrl)),
      Named("twitter:creator", "@Ramreddy6363"),
      Named("robots", "index, follow") ]
  }

  /** The tags `meta` returns for the loaded project, or for none. */
  function Meta(project: Option<Project>): (r: seq<MetaTag>)
    ensures project.None? ==> r == [Title(NotFoundTitle), Named("robots", "noindex")]
    ensures project.Some? ==> |r| == 16
    ensures forall i, j :: 0 <= i < j < |r| ==> Key(r[i]) != Key(r[j])
    ensures project.Some? ==> r[0] == Title(project.value.title + " - Web Development Project | Ram Reddy")
    ensures project.Some? ==> Named("robots", "index, follow") in r
    ensures Named("robots", "noindex") in r <==> project.None?
  {
    match project
    case None => [Title(NotFoundTitle), Named("robots", "noindex")]
    case Some(p) =>
      var tags := FoundMeta(p);
      FoundKeysDistinct();
      assert forall i :: 0 <= i < 15 ==> Key(tags[i]) != "robots" by {
        forall i | 0 <= i < 15 ensures Key(tags[i]) != "robots" {
          assert FoundKeys[i] != FoundKeys[15];
        }
      }
      tags
  }

  /**
   * The fallbacks: the description tag, the first keyword, the shared page URL
   * of `og:url` and `twitter:url`, and the shared image of `og:image` and
   * `twitter:image`.
   */
  lemma MetaFallbacks(p: Project)
    ensures var tags := Meta(Some(p));
      && Named("description", if p.description != "" then p.description else DefaultDescription(p.title)) in tags
      && (exists k :: Named("keywords", k) in tags && StartsWith(k, if p.category != "" then p.category else "web development"))
      && Property("og:url", SiteProjectsUrl + p.documentId) in tags
      && Named("twitter:url", SiteProjectsUrl + p.documentId) in tags
      && Property("og:image", if p.image != "" then p.image else ProfileImageUrl) in tags
      && Named("twitter:image", if p.image != "" then p.image else ProfileImageUrl) in tags
  {
    var tags := Meta(Some(p));
    var url := SiteProjectsUrl + p.documentId;
    var image := Or(p.image, ProfileImageUrl);
    var k := Or(p.category, "web development") + ", React project, portfolio, " + p.title;
    assert tags == FoundMeta(p);
    assert tags[1] == Named("description", Or(p.description, DefaultDescription(p.title)));
    assert tags[2] == Named("keywords", k);
    assert tags[5] == Property("og:url", url) && tags[10] == Named("twitter:url", url);
    assert tags[8] == Property("og:image", image) && tags[13] == Named("twitter:image", image);
    KeywordsStartWithCategory(Or(p.category, "web development"), p.title);
  }

  /** A keyword list built as `first, …` starts with its first keyword. */
  lemma KeywordsStartWithCategory(first: string, title: string)
    ensures StartsWith(first + ", React project, portfolio, " + title, first)
  {
    var k := first + ", React project, portfolio, " + title;
    assert k[..|first|] == first;
  }

  /**
   * The tags without a fallback: the author, the Open Graph type and title,
   * the Twitter card, title and creator, and the two social descriptions,
   * which are the description or empty.
   */
  lemma MetaFixedTags(p: Project)
    ensures var tags := Meta(Some(p));
      && Named("author", "Ram Reddy") in tags
      && Property("og:type", "website") in tags
      && Property("og:title", p.title + " - Web Development Project") in tags
      && Property("og:description", p.description) in tags
      && Named("twitter:card", "summary_large_image") in tags
      && Named("twitter:title", p.title) in tags
      && Named("twitter:description", p.description) in tags
      && Named("twitter:creator", "@Ramreddy6363") in tags
  {
    var tags := Meta(Some(p));
    assert Or(p.description, "") == p.description;
    assert tags[7] == Property("og:description", p.description);
    assert tags[12] == Named("twitter:description", p.description);
  }

  /**
   * The project `loader`: no project for a failed request, a response that is
   * not `ok`, or a body without `data` (reading its fields throws, and the
   * error is caught); else `data` mapped as the list page maps a project.
   */
  function Loader(fetched: Fetched<Option<StrapiProject>>): (r: Option<Project>)
    ensures r.Some? <==> fetched.Response? && fetched.ok && fetched.body.Some?
    ensures r.Some? ==> r.value == ProjectsPage.TransformStrapiProject(fetched.body.value)
  {
    match fetched
    case Failed => None
    case Response(ok, data) =>
      if !ok then None
      else match data
        case None => None
        case Some(item) => Some(ProjectsPage.TransformStrapiProject(item))
  }

  /**
   * A project the loader produced always has an image (its URL or the
   * placeholder), so its image tags never fall back to the profile picture.
   */
  lemma LoadedProjectImageTags(fetched: Fetched<Option<StrapiProject>>)
    requires Loader(fetched).Some?
    ensures var p := Loader(fetched).value;
      Property("og:image", p.image) in Meta(Some(p)) && Named("twitter:image", p.image) in Meta(Some(p))
  {
    MetaFallbacks(Loader(fetched).value);
  }
}
