/**
 * The data shapes of app/types.ts, and the shapes in which the content API's
 * answers reach the loaders.
 */
module Types {
  import opened Wrappers
  import Strings

  /**
   * Identifier of a content item. app/types.ts declares every `id` a string,
   * but the content API sends numbers, and the loaders treat them as such:
   * some copy the number as it is, others turn it into text with `String(id)`.
   * The raw records below therefore carry the numeric id the API sends.
   */
  datatype Id = NumId(n: nat) | TextId(s: string)

  /** The id as a template literal (`${id}`) writes it. */
  function IdText(id: Id): (r: string)
    ensures id.NumId? ==> r == Strings.DecimalString(id.n)
    ensures id.TextId? ==> r == id.s
  {
    match id
    case NumId(n) => Strings.DecimalString(n)
    case TextId(s) => s
  }

  /** A normalised project (`Project` in app/types.ts). */
  datatype Project = Project(
    id: Id,
    documentId: string,
    title: string,
    description: string,
    excerpt: Option<string>,
    image: string,
    url: string,
    date: string,
    category: string,
    featured: bool)

  /**
   * A normalised post (`Post` in app/types.ts). `author` is declared required
   * there, but only the home page's transform sets it, so it is optional here;
   * `body` is optional in app/types.ts.
   */
  datatype Post = Post(
    id: Id,
    title: string,
    slug: string,
    date: string,
    excerpt: string,
    author: Option<string>,
    image: string,
    body: Option<string>)

  /** The `image` relation of a Strapi record; only its `url` is ever read. */
  datatype StrapiMedia = StrapiMedia(url: string)

  /** A post as the content API sends it (`StrapiPost`). */
  datatype StrapiPost = StrapiPost(
    id: nat,
    documentId: string,
    title: string,
    slug: string,
    date: string,
    excerpt: string,
    body: string,
    image: Option<StrapiMedia>)

  /** A project as the content API sends it (`StrapiProject`). */
  datatype StrapiProject = StrapiProject(
    id: nat,
    documentId: string,
    title: string,
    description: string,
    excerpt: Option<string>,
    image: Option<StrapiMedia>,
    url: string,
    date: string,
    category: string,
    featured: bool)

  /**
   * One property of a parsed JSON object as the loaders test it: missing (or
   * `null`), present but not an array, or an array.
   */
  datatype Field<T> = Absent | Malformed | Present(value: T)

  /**
   * The outcome of one `fetch` followed by `res.json()`: either it threw (the
   * network failed or the body was not JSON), or a response arrived with its
   * `ok` flag and its parsed body.
   */
  datatype Fetched<T> = Failed | Response(ok: bool, body: T)

  /**
   * The parsed body of a projects request: a falsy value (`null`, `0`, `""`,
   * `false`), a bare array of already normalised projects, an object whose
   * `data` and `projects` properties are tested, or any other truthy value
   * that is not an object (a non-zero number, a non-empty string, `true`).
   */
  datatype ProjectsJson =
    | NullJson
    | PrimitiveJson
    | ProjectArray(items: seq<Project>)
    | ProjectsObject(data: Field<seq<StrapiProject>>, projects: Field<seq<Project>>)

  /** The parsed body of a posts request: only its `data` property is read. */
  datatype PostsJson = PostsJson(data: Field<seq<StrapiPost>>)
}
