/** The text and link of a project card (app/components/ProjectCard.tsx). */
module ProjectCard {
  import opened Wrappers
  import opened Types
  import opened Strings
  import ProjectsPage

  /**
   * The card's summary: a non-empty excerpt as it is; otherwise the
   * description, cut to 30 characters and "..." when it is longer.
   */
  function CardText(project: Project): (r: string)
    ensures project.excerpt.Some? && project.excerpt.value != "" ==> r == project.excerpt.value
    ensures !(project.excerpt.Some? && project.excerpt.value != "") ==>
      (|project.description| > 30 ==> r == project.description[..30] + "...") &&
      (|project.description| <= 30 ==> r == project.description)
  {
    match project.excerpt
    case Some(excerpt) =>
      if excerpt != "" then excerpt else Truncate(project.description, 30)
    case None => Truncate(project.description, 30)
  }

  /** The card links to `/projects/` followed by the project's id. */
  function Link(project: Project): (r: string)
    ensures StartsWith(r, ProjectsPage.ProjectLinkPrefix) && r[|ProjectsPage.ProjectLinkPrefix|..] == IdText(project.id)
    ensures r == ProjectsPage.ToGridItem(project).url
  {
    ProjectsPage.ProjectLinkPrefix + IdText(project.id)
  }

  /**
   * Projects that come from the content API lose their excerpt in the
   * normaliser, so their cards always show the (shortened) description.
   */
  lemma ApiProjectCardShowsDescription(item: StrapiProject)
    ensures CardText(ProjectsPage.TransformStrapiProject(item)) == Truncate(item.description, 30)
  {
  }
}
