/** The "Recent Projects" section (app/components/RecentProjects.tsx). */
module RecentProjects {
  import opened Types
  import opened Lists
  import opened Sorting

  /** A project's date as a time, given the date-to-timestamp conversion. */
  function ProjectTime(timestamp: string -> int): Project -> int
  {
    (p: Project) => timestamp(p.date)
  }

  /**
   * Sort a copy of the projects newest first and keep the first `limit` (3 by
   * default). None of the projects left out is newer than a project shown.
   */
  function Recent(projects: seq<Project>, timestamp: string -> int, limit: nat := 3): (r: seq<Project>)
    ensures |r| == Min(limit, |projects|)
    ensures NewestFirst(r, ProjectTime(timestamp))
    ensures multiset(r) <= multiset(projects)
    ensures forall x, y :: x in r && y in multiset(projects) - multiset(r) ==>
      timestamp(y.date) <= timestamp(x.date)
  {
    Newest(projects, ProjectTime(timestamp), limit)
  }

  datatype View = NoProjectsYet | Cards(projects: seq<Project>)

  /** The section: "No projects available yet." when nothing is left to show. */
  function Render(projects: seq<Project>, timestamp: string -> int, limit: nat := 3): (r: View)
    ensures r.NoProjectsYet? <==> projects == [] || limit == 0
    ensures r.Cards? ==> r.projects == Recent(projects, timestamp, limit) && 1 <= |r.projects| <= limit
  {
    var recent := Recent(projects, timestamp, limit);
    if |recent| == 0 then NoProjectsYet else Cards(recent)
  }
}
