/** The `manualChunks(id)` classifier of vite.config.ts, which names a module's bundle chunk. */
module ViteConfig {
  import opened Wrappers
  import opened Strings

  /**
   * As written: no chunk outside `node_modules`; "react-vendor" for an id that
   * includes "react", "react-dom" or "react-router"; "icons" for one that
   * includes "react-icons"; else "vendor".
   */
  function ManualChunks(id: string): (r: Option<string>)
    ensures r.None? <==> !Includes(id, "node_modules")
    ensures Includes(id, "node_modules") && Includes(id, "react") ==> r == Some("react-vendor")
  {
    if Includes(id, "node_modules") then
      if Includes(id, "react") || Includes(id, "react-dom") || Includes(id, "react-router") then
        Some("react-vendor")
      else if Includes(id, "react-icons") then
        Some("icons")
      else
        Some("vendor")
    else
      None
  }

  /** Every id that includes "react-dom", "react-router" or "react-icons" includes "react". */
  lemma ReactTestSubsumes(id: string)
    ensures Includes(id, "react-dom") ==> Includes(id, "react")
    ensures Includes(id, "react-router") ==> Includes(id, "react")
    ensures Includes(id, "react-icons") ==> Includes(id, "react")
  {
    IncludesPrefix("react-dom", "react");
    IncludesPrefix("react-router", "react");
    IncludesPrefix("react-icons", "react");
    if Includes(id, "react-dom") { IncludesTransitive(id, "react-dom", "react"); }
    if Includes(id, "react-router") { IncludesTransitive(id, "react-router", "react"); }
    if Includes(id, "react-icons") { IncludesTransitive(id, "react-icons", "react"); }
  }

  /**
   * The classifier only ever answers no chunk, "react-vendor" or "vendor":
   * the "icons" branch cannot be reached, and "react-vendor" is exactly the
   * `node_modules` ids that include "react".
   */
  lemma ChunkNames(id: string)
    ensures ManualChunks(id) in {None, Some("react-vendor"), Some("vendor")}
    ensures ManualChunks(id) != Some("icons")
    ensures ManualChunks(id) == Some("react-vendor") <==> Includes(id, "node_modules") && Includes(id, "react")
  {
    ReactTestSubsumes(id);
  }

  /** The `node_modules` id of the icon library's own files. */
  const IconsModuleId: string := "node_modules/react-icons"

  /** The icon library's files land in "react-vendor", not in "icons". */
  lemma IconsModuleGoesToReactVendor()
    ensures ManualChunks(IconsModuleId) == Some("react-vendor")
    ensures ManualChunksIconsFirst(IconsModuleId) == Some("icons")
  {
    var id := IconsModuleId;
    assert id[..|"node_modules"|] == "node_modules";
    IncludesPrefix(id, "node_modules");
    assert id[13..13 + |"react-icons"|] == "react-icons";
    IncludesFromOccurrence(id, "react-icons", 13);
    ReactTestSubsumes(id);
  }

  /**
   * The classifier with the "react-icons" test moved in front of the React
   * test, so that the icon library gets its own chunk.
   */
  function ManualChunksIconsFirst(id: string): (r: Option<string>)
    ensures r.None? <==> !Includes(id, "node_modules")
  {
    if Includes(id, "node_modules") then
      if Includes(id, "react-icons") then
        Some("icons")
      else if Includes(id, "react") || Includes(id, "react-dom") || Includes(id, "react-router") then
        Some("react-vendor")
      else
        Some("vendor")
    else
      None
  }

  /**
   * With the icon test first, "icons" is exactly the `node_modules` ids that
   * include "react-icons", and the two classifiers agree on every other id.
   */
  lemma IconsFirstSeparatesIcons(id: string)
    ensures ManualChunksIconsFirst(id) == Some("icons") <==>
      Includes(id, "node_modules") && Includes(id, "react-icons")
    ensures !Includes(id, "react-icons") ==> ManualChunksIconsFirst(id) == ManualChunks(id)
    ensures ManualChunksIconsFirst(id) in {None, Some("icons"), Some("react-vendor"), Some("vendor")}
  {
  }
}
