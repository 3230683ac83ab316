/**
 * The device and connection predicates of app/hooks/usePerformance.ts and the
 * animation settings `usePerformanceSettings` derives from them.
 */
module Performance {
  import opened Wrappers

  const DefaultBreakpoint: int := 768

  /** `window.innerWidth > breakpoint`. */
  function IsDesktop(width: int, breakpoint: int := DefaultBreakpoint): (r: bool)
    ensures r ==> width >= breakpoint + 1
    ensures !r ==> width <= breakpoint
  {
    width > breakpoint
  }

  /** With the default breakpoint 768, a 768-pixel window is not a desktop and 769 is; wider stays desktop. */
  lemma DesktopThreshold(narrow: int, wide: int)
    requires narrow <= wide
    ensures !IsDesktop(768) && IsDesktop(769)
    ensures IsDesktop(narrow) ==> IsDesktop(wide)
  {
  }

  /** What the Network Information API reports: `effectiveType` and `saveData`. */
  datatype Connection = Connection(effectiveType: Option<string>, saveData: Option<bool>)

  const SlowTypes: seq<string> := ["slow-2g", "2g"]

  /**
   * A slow connection: an effective type of "slow-2g" or "2g", or data saving
   * switched on; never when the browser has no Network Information API.
   */
  function IsSlowConnection(connection: Option<Connection>): (r: bool)
    ensures connection.None? ==> !r
    ensures connection.Some? ==>
      (r <==> connection.value.effectiveType in {Some("slow-2g"), Some("2g")} || connection.value.saveData == Some(true))
  {
    match connection
    case None => false
    case Some(c) => (c.effectiveType.Some? && c.effectiveType.value in SlowTypes) || c.saveData == Some(true)
  }

  datatype Settings = Settings(
    enableHeavyAnimations: bool,
    enableTilt: bool,
    enableHoverEffects: bool,
    animationDuration: string,
    isDesktop: bool,
    isMobile: bool,
    prefersReducedMotion: bool,
    isSlowConnection: bool)

  /**
   * The settings: heavy animations need tilt and a fast connection, tilt and
   * hover effects go together, reduced motion turns all three off, the
   * animation is "fast" exactly on a slow connection, and mobile is
   * not-desktop.
   */
  function PerformanceSettings(isDesktop: bool, prefersReducedMotion: bool, isSlowConnection: bool): (r: Settings)
    ensures r.enableHeavyAnimations <==> r.enableTilt && !isSlowConnection
    ensures r.enableTilt == r.enableHoverEffects
    ensures r.enableTilt <==> isDesktop && !prefersReducedMotion
    ensures prefersReducedMotion ==> !r.enableHeavyAnimations && !r.enableTilt && !r.enableHoverEffects
    ensures r.animationDuration in {"fast", "normal"}
    ensures r.animationDuration == "fast" <==> isSlowConnection
    ensures r.isMobile == !r.isDesktop && r.isDesktop == isDesktop
    ensures r.prefersReducedMotion == prefersReducedMotion && r.isSlowConnection == isSlowConnection
  {
    Settings(
      enableHeavyAnimations := isDesktop && !isSlowConnection && !prefersReducedMotion,
      enableTilt := isDesktop && !prefersReducedMotion,
      enableHoverEffects := isDesktop && !prefersReducedMotion,
      animationDuration := if isSlowConnection then "fast" else "normal",
      isDesktop := isDesktop,
      isMobile := !isDesktop,
      prefersReducedMotion := prefersReducedMotion,
      isSlowConnection := isSlowConnection)
  }
}
