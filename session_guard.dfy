/**
 * The page guard without a role list: a loading screen while the session is
 * pending, a redirect home when there is none, otherwise the page.
 */
module SessionGuard {
  import opened Wrappers
  import Sessions

  datatype Screen = Loading | Redirecting | Page

  /** What the guard renders, and the route the effect pushes (if any). */
  datatype Render = Render(screen: Screen, push: Option<string>)

  /** The render choice and the effect's redirect, from `isPending` and `session` alone. */
  function Guard(isPending: bool, session: Option<Sessions.Session>): (r: Render)
    ensures isPending ==> r == Render(Loading, None)
    ensures !isPending && session.None? ==> r == Render(Redirecting, Some("/"))
    ensures !isPending && session.Some? ==> r == Render(Page, None)
    ensures r.push.Some? <==> r.screen == Redirecting
  {
    if isPending then Render(Loading, None)
    else if session.None? then Render(Redirecting, Some("/"))
    else Render(Page, None)
  }

  /** The role plays no part in the decision. */
  lemma RoleIndependent(isPending: bool, s: Sessions.Session, role: Option<string>)
    ensures Guard(isPending, Some(s)) == Guard(isPending, Some(Sessions.WithRole(s, role)))
  {
  }

  /**
   * The reports page hands this guard the list `["ADMIN"]`, which it never
   * reads: a signed-in "USER" is shown the page all the same.
   */
  lemma UserSeesAdminPage(u: Sessions.SessionUser)
    ensures Guard(false, Some(Sessions.Session(Some(u.(role := Some("USER")))))).screen == Page
  {
  }
}
