/**
 * The page guard with a role list: after the session arrives it either sends
 * the visitor to sign in, sends them home, or authorizes the page.
 */
module RoleGuard {
  import opened Wrappers
  import Sessions

  datatype Decision = ToSignIn | ToHome | Authorize

  /** The guard's screen: loading, nothing, or the wrapped page. */
  datatype View = Loading | Nothing | Page

  const SignInRoute := "/auth/signin"
  const HomeRoute := "/"

  /** The role is required only when the list is non-empty, and must then be a truthy member of it. */
  predicate RoleAllowed(session: Option<Sessions.Session>, allowedRoles: seq<string>) {
    |allowedRoles| == 0 || (Sessions.RoleOf(session).Some? && Sessions.RoleOf(session).value in allowedRoles)
  }

  /** The `getSession().then` decision: exactly one of the three outcomes. */
  function Decide(session: Option<Sessions.Session>, allowedRoles: seq<string>): (d: Decision)
    ensures d == ToSignIn <==> session.None?
    ensures d == ToHome <==> session.Some? && !RoleAllowed(session, allowedRoles)
    ensures d == Authorize <==> session.Some? && RoleAllowed(session, allowedRoles)
  {
    if session.None? then ToSignIn
    else if |allowedRoles| > 0 && (Sessions.RoleOf(session).None? || Sessions.RoleOf(session).value !in allowedRoles) then ToHome
    else Authorize
  }

  /** The route a decision replaces the current one with. */
  function Redirect(d: Decision): (r: Option<string>)
    ensures r.None? <==> d == Authorize
    ensures d == ToSignIn ==> r == Some(SignInRoute)
    ensures d == ToHome ==> r == Some(HomeRoute)
  {
    match d
    case ToSignIn => Some(SignInRoute)
    case ToHome => Some(HomeRoute)
    case Authorize => None
  }

  /** The guard's state for one wrapped page. */
  class GuardState {
    const allowedRoles: seq<string>
    var loading: bool
    var authorized: bool

    constructor (roles: seq<string>)
      ensures allowedRoles == roles && loading && !authorized
    {
      allowedRoles := roles;
      loading := true;
      authorized := false;
    }

    /** The rendered screen: the page only when not loading and authorized. */
    function View(): (v: View)
      reads this
      ensures v == Page <==> !loading && authorized
      ensures v == Loading <==> loading
    {
      if loading then Loading else if !authorized then Nothing else Page
    }

    /** The effect's callback: the redirect it issues, `authorized` only for the third outcome, and loading ends. */
    method OnSession(session: Option<Sessions.Session>) returns (redirect: Option<string>)
      modifies this`loading, this`authorized
      ensures redirect == Redirect(Decide(session, allowedRoles))
      ensures authorized == (old(authorized) || Decide(session, allowedRoles) == Authorize)
      ensures !loading
    {
      var d := Decide(session, allowedRoles);
      redirect := Redirect(d);
      if d == Authorize {
        authorized := true;
      }
      loading := false;
    }
  }

  /** With no role list every signed-in visitor is authorized, whatever the role. */
  lemma EmptyListAuthorizesEverySession(s: Sessions.Session)
    ensures Decide(Some(s), []) == Authorize
  {
  }

  /** With the admin-only list, a "USER" role or a missing role is sent home. */
  lemma AdminOnlyScenarios(u: Sessions.SessionUser)
    ensures Decide(Some(Sessions.Session(Some(u.(role := Some("USER"))))), ["ADMIN"]) == ToHome
    ensures Decide(Some(Sessions.Session(Some(u.(role := None)))), ["ADMIN"]) == ToHome
    ensures Decide(Some(Sessions.Session(Some(u.(role := Some("ADMIN"))))), ["ADMIN"]) == Authorize
  {
  }
}
