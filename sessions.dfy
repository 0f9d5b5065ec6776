/**
 * The caller identity the authentication library hands to pages and API
 * handlers. Every field is optional, as the code reads each with `?.`.
 */
module Sessions {
  import opened Wrappers

  datatype SessionUser = SessionUser(id: Option<string>, email: Option<string>, name: Option<string>, role: Option<string>)

  /** A session object; `user` is what `session.user` holds. */
  datatype Session = Session(user: Option<SessionUser>)

  /** `session?.user?.role`, keeping only a truthy value. */
  function RoleOf(session: Option<Session>): Option<string> {
    if session.Some? && session.value.user.Some? && Truthy(session.value.user.value.role)
    then session.value.user.value.role
    else None
  }

  /** `!!session?.user`. */
  predicate HasUser(session: Option<Session>) {
    session.Some? && session.value.user.Some?
  }

  /** The same session with the user's role replaced. */
  function WithRole(s: Session, role: Option<string>): Session {
    match s.user
    case None => s
    case Some(u) => Session(Some(u.(role := role)))
  }
}
