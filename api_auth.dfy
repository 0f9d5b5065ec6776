/**
 * The server-side session wrapper for API handlers: a request without a
 * session is answered 401 and never reaches the handler; otherwise the
 * session is attached to the request and the handler runs once.
 */
module ApiAuth {
  import opened Wrappers
  import Sessions

  /** How the authentication library's session lookup ends: a session or null, or an exception. */
  datatype Lookup = Found(session: Option<Sessions.Session>) | Throws

  /** How the wrapped handler ends: it answers, it throws before returning, or its promise rejects. */
  datatype HandlerOutcome = Responds(status: int, body: string) | ThrowsSync | Rejects

  /** What the wrapper produces. `Rejected` is a rejection that escapes the wrapper uncaught. */
  datatype Outcome = Unauthorized | AuthFailed | Handled(status: int, body: string) | Rejected

  const UnauthorizedMessage := "No autorizado"
  const AuthFailedMessage := "Error de autenticación"

  /** `getServerSession`: the session the lookup found, or null when it throws. */
  function GetServerSession(lookup: Lookup): (r: Option<Sessions.Session>)
    ensures lookup.Throws? ==> r == None
    ensures lookup.Found? ==> r == lookup.session
  {
    match lookup
    case Throws => None
    case Found(s) => s
  }

  /** The status and error body of the wrapper's own answers. */
  function Response(o: Outcome): (r: Option<(int, string)>)
    ensures o.Unauthorized? ==> r == Some((401, UnauthorizedMessage))
    ensures o.AuthFailed? ==> r == Some((500, AuthFailedMessage))
    ensures o.Handled? ==> r == Some((o.status, o.body))
    ensures o.Rejected? ==> r == None
  {
    match o
    case Unauthorized => Some((401, UnauthorizedMessage))
    case AuthFailed => Some((500, AuthFailedMessage))
    case Handled(status, body) => Some((status, body))
    case Rejected => None
  }

  /**
   * The wrapper's decision. `return handler(req, res)` is not awaited inside
   * the `try`, so only a synchronous throw becomes the 500; a rejected promise
   * passes through.
   */
  function Decide(lookup: Lookup, handler: Sessions.Session -> HandlerOutcome): (o: Outcome)
    ensures o.Unauthorized? <==> GetServerSession(lookup).None?
    ensures GetServerSession(lookup).Some? ==>
              match handler(GetServerSession(lookup).value)
              case Responds(status, body) => o == Handled(status, body)
              case ThrowsSync => o == AuthFailed
              case Rejects => o == Rejected
  {
    match GetServerSession(lookup)
    case None => Unauthorized
    case Some(s) =>
      match handler(s)
      case Responds(status, body) => Handled(status, body)
      case ThrowsSync => AuthFailed
      case Rejects => Rejected
  }

  /** The incoming request; the wrapper adds `session` to it. */
  class ApiRequest {
    var session: Option<Sessions.Session>

    constructor ()
      ensures session == None
    {
      session := None;
    }
  }

  /**
   * `withAuth(handler)` applied to `req`: the request carries the session
   * exactly when one was found. `calls` is incremented by the body at its one
   * call of `handler`; it records that the call is reached only with a session,
   * not anything the handler itself does.
   */
  method WithAuth(req: ApiRequest, lookup: Lookup, handler: Sessions.Session -> HandlerOutcome) returns (o: Outcome, calls: nat)
    modifies req
    ensures o == Decide(lookup, handler)
    ensures calls == (if GetServerSession(lookup).Some? then 1 else 0)
    ensures GetServerSession(lookup).Some? ==> req.session == GetServerSession(lookup)
    ensures GetServerSession(lookup).None? ==> req.session == old(req.session)
  {
    calls := 0;
    var session := GetServerSession(lookup);
    if session.None? {
      return Unauthorized, calls;
    }
    req.session := session;
    var outcome := handler(session.value);
    calls := calls + 1;
    match outcome {
      case Responds(status, body) => o := Handled(status, body);
      case ThrowsSync => o := AuthFailed;
      case Rejects => o := Rejected;
    }
  }

  /** No role check: two sessions that differ only in their role are treated alike by a role-blind handler. */
  lemma NoRoleCheck(s: Sessions.Session, role: Option<string>, handler: Sessions.Session -> HandlerOutcome)
    requires handler(s) == handler(Sessions.WithRole(s, role))
    ensures Decide(Found(Some(s)), handler) == Decide(Found(Some(Sessions.WithRole(s, role))), handler)
    ensures !Decide(Found(Some(s)), handler).Unauthorized?
  {
  }

  /** A lookup that throws ends in 401, never in the 500 of the wrapper. */
  lemma LookupFailureIsUnauthorized(handler: Sessions.Session -> HandlerOutcome)
    ensures Response(Decide(Throws, handler)) == Some((401, UnauthorizedMessage))
  {
  }
}
