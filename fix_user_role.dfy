/**
 * The role-repair endpoint: it looks up the signed-in user's row and, unless
 * its role is already "ADMIN", promotes that one row to "ADMIN" in place.
 */
module FixUserRole {
  import opened Wrappers
  import Sessions

  /** A user row as the endpoint selects it. */
  datatype UserRow = UserRow(id: string, name: Option<string>, email: string, role: Option<string>)

  /** The `session_user` part of the answer. */
  datatype SessionReport = SessionReport(id: Option<string>, email: Option<string>, name: Option<string>, role: string)

  datatype Response =
    | NoUserId
    | NotFound
    | Checked(action: string, user: UserRow, sessionUser: SessionReport)

  const NoChange := "no_change"
  const UpdatedToAdmin := "updated_to_admin"
  const NotInSession := "NOT_IN_SESSION"

  function Status(r: Response): int {
    match r
    case NoUserId => 400
    case NotFound => 404
    case Checked(_, _, _) => 200
  }

  /** `session?.user?.id`, kept only when truthy. */
  function SessionUserId(session: Option<Sessions.Session>): (r: Option<string>)
    ensures r.Some? ==> Sessions.HasUser(session) && r == session.value.user.value.id && r.value != ""
    ensures r.None? ==> !Sessions.HasUser(session) || !Truthy(session.value.user.value.id)
  {
    if Sessions.HasUser(session) && Truthy(session.value.user.value.id) then session.value.user.value.id else None
  }

  /** `session_user`: the session's id, email and name, and its role or "NOT_IN_SESSION". */
  function Report(u: Sessions.SessionUser): (r: SessionReport)
    ensures r.id == u.id && r.email == u.email && r.name == u.name
    ensures r.role == (if Truthy(u.role) then u.role.value else NotInSession)
    ensures r.role != ""
  {
    SessionReport(u.id, u.email, u.name, if Truthy(u.role) then u.role.value else NotInSession)
  }

  /** The row needs promoting: its role is missing, empty or anything but "ADMIN". */
  predicate NeedsPromotion(row: UserRow) {
    row.role != Some("ADMIN")
  }

  /** Every row is stored under its own id. */
  predicate KeyedById(users: map<string, UserRow>) {
    forall k :: k in users ==> users[k].id == k
  }

  /**
   * The whole endpoint as a function of the table and the session: the answer
   * and the table afterwards.
   */
  function Fix(users: map<string, UserRow>, session: Option<Sessions.Session>): (out: (Response, map<string, UserRow>))
    ensures out.0.NoUserId? <==> SessionUserId(session).None?
    ensures out.0.NotFound? <==> SessionUserId(session).Some? && SessionUserId(session).value !in users
    ensures !out.0.Checked? ==> out.1 == users
    ensures out.0.Checked? ==>
              && SessionUserId(session).Some? && SessionUserId(session).value in users
              && var id := SessionUserId(session).value;
              && out.0.user.role == Some("ADMIN")
              && out.0.user == users[id].(role := Some("ADMIN"))
              && out.1 == users[id := out.0.user]
              && (out.0.action == UpdatedToAdmin <==> NeedsPromotion(users[id]))
              && (out.0.action == NoChange <==> !NeedsPromotion(users[id]))
              && out.0.sessionUser == Report(session.value.user.value)
  {
    match SessionUserId(session)
    case None => (NoUserId, users)
    case Some(id) =>
      if id !in users then (NotFound, users)
      else
        var row := users[id];
        var report := Report(session.value.user.value);
        if NeedsPromotion(row) then
          var promoted := row.(role := Some("ADMIN"));
          (Checked(UpdatedToAdmin, promoted, report), users[id := promoted])
        else
          assert row.(role := Some("ADMIN")) == row;
          assert users[id := row] == users;
          (Checked(NoChange, row, report), users)
  }

  /** The user table behind the endpoint. */
  class UserTable {
    var users: map<string, UserRow>

    constructor (rows: map<string, UserRow>)
      requires KeyedById(rows)
      ensures users == rows && KeyedById(users)
    {
      users := rows;
    }

    /** The handler: `action` and `updatedUser` start as "no change" and are reassigned by a promotion. */
    method FixRole(session: Option<Sessions.Session>) returns (resp: Response)
      requires KeyedById(users)
      modifies this
      ensures KeyedById(users)
      ensures (resp, users) == Fix(old(users), session)
    {
      var userId := SessionUserId(session);
      if userId.None? {
        return NoUserId;
      }
      var id := userId.value;
      if id !in users {
        return NotFound;
      }
      var user := users[id];
      var action := NoChange;
      var updatedUser := user;
      if user.role.None? || user.role.value != "ADMIN" {
        updatedUser := user.(role := Some("ADMIN"));
        users := users[id := updatedUser];
        action := UpdatedToAdmin;
      }
      resp := Checked(action, updatedUser, Report(session.value.user.value));
    }
  }

  /** Only the session user's row changes, and in that row only the role. */
  lemma OnlyOwnRoleChanges(users: map<string, UserRow>, session: Option<Sessions.Session>)
    requires KeyedById(users)
    ensures var after := Fix(users, session).1;
      && after.Keys == users.Keys
      && KeyedById(after)
      && (forall k :: k in users && Some(k) != SessionUserId(session) ==> after[k] == users[k])
      && (forall k :: k in users ==> after[k].(role := users[k].role) == users[k])
  {
  }

  /** A second call after a promotion reports "no_change" and leaves the table as the first call left it. */
  lemma Idempotent(users: map<string, UserRow>, session: Option<Sessions.Session>)
    requires Fix(users, session).0.Checked?
    ensures var (first, after) := Fix(users, session);
      && Fix(after, session).0.action == NoChange
      && Fix(after, session).1 == after
      && Fix(after, session).0.user == first.user
  {
  }
}
