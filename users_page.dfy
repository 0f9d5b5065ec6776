/**
 * The users page: loading the list, the search filter, the role counts, and
 * merging the server's updated record into the one entry with its id.
 */
module UsersPage {
  import opened Wrappers
  import Seqs
  import Text

  datatype User = User(id: string, name: Option<string>, email: string, phone: Option<string>, role: string)

  /**
   * The record the server returns after an update, spread over the old entry:
   * a field that is `None` here is absent from the response and keeps the old value.
   */
  datatype UserPatch = UserPatch(
    id: Option<string>,
    name: Option<Option<string>>,
    email: Option<string>,
    phone: Option<Option<string>>,
    role: Option<string>)

  /**
   * How the initial `fetch("/api/users")` ends: a body with `users`, a non-ok
   * response whose body may carry `error`, or a request that fails with a message.
   */
  datatype LoadResult =
    | Loaded(users: Option<seq<User>>)
    | NotOk(detail: Option<string>)
    | Failed(message: Option<string>)

  const UpdateErrorMessage := "Error al actualizar usuario"
  const LoadErrorMessage := "Error al cargar usuarios"
  const PermissionErrorMessage := "Error de permisos o de servidor"

  /** `{ ...u, ...updated }`: every field the patch carries overrides the entry's. */
  function Merge(u: User, p: UserPatch): (r: User)
    ensures r.id == p.id.GetOr(u.id)
    ensures r.name == p.name.GetOr(u.name) && r.email == p.email.GetOr(u.email)
    ensures r.phone == p.phone.GetOr(u.phone) && r.role == p.role.GetOr(u.role)
  {
    User(p.id.GetOr(u.id), p.name.GetOr(u.name), p.email.GetOr(u.email), p.phone.GetOr(u.phone), p.role.GetOr(u.role))
  }

  /** The entry is the one the patch names. */
  predicate Targets(u: User, p: UserPatch) {
    p.id == Some(u.id)
  }

  /**
   * `users.map(u => u.id === updated.id ? { ...u, ...updated } : u)`:
   * same length and order, targeted entries merged, every other entry untouched,
   * every id in place, and no change at all when no entry has the patch's id.
   */
  function ReplaceById(users: seq<User>, p: UserPatch): (r: seq<User>)
    ensures |r| == |users|
    ensures forall i :: 0 <= i < |users| && Targets(users[i], p) ==> r[i] == Merge(users[i], p)
    ensures forall i :: 0 <= i < |users| && !Targets(users[i], p) ==> r[i] == users[i]
    ensures forall i :: 0 <= i < |users| ==> r[i].id == users[i].id
    ensures (forall i :: 0 <= i < |users| ==> !Targets(users[i], p)) ==> r == users
  {
    seq(|users|, i requires 0 <= i < |users| => if Targets(users[i], p) then Merge(users[i], p) else users[i])
  }

  /** Applying the same update twice is the same as applying it once. */
  lemma ReplaceIdempotent(users: seq<User>, p: UserPatch)
    ensures ReplaceById(ReplaceById(users, p), p) == ReplaceById(users, p)
  {
    var once := ReplaceById(users, p);
    var twice := ReplaceById(once, p);
    forall i | 0 <= i < |users|
      ensures twice[i] == once[i]
    {
      if Targets(users[i], p) {
        assert Targets(once[i], p);
        assert Merge(Merge(users[i], p), p) == Merge(users[i], p);
      }
    }
  }

  /** The search predicate over name (when present), email and role, all lower-cased. */
  predicate Matches(u: User, term: string) {
    var t := Text.ToLower(term);
    || (u.name.Some? && Text.Contains(Text.ToLower(u.name.value), t))
    || Text.Contains(Text.ToLower(u.email), t)
    || Text.Contains(Text.ToLower(u.role), t)
  }

  /** The empty term occurs in every email. */
  lemma EveryUserMatchesEmpty(users: seq<User>)
    ensures forall i :: 0 <= i < |users| ==> Matches(users[i], "")
  {
    forall i | 0 <= i < |users|
      ensures Matches(users[i], "")
    {
      Text.ContainsEmpty(Text.ToLower(users[i].email));
    }
  }

  /** `filteredUsers`: exactly the matching users, in their original order; an empty term keeps all. */
  function FilteredUsers(users: seq<User>, term: string): (r: seq<User>)
    ensures Seqs.IsSubsequence(r, users)
    ensures forall i :: 0 <= i < |r| ==> Matches(r[i], term)
    ensures forall i :: 0 <= i < |users| && Matches(users[i], term) ==> users[i] in r
    ensures forall u: User :: multiset(r)[u] == if Matches(u, term) then multiset(users)[u] else 0
    ensures term == "" ==> r == users
  {
    var p := (u: User) => Matches(u, term);
    Seqs.FilterIsSubsequence(users, p);
    Seqs.FilterCount(users, p);
    if term == "" then
      EveryUserMatchesEmpty(users);
      Seqs.FilterAll(users, p);
      Seqs.Filter(users, p)
    else
      Seqs.Filter(users, p)
  }

  /** The three stat cards. */
  datatype Counts = Counts(total: nat, admins: nat, regulars: nat)

  /** `totalUsers`, `adminUsers` (role "ADMIN") and `regularUsers` (role "USER"): no user is counted twice. */
  function CountsOf(users: seq<User>): (c: Counts)
    ensures c.total == |users|
    ensures c.admins == |Seqs.Filter(users, (u: User) => u.role == "ADMIN")|
    ensures c.regulars == |Seqs.Filter(users, (u: User) => u.role == "USER")|
    ensures c.admins + c.regulars <= c.total
  {
    var isAdmin := (u: User) => u.role == "ADMIN";
    var isRegular := (u: User) => u.role == "USER";
    Seqs.FilterDisjointBound(users, isAdmin, isRegular);
    Counts(|users|, |Seqs.Filter(users, isAdmin)|, |Seqs.Filter(users, isRegular)|)
  }

  /** The page's state. */
  class UsersPageState {
    var users: seq<User>
    var loading: bool
    var error: string
    var editUser: Option<User>
    var submitting: bool

    /** The initial `useState` values. */
    constructor ()
      ensures users == [] && loading && error == "" && editUser == None && !submitting
    {
      users, loading, error, editUser, submitting := [], true, "", None, false;
    }

    /**
     * The load effect: the list is `data.users || []`; a non-ok response shows
     * the body's `error` or the permission message, a failed request its own
     * message or the load message; either way loading ends.
     */
    method HandleLoad(result: LoadResult)
      modifies this`users, this`loading, this`error
      ensures !loading
      ensures result.Loaded? ==> users == result.users.GetOr([]) && error == old(error)
      ensures !result.Loaded? ==> users == old(users) && error != ""
      ensures result.NotOk? ==> error == (if Truthy(result.detail) then result.detail.value else PermissionErrorMessage)
      ensures result.Failed? ==> error == (if Truthy(result.message) then result.message.value else LoadErrorMessage)
    {
      match result {
        case Loaded(us) =>
          users := us.GetOr([]);
        case NotOk(d) =>
          error := if Truthy(d) then d.value else PermissionErrorMessage;
        case Failed(m) =>
          error := if Truthy(m) then m.value else LoadErrorMessage;
      }
      loading := false;
    }

    /** `handleEdit`: opens the edit form on the chosen user. */
    method HandleEdit(u: User)
      modifies this`editUser
      ensures editUser == Some(u)
    {
      editUser := Some(u);
    }

    /**
     * `handleUpdateUser`, with the server's answer as `updated` (`None` for a
     * failed request): a success merges the record into the entries with its
     * id and closes the form; a failure changes no entry and sets the error.
     */
    method HandleUpdateUser(updated: Option<UserPatch>)
      modifies this`users, this`error, this`editUser, this`submitting
      ensures updated.Some? ==> users == ReplaceById(old(users), updated.value) && editUser == None && error == ""
      ensures updated.None? ==> users == old(users) && editUser == old(editUser) && error == UpdateErrorMessage
      ensures !submitting
    {
      submitting := true;
      error := "";
      if updated.Some? {
        users := ReplaceById(users, updated.value);
        editUser := None;
      } else {
        error := UpdateErrorMessage;
      }
      submitting := false;
    }
  }
}
