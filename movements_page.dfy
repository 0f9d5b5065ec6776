/**
 * The movements page: the income/expense/balance cards, the search filter,
 * prepending a movement the server created, and the admin gate on the
 * "Nuevo Movimiento" button.
 */
module MovementsPage {
  import opened Wrappers
  import opened Ledger
  import Seqs
  import Text
  import Sessions
  import MovementForm
  import MovementsApi
  import Layout

  /** The three stat cards. */
  datatype Stats = Stats(totalIncome: real, totalExpenses: real, balance: real)

  const SaveErrorMessage := "Error al guardar movimiento"
  const LoadErrorMessage := "Error al cargar movimientos"

  /** The cards: income and expenses are never negative, and the balance is the sum of every amount. */
  function StatsOf(ms: seq<Movement>): (s: Stats)
    ensures s.totalIncome == TotalIncome(Amounts(ms)) && s.totalExpenses == TotalExpenses(Amounts(ms))
    ensures s.totalIncome >= 0.0 && s.totalExpenses >= 0.0
    ensures s.balance == s.totalIncome - s.totalExpenses
    ensures s.balance == Sum(Amounts(ms))
  {
    var xs := Amounts(ms);
    TotalsNonNegative(xs);
    BalanceIsSum(xs);
    Stats(TotalIncome(xs), TotalExpenses(xs), Balance(xs))
  }

  /** The search predicate: the lower-cased term occurs in the lower-cased concept, user name or email. */
  predicate Matches(m: Movement, term: string) {
    var t := Text.ToLower(term);
    || Text.Contains(Text.ToLower(m.concept), t)
    || (m.user.name.Some? && Text.Contains(Text.ToLower(m.user.name.value), t))
    || Text.Contains(Text.ToLower(m.user.email), t)
  }

  /** `filteredMovements`: exactly the matching movements, in their original order; an empty term keeps all. */
  function FilteredMovements(ms: seq<Movement>, term: string): (r: seq<Movement>)
    ensures Seqs.IsSubsequence(r, ms)
    ensures forall i :: 0 <= i < |r| ==> Matches(r[i], term)
    ensures forall i :: 0 <= i < |ms| && Matches(ms[i], term) ==> ms[i] in r
    ensures forall m: Movement :: multiset(r)[m] == if Matches(m, term) then multiset(ms)[m] else 0
    ensures term == "" ==> r == ms
  {
    var p := (m: Movement) => Matches(m, term);
    Seqs.FilterIsSubsequence(ms, p);
    Seqs.FilterCount(ms, p);
    if term == "" then
      EveryMovementMatchesEmpty(ms);
      Seqs.FilterAll(ms, p);
      Seqs.Filter(ms, p)
    else
      Seqs.Filter(ms, p)
  }

  /** The empty term occurs in every concept. */
  lemma EveryMovementMatchesEmpty(ms: seq<Movement>)
    ensures forall i :: 0 <= i < |ms| ==> Matches(ms[i], "")
  {
    forall i | 0 <= i < |ms|
      ensures Matches(ms[i], "")
    {
      Text.ContainsEmpty(Text.ToLower(ms[i].concept));
    }
  }

  /** `isAdmin`: a signed-in user whose role is "ADMIN" or absent. */
  predicate IsAdmin(session: Option<Sessions.Session>) {
    Sessions.HasUser(session)
      && (Sessions.RoleOf(session) == Some("ADMIN") || Sessions.RoleOf(session) == None)
  }

  /** The POST body: the form's data plus `userId: session?.user?.id` (absent when there is none). */
  function PostBody(data: MovementForm.Submission, session: Option<Sessions.Session>): (b: MovementsApi.Body)
    ensures b.concept == Some(data.concept) && b.amount == Some(data.amount) && b.date == Some(data.date)
    ensures b.userId.Some? <==> Sessions.HasUser(session) && session.value.user.value.id.Some?
    ensures b.userId == (if Sessions.HasUser(session) then session.value.user.value.id else None)
  {
    var userId := if Sessions.HasUser(session) then session.value.user.value.id else None;
    MovementsApi.Body(Some(data.concept), Some(data.amount), Some(data.date), userId)
  }

  /** The page's state. */
  class MovementsPageState {
    const session: Option<Sessions.Session>
    var movements: seq<Movement>
    var loading: bool
    var error: string
    var showModal: bool
    var submitting: bool

    /** The initial `useState` values, for the visitor's session. */
    constructor (s: Option<Sessions.Session>)
      ensures session == s && movements == [] && loading && error == "" && !showModal && !submitting
    {
      session := s;
      movements := [];
      loading := true;
      error := "";
      showModal := false;
      submitting := false;
    }

    /**
     * The load effect, with the parsed body's `movements` field as `loaded`
     * (`None` when the request fails): the list is `data.movements || []`;
     * loading ends either way.
     */
    method HandleLoad(loaded: Option<Option<seq<Movement>>>)
      modifies this`movements, this`loading, this`error
      ensures !loading
      ensures loaded.Some? ==> movements == loaded.value.GetOr([]) && error == old(error)
      ensures loaded.None? ==> movements == old(movements) && error == LoadErrorMessage
    {
      match loaded {
        case Some(field) =>
          movements := field.GetOr([]);
        case None =>
          error := LoadErrorMessage;
      }
      loading := false;
    }

    /** The add button is disabled while submitting or for a non-admin. */
    function AddDisabled(): bool
      reads this
    {
      submitting || !IsAdmin(session)
    }

    /** The add button's `onClick`: `isAdmin && setShowModal(true)`. */
    method ClickAdd()
      modifies this`showModal
      ensures showModal == (old(showModal) || IsAdmin(session))
      ensures !old(AddDisabled()) ==> showModal
    {
      if IsAdmin(session) {
        showModal := true;
      }
    }

    /**
     * `handleAddMovement`, with the server's answer as `created` (`None` for a
     * failed request): a created movement goes in front of the list and closes
     * the modal; a failure leaves the list and the modal as they were and sets the error.
     */
    method HandleAddMovement(created: Option<Movement>)
      modifies this`movements, this`error, this`showModal, this`submitting
      ensures created.Some? ==> movements == [created.value] + old(movements) && !showModal && error == ""
      ensures created.None? ==> movements == old(movements) && showModal == old(showModal) && error == SaveErrorMessage
      ensures !submitting
    {
      submitting := true;
      error := "";
      if created.Some? {
        movements := [created.value] + movements;
        showModal := false;
      } else {
        error := SaveErrorMessage;
      }
      submitting := false;
    }
  }

  /** Prepending a movement moves the balance by exactly its amount, and each total by its share. */
  lemma PrependUpdatesStats(m: Movement, ms: seq<Movement>)
    ensures StatsOf([m] + ms).balance == m.amount + StatsOf(ms).balance
    ensures StatsOf([m] + ms).totalIncome == (if m.amount > 0.0 then m.amount else 0.0) + StatsOf(ms).totalIncome
    ensures StatsOf([m] + ms).totalExpenses == (if m.amount < 0.0 then -m.amount else 0.0) + StatsOf(ms).totalExpenses
  {
    AmountsCons(m, ms);
    TotalsCons(m.amount, Amounts(ms));
    BalanceIsSum(Amounts(ms));
    BalanceIsSum([m.amount] + Amounts(ms));
  }

  /** A role other than "ADMIN" hides the button; a missing role or no session has the stated outcome. */
  lemma IsAdminCases(u: Sessions.SessionUser)
    ensures !IsAdmin(None)
    ensures !IsAdmin(Some(Sessions.Session(None)))
    ensures IsAdmin(Some(Sessions.Session(Some(u.(role := None)))))
    ensures IsAdmin(Some(Sessions.Session(Some(u.(role := Some("ADMIN"))))))
    ensures !IsAdmin(Some(Sessions.Session(Some(u.(role := Some("USER"))))))
  {
  }

  /**
   * What the form lets through, the server's presence check accepts, as long
   * as the session carries a user id; without one the server answers 400.
   */
  lemma FormSubmissionPassesPresenceCheck(f: MovementForm.Fields, now: int, instantOf: MovementForm.InstantOf, session: Option<Sessions.Session>)
    requires MovementForm.ValidationError(f, now, instantOf) == None
    ensures var body := PostBody(MovementForm.Submission(Text.Trim(f.concept), f.amount.n.value, f.date), session);
      MovementsApi.HasAllFields(body) <==> Sessions.HasUser(session) && Truthy(session.value.user.value.id)
  {
    MovementForm.SubmissionWellFormed(f, now, instantOf);
  }

  /** For a signed-in user, the page's admin gate agrees with the layout's, which defaults a missing role to "ADMIN". */
  lemma AdminGateMatchesLayout(session: Option<Sessions.Session>)
    ensures IsAdmin(session) <==> Sessions.HasUser(session) && Layout.IsAdmin(session)
  {
  }
}
