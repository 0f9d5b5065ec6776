/**
 * The `/api/movements` handler over a movement table: GET lists every row
 * newest first with its owner's name and email, POST checks only that the four
 * fields are present and stores the row, any other method is refused.
 */
module MovementsApi {
  import opened Wrappers
  import Ledger

  /** The JSON body of a POST; a field that is absent or null is `None`. */
  datatype Body = Body(concept: Option<string>, amount: Option<real>, date: Option<string>, userId: Option<string>)

  datatype Request = Request(verb: string, body: Body)

  /** A stored movement; `date` is the instant `new Date(date)` produced. */
  datatype Row = Row(id: string, concept: string, amount: real, date: int, userId: string)

  /** A row as GET returns it, with `user: { name, email }` joined in. */
  datatype Listed = Listed(row: Row, user: Ledger.Owner)

  datatype Response =
    | Listing(items: seq<Listed>)
    | Created(row: Row)
    | MissingFields
    | MethodNotAllowed
    | StoreError

  function Status(r: Response): int {
    match r
    case Listing(_) => 200
    case Created(_) => 201
    case MissingFields => 400
    case MethodNotAllowed => 405
    case StoreError => 500
  }

  /** `new Date(s)` as an instant, `None` for an invalid date. */
  type InstantOf = string -> Option<int>

  /** None of `!concept || !amount || !date || !userId` holds: an amount of 0 counts as missing. */
  predicate HasAllFields(b: Body) {
    Truthy(b.concept) && b.amount.Some? && b.amount.value != 0.0 && Truthy(b.date) && Truthy(b.userId)
  }

  /** Ordered by date, newest first. */
  predicate NewestFirst(rs: seq<Row>) {
    forall i, j :: 0 <= i < j < |rs| ==> rs[i].date >= rs[j].date
  }

  /** The head of a newest-first list is at least as new as every row in it. */
  lemma HeadIsNewest(rs: seq<Row>)
    requires NewestFirst(rs)
    ensures rs != [] ==> forall x :: x in rs ==> x.date <= rs[0].date
  {
    forall x | x in rs
      ensures x.date <= rs[0].date
    {
      var j :| 0 <= j < |rs| && rs[j] == x;
      if j > 0 {
        assert rs[0].date >= rs[j].date;
      }
    }
  }

  /** A row at least as new as every row of a newest-first list can go in front of it. */
  lemma ConsNewest(h: Row, t: seq<Row>)
    requires NewestFirst(t)
    requires forall k :: 0 <= k < |t| ==> t[k].date <= h.date
    ensures NewestFirst([h] + t)
    ensures forall i :: 0 < i < |[h] + t| ==> ([h] + t)[i] == t[i - 1]
  {
  }

  /** Places `r` in front of the first row that is not newer than it: the rows are the old ones plus `r`. */
  function InsertByDate(r: Row, rs: seq<Row>): (out: seq<Row>)
    ensures multiset(out) == multiset(rs) + multiset{r}
  {
    if rs == [] || r.date >= rs[0].date then
      [r] + rs
    else
      assert rs == [rs[0]] + rs[1..];
      [rs[0]] + InsertByDate(r, rs[1..])
  }

  /** Inserting into a newest-first list keeps it newest first. */
  lemma {:induction false} InsertByDateSorted(r: Row, rs: seq<Row>)
    requires NewestFirst(rs)
    ensures NewestFirst(InsertByDate(r, rs))
  {
    HeadIsNewest(rs);
    if rs == [] || r.date >= rs[0].date {
      assert forall k :: 0 <= k < |rs| ==> rs[k] in rs;
      ConsNewest(r, rs);
    } else {
      var tail := InsertByDate(r, rs[1..]);
      InsertByDateSorted(r, rs[1..]);
      forall k | 0 <= k < |tail|
        ensures tail[k].date <= rs[0].date
      {
        assert tail[k] in multiset(rs[1..]) + multiset{r};
        assert rs == [rs[0]] + rs[1..];
      }
      ConsNewest(rs[0], tail);
    }
  }

  /** `orderBy: { date: "desc" }`: the rows rearranged newest first. */
  function SortNewestFirst(rs: seq<Row>): (out: seq<Row>)
    ensures NewestFirst(out)
    ensures multiset(out) == multiset(rs)
  {
    if rs == [] then []
    else
      assert rs == [rs[0]] + rs[1..];
      var rest := SortNewestFirst(rs[1..]);
      InsertByDateSorted(rs[0], rest);
      InsertByDate(rs[0], rest)
  }

  /** Every row's owner is a known user. */
  predicate OwnersKnown(rs: seq<Row>, owners: map<string, Ledger.Owner>) {
    forall r :: r in rs ==> r.userId in owners
  }

  /** The rows of a listing, without their owners. */
  function RowsOf(items: seq<Listed>): (rs: seq<Row>)
    ensures |rs| == |items| && forall i :: 0 <= i < |items| ==> rs[i] == items[i].row
  {
    seq(|items|, i requires 0 <= i < |items| => items[i].row)
  }

  /** Owners stay known when the rows are rearranged. */
  lemma OwnersKnownPermuted(a: seq<Row>, b: seq<Row>, owners: map<string, Ledger.Owner>)
    requires multiset(a) == multiset(b) && OwnersKnown(a, owners)
    ensures OwnersKnown(b, owners)
  {
    forall r | r in b
      ensures r.userId in owners
    {
      assert r in multiset(b);
      assert r in a;
    }
  }

  /** `include: { user: { select: { name, email } } }`: each row with its owner. */
  function Join(rs: seq<Row>, owners: map<string, Ledger.Owner>): (items: seq<Listed>)
    requires OwnersKnown(rs, owners)
    ensures RowsOf(items) == rs
    ensures forall i :: 0 <= i < |items| ==> items[i].row.userId in owners && items[i].user == owners[items[i].row.userId]
  {
    if rs == [] then []
    else
      assert rs[0] in rs;
      [Listed(rs[0], owners[rs[0].userId])] + Join(rs[1..], owners)
  }

  /** The GET result: all rows, newest first, each with only its owner's name and email. */
  function ListAll(rs: seq<Row>, owners: map<string, Ledger.Owner>): (items: seq<Listed>)
    requires OwnersKnown(rs, owners)
    ensures |items| == |rs|
    ensures NewestFirst(RowsOf(items))
    ensures multiset(RowsOf(items)) == multiset(rs)
    ensures forall i :: 0 <= i < |items| ==> items[i].row.userId in owners && items[i].user == owners[items[i].row.userId]
  {
    var sorted := SortNewestFirst(rs);
    assert |sorted| == |multiset(sorted)| == |multiset(rs)| == |rs|;
    OwnersKnownPermuted(rs, sorted, owners);
    Join(sorted, owners)
  }

  /** The store accepts the row: the date is a valid date and the user exists. */
  predicate Storable(b: Body, owners: map<string, Ledger.Owner>, instantOf: InstantOf)
    requires HasAllFields(b)
  {
    instantOf(b.date.value).Some? && b.userId.value in owners
  }

  /** The POST branch: 400 on a missing field, otherwise the row the store creates (or its refusal). */
  function Post(b: Body, owners: map<string, Ledger.Owner>, newId: string, instantOf: InstantOf): (r: Response)
    ensures r.MissingFields? <==> !HasAllFields(b)
    ensures r.Created? <==> HasAllFields(b) && Storable(b, owners, instantOf)
    ensures r.Created? ==>
              && r.row.id == newId && Some(r.row.concept) == b.concept && Some(r.row.amount) == b.amount
              && Some(r.row.date) == instantOf(b.date.value) && Some(r.row.userId) == b.userId && r.row.userId in owners
    ensures r.MissingFields? || r.Created? || r.StoreError?
  {
    if !Truthy(b.concept) || b.amount.None? || b.amount.value == 0.0 || !Truthy(b.date) || !Truthy(b.userId) then
      MissingFields
    else if !Storable(b, owners, instantOf) then
      StoreError
    else
      Created(Row(newId, b.concept.value, b.amount.value, instantOf(b.date.value).value, b.userId.value))
  }

  /** The movement table behind the handler, with the users it may reference. */
  class MovementStore {
    var rows: seq<Row>
    const owners: map<string, Ledger.Owner>

    /** Every row references a known user and row ids are unique. */
    ghost predicate Valid()
      reads this
    {
      && OwnersKnown(rows, owners)
      && forall i, j :: 0 <= i < j < |rows| ==> rows[i].id != rows[j].id
    }

    constructor (users: map<string, Ledger.Owner>)
      ensures Valid() && rows == [] && owners == users
    {
      rows := [];
      owners := users;
    }

    /**
     * The handler. `newId` is the id the store generates for a created row.
     * Only a successful POST changes the table, by exactly one new row.
     */
    method Handle(req: Request, newId: string, instantOf: InstantOf) returns (resp: Response)
      requires Valid()
      requires forall i :: 0 <= i < |rows| ==> rows[i].id != newId
      modifies this
      ensures Valid()
      ensures req.verb == "GET" ==> resp == Listing(ListAll(rows, owners)) && rows == old(rows)
      ensures req.verb == "POST" ==> resp == Post(req.body, owners, newId, instantOf)
      ensures req.verb == "POST" && resp.Created? ==> rows == old(rows) + [resp.row]
      ensures req.verb == "POST" && !resp.Created? ==> rows == old(rows)
      ensures req.verb != "GET" && req.verb != "POST" ==> resp == MethodNotAllowed && rows == old(rows)
    {
      if req.verb == "GET" {
        return Listing(ListAll(rows, owners));
      }
      if req.verb == "POST" {
        resp := Post(req.body, owners, newId, instantOf);
        if resp.Created? {
          rows := rows + [resp.row];
        }
        return;
      }
      resp := MethodNotAllowed;
    }
  }

  /** The server enforces no sign and no date rule: a negative amount dated after `now` is stored as given. */
  lemma NoBusinessRules(b: Body, owners: map<string, Ledger.Owner>, newId: string, instantOf: InstantOf, now: int)
    requires HasAllFields(b) && Storable(b, owners, instantOf)
    requires b.amount.value < 0.0 && instantOf(b.date.value).value > now
    ensures Post(b, owners, newId, instantOf).Created?
    ensures Post(b, owners, newId, instantOf).row.amount < 0.0
    ensures Post(b, owners, newId, instantOf).row.date > now
  {
  }

  /** An amount of zero is answered with 400 and nothing is stored. */
  lemma ZeroAmountIsMissing(concept: string, date: string, userId: string, owners: map<string, Ledger.Owner>, newId: string, instantOf: InstantOf)
    ensures Status(Post(Body(Some(concept), Some(0.0), Some(date), Some(userId)), owners, newId, instantOf)) == 400
  {
  }
}
