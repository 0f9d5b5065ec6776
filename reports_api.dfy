/**
 * The `/api/reports` handler: GET returns every stored movement together with
 * `saldo`, the sum of their amounts; any other method is refused.
 */
module ReportsApi {
  import Ledger
  import MovementsApi
  import Seqs

  /** The role list the handler is wrapped with. */
  const AllowedRoles: seq<string> := ["ADMIN"]

  datatype Response =
    | Report(movements: seq<MovementsApi.Row>, saldo: real)
    | MethodNotAllowed

  function Status(r: Response): int {
    match r
    case Report(_, _) => 200
    case MethodNotAllowed => 405
  }

  /** The amounts of the stored rows, in order. */
  function RowAmounts(rows: seq<MovementsApi.Row>): seq<real> {
    Seqs.Map(rows, (r: MovementsApi.Row) => r.amount)
  }

  /** `reduce((acc, m) => acc + m.amount, acc)`: left to right from an accumulator. */
  function Reduce(acc: real, rows: seq<MovementsApi.Row>): real
    decreases |rows|
  {
    if rows == [] then acc else Reduce(acc + rows[0].amount, rows[1..])
  }

  /** The left fold adds the plain sum of the amounts to its accumulator. */
  lemma {:induction false} ReduceIsSum(acc: real, rows: seq<MovementsApi.Row>)
    ensures Reduce(acc, rows) == acc + Ledger.Sum(RowAmounts(rows))
    decreases |rows|
  {
    if rows != [] {
      ReduceIsSum(acc + rows[0].amount, rows[1..]);
      assert RowAmounts(rows)[1..] == RowAmounts(rows[1..]);
    }
  }

  /** `saldo`: the sum of all amounts, zero for an empty table, and the balance income minus expenses. */
  function Saldo(rows: seq<MovementsApi.Row>): (s: real)
    ensures s == Ledger.Sum(RowAmounts(rows))
    ensures s == Ledger.Balance(RowAmounts(rows))
    ensures rows == [] ==> s == 0.0
  {
    ReduceIsSum(0.0, rows);
    Ledger.BalanceIsSum(RowAmounts(rows));
    Reduce(0.0, rows)
  }

  /** The handler over the table's current rows (`findMany` returns them as stored). */
  function Handle(verb: string, rows: seq<MovementsApi.Row>): (r: Response)
    ensures verb == "GET" <==> r.Report?
    ensures r.Report? ==> r.movements == rows && r.saldo == Ledger.Balance(RowAmounts(rows))
    ensures verb != "GET" ==> r == MethodNotAllowed && Status(r) == 405
  {
    if verb == "GET" then Report(rows, Saldo(rows)) else MethodNotAllowed
  }

  /** For the same amounts, the server's saldo is the movements page's income minus expenses. */
  lemma SaldoMatchesPage(rows: seq<MovementsApi.Row>, ms: seq<Ledger.Movement>)
    requires Ledger.Amounts(ms) == RowAmounts(rows)
    ensures Saldo(rows) == Ledger.TotalIncome(Ledger.Amounts(ms)) - Ledger.TotalExpenses(Ledger.Amounts(ms))
  {
  }

  /** The reports test's table: a salary of 2500 and a rent of -800 give a saldo of 1700. */
  lemma SalaryAndRentScenario(d1: int, d2: int, user: string)
    ensures var rows := [MovementsApi.Row("1", "Salario enero", 2500.0, d1, user), MovementsApi.Row("2", "Alquiler", -800.0, d2, user)];
      Handle("GET", rows) == Report(rows, 1700.0)
  {
    var rows := [MovementsApi.Row("1", "Salario enero", 2500.0, d1, user), MovementsApi.Row("2", "Alquiler", -800.0, d2, user)];
    assert RowAmounts(rows) == [2500.0, -800.0];
    assert [2500.0, -800.0][1..] == [-800.0];
  }
}
