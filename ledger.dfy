/**
 * Movements as the client pages hold them, and the sums every view of the
 * ledger is built from: income, expenses and balance over signed amounts.
 */
module Ledger {
  import opened Wrappers
  import Seqs

  /** The owner of a movement as the listing exposes it: name and email only. */
  datatype Owner = Owner(name: Option<string>, email: string)

  /** A movement as fetched by the pages: a positive amount is income, a negative one an expense. */
  datatype Movement = Movement(id: string, concept: string, amount: real, date: string, user: Owner)

  function Abs(x: real): real {
    if x < 0.0 then -x else x
  }

  /** The amounts of a list of movements, in order. */
  function Amounts(ms: seq<Movement>): seq<real> {
    Seqs.Map(ms, (m: Movement) => m.amount)
  }

  /** The amounts after a movement in front: its amount, then the others'. */
  lemma AmountsCons(m: Movement, ms: seq<Movement>)
    ensures Amounts([m] + ms) == [m.amount] + Amounts(ms)
  {
  }

  /** `reduce((sum, x) => sum + x, 0)`. */
  function Sum(xs: seq<real>): real {
    if xs == [] then 0.0 else xs[0] + Sum(xs[1..])
  }

  /** `reduce((sum, x) => sum + Math.abs(x), 0)`. */
  function SumAbs(xs: seq<real>): real {
    if xs == [] then 0.0 else Abs(xs[0]) + SumAbs(xs[1..])
  }

  predicate IsIncome(x: real) { x > 0.0 }
  predicate IsExpense(x: real) { x < 0.0 }
  predicate IsNonNegative(x: real) { x >= 0.0 }

  /** `amounts.filter(a => a > 0).reduce(+)`. */
  function TotalIncome(xs: seq<real>): real {
    Sum(Seqs.Filter(xs, IsIncome))
  }

  /** `amounts.filter(a => a < 0).reduce(+ Math.abs)`. */
  function TotalExpenses(xs: seq<real>): real {
    SumAbs(Seqs.Filter(xs, IsExpense))
  }

  /** `totalIncome - totalExpenses`. */
  function Balance(xs: seq<real>): real {
    TotalIncome(xs) - TotalExpenses(xs)
  }

  /** A sum of amounts that all satisfy `x >= 0` is itself non-negative. */
  lemma {:induction false} SumOfNonNegative(xs: seq<real>)
    requires forall i :: 0 <= i < |xs| ==> xs[i] >= 0.0
    ensures Sum(xs) >= 0.0
    decreases |xs|
  {
    if xs != [] {
      SumOfNonNegative(xs[1..]);
    }
  }

  /** A sum of absolute values is non-negative. */
  lemma {:induction false} SumAbsNonNegative(xs: seq<real>)
    ensures SumAbs(xs) >= 0.0
    decreases |xs|
  {
    if xs != [] {
      SumAbsNonNegative(xs[1..]);
    }
  }

  /** Both totals are non-negative. */
  lemma TotalsNonNegative(xs: seq<real>)
    ensures TotalIncome(xs) >= 0.0 && TotalExpenses(xs) >= 0.0
  {
    SumOfNonNegative(Seqs.Filter(xs, IsIncome));
    SumAbsNonNegative(Seqs.Filter(xs, IsExpense));
  }

  /** Filtering, one element at a time from the front. */
  lemma FilterCons(xs: seq<real>, p: real -> bool)
    requires xs != []
    ensures Seqs.Filter(xs, p) == (if p(xs[0]) then [xs[0]] else []) + Seqs.Filter(xs[1..], p)
  {
  }

  /** Summing after an optional head element. */
  lemma SumCons(head: seq<real>, ys: seq<real>)
    requires |head| <= 1
    ensures Sum(head + ys) == (if head == [] then 0.0 else head[0]) + Sum(ys)
    ensures SumAbs(head + ys) == (if head == [] then 0.0 else Abs(head[0])) + SumAbs(ys)
  {
    if head != [] {
      assert (head + ys)[1..] == ys;
    } else {
      assert head + ys == ys;
    }
  }

  /** Summing with one more amount at the back. */
  lemma {:induction false} SumSnoc(xs: seq<real>, x: real)
    ensures Sum(xs + [x]) == Sum(xs) + x
    ensures SumAbs(xs + [x]) == SumAbs(xs) + Abs(x)
    decreases |xs|
  {
    if xs == [] {
      assert xs + [x] == [x];
    } else {
      SumSnoc(xs[1..], x);
      assert (xs + [x])[1..] == xs[1..] + [x];
    }
  }

  /** A sum splits over a concatenation. */
  lemma {:induction false} SumAppend(xs: seq<real>, ys: seq<real>)
    ensures Sum(xs + ys) == Sum(xs) + Sum(ys)
    decreases |xs|
  {
    if xs == [] {
      assert xs + ys == ys;
    } else {
      SumAppend(xs[1..], ys);
      assert (xs + ys)[1..] == xs[1..] + ys;
    }
  }

  /** How each total changes when one amount is put in front. */
  lemma TotalsCons(x: real, ys: seq<real>)
    ensures TotalIncome([x] + ys) == (if IsIncome(x) then x else 0.0) + TotalIncome(ys)
    ensures TotalExpenses([x] + ys) == (if IsExpense(x) then -x else 0.0) + TotalExpenses(ys)
    ensures Sum(Seqs.Filter([x] + ys, IsNonNegative)) == (if IsNonNegative(x) then x else 0.0) + Sum(Seqs.Filter(ys, IsNonNegative))
  {
    var xs := [x] + ys;
    assert xs[0] == x && xs[1..] == ys;
    FilterCons(xs, IsIncome);
    FilterCons(xs, IsExpense);
    FilterCons(xs, IsNonNegative);
    SumCons(if IsIncome(x) then [x] else [], Seqs.Filter(ys, IsIncome));
    SumCons(if IsExpense(x) then [x] else [], Seqs.Filter(ys, IsExpense));
    SumCons(if IsNonNegative(x) then [x] else [], Seqs.Filter(ys, IsNonNegative));
  }

  /** The balance is the plain sum of all amounts: income minus expenses loses nothing. */
  lemma {:induction false} BalanceIsSum(xs: seq<real>)
    ensures Balance(xs) == Sum(xs)
    decreases |xs|
  {
    if xs != [] {
      BalanceIsSum(xs[1..]);
      TotalsCons(xs[0], xs[1..]);
      assert [xs[0]] + xs[1..] == xs;
    }
  }

  /** A zero amount contributes to neither total, wherever it is added. */
  lemma ZeroIsNeutral(xs: seq<real>)
    ensures TotalIncome([0.0] + xs) == TotalIncome(xs)
    ensures TotalExpenses([0.0] + xs) == TotalExpenses(xs)
  {
    TotalsCons(0.0, xs);
  }

  /** Summing only the non-negative amounts gives the total income: zeros add nothing. */
  lemma {:induction false} NonNegativeSumIsIncome(xs: seq<real>)
    ensures Sum(Seqs.Filter(xs, IsNonNegative)) == TotalIncome(xs)
    decreases |xs|
  {
    if xs != [] {
      NonNegativeSumIsIncome(xs[1..]);
      TotalsCons(xs[0], xs[1..]);
      assert [xs[0]] + xs[1..] == xs;
    }
  }

  /** The badge of a movement: 'Ingreso' exactly when it counts as income, 'Egreso' otherwise (zero included). */
  function KindLabel(amount: real): (r: string)
    ensures r == "Ingreso" <==> IsIncome(amount)
    ensures r == "Egreso" <==> !IsIncome(amount)
  {
    if amount > 0.0 then "Ingreso" else "Egreso"
  }

  /** `m.user.name || m.user.email`: the name unless it is missing or empty. */
  function DisplayName(o: Owner): (r: string)
    ensures Truthy(o.name) ==> r == o.name.value
    ensures !Truthy(o.name) ==> r == o.email
  {
    if Truthy(o.name) then o.name.value else o.email
  }
}
