/**
 * The reports page: the monthly income/expense chart built by grouping the
 * movements into month buckets, its label order, and the rows of the CSV export.
 */
module ReportsPage {
  import opened Wrappers
  import opened Ledger
  import Seqs

  /** A movement as the reports endpoint returns it; the owner may be missing from the response. */
  datatype ReportMovement = ReportMovement(id: string, concept: string, amount: real, date: string, user: Option<Owner>)

  /** `new Date(date).toLocaleString(..., { year, month: "short" })`: the month label of a date. */
  type MonthOf = string -> string

  /** `new Date(date).toLocaleDateString()`. */
  type DateLabel = string -> string

  /** The amounts of the report's movements, in order. */
  function AmountsOf(ms: seq<ReportMovement>): seq<real> {
    Seqs.Map(ms, (m: ReportMovement) => m.amount)
  }

  // ---------------------------------------------------------------------------
  // Month buckets
  // ---------------------------------------------------------------------------

  datatype Bucket = Bucket(ingresos: real, egresos: real)

  const EmptyBucket := Bucket(0.0, 0.0)

  /** One amount added to a bucket: zero or more to `ingresos`, otherwise its absolute value to `egresos`. */
  function AddTo(b: Bucket, amount: real): Bucket {
    if amount >= 0.0 then Bucket(b.ingresos + amount, b.egresos)
    else Bucket(b.ingresos, b.egresos + Abs(amount))
  }

  /** The `grouped` object: its keys in insertion order, and the bucket of each key. */
  datatype Grouping = Grouping(order: seq<string>, buckets: map<string, Bucket>)

  /** One `forEach` step: create the month's bucket if it is missing, then add the amount to it. */
  function Step(g: Grouping, month: string, amount: real): Grouping {
    if month in g.buckets then
      Grouping(g.order, g.buckets[month := AddTo(g.buckets[month], amount)])
    else
      Grouping(g.order + [month], g.buckets[month := AddTo(EmptyBucket, amount)])
  }

  /** The grouping after the `forEach` has visited every movement of `ms`, first to last. */
  function Group(ms: seq<ReportMovement>, monthOf: MonthOf): Grouping
    decreases |ms|
  {
    if ms == [] then Grouping([], map[])
    else Step(Group(ms[..|ms| - 1], monthOf), monthOf(ms[|ms| - 1].date), ms[|ms| - 1].amount)
  }

  predicate Distinct(s: seq<string>) {
    forall i, j :: 0 <= i < j < |s| ==> s[i] != s[j]
  }

  /** The key order lists each key of the map exactly once. */
  predicate WellFormed(g: Grouping) {
    && Distinct(g.order)
    && (forall k :: k in g.buckets ==> k in g.order)
    && (forall k :: k in g.order ==> k in g.buckets)
  }

  /** Dropping the last movement gives the grouping one step earlier. */
  lemma GroupLast(ms: seq<ReportMovement>, monthOf: MonthOf)
    requires ms != []
    ensures var init := ms[..|ms| - 1];
      && |init| == |ms| - 1
      && (forall i :: 0 <= i < |init| ==> init[i] == ms[i])
      && Group(ms, monthOf) == Step(Group(init, monthOf), monthOf(ms[|ms| - 1].date), ms[|ms| - 1].amount)
  {
  }

  /** `grouped` always has each month once in its key order, and no other key. */
  lemma {:induction false} GroupWellFormed(ms: seq<ReportMovement>, monthOf: MonthOf)
    ensures WellFormed(Group(ms, monthOf))
    decreases |ms|
  {
    if ms != [] {
      GroupWellFormed(ms[..|ms| - 1], monthOf);
    }
  }

  /** A bucket exists exactly for the months some movement falls in. */
  lemma {:induction false} GroupKeys(ms: seq<ReportMovement>, monthOf: MonthOf, month: string)
    ensures month in Group(ms, monthOf).buckets <==> exists i :: 0 <= i < |ms| && monthOf(ms[i].date) == month
    decreases |ms|
  {
    if ms != [] {
      var init := ms[..|ms| - 1];
      GroupLast(ms, monthOf);
      GroupKeys(init, monthOf, month);
      if exists i :: 0 <= i < |ms| && monthOf(ms[i].date) == month {
        var i :| 0 <= i < |ms| && monthOf(ms[i].date) == month;
        if i < |init| {
          assert monthOf(init[i].date) == month;
        }
      }
    }
  }

  /** Both values of every bucket are non-negative. */
  lemma {:induction false} GroupNonNegative(ms: seq<ReportMovement>, monthOf: MonthOf)
    ensures var g := Group(ms, monthOf);
      forall k :: k in g.buckets ==> g.buckets[k].ingresos >= 0.0 && g.buckets[k].egresos >= 0.0
    decreases |ms|
  {
    if ms != [] {
      GroupLast(ms, monthOf);
      GroupNonNegative(ms[..|ms| - 1], monthOf);
    }
  }

  // ---------------------------------------------------------------------------
  // Dataset columns and their totals
  // ---------------------------------------------------------------------------

  /** The two datasets of the chart. */
  datatype Side = Ingresos | Egresos

  function Pick(b: Bucket, side: Side): real {
    match side
    case Ingresos => b.ingresos
    case Egresos => b.egresos
  }

  /** `labels.map(l => grouped[l].ingresos)` (or `.egresos`): one value per label, aligned by index. */
  function Column(labels: seq<string>, buckets: map<string, Bucket>, side: Side): (r: seq<real>)
    requires forall i :: 0 <= i < |labels| ==> labels[i] in buckets
    ensures |r| == |labels| && forall i :: 0 <= i < |labels| ==> r[i] == Pick(buckets[labels[i]], side)
  {
    seq(|labels|, i requires 0 <= i < |labels| => Pick(buckets[labels[i]], side))
  }

  /** What a dataset adds up to: the non-negative amounts, or the absolute values of the negative ones. */
  function Expected(xs: seq<real>, side: Side): real {
    match side
    case Ingresos => Sum(Seqs.Filter(xs, IsNonNegative))
    case Egresos => TotalExpenses(xs)
  }

  /** A sum with one entry replaced changes by the difference at that entry. */
  lemma {:induction false} SumUpdate(xs: seq<real>, j: nat, v: real)
    requires j < |xs|
    ensures Sum(xs[j := v]) == Sum(xs) - xs[j] + v
    decreases |xs|
  {
    if j > 0 {
      SumUpdate(xs[1..], j - 1, v);
      assert xs[j := v][1..] == xs[1..][j - 1 := v];
    }
  }

  /** How `Expected` changes when one amount is added at the back. */
  lemma ExpectedSnoc(xs: seq<real>, x: real, side: Side)
    ensures Expected(xs + [x], side) == Expected(xs, side) + Pick(AddTo(EmptyBucket, x), side)
  {
    Seqs.FilterSnoc(xs, x, IsNonNegative);
    Seqs.FilterSnoc(xs, x, IsExpense);
    SumSnoc(Seqs.Filter(xs, IsNonNegative), x);
    SumSnoc(Seqs.Filter(xs, IsExpense), x);
    if IsNonNegative(x) {
      assert Seqs.Filter(xs + [x], IsNonNegative) == Seqs.Filter(xs, IsNonNegative) + [x];
      assert Seqs.Filter(xs + [x], IsExpense) == Seqs.Filter(xs, IsExpense);
    } else {
      assert Seqs.Filter(xs + [x], IsNonNegative) == Seqs.Filter(xs, IsNonNegative);
      assert Seqs.Filter(xs + [x], IsExpense) == Seqs.Filter(xs, IsExpense) + [x];
    }
  }

  /** A dataset's total over the key order of a grouping. */
  function KeyOrderTotal(g: Grouping, side: Side): real
    requires WellFormed(g)
  {
    Sum(Column(g.order, g.buckets, side))
  }

  /** A step on a month that already has a bucket changes only that label's entry of the column. */
  lemma StepExistingColumn(g: Grouping, month: string, amount: real, side: Side)
    requires WellFormed(g) && month in g.buckets
    ensures WellFormed(Step(g, month, amount))
    ensures KeyOrderTotal(Step(g, month, amount), side) == KeyOrderTotal(g, side) + Pick(AddTo(EmptyBucket, amount), side)
  {
    var g' := Step(g, month, amount);
    var before := Column(g.order, g.buckets, side);
    var j :| 0 <= j < |g.order| && g.order[j] == month;
    var v := Pick(AddTo(g.buckets[month], amount), side);
    assert Column(g'.order, g'.buckets, side) == before[j := v];
    SumUpdate(before, j, v);
  }

  /** A step on a new month appends one label and its entry to the column. */
  lemma StepNewColumn(g: Grouping, month: string, amount: real, side: Side)
    requires WellFormed(g) && month !in g.buckets
    ensures WellFormed(Step(g, month, amount))
    ensures KeyOrderTotal(Step(g, month, amount), side) == KeyOrderTotal(g, side) + Pick(AddTo(EmptyBucket, amount), side)
  {
    var g' := Step(g, month, amount);
    var before := Column(g.order, g.buckets, side);
    var v := Pick(AddTo(EmptyBucket, amount), side);
    assert Column(g'.order, g'.buckets, side) == before + [v];
    SumSnoc(before, v);
  }

  /** One grouping step keeps the key order well formed and adds the amount's share to the total over it. */
  lemma StepColumn(g: Grouping, month: string, amount: real, side: Side)
    requires WellFormed(g)
    ensures WellFormed(Step(g, month, amount))
    ensures KeyOrderTotal(Step(g, month, amount), side) == KeyOrderTotal(g, side) + Pick(AddTo(EmptyBucket, amount), side)
  {
    if month in g.buckets {
      StepExistingColumn(g, month, amount, side);
    } else {
      StepNewColumn(g, month, amount, side);
    }
  }

  /** The amounts of all movements but the last, then the last one's. */
  lemma AmountsOfSnoc(ms: seq<ReportMovement>)
    requires ms != []
    ensures AmountsOf(ms) == AmountsOf(ms[..|ms| - 1]) + [ms[|ms| - 1].amount]
  {
  }

  /** Summed over all buckets, `ingresos` is the sum of the non-negative amounts and `egresos` the sum of |negative amounts|. */
  lemma {:induction false} GroupTotals(ms: seq<ReportMovement>, monthOf: MonthOf, side: Side)
    ensures WellFormed(Group(ms, monthOf))
    ensures KeyOrderTotal(Group(ms, monthOf), side) == Expected(AmountsOf(ms), side)
    decreases |ms|
  {
    GroupWellFormed(ms, monthOf);
    if ms == [] {
      assert AmountsOf(ms) == [];
    } else {
      var init := ms[..|ms| - 1];
      var last := ms[|ms| - 1];
      GroupLast(ms, monthOf);
      GroupTotals(init, monthOf, side);
      StepColumn(Group(init, monthOf), monthOf(last.date), last.amount, side);
      AmountsOfSnoc(ms);
      ExpectedSnoc(AmountsOf(init), last.amount, side);
    }
  }

  /** Removing one entry from a list removes one occurrence from its multiset. */
  lemma MultisetRemove(b: seq<string>, j: nat)
    requires j < |b|
    ensures multiset(b[..j] + b[j + 1..]) == multiset(b) - multiset{b[j]}
  {
    assert b == b[..j] + [b[j]] + b[j + 1..];
  }

  /** The column of two label lists put together is their columns put together. */
  lemma ColumnAppend(a: seq<string>, c: seq<string>, buckets: map<string, Bucket>, side: Side)
    requires forall i :: 0 <= i < |a| ==> a[i] in buckets
    requires forall i :: 0 <= i < |c| ==> c[i] in buckets
    ensures forall i :: 0 <= i < |a + c| ==> (a + c)[i] in buckets
    ensures Column(a + c, buckets, side) == Column(a, buckets, side) + Column(c, buckets, side)
  {
    assert forall i :: 0 <= i < |a + c| ==> (a + c)[i] == (if i < |a| then a[i] else c[i - |a|]);
  }

  /** A column's sum is its entry at `j` plus the sum of the column without that label. */
  lemma ColumnSplit(b: seq<string>, j: nat, buckets: map<string, Bucket>, side: Side)
    requires j < |b| && forall i :: 0 <= i < |b| ==> b[i] in buckets
    ensures Sum(Column(b, buckets, side)) == Pick(buckets[b[j]], side) + Sum(Column(b[..j] + b[j + 1..], buckets, side))
  {
    var left, mid, right := b[..j], [b[j]], b[j + 1..];
    assert forall i :: 0 <= i < |left| ==> left[i] == b[i];
    assert forall i :: 0 <= i < |right| ==> right[i] == b[j + 1 + i];
    assert b == left + (mid + right);
    ColumnAppend(mid, right, buckets, side);
    ColumnAppend(left, mid + right, buckets, side);
    ColumnAppend(left, right, buckets, side);
    var cl, cm, cr := Column(left, buckets, side), Column(mid, buckets, side), Column(right, buckets, side);
    assert cm == [Pick(buckets[b[j]], side)];
    SumAppend(cl, cm + cr);
    SumAppend(cl, cr);
    SumAppend(cm, cr);
  }

  /** Rearranging labels keeps every one of them a key. */
  lemma KeysPermuted(a: seq<string>, b: seq<string>, buckets: map<string, Bucket>)
    requires forall i :: 0 <= i < |a| ==> a[i] in buckets
    requires multiset(a) == multiset(b)
    ensures forall i :: 0 <= i < |b| ==> b[i] in buckets
  {
    forall i | 0 <= i < |b|
      ensures b[i] in buckets
    {
      assert b[i] in multiset(a);
    }
  }

  /** A column's sum is its first entry plus the sum of the rest. */
  lemma ColumnHead(a: seq<string>, buckets: map<string, Bucket>, side: Side)
    requires a != [] && forall i :: 0 <= i < |a| ==> a[i] in buckets
    ensures Sum(Column(a, buckets, side)) == Pick(buckets[a[0]], side) + Sum(Column(a[1..], buckets, side))
  {
    assert Column(a, buckets, side)[1..] == Column(a[1..], buckets, side);
  }

  /** Matching the head of `a` with an entry of its rearrangement `b`, the rests are rearrangements too. */
  lemma RemoveMatching(a: seq<string>, b: seq<string>, j: nat)
    requires a != [] && j < |b| && b[j] == a[0]
    requires multiset(a) == multiset(b)
    ensures multiset(a[1..]) == multiset(b[..j] + b[j + 1..])
  {
    MultisetRemove(b, j);
    assert a == [a[0]] + a[1..];
  }

  /** A column sums to the same value whatever the order of its labels. */
  lemma {:induction false} ColumnPermutation(a: seq<string>, b: seq<string>, buckets: map<string, Bucket>, side: Side)
    requires forall i :: 0 <= i < |a| ==> a[i] in buckets
    requires forall i :: 0 <= i < |b| ==> b[i] in buckets
    requires multiset(a) == multiset(b)
    ensures Sum(Column(a, buckets, side)) == Sum(Column(b, buckets, side))
    decreases |a|
  {
    if a == [] {
      assert |b| == |multiset(b)| == 0;
    } else {
      assert a[0] in multiset(b);
      var j :| 0 <= j < |b| && b[j] == a[0];
      var rest := b[..j] + b[j + 1..];
      RemoveMatching(a, b, j);
      KeysPermuted(a[1..], rest, buckets);
      ColumnPermutation(a[1..], rest, buckets, side);
      ColumnSplit(b, j, buckets, side);
      ColumnHead(a, buckets, side);
    }
  }

  // ---------------------------------------------------------------------------
  // Label order: `Array.prototype.sort` on strings
  // ---------------------------------------------------------------------------

  /** The default string order of `sort`: a proper prefix comes first, otherwise the first differing character decides. */
  predicate LexLess(a: string, b: string)
    decreases |a|
  {
    |b| > 0 && (|a| == 0 || a[0] < b[0] || (a[0] == b[0] && LexLess(a[1..], b[1..])))
  }

  lemma {:induction false} LexLessIrreflexive(a: string)
    ensures !LexLess(a, a)
    decreases |a|
  {
    if |a| > 0 {
      LexLessIrreflexive(a[1..]);
    }
  }

  lemma {:induction false} LexLessTransitive(a: string, b: string, c: string)
    requires LexLess(a, b) && LexLess(b, c)
    ensures LexLess(a, c)
    decreases |a|
  {
    if |a| > 0 && a[0] == b[0] && b[0] == c[0] {
      LexLessTransitive(a[1..], b[1..], c[1..]);
    }
  }

  lemma {:induction false} LexLessTotal(a: string, b: string)
    requires a != b
    ensures LexLess(a, b) || LexLess(b, a)
    decreases |a|
  {
    if |a| > 0 && |b| > 0 && a[0] == b[0] {
      assert a == [a[0]] + a[1..] && b == [b[0]] + b[1..];
      LexLessTotal(a[1..], b[1..]);
    }
  }

  predicate StrictlySorted(s: seq<string>) {
    forall i, j :: 0 <= i < j < |s| ==> LexLess(s[i], s[j])
  }

  /** Below the head of a sorted list is below all of it. */
  lemma BelowHeadBelowAll(x: string, s: seq<string>)
    requires StrictlySorted(s) && s != [] && LexLess(x, s[0])
    ensures forall j :: 0 <= j < |s| ==> LexLess(x, s[j])
  {
    forall j | 0 < j < |s|
      ensures LexLess(x, s[j])
    {
      LexLessTransitive(x, s[0], s[j]);
    }
  }

  /** Places a label in front of the first label it is below: the labels are the old ones plus `x`. */
  function InsertLabel(x: string, s: seq<string>): (r: seq<string>)
    ensures multiset(r) == multiset(s) + multiset{x}
  {
    if s == [] || LexLess(x, s[0]) then
      [x] + s
    else
      assert s == [s[0]] + s[1..];
      [s[0]] + InsertLabel(x, s[1..])
  }

  /** A label below every entry of a sorted list can go in front of it. */
  lemma ConsSorted(x: string, s: seq<string>)
    requires StrictlySorted(s)
    requires forall k :: 0 <= k < |s| ==> LexLess(x, s[k])
    ensures StrictlySorted([x] + s)
  {
    assert forall i :: 0 < i < |[x] + s| ==> ([x] + s)[i] == s[i - 1];
  }

  /** Inserting a new label into a strictly sorted list keeps it strictly sorted. */
  lemma {:induction false} InsertLabelSorted(x: string, s: seq<string>)
    requires StrictlySorted(s) && x !in s
    ensures StrictlySorted(InsertLabel(x, s))
    decreases |s|
  {
    if s == [] {
    } else if LexLess(x, s[0]) {
      BelowHeadBelowAll(x, s);
      ConsSorted(x, s);
    } else {
      LexLessTotal(x, s[0]);
      var tail := InsertLabel(x, s[1..]);
      assert s == [s[0]] + s[1..];
      InsertLabelSorted(x, s[1..]);
      forall k | 0 <= k < |tail|
        ensures LexLess(s[0], tail[k])
      {
        assert tail[k] in multiset(s[1..]) + multiset{x};
        if tail[k] != x {
          var m :| 0 <= m < |s[1..]| && s[1..][m] == tail[k];
          assert s[m + 1] == tail[k];
        }
      }
      ConsSorted(s[0], tail);
    }
  }

  /** `Object.keys(grouped).sort()`: the keys rearranged into ascending order. */
  function SortLabels(s: seq<string>): (r: seq<string>)
    requires Distinct(s)
    ensures StrictlySorted(r)
    ensures multiset(r) == multiset(s)
  {
    if s == [] then []
    else
      assert s == [s[0]] + s[1..];
      var rest := SortLabels(s[1..]);
      assert s[0] !in multiset(rest);
      InsertLabelSorted(s[0], rest);
      InsertLabel(s[0], rest)
  }

  /** Strictly sorted labels have no duplicates. */
  lemma SortedIsDistinct(s: seq<string>)
    requires StrictlySorted(s)
    ensures Distinct(s)
  {
    forall i, j | 0 <= i < j < |s|
      ensures s[i] != s[j]
    {
      if s[i] == s[j] {
        LexLessIrreflexive(s[i]);
      }
    }
  }

  // ---------------------------------------------------------------------------
  // The chart
  // ---------------------------------------------------------------------------

  /** The grouping after one more movement of a prefix is one more step. */
  lemma GroupPrefix(ms: seq<ReportMovement>, monthOf: MonthOf, i: nat)
    requires i < |ms|
    ensures Group(ms[..i + 1], monthOf) == Step(Group(ms[..i], monthOf), monthOf(ms[i].date), ms[i].amount)
  {
    assert ms[..i + 1][..i] == ms[..i];
  }

  /** The `forEach` over the movements that fills `grouped` in place. */
  method GroupByMonth(ms: seq<ReportMovement>, monthOf: MonthOf) returns (order: seq<string>, buckets: map<string, Bucket>)
    ensures Grouping(order, buckets) == Group(ms, monthOf)
  {
    order, buckets := [], map[];
    var i := 0;
    while i < |ms|
      invariant 0 <= i <= |ms|
      invariant Grouping(order, buckets) == Group(ms[..i], monthOf)
    {
      ghost var before := Grouping(order, buckets);
      var month := monthOf(ms[i].date);
      if month !in buckets {
        buckets := buckets[month := EmptyBucket];
        order := order + [month];
      }
      var b := buckets[month];
      ghost var start := b;
      if ms[i].amount >= 0.0 {
        buckets := buckets[month := Bucket(b.ingresos + ms[i].amount, b.egresos)];
      } else {
        buckets := buckets[month := Bucket(b.ingresos, b.egresos + Abs(ms[i].amount))];
      }
      assert buckets == before.buckets[month := AddTo(start, ms[i].amount)];
      assert Grouping(order, buckets) == Step(before, month, ms[i].amount);
      GroupPrefix(ms, monthOf, i);
      i := i + 1;
    }
    assert ms[..|ms|] == ms;
  }

  /** Any rearrangement of the keys of `grouped` lists exactly the months of the movements, each a key. */
  lemma LabelsAreMonths(ms: seq<ReportMovement>, monthOf: MonthOf, labels: seq<string>)
    requires multiset(labels) == multiset(Group(ms, monthOf).order)
    ensures forall i :: 0 <= i < |labels| ==> labels[i] in Group(ms, monthOf).buckets
    ensures forall month :: month in labels <==> exists i :: 0 <= i < |ms| && monthOf(ms[i].date) == month
  {
    var g := Group(ms, monthOf);
    GroupWellFormed(ms, monthOf);
    forall month
      ensures month in labels <==> exists j :: 0 <= j < |ms| && monthOf(ms[j].date) == month
    {
      GroupKeys(ms, monthOf, month);
      assert month in labels <==> month in multiset(g.order);
    }
    forall j | 0 <= j < |labels|
      ensures labels[j] in g.buckets
    {
      assert labels[j] in multiset(g.order);
    }
  }

  /**
   * `chartData`: the sorted month labels without duplicates, exactly the months
   * of the movements, and the two datasets aligned with them by index, never
   * negative, and adding up to the total income and the total expenses.
   */
  method ChartData(ms: seq<ReportMovement>, monthOf: MonthOf) returns (labels: seq<string>, ingresos: seq<real>, egresos: seq<real>)
    ensures StrictlySorted(labels) && Distinct(labels)
    ensures forall month :: month in labels <==> exists i :: 0 <= i < |ms| && monthOf(ms[i].date) == month
    ensures var g := Group(ms, monthOf);
      && (forall i :: 0 <= i < |labels| ==> labels[i] in g.buckets)
      && ingresos == Column(labels, g.buckets, Ingresos)
      && egresos == Column(labels, g.buckets, Egresos)
    ensures |ingresos| == |labels| && |egresos| == |labels|
    ensures forall i :: 0 <= i < |labels| ==> ingresos[i] >= 0.0 && egresos[i] >= 0.0
    ensures Sum(ingresos) == TotalIncome(AmountsOf(ms)) && Sum(egresos) == TotalExpenses(AmountsOf(ms))
  {
    var order, buckets := GroupByMonth(ms, monthOf);
    GroupWellFormed(ms, monthOf);
    GroupNonNegative(ms, monthOf);
    labels := SortLabels(order);
    SortedIsDistinct(labels);
    LabelsAreMonths(ms, monthOf, labels);
    ingresos := Column(labels, buckets, Ingresos);
    egresos := Column(labels, buckets, Egresos);
    ChartTotals(ms, monthOf, labels);
  }

  /**
   * Each dataset of the chart adds up to the movements' share of it: `Ingresos`
   * to every non-negative amount, `Egresos` to every negative amount's absolute
   * value; their difference is the sum of all amounts.
   */
  lemma ChartTotals(ms: seq<ReportMovement>, monthOf: MonthOf, labels: seq<string>)
    requires var g := Group(ms, monthOf); multiset(labels) == multiset(g.order)
    ensures var g := Group(ms, monthOf);
      && (forall i :: 0 <= i < |labels| ==> labels[i] in g.buckets)
      && Sum(Column(labels, g.buckets, Ingresos)) == TotalIncome(AmountsOf(ms))
      && Sum(Column(labels, g.buckets, Egresos)) == TotalExpenses(AmountsOf(ms))
      && Sum(Column(labels, g.buckets, Ingresos)) - Sum(Column(labels, g.buckets, Egresos)) == Sum(AmountsOf(ms))
  {
    var g := Group(ms, monthOf);
    GroupTotals(ms, monthOf, Ingresos);
    GroupTotals(ms, monthOf, Egresos);
    forall i | 0 <= i < |g.order|
      ensures g.order[i] in g.buckets
    {
    }
    KeysPermuted(g.order, labels, g.buckets);
    ColumnPermutation(g.order, labels, g.buckets, Ingresos);
    ColumnPermutation(g.order, labels, g.buckets, Egresos);
    NonNegativeSumIsIncome(AmountsOf(ms));
    BalanceIsSum(AmountsOf(ms));
  }

  // ---------------------------------------------------------------------------
  // CSV export
  // ---------------------------------------------------------------------------

  /** One exported row: Concepto, Monto, Fecha, Usuario. */
  datatype CsvRow = CsvRow(concepto: string, monto: real, fecha: string, usuario: Option<string>)

  /** `m.user?.name || m.user?.email`: the owner's display name, undefined when the owner is missing. */
  function Usuario(user: Option<Owner>): (r: Option<string>)
    ensures user.None? ==> r == None
    ensures user.Some? ==> r == Some(DisplayName(user.value))
  {
    match user
    case None => None
    case Some(o) => if Truthy(o.name) then o.name else Some(o.email)
  }

  /** The rows of the export: one per movement, in the original order. */
  function CsvRows(ms: seq<ReportMovement>, dateLabel: DateLabel): (rows: seq<CsvRow>)
    ensures |rows| == |ms|
    ensures forall i :: 0 <= i < |ms| ==>
              rows[i] == CsvRow(ms[i].concept, ms[i].amount, dateLabel(ms[i].date), Usuario(ms[i].user))
    decreases |ms|
  {
    if ms == [] then []
    else [CsvRow(ms[0].concept, ms[0].amount, dateLabel(ms[0].date), Usuario(ms[0].user))] + CsvRows(ms[1..], dateLabel)
  }

  /** The Monto column of the export adds up to the sum of all amounts. */
  lemma CsvMontoTotal(ms: seq<ReportMovement>, dateLabel: DateLabel)
    ensures var rows := CsvRows(ms, dateLabel);
      Sum(seq(|rows|, i requires 0 <= i < |rows| => rows[i].monto)) == Sum(AmountsOf(ms))
  {
    var rows := CsvRows(ms, dateLabel);
    assert seq(|rows|, i requires 0 <= i < |rows| => rows[i].monto) == AmountsOf(ms);
  }

  /** `handleDownloadCSV`: nothing for an empty list, otherwise the rows handed to the CSV writer. */
  function DownloadCsv(ms: seq<ReportMovement>, dateLabel: DateLabel): (r: Option<seq<CsvRow>>)
    ensures r.None? <==> ms == []
    ensures r.Some? ==> r.value == CsvRows(ms, dateLabel) && |r.value| == |ms|
  {
    if |ms| == 0 then None else Some(CsvRows(ms, dateLabel))
  }

  // ---------------------------------------------------------------------------
  // Page state
  // ---------------------------------------------------------------------------

  /** How the `fetch("/api/reports")` effect ends. */
  datatype LoadResult =
    | Loaded(movements: seq<ReportMovement>, saldo: real)
    | NotOk(detail: Option<string>)
    | Failed(message: Option<string>)

  const PermissionErrorMessage := "Error de permisos o de servidor"
  const LoadErrorMessage := "Error al cargar reportes"

  class ReportsPageState {
    var movements: seq<ReportMovement>
    var saldo: real
    var loading: bool
    var error: string

    /** The initial `useState` values. */
    constructor ()
      ensures movements == [] && saldo == 0.0 && loading && error == ""
    {
      movements, saldo, loading, error := [], 0.0, true, "";
    }

    /**
     * The load effect: the response's movements and saldo on success; on a
     * non-ok response the body's `error` or the permission message, on a failed
     * request its message or the load message; loading ends either way.
     */
    method HandleLoad(result: LoadResult)
      modifies this
      ensures !loading
      ensures result.Loaded? ==> movements == result.movements && saldo == result.saldo && error == old(error)
      ensures !result.Loaded? ==> movements == old(movements) && saldo == old(saldo) && error != ""
      ensures result.NotOk? ==> error == (if Truthy(result.detail) then result.detail.value else PermissionErrorMessage)
      ensures result.Failed? ==> error == (if Truthy(result.message) then result.message.value else LoadErrorMessage)
    {
      match result {
        case Loaded(ms, s) =>
          movements := ms;
          saldo := s;
        case NotOk(d) =>
          error := if Truthy(d) then d.value else PermissionErrorMessage;
        case Failed(m) =>
          error := if Truthy(m) then m.value else LoadErrorMessage;
      }
      loading := false;
    }
  }
}
