/**
 * The dashboard's summary of a user's expenses for the current month: the
 * monthly total, what is left of the fixed budget, the number of monthly
 * expenses, the per-category breakdown with its chart colours, and the
 * three most recent transactions.
 */
module Dashboard {
  import opened Wrappers
  import opened Schema

  /** The monthly budget, a fixed figure rather than a per-user setting. */
  const MonthlyBudget: real := 4000.0

  /** How many expenses the "recent transactions" list shows. */
  const RecentCount: nat := 3

  /** The chart colour of each known category. */
  const CategoryColors: map<string, string> := map[
    "Food" := "hsl(0 84% 60%)",
    "Transport" := "hsl(203 89% 53%)",
    "Shopping" := "hsl(280 65% 60%)",
    "Bills" := "hsl(42 92% 56%)",
    "Others" := "hsl(158 64% 52%)"
  ]

  /** The colour of a category that is not in the table. */
  const DefaultColor: string := "hsl(215 20% 65%)"

  /** Running total of one category, an entry of the `categoryTotals` object. */
  datatype CategoryTotal = CategoryTotal(category: string, total: real)

  /** One slice of the category pie chart. */
  datatype ChartEntry = ChartEntry(name: string, value: real, color: string)

  /** Everything the dashboard shows. */
  datatype Stats = Stats(
    totalMonthly: real,
    budgetRemaining: real,
    totalExpenses: nat,
    chartData: seq<ChartEntry>,
    recentTransactions: seq<Expense>)

  // ---------------------------------------------------------------------------
  // Reference definitions

  /** The date falls in the month and year of `today`. */
  predicate InMonth(d: Date, today: Date) {
    d.year == today.year && d.month == today.month
  }

  /** The sum of the amounts of `es`. */
  function Sum(es: seq<Expense>): real {
    if es == [] then 0.0 else es[0].amount + Sum(es[1..])
  }

  /** The sum of the amounts of the expenses of `es` in category `c`. */
  function CategorySum(es: seq<Expense>, c: string): real {
    if es == [] then 0.0
    else (if es[0].category == c then es[0].amount else 0.0) + CategorySum(es[1..], c)
  }

  /** Some expense of `es` is in category `c`. */
  predicate HasCategory(es: seq<Expense>, c: string) {
    exists i :: 0 <= i < |es| && es[i].category == c
  }

  // ---------------------------------------------------------------------------
  // The monthly filter and the total

  /** The expenses whose spend date lies in the month of `today`; the creation time plays no part. */
  function MonthlyExpenses(expenses: seq<Expense>, today: Date): (r: seq<Expense>)
    ensures forall e :: multiset(r)[e] == if InMonth(e.date, today) then multiset(expenses)[e] else 0
    ensures |r| <= |expenses|
  {
    if expenses == [] then []
    else
      assert expenses == [expenses[0]] + expenses[1..];
      var rest := MonthlyExpenses(expenses[1..], today);
      if InMonth(expenses[0].date, today) then [expenses[0]] + rest else rest
  }

  /**
   * `reduce((sum, e) => sum + e.amount, acc)`: the left fold the source uses
   * for the total. In exact arithmetic it is the accumulator plus the sum of
   * the amounts.
   */
  function ReduceSum(acc: real, es: seq<Expense>): (r: real)
    ensures r == acc + Sum(es)
    decreases es
  {
    if es == [] then acc else ReduceSum(acc + es[0].amount, es[1..])
  }

  // ---------------------------------------------------------------------------
  // The category breakdown

  /** The categories of `acc`, in the order their keys were added. */
  function Categories(acc: seq<CategoryTotal>): seq<string> {
    if acc == [] then [] else [acc[0].category] + Categories(acc[1..])
  }

  /** No category has two entries. */
  ghost predicate DistinctCategories(acc: seq<CategoryTotal>) {
    forall i, j :: 0 <= i < j < |acc| ==> acc[i].category != acc[j].category
  }

  /** `acc[c] || 0`: the running total of `c`, zero when `c` has no entry. */
  function Lookup(acc: seq<CategoryTotal>, c: string): (r: real)
    ensures c !in Categories(acc) ==> r == 0.0
    ensures c in Categories(acc) ==> exists i :: 0 <= i < |acc| && acc[i].category == c && r == acc[i].total
  {
    if acc == [] then 0.0
    else if acc[0].category == c then acc[0].total
    else Lookup(acc[1..], c)
  }

  /** The sum of all running totals. */
  function TotalOfTotals(acc: seq<CategoryTotal>): real {
    if acc == [] then 0.0 else acc[0].total + TotalOfTotals(acc[1..])
  }

  lemma CategoriesShape(acc: seq<CategoryTotal>)
    ensures |Categories(acc)| == |acc|
    ensures forall i :: 0 <= i < |acc| ==> Categories(acc)[i] == acc[i].category
  {
  }

  lemma TailDistinct(acc: seq<CategoryTotal>)
    requires acc != [] && DistinctCategories(acc)
    ensures DistinctCategories(acc[1..])
    ensures acc[0].category !in Categories(acc[1..])
  {
    CategoriesShape(acc[1..]);
    assert forall i :: 0 <= i < |acc[1..]| ==> acc[1..][i] == acc[i + 1];
  }

  /**
   * `acc[c] = (acc[c] || 0) + a`: adds `a` to the entry of `c`, or appends a
   * new entry for `c` after the existing ones.
   */
  function AddAmount(acc: seq<CategoryTotal>, c: string, a: real): (r: seq<CategoryTotal>)
    requires DistinctCategories(acc)
    ensures DistinctCategories(r)
    ensures forall d :: Lookup(r, d) == Lookup(acc, d) + (if d == c then a else 0.0)
    ensures forall d :: d in Categories(r) <==> d in Categories(acc) || d == c
    ensures Categories(acc) <= Categories(r)
    ensures TotalOfTotals(r) == TotalOfTotals(acc) + a
  {
    if acc == [] then [CategoryTotal(c, a)]
    else
      TailDistinct(acc);
      if acc[0].category == c then
        var r := [CategoryTotal(c, acc[0].total + a)] + acc[1..];
        assert r[1..] == acc[1..];
        assert forall d :: d != c ==> Lookup(acc[1..], d) == Lookup(acc, d);
        assert DistinctCategories(r) by {
          forall i, j | 0 <= i < j < |r| ensures r[i].category != r[j].category {
            assert r[j] == acc[j];
            if i > 0 { assert r[i] == acc[i]; }
          }
        }
        r
      else
        var rest := AddAmount(acc[1..], c, a);
        var r := [acc[0]] + rest;
        assert r[1..] == rest;
        assert acc[0].category !in Categories(rest);
        CategoriesShape(rest);
        assert DistinctCategories(r) by {
          forall i, j | 0 <= i < j < |r| ensures r[i].category != r[j].category {
            assert r[j] == rest[j - 1];
            if i > 0 { assert r[i] == rest[i - 1]; }
            else { assert Categories(rest)[j - 1] == rest[j - 1].category; }
          }
        }
        r
  }

  /** The source's category fold, continued from `acc` over `es`. */
  function ReduceCategories(acc: seq<CategoryTotal>, es: seq<Expense>): (r: seq<CategoryTotal>)
    requires DistinctCategories(acc)
    ensures DistinctCategories(r)
    decreases es
  {
    if es == [] then acc
    else ReduceCategories(AddAmount(acc, es[0].category, es[0].amount), es[1..])
  }

  /** What the category fold computes, stated against the reference sums. */
  lemma {:induction false} ReduceCategoriesSpec(acc: seq<CategoryTotal>, es: seq<Expense>)
    requires DistinctCategories(acc)
    ensures forall d :: Lookup(ReduceCategories(acc, es), d) == Lookup(acc, d) + CategorySum(es, d)
    ensures forall d :: d in Categories(ReduceCategories(acc, es)) <==>
                        d in Categories(acc) || HasCategory(es, d)
    ensures TotalOfTotals(ReduceCategories(acc, es)) == TotalOfTotals(acc) + Sum(es)
    decreases es
  {
    if es != [] {
      var next := AddAmount(acc, es[0].category, es[0].amount);
      ReduceCategoriesSpec(next, es[1..]);
      forall d ensures HasCategory(es, d) <==> d == es[0].category || HasCategory(es[1..], d) {
        if HasCategory(es, d) && d != es[0].category {
          var i :| 0 <= i < |es| && es[i].category == d;
          assert es[1..][i - 1].category == d;
        }
        if HasCategory(es[1..], d) {
          var i :| 0 <= i < |es[1..]| && es[1..][i].category == d;
          assert es[i + 1].category == d;
        }
      }
    }
  }

  /**
   * The `categoryTotals` object built from the monthly expenses: one key per
   * category that occurs, each read as that category's monthly sum (and any
   * other category as 0); the values add up to the monthly total.
   */
  function CategoryTotals(monthly: seq<Expense>): (r: seq<CategoryTotal>)
    ensures DistinctCategories(r)
    ensures forall c :: c in Categories(r) <==> HasCategory(monthly, c)
    ensures forall c :: Lookup(r, c) == CategorySum(monthly, c)
    ensures TotalOfTotals(r) == Sum(monthly)
  {
    ReduceCategoriesSpec([], monthly);
    ReduceCategories([], monthly)
  }

  /** Under distinct keys, the total of each entry is what `Lookup` finds for its category. */
  lemma {:induction false} LookupAt(acc: seq<CategoryTotal>, i: nat)
    requires DistinctCategories(acc) && i < |acc|
    ensures Lookup(acc, acc[i].category) == acc[i].total
  {
    if i > 0 {
      TailDistinct(acc);
      assert acc[1..][i - 1] == acc[i];
      LookupAt(acc[1..], i - 1);
    }
  }

  /** Each entry of the breakdown, in `Object.entries` order, holds its own category's monthly sum. */
  lemma CategoryTotalsCorrect(monthly: seq<Expense>)
    ensures forall i :: 0 <= i < |CategoryTotals(monthly)| ==>
      CategoryTotals(monthly)[i].total == CategorySum(monthly, CategoryTotals(monthly)[i].category)
  {
    var r := CategoryTotals(monthly);
    forall i | 0 <= i < |r| ensures r[i].total == CategorySum(monthly, r[i].category) {
      LookupAt(r, i);
    }
  }

  // ---------------------------------------------------------------------------
  // The chart and the whole summary

  /** The colour from the table, or the default colour for a category not in it. */
  function ColorOf(category: string): (color: string)
    ensures category in CategoryColors ==> color == CategoryColors[category]
    ensures category !in CategoryColors ==> color == DefaultColor
  {
    if category in CategoryColors then CategoryColors[category] else DefaultColor
  }

  /** The sum of the values of the chart slices. */
  function SliceSum(chart: seq<ChartEntry>): real {
    if chart == [] then 0.0 else chart[0].value + SliceSum(chart[1..])
  }

  /** `Object.entries(categoryTotals).map(...)`: one coloured slice per entry, in entry order. */
  function ChartData(totals: seq<CategoryTotal>): (r: seq<ChartEntry>)
    ensures |r| == |totals|
    ensures forall i :: 0 <= i < |r| ==>
      r[i].name == totals[i].category && r[i].value == totals[i].total && r[i].color == ColorOf(r[i].name)
    ensures SliceSum(r) == TotalOfTotals(totals)
  {
    if totals == [] then []
    else
      var t := totals[0];
      [ChartEntry(t.category, t.total, ColorOf(t.category))] + ChartData(totals[1..])
  }

  /** The dashboard statistics of `expenses` for the month of `today`. */
  function ComputeStats(expenses: seq<Expense>, today: Date): (s: Stats)
    ensures s.totalMonthly == Sum(MonthlyExpenses(expenses, today))
    ensures s.budgetRemaining == MonthlyBudget - s.totalMonthly
    ensures s.totalExpenses == |MonthlyExpenses(expenses, today)|
    ensures SliceSum(s.chartData) == s.totalMonthly
    ensures forall c :: (exists i :: 0 <= i < |s.chartData| && s.chartData[i].name == c) <==>
                        HasCategory(MonthlyExpenses(expenses, today), c)
    ensures forall i, j :: 0 <= i < j < |s.chartData| ==> s.chartData[i].name != s.chartData[j].name
    ensures forall i :: 0 <= i < |s.chartData| ==>
      && s.chartData[i].value == CategorySum(MonthlyExpenses(expenses, today), s.chartData[i].name)
      && s.chartData[i].color == ColorOf(s.chartData[i].name)
    ensures |s.recentTransactions| == if |expenses| < RecentCount then |expenses| else RecentCount
    ensures forall i :: 0 <= i < |s.recentTransactions| ==> s.recentTransactions[i] == expenses[i]
  {
    var monthly := MonthlyExpenses(expenses, today);
    var totalMonthly := ReduceSum(0.0, monthly);
    var totals := CategoryTotals(monthly);
    CategoryTotalsCorrect(monthly);
    CategoriesShape(totals);
    var chart := ChartData(totals);
    var recent := if |expenses| < RecentCount then expenses else expenses[..RecentCount];
    Stats(totalMonthly, MonthlyBudget - totalMonthly, |monthly|, chart, recent)
  }
}
