/** The expense page: a five-month strip around the current month, the
    expenses of the selected month of the current year, per-category counts and
    amounts, guarded deletion, category colours and form error clearing.
    Amounts are integer minor units, possibly negative; the current month and year
    are inputs. */
module Expense {
  import opened Common

  const Months: seq<string> := ["Ocak", "\U{015E}ubat", "Mart", "Nisan", "May\U{0131}s", "Haziran",
                                "Temmuz", "A\U{011F}ustos", "Eyl\U{00FC}l", "Ekim", "Kas\U{0131}m", "Aral\U{0131}k"]

  // ---------------------------------------------------------------------------
  // getInitialVisibleMonths.

  /** The month `offset` months away from `current`, wrapping around the year. */
  function MonthAt(current: int, offset: int): (k: int)
    ensures 0 <= k < 12
    ensures (k - current - offset) % 12 == 0
  {
    (current + offset) % 12
  }

  /** The names of the two months before the current one, the current one and
      the two after it, wrapping around the year. */
  method VisibleMonths(current: int) returns (r: seq<string>)
    requires 0 <= current < 12
    ensures |r| == 5
    ensures forall k :: 0 <= k < 5 ==> r[k] == Months[MonthAt(current, k - 2)]
    ensures r[2] == Months[current]
  {
    r := [];
    var i := -2;
    while i <= 2
      invariant -2 <= i <= 3
      invariant |r| == i + 2
      invariant forall k :: 0 <= k < |r| ==> r[k] == Months[MonthAt(current, k - 2)]
    {
      var index := current + i;
      if index < 0 {
        index := |Months| + index;
      }
      if index >= |Months| {
        index := index - |Months|;
      }
      assert index == MonthAt(current, i);
      ghost var before := r;
      r := r + [Months[index]];
      assert forall k :: 0 <= k < |before| ==> r[k] == before[k];
      i := i + 1;
    }
  }

  /** months.indexOf: the position of a month name, -1 for any other string. */
  function MonthIndex(name: string): (k: int)
    ensures -1 <= k < 12
    ensures k >= 0 ==> Months[k] == name
    ensures k == -1 ==> name !in Months
  {
    var i := FindIndex(Months, (m: string) => m == name);
    if i < |Months| then i else -1
  }

  const MonthPrefixes: seq<string> := ["Oca", "\U{015E}ub", "Mar", "Nis", "May", "Haz",
                                       "Tem", "A\U{011F}u", "Eyl", "Eki", "Kas", "Ara"]

  /** No two months share a name: their first three letters already differ. */
  lemma MonthsDistinct()
    ensures forall i, j :: 0 <= i < j < 12 ==> Months[i] != Months[j]
  {
    forall k | 0 <= k < 12 ensures |Months[k]| >= 3 && Months[k][..3] == MonthPrefixes[k] {
    }
    forall i, j | 0 <= i < j < 12 ensures MonthPrefixes[i] != MonthPrefixes[j] {
      assert MonthPrefixes[i][0] != MonthPrefixes[j][0] || MonthPrefixes[i][2] != MonthPrefixes[j][2];
    }
  }

  /** Every month name is found at its own position. */
  lemma MonthIndexOfName(k: int)
    requires 0 <= k < 12
    ensures MonthIndex(Months[k]) == k
  {
    MonthsDistinct();
  }

  // ---------------------------------------------------------------------------
  // getFilteredExpenses.

  /** A month as Date.getMonth gives it: 0 for January to 11 for December. */
  type MonthNumber = m: int | 0 <= m < 12

  /** The month and year of a payment date. */
  datatype PaymentDate = PaymentDate(year: int, month: MonthNumber)

  /** `amount` is parseFloat of the entered amount (0 when it is missing); the
      form sets no minimum, so it may be negative. */
  datatype Expense = Expense(id: int, categoryId: int, amount: int, paymentDate: Option<PaymentDate>)

  predicate InMonth(e: Expense, monthIndex: int, year: int) {
    e.paymentDate.Some? && e.paymentDate.value.month == monthIndex && e.paymentDate.value.year == year
  }

  /** The expenses shown: those with a payment date in the selected month of
      the current year, in list order. */
  function FilteredExpenses(expenses: seq<Expense>, selectedMonth: string, currentYear: int): (r: seq<Expense>)
    ensures IsSubsequence(r, expenses)
    ensures forall e :: e in r <==>
      (e in expenses && e.paymentDate.Some? &&
       e.paymentDate.value.month == MonthIndex(selectedMonth) && e.paymentDate.value.year == currentYear)
    ensures forall e :: multiset(r)[e] == (if InMonth(e, MonthIndex(selectedMonth), currentYear) then multiset(expenses)[e] else 0)
  {
    FilterCounts(expenses, (e: Expense) => InMonth(e, MonthIndex(selectedMonth), currentYear));
    Filter(expenses, (e: Expense) => InMonth(e, MonthIndex(selectedMonth), currentYear))
  }

  /** Choosing the k-th month name shows the expenses dated in month k. */
  lemma SelectedMonthShown(expenses: seq<Expense>, k: int, currentYear: int)
    requires 0 <= k < 12
    ensures forall e :: e in FilteredExpenses(expenses, Months[k], currentYear) <==>
      e in expenses && InMonth(e, k, currentYear)
  {
    MonthIndexOfName(k);
  }

  /** A filter that rejects every element keeps none. */
  lemma {:induction false} NothingKept(s: seq<Expense>, keep: Expense -> bool)
    requires forall e :: e in s ==> !keep(e)
    ensures Filter(s, keep) == []
  {
    if s != [] {
      NothingKept(s[1..], keep);
    }
  }

  /** A selection that is not a month name (indexOf gives -1) shows nothing,
      since no payment date has month -1. */
  lemma UnknownMonthShowsNothing(expenses: seq<Expense>, selectedMonth: string, currentYear: int)
    requires selectedMonth !in Months
    ensures FilteredExpenses(expenses, selectedMonth, currentYear) == []
  {
    assert MonthIndex(selectedMonth) == -1;
    NothingKept(expenses, (e: Expense) => InMonth(e, MonthIndex(selectedMonth), currentYear));
  }

  // ---------------------------------------------------------------------------
  // Amounts and category statistics.

  function SumAmounts(es: seq<Expense>): int {
    if es == [] then 0 else es[0].amount + SumAmounts(es[1..])
  }

  function TotalAmount(filtered: seq<Expense>): int {
    SumAmounts(filtered)
  }

  function OfCategory(filtered: seq<Expense>, categoryId: int): (r: seq<Expense>)
    ensures forall e :: e in r <==> e in filtered && e.categoryId == categoryId
  {
    Filter(filtered, (e: Expense) => e.categoryId == categoryId)
  }

  /** The expenses of every other category. */
  function OutsideCategory(filtered: seq<Expense>, categoryId: int): (r: seq<Expense>)
    ensures forall e :: e in r <==> e in filtered && e.categoryId != categoryId
  {
    Filter(filtered, (e: Expense) => e.categoryId != categoryId)
  }

  predicate NonNegative(es: seq<Expense>) {
    forall e :: e in es ==> e.amount >= 0
  }

  /** The month's total splits into one category's amount and the rest's. */
  lemma {:induction false} CategorySplit(filtered: seq<Expense>, categoryId: int)
    ensures SumAmounts(OfCategory(filtered, categoryId)) + SumAmounts(OutsideCategory(filtered, categoryId))
      == TotalAmount(filtered)
  {
    if filtered != [] {
      CategorySplit(filtered[1..], categoryId);
      var mine := OfCategory(filtered[1..], categoryId);
      var others := OutsideCategory(filtered[1..], categoryId);
      if filtered[0].categoryId == categoryId {
        assert OfCategory(filtered, categoryId) == [filtered[0]] + mine;
        assert ([filtered[0]] + mine)[1..] == mine;
        assert OutsideCategory(filtered, categoryId) == others;
      } else {
        assert OutsideCategory(filtered, categoryId) == [filtered[0]] + others;
        assert ([filtered[0]] + others)[1..] == others;
        assert OfCategory(filtered, categoryId) == mine;
      }
    }
  }

  lemma {:induction false} SumNonNegative(es: seq<Expense>)
    requires NonNegative(es)
    ensures SumAmounts(es) >= 0
  {
    if es != [] {
      assert es[0] in es;
      assert forall e :: e in es[1..] ==> e in es;
      SumNonNegative(es[1..]);
    }
  }

  /** One category's amount and the other categories' amount add up to the
      month's total; with no negative amounts, neither part is negative and
      the category's amount never exceeds the total. */
  lemma CategoryAmountBounded(filtered: seq<Expense>, categoryId: int)
    ensures SumAmounts(OfCategory(filtered, categoryId)) + SumAmounts(OutsideCategory(filtered, categoryId))
      == TotalAmount(filtered)
    ensures NonNegative(filtered) ==>
      0 <= SumAmounts(OfCategory(filtered, categoryId)) <= TotalAmount(filtered)
  {
    CategorySplit(filtered, categoryId);
    if NonNegative(filtered) {
      SumNonNegative(OfCategory(filtered, categoryId));
      SumNonNegative(OutsideCategory(filtered, categoryId));
    }
  }

  /** A negative amount can push one category above the month's total and its
      share above 100 percent. */
  lemma NegativeRefundExceedsTotal()
    ensures var filtered := [Expense(1, 1, 100, None), Expense(2, 2, -50, None)];
      SumAmounts(OfCategory(filtered, 1)) > TotalAmount(filtered) > 0 &&
      StatFor(Category(1, "Rent"), filtered).percentage == 200.0
  {
    var filtered := [Expense(1, 1, 100, None), Expense(2, 2, -50, None)];
    assert OfCategory(filtered, 1) == [filtered[0]];
    assert SumAmounts(filtered[1..]) == -50;
  }

  datatype Category = Category(id: int, name: string)

  /** One category's figures; `percentage` is its share of the month's total
      (0 when the total is 0), before rounding to one decimal. */
  datatype CategoryStat = CategoryStat(category: Category, count: nat, amount: int, percentage: real)

  function StatFor(c: Category, filtered: seq<Expense>): CategoryStat {
    var mine := OfCategory(filtered, c.id);
    var total := TotalAmount(filtered);
    CategoryStat(c, |mine|, SumAmounts(mine),
                 if total > 0 then (SumAmounts(mine) as real) * 100.0 / (total as real) else 0.0)
  }

  /** The figures of one category: the number and the summed amount of the
      month's expenses carrying its id; a share of 0 unless the total is
      positive, and, with no negative amounts, a share between 0 and 100. */
  lemma StatMeaning(c: Category, filtered: seq<Expense>)
    ensures StatFor(c, filtered).count == |OfCategory(filtered, c.id)|
    ensures StatFor(c, filtered).amount == SumAmounts(OfCategory(filtered, c.id))
    ensures TotalAmount(filtered) <= 0 ==> StatFor(c, filtered).percentage == 0.0
    ensures TotalAmount(filtered) > 0 ==>
      StatFor(c, filtered).percentage * (TotalAmount(filtered) as real) == (StatFor(c, filtered).amount as real) * 100.0
    ensures NonNegative(filtered) ==> 0.0 <= StatFor(c, filtered).percentage <= 100.0
  {
    var amount := SumAmounts(OfCategory(filtered, c.id));
    var total := TotalAmount(filtered);
    if total > 0 {
      assert StatFor(c, filtered).percentage == (amount as real) * 100.0 / (total as real);
      ShareBounds(amount as real, total as real);
      if NonNegative(filtered) {
        CategoryAmountBounded(filtered, c.id);
      }
    }
  }

  /** A share in percent of a positive total. */
  lemma ShareBounds(a: real, t: real)
    requires t > 0.0
    ensures (a * 100.0 / t) * t == a * 100.0
    ensures 0.0 <= a <= t ==> 0.0 <= a * 100.0 / t <= 100.0
  {
  }

  function CategoryIds(categories: seq<Category>): set<int> {
    set c | c in categories :: c.id
  }

  /** getCategoryStats: one entry per category id (a later category with the
      same id replaces an earlier one), each holding that category's figures
      over the month's expenses. */
  method CategoryStats(categories: seq<Category>, filtered: seq<Expense>) returns (stats: map<int, CategoryStat>)
    ensures stats.Keys == CategoryIds(categories)
    ensures forall id :: id in stats ==>
      stats[id].category in categories && stats[id].category.id == id &&
      stats[id] == StatFor(stats[id].category, filtered)
  {
    stats := map[];
    for i := 0 to |categories|
      invariant stats.Keys == CategoryIds(categories[..i])
      invariant forall id :: id in stats ==>
        stats[id].category in categories && stats[id].category.id == id &&
        stats[id] == StatFor(stats[id].category, filtered)
    {
      var c := categories[i];
      assert categories[..i + 1] == categories[..i] + [c];
      stats := stats[c.id := StatFor(c, filtered)];
    }
    assert categories[..|categories|] == categories;
  }

  // ---------------------------------------------------------------------------
  // Deleting.

  datatype DeleteTarget = ExpenseTarget | CategoryTarget

  datatype ConfirmAction = ConfirmAction(target: DeleteTarget, id: int)

  /** handleDeleteCategory: refused (None) while any expense, in any month,
      still carries the category; otherwise the confirmation to ask. */
  function DeleteCategoryRequest(expenses: seq<Expense>, id: int): (r: Option<ConfirmAction>)
    ensures r.None? <==> exists e :: e in expenses && e.categoryId == id
    ensures r.Some? ==> r.value == ConfirmAction(CategoryTarget, id)
  {
    if |Filter(expenses, (e: Expense) => e.categoryId == id)| > 0 then None
    else Some(ConfirmAction(CategoryTarget, id))
  }

  function RemoveExpense(expenses: seq<Expense>, id: int): (r: seq<Expense>)
    ensures IsSubsequence(r, expenses)
    ensures forall e :: e in r <==> e in expenses && e.id != id
    ensures forall e :: multiset(r)[e] == (if e.id != id then multiset(expenses)[e] else 0)
  {
    FilterCounts(expenses, (e: Expense) => e.id != id);
    Filter(expenses, (e: Expense) => e.id != id)
  }

  function RemoveCategory(categories: seq<Category>, id: int): (r: seq<Category>)
    ensures IsSubsequence(r, categories)
    ensures forall c :: c in r <==> c in categories && c.id != id
    ensures forall c :: multiset(r)[c] == (if c.id != id then multiset(categories)[c] else 0)
  {
    FilterCounts(categories, (c: Category) => c.id != id);
    Filter(categories, (c: Category) => c.id != id)
  }

  // ---------------------------------------------------------------------------
  // getColorForCategory.

  const Colors: seq<string> := ["orange", "blue", "green", "purple", "pink", "teal", "indigo", "red"]

  /** colors[(categoryId - 1) % 8] with JavaScript's remainder: a negative
      index reads undefined (None); a remainder of -0 reads index 0. */
  function ColorForCategory(categoryId: int): (r: Option<string>)
    ensures categoryId >= 1 ==> r == Some(Colors[(categoryId - 1) % 8])
    ensures categoryId < 1 ==> (r.Some? <==> (1 - categoryId) % 8 == 0)
    ensures r.Some? ==> r.value in Colors
  {
    var index := JsRem(categoryId - 1, |Colors|);
    if 0 <= index then Some(Colors[index]) else None
  }

  /** Colours repeat every eight ids, and ids 1 to 8 get eight different ones. */
  lemma ColorCycle(categoryId: int)
    requires categoryId >= 1
    ensures ColorForCategory(categoryId + 8) == ColorForCategory(categoryId)
    ensures categoryId <= 8 ==> forall other :: 1 <= other <= 8 && other != categoryId ==>
      ColorForCategory(other) != ColorForCategory(categoryId)
  {
    ColorsDistinct();
    assert (categoryId + 8 - 1) % 8 == (categoryId - 1) % 8;
  }

  /** The eight colours are different names. */
  lemma ColorsDistinct()
    ensures forall i, j :: 0 <= i < j < |Colors| ==> Colors[i] != Colors[j]
  {
    forall i, j | 0 <= i < j < |Colors| ensures Colors[i] != Colors[j] {
      assert Colors[i][0] != Colors[j][0] || Colors[i][1] != Colors[j][1];
    }
  }

  // ---------------------------------------------------------------------------
  // Form edits.

  /** handleCategoryChange / handleExpenseChange: the field takes the value and
      only that field's error is cleared; every other field and error stays. */
  function FieldChanged(form: map<string, string>, errors: map<string, seq<string>>, name: string, value: string)
    : (r: (map<string, string>, map<string, seq<string>>))
    ensures r.0 == form[name := value]
    ensures name !in r.1
    ensures forall k :: k != name ==> (k in r.1 <==> k in errors)
    ensures forall k :: k != name && k in errors ==> r.1[k] == errors[k]
  {
    (form[name := value], if name in errors then errors - {name} else errors)
  }

  // ---------------------------------------------------------------------------
  // The page state.

  class ExpensePage {
    var expenses: seq<Expense>
    var categories: seq<Category>
    var confirmAction: Option<ConfirmAction>
    var categoryForm: map<string, string>
    var expenseForm: map<string, string>
    var errors: map<string, seq<string>>

    constructor(expenses: seq<Expense>, categories: seq<Category>)
      ensures this.expenses == expenses && this.categories == categories
      ensures confirmAction.None? && errors == map[]
      ensures categoryForm == map["name" := "", "description" := ""]
      ensures expenseForm == map["category_id" := "", "name" := "", "description" := "", "amount" := "",
                                 "payment_status" := "", "payment_date" := "", "payment_time" := ""]
    {
      this.expenses := expenses;
      this.categories := categories;
      confirmAction := None;
      errors := map[];
      categoryForm := map["name" := "", "description" := ""];
      expenseForm := map["category_id" := "", "name" := "", "description" := "", "amount" := "",
                         "payment_status" := "", "payment_date" := "", "payment_time" := ""];
    }

    /** `refused` when an expense still uses the category; only otherwise is a
        confirmation set up. */
    method HandleDeleteCategory(id: int) returns (refused: bool)
      modifies this
      ensures refused <==> exists e :: e in expenses && e.categoryId == id
      ensures refused ==> confirmAction == old(confirmAction)
      ensures !refused ==> confirmAction == Some(ConfirmAction(CategoryTarget, id))
      ensures expenses == old(expenses) && categories == old(categories)
      ensures errors == old(errors) && categoryForm == old(categoryForm) && expenseForm == old(expenseForm)
    {
      var request := DeleteCategoryRequest(expenses, id);
      refused := request.None?;
      if !refused {
        confirmAction := request;
      }
    }

    method HandleDeleteExpense(id: int)
      modifies this
      ensures confirmAction == Some(ConfirmAction(ExpenseTarget, id))
      ensures expenses == old(expenses) && categories == old(categories)
      ensures errors == old(errors) && categoryForm == old(categoryForm) && expenseForm == old(expenseForm)
    {
      confirmAction := Some(ConfirmAction(ExpenseTarget, id));
    }

    /** handleConfirmDelete once the delete request has settled: on success
        exactly the entries with the id leave the list the action names; the
        action is cleared in any case. */
    method HandleConfirmDelete(success: bool)
      modifies this
      ensures confirmAction.None?
      ensures old(confirmAction).Some? && success && old(confirmAction).value.target == ExpenseTarget ==>
        expenses == RemoveExpense(old(expenses), old(confirmAction).value.id)
      ensures old(confirmAction).Some? && success && old(confirmAction).value.target == CategoryTarget ==>
        categories == RemoveCategory(old(categories), old(confirmAction).value.id)
      ensures !(old(confirmAction).Some? && success && old(confirmAction).value.target == ExpenseTarget) ==>
        expenses == old(expenses)
      ensures !(old(confirmAction).Some? && success && old(confirmAction).value.target == CategoryTarget) ==>
        categories == old(categories)
      ensures errors == old(errors) && categoryForm == old(categoryForm) && expenseForm == old(expenseForm)
    {
      if confirmAction.Some? && success {
        var action := confirmAction.value;
        if action.target == ExpenseTarget {
          expenses := RemoveExpense(expenses, action.id);
        } else {
          categories := RemoveCategory(categories, action.id);
        }
      }
      confirmAction := None;
    }

    method HandleCategoryChange(name: string, value: string)
      modifies this
      ensures (categoryForm, errors) == FieldChanged(old(categoryForm), old(errors), name, value)
      ensures expenses == old(expenses) && categories == old(categories)
      ensures expenseForm == old(expenseForm) && confirmAction == old(confirmAction)
    {
      var r := FieldChanged(categoryForm, errors, name, value);
      categoryForm, errors := r.0, r.1;
    }

    method HandleExpenseChange(name: string, value: string)
      modifies this
      ensures (expenseForm, errors) == FieldChanged(old(expenseForm), old(errors), name, value)
      ensures expenses == old(expenses) && categories == old(categories)
      ensures categoryForm == old(categoryForm) && confirmAction == old(confirmAction)
    {
      var r := FieldChanged(expenseForm, errors, name, value);
      expenseForm, errors := r.0, r.1;
    }
  }
}
