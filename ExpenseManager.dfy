/** The in-memory expense store (ExpenseManager in Main.java): an
    append-only list of expenses, the total of their amounts, three date
    filters (calendar day, month of a year, year) and the reporting rule
    for a filtered list.  The queries are functions of the stored list, so
    they change nothing and give the same answer until the next add. */
module ExpenseStore {
  import opened ExpenseRecord
  import opened StreamFilter

  /** The single line reported for an empty list. */
  const NoExpensesLine := "No expenses found."

  /** The sum of the amounts, taken in list order. */
  function Total(s: seq<Expense>): int
  {
    if s == [] then 0 else s[0].amount + Total(s[1..])
  }

  lemma {:induction false} TotalAppend(s: seq<Expense>, e: Expense)
    ensures Total(s + [e]) == Total(s) + e.amount
  {
    if s != [] {
      assert (s + [e])[1..] == s[1..] + [e];
      TotalAppend(s[1..], e);
    } else {
      assert s + [e] == [e];
    }
  }

  /** Every stored amount is counted exactly once: taking out the i-th
      expense lowers the total by its amount and by nothing else. */
  lemma {:induction false} TotalRemove(s: seq<Expense>, i: nat)
    requires i < |s|
    ensures Total(s) == s[i].amount + Total(s[..i] + s[i + 1..])
  {
    if i == 0 {
      assert s[..0] + s[1..] == s[1..];
    } else {
      TotalRemove(s[1..], i - 1);
      assert s[..i] + s[i + 1..] == [s[0]] + (s[1..][..i - 1] + s[1..][i..]);
    }
  }

  lemma TotalCountsEach(s: seq<Expense>)
    ensures forall i :: 0 <= i < |s| ==> Total(s) == s[i].amount + Total(s[..i] + s[i + 1..])
  {
    forall i | 0 <= i < |s| ensures Total(s) == s[i].amount + Total(s[..i] + s[i + 1..]) {
      TotalRemove(s, i);
    }
  }

  /** The total does not depend on the order in which expenses were added. */
  lemma {:induction false} TotalIgnoresOrder(s: seq<Expense>, t: seq<Expense>)
    requires multiset(s) == multiset(t)
    ensures Total(s) == Total(t)
    decreases |s|
  {
    if s == [] {
      assert |t| == |multiset(t)| == 0;
    } else {
      var x := s[0];
      assert x in multiset(t) by { assert x in multiset(s); }
      var i :| 0 <= i < |t| && t[i] == x;
      var rest := t[..i] + t[i + 1..];
      TotalRemove(t, i);
      assert t == t[..i] + [x] + t[i + 1..];
      assert s == [x] + s[1..];
      assert multiset(t) == multiset(t[..i]) + multiset{x} + multiset(t[i + 1..]);
      assert multiset(rest) == multiset(t[..i]) + multiset(t[i + 1..]);
      assert multiset(s) == multiset{x} + multiset(s[1..]);
      assert multiset(s[1..]) == multiset(s) - multiset{x};
      assert multiset(rest) == multiset(t) - multiset{x};
      TotalIgnoresOrder(s[1..], rest);
    }
  }

  /** The filter of getExpensesByDate: equal "yyyy-MM-dd" texts. */
  function OnDate(date: CalendarTime): Expense -> bool {
    (e: Expense) => FormatDay(e.date) == FormatDay(date)
  }

  /** The filter of getExpensesByMonth: Calendar.MONTH + 1 and Calendar.YEAR. */
  function InMonth(month: int, year: int): Expense -> bool {
    (e: Expense) => e.date.month == month && e.date.year == year
  }

  /** The filter of getExpensesByYear: Calendar.YEAR. */
  function InYear(year: int): Expense -> bool {
    (e: Expense) => e.date.year == year
  }

  /** Comparing "yyyy-MM-dd" texts selects the expenses of one calendar day. */
  lemma OnDateIsSameDay(date: CalendarTime)
    ensures forall e :: OnDate(date)(e) <==> DayOf(e.date) == DayOf(date)
  {
    forall e: Expense ensures OnDate(date)(e) <==> DayOf(e.date) == DayOf(date) {
      SameDayText(e.date, date);
    }
  }

  class ExpenseManager {
    var expenses: seq<Expense>

    constructor ()
      ensures expenses == []
      ensures GetTotalExpenses() == 0
      ensures forall year :: GetExpensesByYear(year) == []
      ensures forall month, year :: GetExpensesByMonth(month, year) == []
      ensures forall date: CalendarTime :: GetExpensesByDate(date) == []
    {
      expenses := [];
    }

    /** Appends one expense; every query now sees it, after the old answer. */
    method AddExpense(expense: Expense)
      modifies this
      ensures expenses == old(expenses) + [expense]
      ensures GetTotalExpenses() == old(GetTotalExpenses()) + expense.amount
      ensures forall date: CalendarTime :: GetExpensesByDate(date) == old(GetExpensesByDate(date)) + (if DayOf(expense.date) == DayOf(date) then [expense] else [])
      ensures forall month, year :: GetExpensesByMonth(month, year) == old(GetExpensesByMonth(month, year)) + (if expense.date.month == month && expense.date.year == year then [expense] else [])
      ensures forall year :: GetExpensesByYear(year) == old(GetExpensesByYear(year)) + (if expense.date.year == year then [expense] else [])
    {
      ghost var before := expenses;
      expenses := expenses + [expense];
      TotalAppend(before, expense);
      forall date: CalendarTime
        ensures Filter(expenses, OnDate(date))
          == Filter(before, OnDate(date)) + (if DayOf(expense.date) == DayOf(date) then [expense] else [])
      {
        FilterAppend(before, expense, OnDate(date));
        SameDayText(expense.date, date);
      }
      forall month, year
        ensures Filter(expenses, InMonth(month, year))
          == Filter(before, InMonth(month, year)) + (if expense.date.month == month && expense.date.year == year then [expense] else [])
      {
        FilterAppend(before, expense, InMonth(month, year));
      }
      forall year
        ensures Filter(expenses, InYear(year)) == Filter(before, InYear(year)) + (if expense.date.year == year then [expense] else [])
      {
        FilterAppend(before, expense, InYear(year));
      }
    }

    /** The sum of all stored amounts: zero for an empty store, and each
        stored expense contributes its amount exactly once. */
    function GetTotalExpenses(): (total: int)
      reads this
      ensures expenses == [] ==> total == 0
      ensures forall i :: 0 <= i < |expenses| ==> total == expenses[i].amount + Total(expenses[..i] + expenses[i + 1..])
    {
      TotalCountsEach(expenses);
      Total(expenses)
    }

    /** The stored expenses dated on the calendar day of `date`, whatever
        their time of day, in insertion order. */
    function GetExpensesByDate(date: CalendarTime): (r: seq<Expense>)
      reads this
      ensures IsSubsequence(r, expenses)
      ensures forall e :: e in r ==> e in expenses && DayOf(e.date) == DayOf(date)
      ensures forall e {:trigger multiset(r)[e]} :: e in expenses && DayOf(e.date) == DayOf(date) ==> multiset(r)[e] == multiset(expenses)[e]
    {
      OnDateIsSameDay(date);
      Filter(expenses, OnDate(date))
    }

    /** The stored expenses of month `month` (1 to 12) of `year`, in
        insertion order; no expense matches a month outside 1 to 12. */
    function GetExpensesByMonth(month: int, year: int): (r: seq<Expense>)
      reads this
      ensures IsSubsequence(r, expenses)
      ensures forall e :: e in r ==> e in expenses && e.date.month == month && e.date.year == year
      ensures forall e {:trigger multiset(r)[e]} :: e in expenses && e.date.month == month && e.date.year == year ==> multiset(r)[e] == multiset(expenses)[e]
      ensures !(1 <= month <= 12) ==> r == []
    {
      var r := Filter(expenses, InMonth(month, year));
      assert r != [] ==> r[0] in r;
      r
    }

    /** The stored expenses of `year`, in insertion order. */
    function GetExpensesByYear(year: int): (r: seq<Expense>)
      reads this
      ensures IsSubsequence(r, expenses)
      ensures forall e :: e in r ==> e in expenses && e.date.year == year
      ensures forall e {:trigger multiset(r)[e]} :: e in expenses && e.date.year == year ==> multiset(r)[e] == multiset(expenses)[e]
    {
      Filter(expenses, InYear(year))
    }

    /** A day's expenses are that month's expenses of that day. */
    lemma DayWithinMonth(date: CalendarTime)
      ensures GetExpensesByDate(date) == Filter(GetExpensesByMonth(date.month, date.year), OnDate(date))
      ensures IsSubsequence(GetExpensesByDate(date), GetExpensesByMonth(date.month, date.year))
    {
      OnDateIsSameDay(date);
      FilterNarrow(expenses, InMonth(date.month, date.year), OnDate(date));
    }

    /** A month's expenses are that year's expenses of that month. */
    lemma MonthWithinYear(month: int, year: int)
      ensures GetExpensesByMonth(month, year) == Filter(GetExpensesByYear(year), InMonth(month, year))
      ensures IsSubsequence(GetExpensesByMonth(month, year), GetExpensesByYear(year))
    {
      FilterNarrow(expenses, InYear(year), InMonth(month, year));
    }

    /** displayExpenses: one line per expense in list order, or the single
        "No expenses found." line for an empty list. */
    method DisplayExpenses(expensesList: seq<Expense>) returns (lines: seq<string>)
      ensures expensesList == [] ==> lines == [NoExpensesLine]
      ensures expensesList != [] ==> |lines| == |expensesList|
      ensures expensesList != [] ==> forall i :: 0 <= i < |lines| ==> lines[i] == Describe(expensesList[i])
    {
      if expensesList == [] {
        lines := [NoExpensesLine];
      } else {
        lines := [];
        for i := 0 to |expensesList|
          invariant |lines| == i
          invariant forall k :: 0 <= k < i ==> lines[k] == Describe(expensesList[k])
        {
          lines := lines + [Describe(expensesList[i])];
        }
      }
    }
  }

  /** Three expenses of 2024: lunch on 15 March, a bus fare on 20 March and
      dinner on 1 April (amounts in paise). */
  const Lunch := Expense(10000, "Food", "Lunch", Timestamp(2024, 3, 15, 12, 0, 0))
  const Bus := Expense(5000, "Travel", "Bus", Timestamp(2024, 3, 20, 8, 0, 0))
  const Dinner := Expense(20000, "Food", "Dinner", Timestamp(2024, 4, 1, 19, 0, 0))

  /** The day queried in the scenario: midnight at the start of 15 March 2024. */
  const On15: CalendarTime := Timestamp(2024, 3, 15, 0, 0, 0)

  /** Filtering three elements keeps each one exactly when it matches. */
  lemma FilterOfThree(a: Expense, b: Expense, c: Expense, p: Expense -> bool)
    ensures Filter([a, b, c], p)
      == (if p(a) then [a] else []) + (if p(b) then [b] else []) + (if p(c) then [c] else [])
  {
    assert [a] == [] + [a] && [a, b] == [a] + [b] && [a, b, c] == [a, b] + [c];
    FilterAppend([], a, p);
    FilterAppend([a], b, p);
    FilterAppend([a, b], c, p);
  }

  /** A store holding the three expenses above, added in that order. */
  method Stocked() returns (store: ExpenseManager)
    ensures fresh(store) && store.expenses == [Lunch, Bus, Dinner]
  {
    store := new ExpenseManager();
    store.AddExpense(Lunch);
    store.AddExpense(Bus);
    store.AddExpense(Dinner);
  }

  /** What each query of the scenario returns on the stocked list. */
  lemma StockedTotal(store: ExpenseManager)
    requires store.expenses == [Lunch, Bus, Dinner]
    ensures store.GetTotalExpenses() == 35000
  {
    assert [Lunch] == [] + [Lunch] && [Lunch, Bus] == [Lunch] + [Bus] && [Lunch, Bus, Dinner] == [Lunch, Bus] + [Dinner];
    TotalAppend([], Lunch);
    TotalAppend([Lunch], Bus);
    TotalAppend([Lunch, Bus], Dinner);
  }

  lemma StockedDay(store: ExpenseManager)
    requires store.expenses == [Lunch, Bus, Dinner]
    ensures store.GetExpensesByDate(On15) == [Lunch]
  {
    OnDateIsSameDay(On15);
    FilterOfThree(Lunch, Bus, Dinner, OnDate(On15));
  }

  lemma StockedMonths(store: ExpenseManager)
    requires store.expenses == [Lunch, Bus, Dinner]
    ensures store.GetExpensesByMonth(3, 2024) == [Lunch, Bus]
    ensures store.GetExpensesByMonth(4, 2024) == [Dinner]
  {
    FilterOfThree(Lunch, Bus, Dinner, InMonth(3, 2024));
    FilterOfThree(Lunch, Bus, Dinner, InMonth(4, 2024));
  }

  lemma StockedYears(store: ExpenseManager)
    requires store.expenses == [Lunch, Bus, Dinner]
    ensures store.GetExpensesByYear(2024) == [Lunch, Bus, Dinner]
    ensures store.GetExpensesByYear(2023) == []
  {
    FilterOfThree(Lunch, Bus, Dinner, InYear(2024));
    FilterOfThree(Lunch, Bus, Dinner, InYear(2023));
  }

  /** The store of Stocked, queried through the class's functions. */
  method Scenario()
    returns (total: int, day: seq<Expense>, march: seq<Expense>, april: seq<Expense>,
             year2024: seq<Expense>, year2023: seq<Expense>, report: seq<string>)
    ensures total == 35000
    ensures day == [Lunch]
    ensures march == [Lunch, Bus]
    ensures april == [Dinner]
    ensures year2024 == [Lunch, Bus, Dinner]
    ensures year2023 == [] && report == [NoExpensesLine]
  {
    var store := Stocked();
    StockedTotal(store);
    StockedDay(store);
    StockedMonths(store);
    StockedYears(store);
    total := store.GetTotalExpenses();
    day := store.GetExpensesByDate(On15);
    march := store.GetExpensesByMonth(3, 2024);
    april := store.GetExpensesByMonth(4, 2024);
    year2024 := store.GetExpensesByYear(2024);
    year2023 := store.GetExpensesByYear(2023);
    report := store.DisplayExpenses(year2023);
  }
}
