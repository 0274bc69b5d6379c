# Daily expense tracker: the expense store in Dafny

This project models the in-memory expense store of a small Java expense
tracker (`Main.java`) and proves what its queries return.

- An **expense** (`Expense`) is an immutable record of an amount, a category,
  a description and a timestamp. It is modelled as the datatype
  `ExpenseRecord.Expense`. The source's getters are the datatype's field
  destructors. Its `getFormattedDate` (`"yyyy-MM-dd HH:mm:ss"`) is
  `FormatDateTime` and its `toString` line is `Describe`.
- The **store** (`ExpenseManager`) owns a list of expenses that only grows.
  It is the class `ExpenseStore.ExpenseManager`, whose field `expenses` is a
  `seq<Expense>`. `AddExpense` appends to it in place. The four queries are
  functions that read the field:
  - `GetTotalExpenses` returns the sum of the amounts.
  - `GetExpensesByDate` keeps the expenses whose `yyyy-MM-dd` text equals
    that of the given date.
  - `GetExpensesByMonth` keeps those whose 1-based month and year match.
  - `GetExpensesByYear` keeps those whose year matches.

  Because the queries are functions of the stored list, they cannot change
  the store, and asking twice with no add in between gives the same answer.
- **Reporting** (`displayExpenses`) is the method `DisplayExpenses`. It
  returns the lines the source prints: the single line `No expenses found.`
  for an empty list, otherwise one `toString` line per expense in list order.

The Java stream pipeline `stream().filter(p).toList()` is the generic
`StreamFilter.Filter`. Its contract is an independent description of the
result: a subsequence of the input (so insertion order is kept), only
matching elements, and every matching element as many times as it is stored.
`SelectionIsUnique` proves that this description determines the result. So
the contracts of the three date queries say exactly what each returns.

Timestamps are the local calendar fields that `java.util.Calendar` reports
(`CalendarTime`: year of the era at least 1, month 1 to 12 as
`Calendar.MONTH + 1`, day 1 to 31, hour, minute, second). `getExpensesByDate`
compares `SimpleDateFormat("yyyy-MM-dd")` texts. The model keeps that string
comparison, including the zero padding of each field (`DateFormat.Padded`).
`SameDayText` then proves that two such texts are equal exactly when year,
month and day are equal. The proof goes through a reader, `ReadDay`, that
inverts the formatting. Amounts are whole paise (hundredths of a rupee) held
in an `int`.

Files: `DateFormat.dfy` (numeric date fields), `Expense.dfy` (module
`ExpenseRecord`), `StreamFilter.dfy` (filter and subsequence),
`ExpenseManager.dfy` (module `ExpenseStore`).

The code never checks the sign of an amount, so the model accepts negative
amounts. `displayExpenses` prints its lines; the model returns them.

## Model

| member | source | states |
|---|---|---|
| `DateFormat.Digits` | Main.java:63 | the decimal digits of a number are at least one digit, a single digit exactly below 10, and never start with `0` for a positive number |
| `DateFormat.Padded` | Main.java:63 | a numeric `SimpleDateFormat` field is all digits, exactly the minimum width when the number fits in it and otherwise as wide as its digits |
| `DateFormat.PaddedRoundTrip` | Main.java:63 | reading a zero-padded field back gives the number written, so padding loses nothing |
| `ExpenseRecord.FormatDayRoundTrip` | Main.java:63-65 | the `yyyy-MM-dd` text of a timestamp is at least 10 characters long and reads back as its (year, month, day) |
| `ExpenseRecord.SameDayText` | Main.java:65 | two timestamps have equal `yyyy-MM-dd` texts if and only if they fall on the same calendar day; hour, minute and second play no part |
| `ExpenseRecord.FormatDateTimeRoundTrip` | Main.java:34-37 | `getFormattedDate` (`yyyy-MM-dd HH:mm:ss`) reads back as the full timestamp, down to the second |
| `ExpenseRecord.AmountRoundTrip` | Main.java:40-43 | the amount text of the `toString` line reads back as the stored amount, for negative amounts too |
| `ExpenseRecord.Describe` | Main.java:39-43 | the `toString` line starts with `Amount: Rs`, the amount text and `, Category: `, and ends with `, Date: ` followed by the `yyyy-MM-dd HH:mm:ss` text of the timestamp |
| `ExpenseRecord.DescribeRoundTrip` | Main.java:39-43 | the amount and the full timestamp read back exactly from their places in the `toString` line, whatever the category and description contain |
| `StreamFilter.Filter` | Main.java:64-66 | `stream().filter(p).toList()` returns a subsequence of the list, holds only elements that satisfy `p`, and holds each matching element as many times as the list does |
| `StreamFilter.SelectionIsUnique` | Main.java:64-66 | any sequence with those three properties is the filter's result, so the properties determine the answer completely |
| `StreamFilter.FilterAppend` | Main.java:54-56 | after one element is appended, a filter returns its old answer, followed by the new element exactly when it matches |
| `StreamFilter.FilterNarrow` | Main.java:62-83 | filtering by a predicate that implies a wider one, after filtering by the wider one, equals filtering by the narrower one alone |
| `ExpenseStore.TotalAppend` | Main.java:54-60 | appending an expense raises the sum of amounts by exactly its amount |
| `ExpenseStore.TotalRemove` | Main.java:58-60 | each stored amount is counted exactly once: the sum is the i-th amount plus the sum of the others |
| `ExpenseStore.TotalIgnoresOrder` | Main.java:58-60 | two lists holding the same expenses in any order have the same total |
| `ExpenseStore.OnDateIsSameDay` | Main.java:62-67 | the `getExpensesByDate` filter accepts an expense if and only if its date is on the target's calendar day |
| `ExpenseStore.ExpenseManager.constructor` | Main.java:50-52 | a new store is empty: total 0, and every day, month and year query returns nothing |
| `ExpenseStore.ExpenseManager.AddExpense` | Main.java:54-56 | the list becomes the old list plus the new expense at the end; the total grows by its amount; every day, month and year query returns its old answer, followed by the new expense exactly when it matches |
| `ExpenseStore.ExpenseManager.GetTotalExpenses` | Main.java:58-60 | the total is 0 for an empty store, and equals each stored expense's amount plus the total of all the other stored expenses |
| `ExpenseStore.ExpenseManager.GetExpensesByDate` | Main.java:62-67 | returns, in insertion order, exactly the stored expenses on the target's calendar day (same year, month and day, any time), each as often as stored |
| `ExpenseStore.ExpenseManager.GetExpensesByMonth` | Main.java:69-75 | returns, in insertion order, exactly the stored expenses of that 1-based month and year, each as often as stored; a month outside 1 to 12 gives an empty list |
| `ExpenseStore.ExpenseManager.GetExpensesByYear` | Main.java:77-83 | returns, in insertion order, exactly the stored expenses of that year, each as often as stored |
| `ExpenseStore.ExpenseManager.DayWithinMonth` | Main.java:62-75 | the expenses of a day are the expenses of its month and year filtered by that day, so they form a subsequence of the month's |
| `ExpenseStore.ExpenseManager.MonthWithinYear` | Main.java:69-83 | the expenses of a month are the expenses of its year filtered by that month, so they form a subsequence of the year's |
| `ExpenseStore.ExpenseManager.DisplayExpenses` | Main.java:85-91 | an empty list gives the single line `No expenses found.`; otherwise one line per expense, the i-th line being the i-th expense's `toString` |
| `ExpenseStore.Scenario` | Main.java:54-91 | after `addExpense` of a lunch (15 March 2024, Rs100), a bus fare (20 March, Rs50) and a dinner (1 April, Rs200), the total is Rs350; 15 March gives the lunch; March gives lunch then bus; April gives the dinner; 2024 gives all three in order; 2023 gives nothing and is reported as `No expenses found.` |

## Left out

- The `Main` driver class (Main.java:95-194) is not modelled. It holds the `Scanner` menu loop, the prompts, the recovery from `InputMismatchException` and the `printf("%.2f")` of the total. It is console input and output.
- Reading the clock (`new Date()`, Main.java:153) and parsing `yyyy-MM-dd` input (Main.java:163) are not modelled. Timestamps are parameters of the model.
- Converting a `java.util.Date` to local calendar fields is not modelled. That conversion is done by `Calendar` and `SimpleDateFormat` in the host's time zone. The model starts from the local fields, so results near a time-zone boundary are not captured.
- Eras are not modelled. `Calendar.YEAR` and the `yyyy` pattern give the year of the era, so a date before year 1 of the common era shows a positive year. The model has only common-era years.
- The model accepts day numbers that do not exist in a month (for example 31 February). No operation of the store depends on that check.
- Amounts are exact whole paise, not `double` rupees. Rounding in floating-point sums (`DoubleStream.sum`) and binary representation error are not modelled.
- ExpenseRecord.AmountText always writes the plain decimal form. `Double.toString` switches to scientific notation (`1.0E7`) from ten million rupees upward, and the model does not.
- Printing to `System.out` is modelled as returning the printed lines from `DisplayExpenses`.
