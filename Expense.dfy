/** One expense record (the Expense class of Main.java): an immutable value
    holding an amount, a category, a description and a timestamp, together
    with the two date renderings the store and the display rely on:
    "yyyy-MM-dd" (the key getExpensesByDate compares) and
    "yyyy-MM-dd HH:mm:ss" (getFormattedDate), and the toString line. */
module ExpenseRecord {
  import opened DateFormat

  /** A point in time as java.util.Calendar decomposes it in the local time
      zone.  `month` is 1-based (Calendar.MONTH + 1) and `year` is the
      year of the era, which the Gregorian calendar never reports below 1. */
  datatype Timestamp = Timestamp(year: int, month: int, day: int, hour: int, minute: int, second: int)
  {
    predicate Valid() {
      && 1 <= year
      && 1 <= month <= 12
      && 1 <= day <= 31
      && 0 <= hour < 24
      && 0 <= minute < 60
      && 0 <= second < 60
    }
  }

  /** The timestamps a java.util.Date can decompose into. */
  type CalendarTime = t: Timestamp | t.Valid() witness Timestamp(1970, 1, 1, 0, 0, 0)

  datatype CalendarDay = CalendarDay(year: int, month: int, day: int)

  function DayOf(t: Timestamp): CalendarDay {
    CalendarDay(t.year, t.month, t.day)
  }

  /** Amounts are whole paise (hundredths of a rupee). */
  datatype Expense = Expense(amount: int, category: string, description: string, date: CalendarTime)

  /** Three numeric fields "A?BB?CC" with one separator character each:
      the layout of both "yyyy-MM-dd" and "HH:mm:ss". */
  function FieldsOf3(a: nat, b: nat, c: nat, minA: nat, sep: char): string {
    Padded(a, minA) + [sep] + Padded(b, 2) + [sep] + Padded(c, 2)
  }

  function ReadFields3(s: string): (int, int, int)
    requires |s| >= 6
  {
    (Value(s[..|s| - 6]), Value(s[|s| - 5..|s| - 3]), Value(s[|s| - 2..]))
  }

  lemma Fields3RoundTrip(a: nat, b: nat, c: nat, minA: nat, sep: char)
    requires b < 100 && c < 100
    ensures |FieldsOf3(a, b, c, minA, sep)| == |Padded(a, minA)| + 6
    ensures ReadFields3(FieldsOf3(a, b, c, minA, sep)) == (a, b, c)
  {
    var A, B, C := Padded(a, minA), Padded(b, 2), Padded(c, 2);
    TwoWide(b);
    TwoWide(c);
    var s := FieldsOf3(a, b, c, minA, sep);
    assert s == A + [sep] + B + [sep] + C;
    assert s[..|s| - 6] == A;
    assert s[|s| - 5..|s| - 3] == B;
    assert s[|s| - 2..] == C;
    PaddedRoundTrip(a, minA);
    PaddedRoundTrip(b, 2);
    PaddedRoundTrip(c, 2);
  }

  /** SimpleDateFormat("yyyy-MM-dd").format. */
  function FormatDay(t: CalendarTime): string {
    FieldsOf3(t.year, t.month, t.day, 4, '-')
  }

  /** Reads "yyyy-MM-dd" back into its calendar day. */
  function ReadDay(s: string): CalendarDay
    requires |s| >= 6
  {
    var (y, m, d) := ReadFields3(s);
    CalendarDay(y, m, d)
  }

  lemma FormatDayRoundTrip(t: CalendarTime)
    ensures |FormatDay(t)| >= 10
    ensures ReadDay(FormatDay(t)) == DayOf(t)
  {
    Fields3RoundTrip(t.year, t.month, t.day, 4, '-');
  }

  /** Two timestamps have the same "yyyy-MM-dd" text exactly when they fall
      on the same calendar day; the time of day plays no part. */
  lemma SameDayText(a: CalendarTime, b: CalendarTime)
    ensures FormatDay(a) == FormatDay(b) <==> DayOf(a) == DayOf(b)
  {
    FormatDayRoundTrip(a);
    FormatDayRoundTrip(b);
  }

  /** SimpleDateFormat("yyyy-MM-dd HH:mm:ss").format: Expense.getFormattedDate. */
  function FormatDateTime(t: CalendarTime): string {
    FormatDay(t) + " " + FieldsOf3(t.hour, t.minute, t.second, 2, ':')
  }

  function ReadDateTime(s: string): Timestamp
    requires |s| >= 15
  {
    var day := ReadDay(s[..|s| - 9]);
    var (h, m, sec) := ReadFields3(s[|s| - 8..]);
    Timestamp(day.year, day.month, day.day, h, m, sec)
  }

  /** The date and the time of day sit on either side of one space, the
      time taking the last eight characters. */
  lemma SplitDateTime(D: string, T: string)
    requires |T| == 8
    ensures var s := D + " " + T; s[..|s| - 9] == D && s[|s| - 8..] == T
  {
  }

  /** getFormattedDate loses nothing down to the second. */
  lemma FormatDateTimeRoundTrip(t: CalendarTime)
    ensures |FormatDateTime(t)| >= 19
    ensures ReadDateTime(FormatDateTime(t)) == t
  {
    var D, T := FormatDay(t), FieldsOf3(t.hour, t.minute, t.second, 2, ':');
    assert |D| >= 10 && ReadDay(D) == DayOf(t) by {
      FormatDayRoundTrip(t);
    }
    assert |T| == 8 && ReadFields3(T) == (t.hour, t.minute, t.second) by {
      Fields3RoundTrip(t.hour, t.minute, t.second, 2, ':');
      TwoWide(t.hour);
    }
    SplitDateTime(D, T);
    var s := FormatDateTime(t);
    assert s == D + " " + T;
    assert ReadDateTime(s) == Timestamp(t.year, t.month, t.day, t.hour, t.minute, t.second);
  }

  /** The amount in rupees as Double.toString writes it below ten million
      rupees: the integer part, a point, and the paise with a trailing zero
      dropped (at least one digit after the point), led by '-' when negative. */
  function AmountText(paise: int): string {
    if paise < 0 then "-" + RupeesText(-paise) else RupeesText(paise)
  }

  function RupeesText(p: nat): string {
    var c := p % 100;
    Digits(p / 100) + "." + (if c % 10 == 0 then [DigitChar(c / 10)] else [DigitChar(c / 10), DigitChar(c % 10)])
  }

  /** Reads AmountText back into paise. */
  function ReadAmount(s: string): int {
    if |s| > 0 && s[0] == '-' then -ReadRupees(s[1..]) else ReadRupees(s)
  }

  function ReadRupees(s: string): int {
    if |s| >= 3 && s[|s| - 2] == '.' then Value(s[..|s| - 2]) * 100 + Value(s[|s| - 1..]) * 10
    else if |s| >= 4 then Value(s[..|s| - 3]) * 100 + Value(s[|s| - 2..])
    else 0
  }

  lemma RupeesRoundTrip(p: nat)
    ensures |RupeesText(p)| >= 3 && IsDigit(RupeesText(p)[0])
    ensures ReadRupees(RupeesText(p)) == p
  {
    var q, c := p / 100, p % 100;
    var I := Digits(q);
    ValueOfDigits(q);
    var s := RupeesText(p);
    if c % 10 == 0 {
      var F := [DigitChar(c / 10)];
      assert s == I + "." + F;
      assert s[..|s| - 2] == I;
      assert s[|s| - 1..] == F;
      assert Value(F) == c / 10 by { assert F[..0] == []; }
    } else {
      var F := [DigitChar(c / 10), DigitChar(c % 10)];
      assert s == I + "." + F;
      assert s[|s| - 2] == DigitChar(c / 10);
      assert s[..|s| - 3] == I;
      assert s[|s| - 2..] == F;
      assert Value(F) == c by {
        assert F[..1] == [DigitChar(c / 10)];
        assert F[..1][..0] == [];
        assert Value(F[..1]) == c / 10;
        assert Value(F) == (c / 10) * 10 + c % 10;
      }
    }
  }

  /** The amount printed by toString reads back as the stored amount. */
  lemma AmountRoundTrip(paise: int)
    ensures ReadAmount(AmountText(paise)) == paise
  {
    if paise < 0 {
      var r := RupeesText(-paise);
      RupeesRoundTrip(-paise);
      assert AmountText(paise) == "-" + r;
      assert ("-" + r)[1..] == r;
    } else {
      RupeesRoundTrip(paise);
    }
  }

  /** The first and last parts of a line made of three parts. */
  lemma Ends(head: string, middle: string, tail: string)
    ensures var line := head + middle + tail;
            && |head| <= |line| && line[..|head|] == head
            && |tail| <= |line| && line[|line| - |tail|..] == tail
  {
  }

  /** Expense.toString: the amount leads the line and the date and time
      close it. */
  function Describe(e: Expense): (line: string)
    ensures var head := "Amount: Rs" + AmountText(e.amount) + ", Category: ";
            |head| <= |line| && line[..|head|] == head
    ensures var tail := ", Date: " + FormatDateTime(e.date);
            |tail| <= |line| && line[|line| - |tail|..] == tail
  {
    var head := "Amount: Rs" + AmountText(e.amount) + ", Category: ";
    var middle := e.category + ", Description: " + e.description;
    var tail := ", Date: " + FormatDateTime(e.date);
    Ends(head, middle, tail);
    head + middle + tail
  }

  /** A slice of a known prefix of a line is that slice of the prefix. */
  lemma SliceOfPrefix(line: string, head: string, i: nat, j: nat)
    requires |head| <= |line| && line[..|head|] == head && i <= j <= |head|
    ensures line[i..j] == head[i..j]
  {
    forall k | i <= k < j
      ensures line[k] == head[k]
    {
      assert line[..|head|][k] == line[k];
    }
  }

  /** The amount text follows the ten characters "Amount: Rs". */
  lemma AmountInLine(e: Expense)
    ensures var line, amount := Describe(e), AmountText(e.amount);
            10 + |amount| <= |line| && line[10..10 + |amount|] == amount
  {
    var line, amount := Describe(e), AmountText(e.amount);
    var head := "Amount: Rs" + amount + ", Category: ";
    assert head[10..10 + |amount|] == amount;
    SliceOfPrefix(line, head, 10, 10 + |amount|);
  }

  /** A line that ends with `lead + x` ends with `x`. */
  lemma EndOfSuffix(line: string, lead: string, x: string)
    requires |lead + x| <= |line| && line[|line| - |lead + x|..] == lead + x
    ensures |x| <= |line| && line[|line| - |x|..] == x
  {
    var tail := lead + x;
    forall i | 0 <= i < |x|
      ensures line[|line| - |x| + i] == x[i]
    {
      assert line[|line| - |tail|..][|lead| + i] == line[|line| - |x| + i];
      assert tail[|lead| + i] == x[i];
    }
  }

  /** The formatted timestamp closes the line. */
  lemma DateInLine(e: Expense)
    ensures var line, date := Describe(e), FormatDateTime(e.date);
            |date| <= |line| && line[|line| - |date|..] == date
  {
    EndOfSuffix(Describe(e), ", Date: ", FormatDateTime(e.date));
  }

  /** The toString line of an expense carries its amount and its timestamp
      in a form that reads back exactly, whatever the category and
      description hold. */
  lemma DescribeRoundTrip(e: Expense)
    ensures var line, amount, date := Describe(e), AmountText(e.amount), FormatDateTime(e.date);
            && 10 + |amount| <= |line| && |date| >= 19
            && ReadAmount(line[10..10 + |amount|]) == e.amount
            && ReadDateTime(line[|line| - |date|..]) == e.date
  {
    AmountInLine(e);
    DateInLine(e);
    AmountRoundTrip(e.amount);
    FormatDateTimeRoundTrip(e.date);
  }
}
