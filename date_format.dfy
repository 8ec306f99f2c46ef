/**
 * `formatDate` of the patient detail screen: a `YYYY-MM-DD` string built from
 * the year, the zero-based month index and the day of month that a JavaScript
 * `Date` reports. Parsing the date string into a `Date` is not modelled; the
 * three integers are the inputs.
 */
module DateFormat {
  import opened Wrappers
  import opened Decimal
  import opened Strings

  /** `String(n).padStart(2, '0')`. */
  function TwoWide(n: int): (text: string)
    ensures |text| == (if |IntToString(n)| >= 2 then |IntToString(n)| else 2)
    ensures text[|text| - |IntToString(n)|..] == IntToString(n)
  {
    PadStart(IntToString(n), 2, '0')
  }

  /** `${year}-${month}-${day}` where month is the index plus one, both padded. */
  function FormatDate(year: int, monthIndex: int, day: int): (date: string)
    ensures |date| >= |IntToString(year)| + 6
    ensures date[..|IntToString(year)| + 1] == IntToString(year) + "-"
  {
    IntToString(year) + "-" + TwoWide(monthIndex + 1) + "-" + TwoWide(day)
  }

  /** Padding a non-negative number: one digit gains a leading '0', more digits are
      kept as they are, and the padded text still reads as the number. */
  lemma TwoWideOfNat(n: nat)
    ensures n < 10 ==> TwoWide(n) == "0" + NatToString(n)
    ensures n >= 10 ==> TwoWide(n) == NatToString(n)
    ensures |TwoWide(n)| >= 2 && AllDigits(TwoWide(n))
    ensures n < 100 ==> |TwoWide(n)| == 2
    ensures ParseInt(TwoWide(n)) == Some(n)
  {
    var s := NatToString(n);
    ParseNatToString(n);
    if n < 10 {
      ParseLeadingZero(s);
      assert TwoWide(n) == "0" + s;
    } else if n < 100 {
      TwoDigits(n);
    }
  }

  lemma DigitsHaveNoDash(s: string)
    requires AllDigits(s)
    ensures '-' !in s
  {
  }

  /** For a four-digit year and the ranges a `Date` reports, the result is
      `YYYY-MM-DD`: ten characters, dashes at 4 and 7, digits in between. */
  lemma FormatDateShape(year: int, monthIndex: int, day: int)
    requires 1000 <= year <= 9999 && 0 <= monthIndex <= 11 && 1 <= day <= 31
    ensures var r := FormatDate(year, monthIndex, day);
      && |r| == 10 && r[4] == '-' && r[7] == '-'
      && AllDigits(r[..4]) && AllDigits(r[5..7]) && AllDigits(r[8..])
  {
    FourDigits(year);
    TwoWideOfNat(monthIndex + 1);
    TwoWideOfNat(day);
    var y, m, d := IntToString(year), TwoWide(monthIndex + 1), TwoWide(day);
    assert |y| == 4 && |m| == 2 && |d| == 2;
    DashJoinedPieces(y, m, d);
  }

  lemma DashJoinedPieces(y: string, m: string, d: string)
    requires |y| == 4 && |m| == 2 && |d| == 2
    ensures var r := y + "-" + m + "-" + d;
      |r| == 10 && r[4] == '-' && r[7] == '-' && r[..4] == y && r[5..7] == m && r[8..] == d
  {
  }

  /** For a non-negative year, splitting the result on '-' gives back the year,
      the month index plus one and the day. */
  lemma FormatDateRoundTrip(year: int, monthIndex: int, day: int)
    requires year >= 0 && monthIndex >= -1 && day >= 0
    ensures var parts := Split(FormatDate(year, monthIndex, day), '-');
      && |parts| == 3
      && ParseInt(parts[0]) == Some(year)
      && ParseInt(parts[1]) == Some(monthIndex + 1)
      && ParseInt(parts[2]) == Some(day)
  {
    var y, m, d := IntToString(year), TwoWide(monthIndex + 1), TwoWide(day);
    TwoWideOfNat(monthIndex + 1);
    TwoWideOfNat(day);
    ParseIntToString(year);
    FormatDateJoins(year, monthIndex, day);
    SplitDigitGroups(y, m, d);
    assert Split(FormatDate(year, monthIndex, day), '-') == [y, m, d];
  }

  lemma FormatDateJoins(year: int, monthIndex: int, day: int)
    ensures FormatDate(year, monthIndex, day)
         == IntToString(year) + ['-'] + TwoWide(monthIndex + 1) + ['-'] + TwoWide(day)
  {
  }

  lemma SplitDigitGroups(y: string, m: string, d: string)
    requires AllDigits(y) && AllDigits(m) && AllDigits(d)
    ensures Split(y + ['-'] + m + ['-'] + d, '-') == [y, m, d]
  {
    DigitsHaveNoDash(y);
    DigitsHaveNoDash(m);
    DigitsHaveNoDash(d);
    SplitThree(y, m, d, '-');
  }

  /** For a negative year the round trip fails: the year's own '-' is a
      separator too, so the date splits into four parts, the first empty
      (year -5 gives "-5-01-01", which splits to "", "5", "01", "01"). */
  lemma NegativeYearSplitsInFour(year: int, monthIndex: int, day: int)
    requires year < 0 && monthIndex >= -1 && day >= 0
    ensures var parts := Split(FormatDate(year, monthIndex, day), '-');
      && |parts| == 4
      && parts == ["", NatToString(-year), TwoWide(monthIndex + 1), TwoWide(day)]
  {
    var n, m, d := NatToString(-year), TwoWide(monthIndex + 1), TwoWide(day);
    var rest := n + ['-'] + m + ['-'] + d;
    assert FormatDate(year, monthIndex, day) == ['-'] + rest by {
      FormatDateJoins(year, monthIndex, day);
      assert IntToString(year) == ['-'] + n;
      DashRegroups(n, m, d);
    }
    assert Split(['-'] + rest, '-') == ["", n, m, d] by {
      TwoWideOfNat(monthIndex + 1);
      TwoWideOfNat(day);
      LeadingDashSplit(n, m, d);
    }
  }

  lemma DashRegroups(n: string, m: string, d: string)
    ensures ['-'] + n + ['-'] + m + ['-'] + d == ['-'] + (n + ['-'] + m + ['-'] + d)
  {
  }

  lemma LeadingDashSplit(n: string, m: string, d: string)
    requires AllDigits(n) && AllDigits(m) && AllDigits(d)
    ensures Split(['-'] + (n + ['-'] + m + ['-'] + d), '-') == ["", n, m, d]
  {
    var rest := n + ['-'] + m + ['-'] + d;
    SplitLeading('-', rest);
    SplitDigitGroups(n, m, d);
  }
}
