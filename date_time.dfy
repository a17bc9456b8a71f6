/**
 * The two library calls every `parse_date` makes on a slashed date:
 * `datetime.strptime(s, "%d/%m/%Y")` and `.strftime("%Y-%m-%d")`, over the
 * proleptic Gregorian calendar of Python's `datetime` (years 1 to 9999).
 * The `%d` directive accepts `1`-`9` and `01`-`31`, `%m` accepts `1`-`9` and
 * `01`-`12`, `%Y` exactly four digits; the whole string must be consumed.
 * A ValueError (no match, left-over text, year 0, day past the end of the
 * month) is the result `None`.
 */
module DateTime {
  import opened PyBuiltins

  datatype Date = Date(year: nat, month: nat, day: nat)

  predicate IsLeapYear(y: int)
  {
    y % 4 == 0 && (y % 100 != 0 || y % 400 == 0)
  }

  function DaysInMonth(y: int, m: int): int
    requires 1 <= m <= 12
  {
    if m == 2 then (if IsLeapYear(y) then 29 else 28)
    else if m == 4 || m == 6 || m == 9 || m == 11 then 30
    else 31
  }

  /** A date that `datetime.date` accepts. */
  predicate IsValidDate(d: Date)
  {
    1 <= d.year <= 9999 && 1 <= d.month <= 12 && 1 <= d.day <= DaysInMonth(d.year, d.month)
  }

  /** What `%d` matches: one or two digits with value 1 to 31. */
  predicate IsDayField(s: string)
  {
    1 <= |s| <= 2 && IsDigitStr(s) && 1 <= DigitsValue(s) <= 31
  }

  /** What `%m` matches: one or two digits with value 1 to 12. */
  predicate IsMonthField(s: string)
  {
    1 <= |s| <= 2 && IsDigitStr(s) && 1 <= DigitsValue(s) <= 12
  }

  /** What `%Y` matches: exactly four digits. */
  predicate IsYearField(s: string)
  {
    |s| == 4 && IsDigitStr(s)
  }

  /** `datetime.strptime(s, "%d/%m/%Y")`; None stands for the ValueError it raises. */
  function StrptimeDMY(s: string): (r: Option<Date>)
    ensures r.Some? ==> IsValidDate(r.value)
  {
    var parts := Split(s, '/');
    if |parts| == 3 && IsDayField(parts[0]) && IsMonthField(parts[1]) && IsYearField(parts[2]) then
      var d := Date(DigitsValue(parts[2]), DigitsValue(parts[1]), DigitsValue(parts[0]));
      if IsValidDate(d) then Some(d) else None
    else
      None
  }

  /** A number below 100 as two digits, zero-padded. */
  function Pad2(n: nat): (s: string)
    requires n < 100
    ensures |s| == 2 && IsDigitStr(s) && DigitsValue(s) == n
  {
    var s := [DigitChar(n / 10), DigitChar(n % 10)];
    assert s[..1] == [DigitChar(n / 10)];
    assert [DigitChar(n / 10)][..0] == [];
    assert DigitsValue(s[..1]) == n / 10;
    s
  }

  /** A number below 10000 as four digits, zero-padded. */
  function Pad4(n: nat): (s: string)
    requires n < 10000
    ensures |s| == 4 && IsDigitStr(s) && DigitsValue(s) == n
  {
    var s := Pad2(n / 100) + Pad2(n % 100);
    assert s[..3] == Pad2(n / 100) + [DigitChar(n % 100 / 10)];
    assert s[..2] == Pad2(n / 100);
    s
  }

  /** `date.strftime("%Y-%m-%d")`. */
  function StrftimeISO(d: Date): (s: string)
    requires IsValidDate(d)
    ensures IsFullDate(s) && ReadFullDate(s) == d
  {
    var s := Pad4(d.year) + "-" + Pad2(d.month) + "-" + Pad2(d.day);
    assert s[..4] == Pad4(d.year);
    assert s[5..7] == Pad2(d.month);
    assert s[8..] == Pad2(d.day);
    s
  }

  /**
   * The `full-date` production of section 5.6 of RFC 3339:
   * `date-fullyear "-" date-month "-" date-mday`, four, two and two digits,
   * the month 01-12 and the day bounded by the month and leap year.
   */
  predicate IsFullDate(s: string)
  {
    && |s| == 10 && s[4] == '-' && s[7] == '-'
    && IsDigitStr(s[..4]) && IsDigitStr(s[5..7]) && IsDigitStr(s[8..])
    && 1 <= DigitsValue(s[5..7]) <= 12
    && 1 <= DigitsValue(s[8..]) <= DaysInMonth(DigitsValue(s[..4]), DigitsValue(s[5..7]))
  }

  /** The calendar date an RFC 3339 full-date denotes. */
  function ReadFullDate(s: string): Date
    requires IsFullDate(s)
  {
    Date(DigitsValue(s[..4]), DigitsValue(s[5..7]), DigitsValue(s[8..]))
  }

  /** A four-digit year followed by "-01-01" is a full-date. */
  lemma YearStartIsFullDate(y: string)
    requires IsDigitStr(y) && |y| == 4
    ensures IsFullDate(y + "-01-01")
  {
    var s := y + "-01-01";
    assert s[..4] == y;
    assert s[5..7] == "01";
    assert s[8..] == "01";
    assert "01"[..1] == "0" && "0"[..0] == [];
  }

  /** A full-date has dashes and no slash, so no parse_date takes its slash branch. */
  lemma FullDateShape(s: string)
    requires IsFullDate(s)
    ensures '-' in s && '/' !in s && !IsDigitStr(s) && s != ""
  {
    assert s[4] == '-';
    forall i | 0 <= i < |s|
      ensures s[i] != '/'
    {
      if i < 4 {
        assert s[..4][i] == s[i];
      } else if 4 < i < 7 {
        assert s[5..7][i - 5] == s[i];
      } else if 7 < i {
        assert s[8..][i - 8] == s[i];
      }
    }
  }

  /** Splitting three slash-free fields joined by slashes gives the fields back. */
  lemma SplitThree(a: string, b: string, c: string)
    requires '/' !in a && '/' !in b && '/' !in c
    ensures Split(a + "/" + b + "/" + c, '/') == [a, b, c]
  {
    assert a + "/" + b + "/" + c == a + ['/'] + (b + ['/'] + c);
    SplitAfterPrefix(a, '/', b + ['/'] + c);
    SplitAfterPrefix(b, '/', c);
  }

  /** The text `DD/MM/YYYY`, day and month zero-padded to two digits. */
  function SlashedDMY(d: Date): string
    requires d.day < 100 && d.month < 100 && d.year < 10000
  {
    Pad2(d.day) + "/" + Pad2(d.month) + "/" + Pad4(d.year)
  }

  /** A slashed date is a non-empty text holding a slash. */
  lemma SlashedHasSlash(d: Date)
    requires d.day < 100 && d.month < 100 && d.year < 10000
    ensures '/' in SlashedDMY(d)
  {
    assert SlashedDMY(d)[2] == '/';
  }

  /** strptime reads DD/MM/YYYY back to exactly the date it writes, and rejects it exactly when that date does not exist. */
  lemma StrptimeSlashed(d: Date)
    requires d.day < 100 && d.month < 100 && d.year < 10000
    ensures StrptimeDMY(SlashedDMY(d)) == if IsValidDate(d) then Some(d) else None
  {
    SplitThree(Pad2(d.day), Pad2(d.month), Pad4(d.year));
  }

  /** The single-digit spellings `D/M/YYYY` are accepted as well. */
  lemma StrptimeReadsUnpadded(d: Date)
    requires IsValidDate(d) && d.day < 10 && d.month < 10
    ensures StrptimeDMY([DigitChar(d.day)] + "/" + [DigitChar(d.month)] + "/" + Pad4(d.year)) == Some(d)
  {
    var day, month := [DigitChar(d.day)], [DigitChar(d.month)];
    SplitThree(day, month, Pad4(d.year));
    assert day[..0] == [] && DigitsValue(day) == d.day;
    assert month[..0] == [] && DigitsValue(month) == d.month;
    assert IsDayField(day) && IsMonthField(month) && IsYearField(Pad4(d.year));
  }

  /** 11 June 1984 written both ways. */
  lemma SlashedExample()
    ensures SlashedDMY(Date(1984, 6, 11)) == "11/06/1984"
    ensures IsValidDate(Date(1984, 6, 11)) && StrftimeISO(Date(1984, 6, 11)) == "1984-06-11"
  {
    assert Pad2(19) == "19" && Pad2(84) == "84" && Pad2(6) == "06" && Pad2(11) == "11";
  }

  /** 29 February is read back in every leap year. */
  lemma LeapDayAccepted(y: nat)
    requires 1 <= y <= 9999 && IsLeapYear(y)
    ensures StrptimeDMY(SlashedDMY(Date(y, 2, 29))) == Some(Date(y, 2, 29))
  {
    StrptimeSlashed(Date(y, 2, 29));
  }

  /** A century year not divisible by 400 has no 29 February. */
  lemma CenturyLeapDayRejected(y: nat)
    requires y < 10000 && y % 100 == 0 && y % 400 != 0
    ensures StrptimeDMY(SlashedDMY(Date(y, 2, 29))) == None
  {
    StrptimeSlashed(Date(y, 2, 29));
  }

  /** April, June, September and November have no 31st. */
  lemma ShortMonthOverflowRejected(y: nat, m: nat)
    requires y < 10000 && (m == 4 || m == 6 || m == 9 || m == 11)
    ensures StrptimeDMY(SlashedDMY(Date(y, m, 31))) == None
  {
    StrptimeSlashed(Date(y, m, 31));
  }

  /** Four zeros match %Y, but year 0 is out of datetime's range. */
  lemma YearZeroRejected(m: nat, d: nat)
    requires m < 100 && d < 100
    ensures StrptimeDMY(SlashedDMY(Date(0, m, d))) == None
  {
    StrptimeSlashed(Date(0, m, d));
  }
}
