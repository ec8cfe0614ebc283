/** The part of PHP's DateTime that `isValidDate` relies on:
    `DateTime::createFromFormat('Y-m-d', $s)` followed by `->format('Y-m-d')`.
    Parsing is lenient (unpadded numbers, out-of-range months and days are accepted
    and rolled over into a real date); formatting always pads. The theorem of this
    module is that the round trip gives back its input exactly for the ten-character
    strings `YYYY-MM-DD` that name a real day of the proleptic Gregorian calendar. */
module PhpDate {
  import opened PhpValues

  datatype Date = Date(year: int, month: int, day: int)

  predicate IsLeapYear(y: int)
  {
    y % 4 == 0 && (y % 100 != 0 || y % 400 == 0)
  }

  function DaysInMonth(y: int, m: int): (n: int)
    requires 1 <= m <= 12
    ensures 28 <= n <= 31
    ensures n == 29 <==> m == 2 && IsLeapYear(y)
  {
    if m == 2 then (if IsLeapYear(y) then 29 else 28)
    else if m == 4 || m == 6 || m == 9 || m == 11 then 30
    else 31
  }

  /** A day that exists in the calendar. */
  predicate IsReal(d: Date)
  {
    1 <= d.month <= 12 && 1 <= d.day <= DaysInMonth(d.year, d.month)
  }

  predicate IsDigit(c: char)
  {
    '0' <= c <= '9'
  }

  predicate AllDigits(s: string)
  {
    forall i :: 0 <= i < |s| ==> IsDigit(s[i])
  }

  function Pow10(n: nat): (p: nat)
    ensures p >= 1
  {
    if n == 0 then 1 else 10 * Pow10(n - 1)
  }

  /** The number a string of decimal digits denotes. */
  function DigitsValue(s: string): (v: nat)
    requires AllDigits(s)
    ensures v < Pow10(|s|)
    decreases |s|
  {
    if s == [] then 0
    else DigitsValue(s[..|s| - 1]) * 10 + (s[|s| - 1] as int - '0' as int)
  }

  /** The last `width` decimal digits of `n`, padded with zeros. */
  function Padded(n: nat, width: nat): (s: string)
    ensures |s| == width && AllDigits(s)
  {
    if width == 0 then "" else Padded(n / 10, width - 1) + [DigitChar(n % 10)]
  }

  /** Format character `Y`: at least four digits, with a minus sign before the year. */
  function YearText(y: int): (s: string)
    ensures 0 <= y < 10000 ==> s == Padded(y, 4)
    ensures y >= 10000 ==> |s| >= 5
    ensures y < 0 ==> |s| >= 5 && s[0] == '-'
  {
    if y < 0 then "-" + YearDigits(-y) else YearDigits(y)
  }

  function YearDigits(n: nat): (s: string)
    ensures n < 10000 ==> s == Padded(n, 4)
    ensures n >= 10000 ==> |s| >= 5
  {
    if n < 10000 then Padded(n, 4) else (DecimalAtLeastFive(n); Decimal(n))
  }

  /** `$d->format('Y-m-d')`: ten characters exactly for the years 0..9999, longer
      for every other year. */
  function Format(d: Date): (s: string)
    requires IsReal(d)
    ensures 0 <= d.year < 10000 ==>
      |s| == 10 && s[4] == '-' && s[7] == '-'
      && s[..4] == Padded(d.year, 4) && s[5..7] == Padded(d.month, 2) && s[8..] == Padded(d.day, 2)
    ensures !(0 <= d.year < 10000) ==> |s| > 10
  {
    YearText(d.year) + "-" + Padded(d.month, 2) + "-" + Padded(d.day, 2)
  }

  /** The number of leading digits of `s`, reading at most `max` of them. */
  function DigitRun(s: string, max: nat): (n: nat)
    ensures n <= max && n <= |s|
    ensures AllDigits(s[..n])
    ensures n < max && n < |s| ==> !IsDigit(s[n])
  {
    if max == 0 || s == [] || !IsDigit(s[0]) then 0
    else
      var n := 1 + DigitRun(s[1..], max - 1);
      assert s[..n] == [s[0]] + s[1..][..n - 1];
      n
  }

  /** Four digits, a dash, two digits, a dash, two digits. */
  predicate IsYmdForm(s: string)
  {
    |s| == 10 && s[4] == '-' && s[7] == '-' && AllDigits(s[..4]) && AllDigits(s[5..7]) && AllDigits(s[8..])
  }

  /** `DateTime::createFromFormat('Y-m-d', $s)` up to normalisation: `Y` reads one to
      four digits, `m` and `d` one or two, the dashes must be there and nothing may
      follow. None stands for PHP's `false`. */
  function ParseYmd(s: string): (r: Option<Date>)
    ensures r.Some? ==> 5 <= |s| <= 10 && IsDigit(s[0])
    ensures r.Some? ==> 0 <= r.value.month && 0 <= r.value.day
    ensures IsYmdForm(s) ==> r == Some(Date(DigitsValue(s[..4]), DigitsValue(s[5..7]), DigitsValue(s[8..])))
  {
    var ny := DigitRun(s, 4);
    assert IsYmdForm(s) ==> ny == 4 && s[..ny][0] == s[0] by {
      if IsYmdForm(s) { DigitRunReadsAll(s, 4); }
    }
    assert IsYmdForm(s) ==> DigitRun(s[5..], 2) == 2 by {
      if IsYmdForm(s) { assert s[5..][..2] == s[5..7]; DigitRunReadsAll(s[5..], 2); }
    }
    assert IsYmdForm(s) ==> DigitRun(s[5..][3..], 2) == 2 by {
      if IsYmdForm(s) { assert s[5..][3..] == s[8..]; DigitRunReadsAll(s[8..], 2); }
    }
    if ny == 0 || ny >= |s| || s[ny] != '-' then None
    else
      var rest := s[ny + 1..];
      var nm := DigitRun(rest, 2);
      if nm == 0 || nm >= |rest| || rest[nm] != '-' then None
      else
        var tail := rest[nm + 1..];
        var nd := DigitRun(tail, 2);
        if nd == 0 || nd != |tail| then None
        else
          assert s[..ny][0] == s[0];
          assert tail[..nd] == tail;
          assert IsYmdForm(s) ==> rest[..nm] == s[5..7] && tail == s[8..];
          Some(Date(DigitsValue(s[..ny]), DigitsValue(rest[..nm]), DigitsValue(tail)))
  }

  /** Day overflow as DateTime resolves it: day 0 is the last day of the month
      before, a day past the month's end carries into the following months. */
  function RollDays(y: int, m: int, day: int): (r: Date)
    requires 1 <= m <= 12 && 0 <= day
    ensures IsReal(r)
    ensures 1 <= day <= DaysInMonth(y, m) ==> r == Date(y, m, day)
    ensures day == 0 ==> 12 * r.year + r.month == 12 * y + m - 1 && r.day == DaysInMonth(r.year, r.month)
    ensures day > DaysInMonth(y, m) ==> 12 * r.year + r.month > 12 * y + m && r.day < day
    decreases day
  {
    if day == 0 then
      var (py, pm) := if m == 1 then (y - 1, 12) else (y, m - 1);
      Date(py, pm, DaysInMonth(py, pm))
    else if day <= DaysInMonth(y, m) then Date(y, m, day)
    else
      var (ny, nm) := if m == 12 then (y + 1, 1) else (y, m + 1);
      RollDays(ny, nm, day - DaysInMonth(y, m))
  }

  /** The real date DateTime makes of a parsed triple: the month carries into the
      year first (month 0 is December of the year before), then the day. */
  function Normalize(d: Date): (r: Date)
    requires 0 <= d.month && 0 <= d.day
    ensures IsReal(r)
    ensures IsReal(d) ==> r == d
  {
    RollDays(d.year + (d.month - 1) / 12, (d.month - 1) % 12 + 1, d.day)
  }

  /** createFromFormat succeeds and format gives back the very same string; only
      a `DDDD-DD-DD`-shaped string can. */
  predicate RoundTrips(s: string)
    ensures RoundTrips(s) ==> |s| == 10 && s[4] == '-' && s[7] == '-'
  {
    match ParseYmd(s)
    case None => false
    case Some(p) => Format(Normalize(p)) == s
  }

  /** The strict `YYYY-MM-DD` form of a real calendar day. */
  predicate IsCalendarDate(s: string)
  {
    IsYmdForm(s) && IsReal(Date(DigitsValue(s[..4]), DigitsValue(s[5..7]), DigitsValue(s[8..])))
  }

  lemma {:induction false} DecimalAtLeastFive(n: nat)
    requires n >= 10000
    ensures |Decimal(n)| >= 5
  {
    DecimalLength(n / 10);
  }

  lemma {:induction false} DecimalLength(n: nat)
    ensures n >= 1000 ==> |Decimal(n)| >= 4
  {
    if n >= 1000 {
      var k := n / 10;
      assert k >= 100 && k / 10 >= 10;
      assert |Decimal(k / 10)| >= 2;
    }
  }

  /** Padding then reading back gives the number, when it fits the width. */
  lemma {:induction false} PaddedValue(n: nat, width: nat)
    requires n < Pow10(width)
    ensures DigitsValue(Padded(n, width)) == n
  {
    if width > 0 {
      PaddedValue(n / 10, width - 1);
      var s := Padded(n, width);
      assert s[..|s| - 1] == Padded(n / 10, width - 1);
    }
  }

  /** Reading a digit string then padding it to its own length gives it back. */
  lemma {:induction false} PaddedOfValue(s: string)
    requires AllDigits(s)
    ensures Padded(DigitsValue(s), |s|) == s
  {
    if s != [] {
      var p := s[..|s| - 1];
      var d := s[|s| - 1] as int - '0' as int;
      PaddedOfValue(p);
      var v := DigitsValue(s);
      assert v == DigitsValue(p) * 10 + d;
      assert v / 10 == DigitsValue(p) && v % 10 == d;
      assert s == p + [s[|s| - 1]];
    }
  }

  lemma {:induction false} DigitRunReadsAll(s: string, k: nat)
    requires k <= |s| && AllDigits(s[..k])
    ensures DigitRun(s, k) == k
  {
    if k > 0 {
      assert IsDigit(s[..k][0]);
      assert s[1..][..k - 1] == s[..k][1..];
      DigitRunReadsAll(s[1..], k - 1);
    }
  }

  /** A strict calendar date survives the round trip. */
  lemma CalendarDateRoundTrips(s: string)
    requires IsCalendarDate(s)
    ensures RoundTrips(s)
  {
    var p := Date(DigitsValue(s[..4]), DigitsValue(s[5..7]), DigitsValue(s[8..]));
    assert ParseYmd(s) == Some(p);
    PaddedOfValue(s[..4]);
    PaddedOfValue(s[5..7]);
    PaddedOfValue(s[8..]);
    assert Format(p) == s[..4] + "-" + s[5..7] + "-" + s[8..];
    assert s == s[..4] + "-" + s[5..7] + "-" + s[8..];
  }

  /** Whatever survives the round trip is a strict calendar date. */
  lemma RoundTripIsCalendarDate(s: string)
    requires RoundTrips(s)
    ensures IsCalendarDate(s)
  {
    var p := ParseYmd(s).value;
    var n := Normalize(p);
    var f := Format(n);
    assert f == s;
    assert 0 <= n.year < 10000;
    assert s[..4] == Padded(n.year, 4);
    assert s[5..7] == Padded(n.month, 2);
    assert s[8..] == Padded(n.day, 2);
    PaddedValue(n.year, 4);
    PaddedValue(n.month, 2);
    PaddedValue(n.day, 2);
  }

  /** The round trip that `isValidDate` performs accepts exactly the strict calendar
      dates: overflowing days (2024-02-30), unpadded fields (2024-2-5), short years and
      trailing text are all rejected. */
  lemma RoundTripIff(s: string)
    ensures RoundTrips(s) <==> IsCalendarDate(s)
  {
    if RoundTrips(s) { RoundTripIsCalendarDate(s); }
    if IsCalendarDate(s) { CalendarDateRoundTrips(s); }
  }

  lemma DigitsValueTwo(s: string)
    requires |s| == 2 && AllDigits(s)
    ensures DigitsValue(s) == 10 * (s[0] as int - '0' as int) + (s[1] as int - '0' as int)
  {
    assert s[..1][..0] == [];
  }

  lemma DigitsValueFour(s: string)
    requires |s| == 4 && AllDigits(s)
    ensures DigitsValue(s) == 1000 * (s[0] as int - '0' as int) + 100 * (s[1] as int - '0' as int)
                            + 10 * (s[2] as int - '0' as int) + (s[3] as int - '0' as int)
  {
    DigitsValueTwo(s[..2]);
    assert s[..3][..2] == s[..2];
  }

  function DigitAt(s: string, i: nat): (d: int)
    requires i < |s|
  {
    s[i] as int - '0' as int
  }

  lemma CalendarDateByDigits(s: string)
    requires |s| == 10 && AllDigits(s[..4]) && AllDigits(s[5..7]) && AllDigits(s[8..])
    ensures IsCalendarDate(s) <==> s[4] == '-' && s[7] == '-' && IsReal(Date(
      1000 * DigitAt(s, 0) + 100 * DigitAt(s, 1) + 10 * DigitAt(s, 2) + DigitAt(s, 3),
      10 * DigitAt(s, 5) + DigitAt(s, 6),
      10 * DigitAt(s, 8) + DigitAt(s, 9)))
  {
    DigitsValueFour(s[..4]);
    DigitsValueTwo(s[5..7]);
    DigitsValueTwo(s[8..]);
  }

  /** A leap day in a leap year is a calendar date. */
  lemma LeapDayAccepted()
    ensures IsCalendarDate("2024-02-29")
  {
    var s := "2024-02-29";
    assert s[..4] == "2024" && s[5..7] == "02" && s[8..] == "29";
    CalendarDateByDigits(s);
  }

  /** A day past the end of its month is not a calendar date, though the lenient
      parser takes it (and rolls it over). */
  lemma DayOverflowRejected()
    ensures !IsCalendarDate("2024-02-30")
  {
    var s := "2024-02-30";
    assert s[..4] == "2024" && s[5..7] == "02" && s[8..] == "30";
    CalendarDateByDigits(s);
  }

  /** February 29th only exists in leap years. */
  lemma NonLeapDayRejected()
    ensures !IsCalendarDate("2023-02-29")
  {
    var s := "2023-02-29";
    assert s[..4] == "2023" && s[5..7] == "02" && s[8..] == "29";
    CalendarDateByDigits(s);
  }

  /** A thirteenth month is not a calendar date. */
  lemma MonthOverflowRejected()
    ensures !IsCalendarDate("2024-13-01")
  {
    var s := "2024-13-01";
    assert s[..4] == "2024" && s[5..7] == "13" && s[8..] == "01";
    CalendarDateByDigits(s);
  }
}
