/** The proleptic Gregorian calendar by day number, and the canonical timestamp text. */
module CivilTime {
  import opened Timeline

  datatype CivilDate = CivilDate(year: int, month: int, day: int)

  /** Division that truncates toward zero. */
  function Quotient(a: int, b: int): int
    requires b > 0
  {
    if a >= 0 then a / b else -(-a / b)
  }

  function Remainder(a: int, b: int): int
    requires b > 0
  {
    a - Quotient(a, b) * b
  }

  predicate IsLeap(year: int) {
    (Remainder(year, 4) == 0 && Remainder(year, 100) != 0) || Remainder(year, 400) == 0
  }

  const MONTH_DAYS: seq<int> := [31, 28, 31, 30, 31, 30, 31, 31, 30, 31, 30, 31]

  function DaysInMonth(year: int, month: int): int {
    if month < 1 || month > 12 then 0
    else if month == 2 && IsLeap(year) then 29
    else MONTH_DAYS[month - 1]
  }

  predicate ValidDate(c: CivilDate) {
    1 <= c.month <= 12 && 1 <= c.day <= DaysInMonth(c.year, c.month)
  }

  const EPOCH := CivilDate(1970, 1, 1)

  function DaysFromCivil(c: CivilDate): int {
    var y := c.year - (if c.month <= 2 then 1 else 0);
    var era := Quotient(if y >= 0 then y else y - 399, 400);
    var yoe := y - era * 400;
    var shift := if c.month > 2 then c.month - 3 else c.month + 9;
    var doy := (153 * shift + 2) / 5 + c.day - 1;
    var doe := yoe * 365 + yoe / 4 - yoe / 100 + doy;
    era * 146097 + doe - 719468
  }

  function CivilFromDays(days: int): CivilDate {
    var z := days + 719468;
    var era := Quotient(if z >= 0 then z else z - 146096, 146097);
    var doe := z - era * 146097;
    var yoe := Levelled(doe) / 365;
    DateInYear(yoe + era * 400, doe - YearStart(yoe))
  }

  /** Days within an era without the leap days before them. */
  function Levelled(doe: int): int { doe - doe / 1460 + doe / 36524 - doe / 146096 }

  /** Month and day of a day of the March year. */
  function DateInYear(year: int, doy: int): CivilDate {
    var mp := (5 * doy + 2) / 153;
    var month := if mp < 10 then mp + 3 else mp - 9;
    CivilDate(year + (if month <= 2 then 1 else 0), month, doy - MonthStart(mp) + 1)
  }

  /** The day after, by the lengths of the months alone. */
  function DayAfter(c: CivilDate): CivilDate {
    if c.day < DaysInMonth(c.year, c.month) then c.(day := c.day + 1)
    else if c.month < 12 then CivilDate(c.year, c.month + 1, 1)
    else CivilDate(c.year + 1, 1, 1)
  }

  function DaysAfter(c: CivilDate, n: nat): CivilDate {
    if n == 0 then c else DayAfter(DaysAfter(c, n - 1))
  }

  // ---------------------------------------------------------------------------
  // Years that begin in March
  // ---------------------------------------------------------------------------

  /** A date as the conversion sees it: a 400-year era, a year of the era from March on, and a day of that year. */
  datatype Shifted = Shifted(era: int, year: int, day: int)

  /** Days of the era before its `y`-th March year. */
  function YearStart(y: int): int { 365 * y + y / 4 - y / 100 }

  /** Days of the March year before its `mp`-th month. */
  function MonthStart(mp: int): int { (153 * mp + 2) / 5 }

  function YearLength(y: int): int {
    if (y + 1) % 4 == 0 && ((y + 1) % 100 != 0 || (y + 1) % 400 == 0) then 366 else 365
  }

  predicate InEra(s: Shifted) { 0 <= s.year < 400 && 0 <= s.day < YearLength(s.year) }

  function DayOf(s: Shifted): int { s.era * 146097 + YearStart(s.year) + s.day - 719468 }

  function ShiftOf(c: CivilDate): Shifted {
    var y := c.year - (if c.month <= 2 then 1 else 0);
    Shifted(y / 400, y % 400, MonthStart(if c.month > 2 then c.month - 3 else c.month + 9) + c.day - 1)
  }

  lemma FloorQuotient(a: int, b: int)
    requires b > 0
    ensures Quotient(if a >= 0 then a else a - (b - 1), b) == a / b
  {
    if a < 0 {
      var q, n := a / b, b - 1 - a;
      assert n / b == -q by {
        QuotientIs(n, b, -q, b - 1 - a % b);
      }
    }
  }

  lemma QuotientIs(a: int, b: int, q: int, r: int)
    requires b > 0 && 0 <= r < b && a == q * b + r
    ensures a / b == q && a % b == r
  {
    var d := a / b - q;
    assert d * b == r - a % b;
    if d > 0 { Product(d, b); }
    if d < 0 { Product(-d, b); }
  }

  lemma Product(d: int, b: int)
    requires d >= 1 && b >= 1
    ensures d * b >= b
  {
  }

  lemma RemainderZero(a: int, b: int)
    requires b > 0
    ensures Remainder(a, b) == 0 <==> a % b == 0
  {
    if a < 0 {
      var n := -a;
      assert Remainder(a, b) == -(n % b);
      if n % b == 0 {
        QuotientIs(a, b, -(n / b), 0);
      } else {
        QuotientIs(a, b, -(n / b) - 1, b - n % b);
      }
    }
  }

  lemma LeapIs(year: int)
    ensures IsLeap(year) <==> year % 4 == 0 && (year % 100 != 0 || year % 400 == 0)
  {
    hide Remainder;
    RemainderZero(year, 4);
    RemainderZero(year, 100);
    RemainderZero(year, 400);
    if year % 400 == 0 { QuotientIs(year, 4, 100 * (year / 400), 0); }
  }

  lemma DaysByShift(c: CivilDate)
    ensures DaysFromCivil(c) == DayOf(ShiftOf(c))
  {
    FloorQuotient(c.year - (if c.month <= 2 then 1 else 0), 400);
  }

  /** The years of an era fill its 146097 days without gap. */
  lemma YearFollows(y: int)
    requires 0 <= y < 400
    ensures YearStart(y + 1) == YearStart(y) + YearLength(y) - (if y == 399 then 1 else 0)
  {
  }

  /** A year of the era by century, four-year group and year. */
  lemma YearParts(y: int)
    requires 0 <= y < 400
    ensures var c, k, e := y / 100, y % 100 / 4, y % 4;
            && 0 <= c < 4 && 0 <= k < 25 && 0 <= e < 4 && y == 100 * c + 4 * k + e
            && YearStart(y) == 36524 * c + 1461 * k + 365 * e
  {
  }

  lemma LevelledAtStart(y: int)
    requires 0 <= y < 400
    ensures Levelled(YearStart(y)) == 365 * y
    ensures y > 0 ==> Levelled(YearStart(y) - 1) < 365 * y
  {
    YearParts(y);
    var c, k, e := y / 100, y % 100 / 4, y % 4;
    var doe := YearStart(y);
    QuotientIs(doe, 1460, 25 * c + k, 24 * c + k + 365 * e);
    QuotientIs(doe, 36524, c, 1461 * k + 365 * e);
    if y > 0 {
      QuotientIs(doe - 1, 1460, 25 * c + k, 24 * c + k + 365 * e - 1);
    }
  }

  lemma {:induction false} LevelledGrows(a: int, b: int)
    requires 0 <= a <= b < 146097
    ensures Levelled(a) <= Levelled(b)
    decreases b - a
  {
    if a < b {
      LevelledGrows(a, b - 1);
      LevelledStep(b);
    }
  }

  lemma LevelledStep(b: int)
    requires 0 < b < 146097
    ensures Levelled(b - 1) <= Levelled(b)
  {
    assert b / 146096 > (b - 1) / 146096 ==> b == 146096;
  }

  /** The year of the era is read back from the day of the era. */
  lemma YearReadBack(y: int, day: int)
    requires 0 <= y < 400 && 0 <= day < YearLength(y)
    ensures var doe := YearStart(y) + day; 0 <= doe < 146097 && Levelled(doe) / 365 == y
  {
    var doe := YearStart(y) + day;
    YearFollows(y);
    StartsWithin(y);
    LevelledAtStart(y);
    if y < 399 {
      StartsWithin(y + 1);
      LevelledAtStart(y + 1);
    } else {
      LastLevelled();
    }
    hide Levelled, YearStart, YearLength;
    LevelledGrows(doe, if y < 399 then YearStart(y + 1) - 1 else 146096);
    LevelledGrows(YearStart(y), doe);
    QuotientIs(Levelled(doe), 365, y, Levelled(doe) - 365 * y);
  }

  lemma LastLevelled()
    ensures YearStart(399) + YearLength(399) == 146097 && Levelled(146096) == 145999
  {
  }

  lemma StartsWithin(y: int)
    requires 0 <= y < 400
    ensures 0 <= YearStart(y) < 146097
  {
  }

  /** The month is read back from the day of the March year. */
  lemma MonthReadBack(mp: int, d: int)
    requires 0 <= mp < 12 && 0 <= d && MonthStart(mp) + d < (if mp == 11 then 366 else MonthStart(mp + 1))
    ensures (5 * (MonthStart(mp) + d) + 2) / 153 == mp
  {
  }

  lemma MonthLengths(c: CivilDate)
    requires 1 <= c.month <= 12
    ensures var s := ShiftOf(c); var mp := if c.month > 2 then c.month - 3 else c.month + 9;
            DaysInMonth(c.year, c.month) == (if mp == 11 then YearLength(s.year)
                                             else MonthStart(mp + 1)) - MonthStart(mp)
  {
    hide IsLeap, YearLength;
    if c.month == 2 {
      FebruaryLength(c.year);
      assert MonthStart(11) == 337;
    }
  }

  lemma FebruaryLength(year: int)
    ensures YearLength((year - 1) % 400) == if IsLeap(year) then 366 else 365
  {
    LeapIs(year);
    hide IsLeap;
    var y, k := (year - 1) % 400 + 1, (year - 1) / 400;
    QuotientIs(year, 4, 100 * k + y / 4, y % 4);
    QuotientIs(year, 100, 4 * k + y / 100, y % 100);
    QuotientIs(year, 400, k + y / 400, y % 400);
  }

  lemma ShiftInEra(c: CivilDate)
    requires ValidDate(c)
    ensures InEra(ShiftOf(c))
  {
    MonthLengths(c);
  }

  /** What the inverse computes from a day of an era. */
  lemma DayInEra(s: Shifted, doe: int)
    requires InEra(s) && doe == YearStart(s.year) + s.day
    ensures doe == DayOf(s) + 719468 - s.era * 146097
    ensures var z := DayOf(s) + 719468; Quotient(if z >= 0 then z else z - 146096, 146097) == s.era
  {
    FloorQuotient(DayOf(s) + 719468, 146097);
    QuotientIs(DayOf(s) + 719468, 146097, s.era, doe);
  }

  lemma CivilOf(s: Shifted)
    requires InEra(s)
    ensures var mp := (5 * s.day + 2) / 153; var month := if mp < 10 then mp + 3 else mp - 9;
            && 0 <= mp < 12 && MonthStart(mp) <= s.day && (mp < 11 ==> s.day < MonthStart(mp + 1))
            && CivilFromDays(DayOf(s)) == CivilDate(s.year + s.era * 400 + (if month <= 2 then 1 else 0), month,
                                                    s.day - MonthStart(mp) + 1)
  {
    YearReadBack(s.year, s.day);
    var doe := YearStart(s.year) + s.day;
    DayInEra(s, doe);
    MonthFound(s.day);
    hide *;
    CivilAt(DayOf(s), s.era, doe, s.year, s.day);
  }

  lemma CivilAt(days: int, era: int, doe: int, year: int, day: int)
    requires Quotient(if days + 719468 >= 0 then days + 719468 else days + 719468 - 146096, 146097) == era
    requires doe == days + 719468 - era * 146097 && Levelled(doe) / 365 == year && doe == YearStart(year) + day
    ensures var mp := (5 * day + 2) / 153; var month := if mp < 10 then mp + 3 else mp - 9;
            CivilFromDays(days)
            == CivilDate(year + era * 400 + (if month <= 2 then 1 else 0), month, day - MonthStart(mp) + 1)
  {
    hide Quotient, Levelled, YearStart, MonthStart;
  }

  lemma MonthFound(day: int)
    requires 0 <= day < 366
    ensures var mp := (5 * day + 2) / 153;
            0 <= mp < 12 && MonthStart(mp) <= day && (mp < 11 ==> day < MonthStart(mp + 1))
  {
  }

  /** Every valid date survives the way to its day number and back. */
  lemma DateRoundTrip(c: CivilDate)
    requires ValidDate(c)
    ensures CivilFromDays(DaysFromCivil(c)) == c
  {
    var s := ShiftOf(c);
    var mp := if c.month > 2 then c.month - 3 else c.month + 9;
    DaysByShift(c);
    ShiftInEra(c);
    MonthLengths(c);
    assert YearLength(s.year) <= 366;
    CivilOf(s);
    hide YearLength, CivilFromDays, DaysFromCivil, YearStart, IsLeap;
    MonthReadBack(mp, c.day - 1);
  }

  /** Every day falls in one year of one era. */
  lemma DayShifted(days: int) returns (s: Shifted)
    ensures InEra(s) && DayOf(s) == days
  {
    var z := days + 719468;
    var era, doe := z / 146097, z % 146097;
    var y := FindYear(doe, 0, 400);
    s := Shifted(era, y, doe - YearStart(y));
  }

  lemma FindYear(doe: int, low: int, high: int) returns (y: int)
    requires 0 <= low < high <= 400 && YearStart(low) <= doe && 0 <= doe < 146097
    requires doe < YearStart(high) || high == 400
    ensures 0 <= y < 400 && YearStart(y) <= doe < YearStart(y) + YearLength(y)
    decreases high - low
  {
    if high == low + 1 {
      YearFollows(low);
      y := low;
    } else {
      var mid := (low + high) / 2;
      if YearStart(mid) <= doe { y := FindYear(doe, mid, high); } else { y := FindYear(doe, low, mid); }
    }
  }

  /** Every day number survives the way to its date and back, and the date is a valid one. */
  lemma DayRoundTrip(days: int)
    ensures ValidDate(CivilFromDays(days)) && DaysFromCivil(CivilFromDays(days)) == days
  {
    var s := DayShifted(days);
    CivilOf(s);
    var c := CivilFromDays(days);
    ShiftBack(s, c);
    DaysByShift(c);
    MonthLengths(c);
  }

  lemma ShiftBack(s: Shifted, c: CivilDate)
    requires InEra(s)
    requires var mp := (5 * s.day + 2) / 153; var month := if mp < 10 then mp + 3 else mp - 9;
             && 0 <= mp < 12
             && c == CivilDate(s.year + s.era * 400 + (if month <= 2 then 1 else 0), month, s.day - MonthStart(mp) + 1)
    ensures ShiftOf(c) == s
  {
    QuotientIs(s.year + s.era * 400, 400, s.era, s.year);
  }

  /** Day numbers count days: the next date, by the lengths of the months, has the next number. */
  lemma NextDayNumber(c: CivilDate)
    requires ValidDate(c)
    ensures ValidDate(DayAfter(c)) && DaysFromCivil(DayAfter(c)) == DaysFromCivil(c) + 1
  {
    var c' := DayAfter(c);
    DaysByShift(c);
    DaysByShift(c');
    hide DaysFromCivil, IsLeap;
    MonthLengths(c);
    if c.day == DaysInMonth(c.year, c.month) {
      NextMonth(c);
    } else {
      hide YearStart, MonthStart;
    }
  }

  /** The last day of a month and the first of the next. */
  lemma NextMonth(c: CivilDate)
    requires ValidDate(c) && c.day == DaysInMonth(c.year, c.month)
    ensures ValidDate(DayAfter(c)) && DayOf(ShiftOf(DayAfter(c))) == DayOf(ShiftOf(c)) + 1
  {
    MonthLengths(c);
    if c.month == 2 {
      NextMarch(c);
    } else {
      hide IsLeap, YearLength, YearStart;
    }
  }

  /** The last day of a March year and the first of the next. */
  lemma NextMarch(c: CivilDate)
    requires c.month == 2 && ValidDate(c) && c.day == DaysInMonth(c.year, c.month)
    ensures ValidDate(DayAfter(c)) && DayOf(ShiftOf(DayAfter(c))) == DayOf(ShiftOf(c)) + 1
  {
    hide IsLeap, YearLength, YearStart;
    var y := c.year - 1;
    MonthLengths(c);
    YearFollows(y % 400);
    MarchFollows(y);
    LastYear();
    assert ShiftOf(DayAfter(c)) == Shifted((y + 1) / 400, (y + 1) % 400, 0);
  }

  lemma LastYear()
    ensures YearStart(400) == 146096 && YearStart(0) == 0
  {
  }

  /** The March year after this one, in the same era or the next. */
  lemma MarchFollows(y: int)
    ensures y % 400 < 399 ==> (y + 1) / 400 == y / 400 && (y + 1) % 400 == y % 400 + 1
    ensures y % 400 == 399 ==> (y + 1) / 400 == y / 400 + 1 && (y + 1) % 400 == 0
  {
  }

  /** The date of day `n` is reached from the epoch by `n` single days, and no other conversion would do. */
  lemma {:induction false} CountingDays(n: nat)
    ensures CivilFromDays(n) == DaysAfter(EPOCH, n) && ValidDate(DaysAfter(EPOCH, n))
            && DaysFromCivil(DaysAfter(EPOCH, n)) == n
  {
    if n == 0 {
      EpochIsDayZero();
    }
    hide CivilFromDays, ValidDate, DaysFromCivil, DayAfter;
    if n > 0 {
      CountingDays(n - 1);
      NextDayNumber(DaysAfter(EPOCH, n - 1));
    }
    DateRoundTrip(DaysAfter(EPOCH, n));
  }

  lemma EpochIsDayZero()
    ensures ValidDate(EPOCH) && DaysFromCivil(EPOCH) == 0
  {
  }
}
