/**
 * The calendar arithmetic of src/events.rs and its second copy in src/s3.rs,
 * against a calendar that only knows how to go to the next day.
 */
module Calendar {
  import opened Text

  const DAY: nat := 86_400

  datatype Date = Date(year: int, month: int, day: int)

  // ---- the reference calendar --------------------------------------------------

  predicate Leap(year: int) { year % 4 == 0 && (year % 100 != 0 || year % 400 == 0) }

  function DaysIn(year: int, month: int): int {
    if month == 2 then (if Leap(year) then 29 else 28)
    else if month in {4, 6, 9, 11} then 30 else 31
  }

  function NextDay(d: Date): Date {
    if d.day < DaysIn(d.year, d.month) then d.(day := d.day + 1)
    else if d.month < 12 then Date(d.year, d.month + 1, 1)
    else Date(d.year + 1, 1, 1)
  }

  /** 1970-01-01 advanced `n` times. */
  function DayNumber(n: nat): Date {
    if n == 0 then Date(1970, 1, 1) else NextDay(DayNumber(n - 1))
  }

  predicate Earlier(a: Date, b: Date) {
    a.year < b.year || (a.year == b.year && (a.month < b.month || (a.month == b.month && a.day < b.day)))
  }

  // ---- what the code computes ---------------------------------------------------

  /** The date `z` days after 0000-03-01. */
  function CivilFromDays(z: int): Date {
    var era := z / 146_097;
    var doe := z % 146_097;
    var yoe := YearOfEra(doe);
    var doy := doe - (365 * yoe + yoe / 4 - yoe / 100);
    MarchDate(yoe + era * 400, doy)
  }

  function YearOfEra(doe: int): int {
    (doe - doe / 1460 + doe / 36_524 - doe / 146_096) / 365
  }

  /** The date `doy` days after March 1 of `year`. */
  function MarchDate(year: int, doy: int): Date {
    var mp := (5 * doy + 2) / 153;
    var d := doy - (153 * mp + 2) / 5 + 1;
    var m := if mp < 10 then mp + 3 else mp - 9;
    Date(if m <= 2 then year + 1 else year, m, d)
  }

  function CivilFromUnix(t: nat): Date { CivilFromDays(t / DAY + 719_468) }

  /** Division that rounds toward zero. */
  function TruncDiv(a: int, b: nat): int
    requires b > 0
  {
    if a >= 0 then a / b else -((-a) / b)
  }

  /** The calendar part of `format_amz_time`, with its own era computation. */
  function AmzDate(t: nat): Date {
    var z := t / DAY + 719_468;
    var era := TruncDiv(if z >= 0 then z else z - 146_096, 146_097);
    var doe := z - era * 146_097;
    var yoe := YearOfEra(doe);
    var doy := doe - (365 * yoe + yoe / 4 - yoe / 100);
    MarchDate(yoe + era * 400, doy)
  }

  // ---- proof ------------------------------------------------------------------

  /** Days of the era before its March-based year `y`. */
  function YearStart(y: int): int { 365 * y + y / 4 - y / 100 }

  function YearLength(y: int): int { if Leap(y + 1) then 366 else 365 }

  lemma YearsAbut(y: int)
    requires 0 <= y < 400
    ensures YearStart(y) + YearLength(y) == if y == 399 then 146_097 else YearStart(y + 1)
  {
  }

  /** The closed form, in centuries, four-year spans and years. */
  lemma EraQuotients(a: int, q: int, r: int, k: int)
    requires 0 <= a <= 3 && 0 <= q <= 24 && 0 <= r <= 3 && 0 <= k <= 365
    requires k == 365 ==> r == 3 && (q == 24 ==> a == 3)
    ensures YearOfEra(36_524 * a + 365 * (4 * q + r) + q + k) == 100 * a + 4 * q + r
  {
    var doe := 36_524 * a + 365 * (4 * q + r) + q + k;
    var rest := 24 * a + q + 365 * r + k;
    assert doe == 1460 * (25 * a + q) + rest;
    assert doe / 1460 == 25 * a + q + rest / 1460;
    assert rest / 1460 <= 1 && (rest >= 1460 ==> k >= 1) && (k == 365 ==> rest >= 1460);
    if doe == 146_096 {
      assert a == 3 && q == 24 && r == 3 && k == 365;
    } else {
      assert doe / 36_524 == a && doe / 146_096 == 0;
    }
  }

  lemma YearParts(y: int, k: int) returns (a: int, q: int, r: int)
    requires 0 <= y < 400 && 0 <= k < YearLength(y)
    ensures 0 <= a <= 3 && 0 <= q <= 24 && 0 <= r <= 3 && y == 100 * a + 4 * q + r
    ensures YearStart(y) == 36_524 * a + 365 * (4 * q + r) + q
    ensures k == 365 ==> r == 3 && (q == 24 ==> a == 3)
  {
    a, q, r := y / 100, y % 100 / 4, y % 100 % 4;
    assert y / 4 == 25 * a + q;
  }

  /** The closed form names the year a day of the era falls in. */
  lemma YearOfEraAt(y: int, k: int)
    requires 0 <= y < 400 && 0 <= k < YearLength(y)
    ensures YearOfEra(YearStart(y) + k) == y
  {
    var a, q, r := YearParts(y, k);
    assert k <= 365;
    hide YearStart, YearOfEra, YearLength, Leap;
    EraQuotients(a, q, r, k);
  }

  lemma MonthStep(year: int, doy: int)
    requires 0 <= doy < 365 && (doy == 364 ==> Leap(year + 1))
    ensures MarchDate(year, doy + 1) == NextDay(MarchDate(year, doy))
  {
    var mp := (5 * doy + 2) / 153;
    assert 0 <= mp <= 11;
    assert mp == 0 || mp == 1 || mp == 2 || mp == 3 || mp == 4 || mp == 5
        || mp == 6 || mp == 7 || mp == 8 || mp == 9 || mp == 10 || mp == 11;
  }

  lemma YearStep(year: int, length: int)
    requires length == if Leap(year + 1) then 366 else 365
    ensures MarchDate(year + 1, 0) == NextDay(MarchDate(year, length - 1))
  {
  }

  lemma {:induction false} YearFound(doe: int) returns (y: int, k: int)
    requires 0 <= doe < 146_097
    ensures 0 <= y < 400 && 0 <= k < YearLength(y) && doe == YearStart(y) + k
  {
    y := 0;
    while y < 399 && YearStart(y + 1) <= doe
      invariant 0 <= y < 400 && YearStart(y) <= doe
    {
      y := y + 1;
    }
    YearsAbut(y);
    k := doe - YearStart(y);
  }

  lemma CivilAt(era: int, y: int, k: int)
    requires 0 <= y < 400 && 0 <= k < YearLength(y)
    ensures CivilFromDays(146_097 * era + YearStart(y) + k) == MarchDate(y + era * 400, k)
  {
    hide MarchDate, YearOfEra;
    var z, doe := 146_097 * era + YearStart(y) + k, YearStart(y) + k;
    assert 0 <= doe < 146_097 by { DayInEra(y, k); }
    assert z / 146_097 == era && z % 146_097 == doe;
    YearOfEraAt(y, k);
  }

  lemma DayInEra(y: int, k: int)
    requires 0 <= y < 400 && 0 <= k < YearLength(y)
    ensures 0 <= YearStart(y) + k < 146_097
  {
    assert y <= 398 ==> YearStart(y) <= YearStart(398);
  }

  lemma FirstDay(y: int)
    ensures YearLength(y) > 0 && YearStart(0) == 0
  {
  }

  /** One day later is the next day, at every day of every era. */
  lemma CivilStep(z: int)
    requires z >= 0
    ensures CivilFromDays(z + 1) == NextDay(CivilFromDays(z))
  {
    hide CivilFromDays, MarchDate, NextDay, Leap, YearStart;
    var era, doe := z / 146_097, z % 146_097;
    var y, k := YearFound(doe);
    CivilAt(era, y, k);
    YearsAbut(y);
    assert Leap(y + era * 400 + 1) == Leap(y + 1) by { LeapEveryEra(y + 1, era); }
    if k + 1 < YearLength(y) {
      CivilAt(era, y, k + 1);
      MonthStep(y + era * 400, k);
    } else if y < 399 {
      FirstDay(y + 1);
      CivilAt(era, y + 1, 0);
      YearStep(y + era * 400, YearLength(y));
    } else {
      FirstDay(0);
      CivilAt(era + 1, 0, 0);
      YearStep(y + era * 400, YearLength(y));
    }
  }

  lemma LeapEveryEra(year: int, era: int)
    ensures Leap(year + 400 * era) == Leap(year)
  {
    var later := year + 400 * era;
    assert later / 400 == year / 400 + era && later % 400 == year % 400;
    assert later / 100 == year / 100 + 4 * era && later % 100 == year % 100;
    assert later / 4 == year / 4 + 100 * era && later % 4 == year % 4;
  }

  lemma Epoch()
    ensures CivilFromDays(719_468) == Date(1970, 1, 1)
  {
    CivilAt(4, 369, 306);
  }

  lemma {:induction false} CivilIsDayNumber(n: nat)
    ensures CivilFromDays(n + 719_468) == DayNumber(n)
  {
    hide CivilFromDays, NextDay;
    if n == 0 {
      Epoch();
    } else {
      CivilIsDayNumber(n - 1);
      CivilStep(n - 1 + 719_468);
    }
  }

  /** `civil_from_unix` is 1970-01-01 advanced once per elapsed day, at every time. */
  lemma CivilFromUnixCorrect(t: nat)
    ensures CivilFromUnix(t) == DayNumber(t / DAY)
  {
    hide CivilFromDays;
    CivilIsDayNumber(t / DAY);
  }

  /** The copy of the algorithm in the request signer agrees with it. */
  lemma AmzDateAgrees(t: nat)
    ensures AmzDate(t) == DayNumber(t / DAY)
  {
    hide YearOfEra, MarchDate;
    CivilIsDayNumber(t / DAY);
  }

  // ---- date strings ---------------------------------------------------------------

  /** `{y:04}-{m:02}-{d:02}`. */
  function DateText(d: Date): string
    requires d.year >= 0 && d.month >= 0 && d.day >= 0
  {
    Padded(d.year, 4) + "-" + Padded(d.month, 2) + "-" + Padded(d.day, 2)
  }

  predicate Valid(d: Date) { d.year >= 1970 && 1 <= d.month <= 12 && 1 <= d.day <= DaysIn(d.year, d.month) }

  lemma {:induction false} DayNumberValid(n: nat)
    ensures Valid(DayNumber(n))
  {
    if n > 0 {
      DayNumberValid(n - 1);
    }
  }

  /** `date_str`: the partition key of the day containing `t`. */
  function DateStr(t: nat): string {
    var d := CivilFromUnix(t);
    CivilFromUnixCorrect(t);
    DayNumberValid(t / DAY);
    DateText(d)
  }

  lemma {:induction false} DaysAdvance(m: nat, n: nat)
    requires m < n
    ensures Earlier(DayNumber(m), DayNumber(n))
  {
    hide Valid;
    if m < n - 1 {
      DaysAdvance(m, n - 1);
    }
    NextIsLater(n - 1);
  }

  lemma NextIsLater(n: nat)
    ensures Earlier(DayNumber(n), DayNumber(n + 1))
  {
    DayNumberValid(n);
  }

  /** `year` prints as `w` digits: four, or as many as it takes. */
  predicate YearWidth(year: int, w: nat) { w >= 4 && 0 <= year < Pow10(w) && (w > 4 ==> year >= Pow10(w - 1)) }

  lemma YearPrints(year: nat, w: nat)
    requires YearWidth(year, w)
    ensures Padded(year, 4) == Fixed(year, w)
  {
    if w == 4 {
      PaddedIsFixed(year, 4);
    } else {
      DecimalIsFixed(year, w);
    }
  }

  lemma {:induction false} HasWidth(year: nat, w: nat) returns (v: nat)
    requires w >= 4 && (w > 4 ==> year >= Pow10(w - 1))
    ensures YearWidth(year, v) && v >= w
    decreases year - w
  {
    PowGrows(w);
    if year < Pow10(w) {
      v := w;
    } else {
      v := HasWidth(year, w + 1);
    }
  }

  lemma {:induction false} PowGrows(w: nat)
    ensures Pow10(w) > w && (w > 0 ==> Pow10(w) == 10 * Pow10(w - 1))
  {
    if w > 0 {
      PowGrows(w - 1);
    }
  }

  lemma DateTextFixed(d: Date, w: nat)
    requires Valid(d) && YearWidth(d.year, w)
    ensures DateText(d) == Fixed(d.year, w) + "-" + Fixed(d.month, 2) + "-" + Fixed(d.day, 2)
  {
    hide Fixed, Padded;
    Tens();
    YearPrints(d.year, w);
    PaddedIsFixed(d.month, 2);
    PaddedIsFixed(d.day, 2);
  }

  lemma Tens()
    ensures Pow10(2) == 100 && Pow10(4) == 10_000 && Pow10(5) == 100_000
  {
    assert Pow10(1) == 10 && Pow10(3) == 1000;
  }

  lemma DateTextOrder(a: Date, b: Date, w: nat)
    requires Valid(a) && Valid(b) && YearWidth(a.year, w) && YearWidth(b.year, w)
    ensures Before(DateText(a), DateText(b)) <==> Earlier(a, b)
  {
    hide DateText;
    DateTextFixed(a, w);
    DateTextFixed(b, w);
    Tens();
    var ya, yb := Fixed(a.year, w), Fixed(b.year, w);
    var ma, mb := "-" + Fixed(a.month, 2), "-" + Fixed(b.month, 2);
    var da, db := "-" + Fixed(a.day, 2), "-" + Fixed(b.day, 2);
    assert DateText(a) == ya + (ma + da) && DateText(b) == yb + (mb + db);
    BeforeConcat(ya, yb, ma + da, mb + db);
    BeforeConcat(ma, mb, da, db);
    BeforeConcat("-", "-", Fixed(a.month, 2), Fixed(b.month, 2));
    BeforeConcat("-", "-", Fixed(a.day, 2), Fixed(b.day, 2));
    assert ma == mb ==> Fixed(a.month, 2) == ma[1..] == mb[1..] == Fixed(b.month, 2);
    FixedOrder(a.year, b.year, w);
    FixedOrder(a.month, b.month, 2);
    FixedOrder(a.day, b.day, 2);
  }

  lemma EarlierIsBefore(m: nat, n: nat)
    ensures Earlier(DayNumber(m), DayNumber(n)) <==> m < n
  {
    hide DayNumber;
    if m < n {
      DaysAdvance(m, n);
    } else if n < m {
      DaysAdvance(n, m);
    }
  }

  /** Between years of one width, the string order of the partition keys is the order of
      the days. */
  lemma DateStrOrderWithin(t: nat, u: nat, w: nat)
    requires YearWidth(DayNumber(t / DAY).year, w) && YearWidth(DayNumber(u / DAY).year, w)
    ensures Before(DateStr(t), DateStr(u)) <==> t / DAY < u / DAY
    ensures DateStr(t) == DateStr(u) <==> t / DAY == u / DAY
  {
    var m, n := t / DAY, u / DAY;
    CivilFromUnixCorrect(t);
    CivilFromUnixCorrect(u);
    DayNumberValid(m);
    DayNumberValid(n);
    hide YearWidth, Before, DateText, DayNumber;
    DateTextOrder(DayNumber(m), DayNumber(n), w);
    DateTextOrder(DayNumber(n), DayNumber(m), w);
    NotBeforeItself(DateStr(t));
    if m < n {
      DaysAdvance(m, n);
    } else if n < m {
      DaysAdvance(n, m);
    }
  }

  /** Through year 9999, the string order of the partition keys is the order of the days. */
  lemma DateStrOrder(t: nat, u: nat)
    requires CivilFromUnix(t).year <= 9999 && CivilFromUnix(u).year <= 9999
    ensures Before(DateStr(t), DateStr(u)) <==> t / DAY < u / DAY
    ensures DateStr(t) == DateStr(u) <==> t / DAY == u / DAY
  {
    Tens();
    CivilFromUnixCorrect(t);
    CivilFromUnixCorrect(u);
    DayNumberValid(t / DAY);
    DayNumberValid(u / DAY);
    hide Before, DateStr, DayNumber, CivilFromUnix;
    DateStrOrderWithin(t, u, 4);
  }

  lemma {:induction false} NotBeforeItself(s: string)
    ensures !Before(s, s)
  {
    if s != [] {
      NotBeforeItself(s[1..]);
    }
  }

  /** Within a fortnight the year moves on by one at most, and then it is January. */
  lemma {:induction false} Fortnight(n: nat, k: nat)
    requires k <= 14
    ensures
      var a, b := DayNumber(n), DayNumber(n + k);
      && a.year <= b.year <= a.year + 1
      && (b.year > a.year ==> b.month == 1 && b.day <= k)
  {
    if k > 0 {
      Fortnight(n, k - 1);
      DayNumberValid(n + k - 1);
    }
  }

  /** Every year up to a day's own has a day before it. */
  lemma {:induction false} YearReached(n: nat, year: nat) returns (m: nat)
    requires 1970 <= year <= DayNumber(n).year
    ensures m <= n && DayNumber(m).year == year
  {
    if DayNumber(n).year == year {
      m := n;
    } else {
      Fortnight(n - 1, 1);
      m := YearReached(n - 1, year);
    }
  }

  /** A year of one digit more: its leading digits decide. */
  lemma LongerYear(year: nat, w: nat)
    requires w >= 4 && Pow10(w) <= year < Pow10(w + 1)
    ensures YearWidth(year, w + 1) && Padded(year, 4) == Fixed(year / 10, w) + [Digit(year % 10)]
  {
    YearPrints(year, w + 1);
  }

  function MonthDay(d: Date): string
    requires d.month >= 0 && d.day >= 0
  {
    "-" + Padded(d.month, 2) + "-" + Padded(d.day, 2)
  }

  lemma YearFirst(d: Date)
    requires Valid(d)
    ensures d.year >= 0 && d.month >= 0 && d.day >= 0
    ensures DateText(d) == Padded(d.year, 4) + MonthDay(d) && MonthDay(d) != "" && MonthDay(d)[0] == '-'
  {
    hide Padded;
  }

  /** After the same digits a dash sorts before another digit. */
  lemma DashSortsFirst(x: nat, y: nat, w: nat, ra: string, rb: string)
    requires x < Pow10(w) && y < Pow10(w) && ra != "" && rb != "" && ra[0] == '-' && IsDigit(rb[0])
    ensures Before(Fixed(x, w) + ra, Fixed(y, w) + rb) <==> x <= y
    ensures Before(Fixed(y, w) + rb, Fixed(x, w) + ra) <==> y < x
  {
    assert Before(ra, rb) && !Before(rb, ra);
    hide Before, Pow10, Fixed;
    BeforeConcat(Fixed(x, w), Fixed(y, w), ra, rb);
    BeforeConcat(Fixed(y, w), Fixed(x, w), rb, ra);
    FixedOrder(x, y, w);
    FixedOrder(y, x, w);
  }

  lemma ShortKey(a: Date, w: nat)
    requires Valid(a) && YearWidth(a.year, w)
    ensures a.month >= 0 && a.day >= 0 && DateText(a) == Fixed(a.year, w) + MonthDay(a)
    ensures MonthDay(a) != "" && MonthDay(a)[0] == '-'
  {
    YearFirst(a);
    hide Fixed, Padded, DateText, MonthDay, Valid;
    YearPrints(a.year, w);
  }

  lemma LongKey(b: Date, w: nat) returns (rb: string)
    requires Valid(b) && w >= 4 && Pow10(w) <= b.year < Pow10(w + 1)
    ensures DateText(b) == Fixed(b.year / 10, w) + rb && rb != "" && IsDigit(rb[0])
  {
    YearFirst(b);
    hide Fixed, Padded, DateText, MonthDay, Valid;
    LongerYear(b.year, w);
    rb := [Digit(b.year % 10)] + MonthDay(b);
  }

  /** Of a year of `w` digits and one with a digit more, the longer comes first in the
      order of the keys exactly when its leading `w` digits are the smaller number. */
  lemma LongerYearSortsEarly(a: Date, b: Date, w: nat)
    requires Valid(a) && Valid(b) && YearWidth(a.year, w) && Pow10(w) <= b.year < Pow10(w + 1)
    ensures Before(DateText(b), DateText(a)) <==> b.year / 10 < a.year
    ensures Before(DateText(a), DateText(b)) <==> a.year <= b.year / 10
  {
    hide Fixed, Before, DateText, MonthDay, Valid, Padded;
    Leading(a.year, b.year, w);
    ShortKey(a, w);
    var rb := LongKey(b, w);
    hide YearWidth, Pow10;
    DashSortsFirst(a.year, b.year / 10, w, MonthDay(a), rb);
  }

  lemma Leading(a: nat, b: nat, w: nat)
    requires YearWidth(a, w) && Pow10(w) <= b < Pow10(w + 1)
    ensures b / 10 < Pow10(w) && a < Pow10(w)
  {
  }

  /** A year that ends an age of `w` digits begins with nines. */
  lemma {:induction false} NinesLead(year: nat, w: nat, v: nat) returns (tail: string)
    requires 4 <= v < w && Pow10(w) - 10 <= year < Pow10(w)
    ensures Decimal(year) == Fixed(Pow10(v) - 1, v) + tail && tail != [] && IsDigit(tail[0])
    decreases w
  {
    PowGrows(w);
    PowGrows(w - 1);
    assert year / 10 == Pow10(w - 1) - 1;
    if v == w - 1 {
      DecimalIsFixed(year / 10, v);
      tail := [Digit(year % 10)];
    } else {
      var rest := NinesLead(year / 10, w - 1, v);
      tail := rest + [Digit(year % 10)];
    }
  }

  lemma NinesKey(b: Date, v: nat, w: nat) returns (rb: string)
    requires Valid(b) && 4 <= v < w && Pow10(w) - 10 <= b.year < Pow10(w)
    ensures DateText(b) == Fixed(Pow10(v) - 1, v) + rb && rb != "" && IsDigit(rb[0])
  {
    YearFirst(b);
    PowUp(w);
    hide Fixed, Padded, DateText, MonthDay, Valid, Decimal;
    var tail := NinesLead(b.year, w, v);
    DecimalIsLong(b.year);
    hide Pow10;
    rb := tail + MonthDay(b);
  }

  /** So every shorter year comes before it. */
  lemma ShorterBeforeNines(a: Date, b: Date, v: nat, w: nat)
    requires Valid(a) && Valid(b) && YearWidth(a.year, v) && v < w && Pow10(w) - 10 <= b.year < Pow10(w)
    ensures Before(DateText(a), DateText(b))
  {
    hide Fixed, Before, DateText, MonthDay, Valid, Padded, Decimal;
    ShortKey(a, v);
    var rb := NinesKey(b, v, w);
    assert a.year < Pow10(v);
    hide YearWidth, Pow10;
    DashSortsFirst(a.year, Pow10(v) - 1, v, MonthDay(a), rb);
  }

  lemma {:induction false} PowUp(w: nat)
    requires w >= 5
    ensures Pow10(w) >= 100_000
  {
    PowGrows(w);
    if w > 5 {
      PowUp(w - 1);
    } else {
      Tens();
    }
  }

  /** From year 10000 the keys no longer sort: a five-digit year comes before 9999. */
  lemma FiveDigitYearSortsEarly(a: Date, b: Date)
    requires Valid(a) && Valid(b) && a.year == 9999 && 10_000 <= b.year < 99_990
    ensures Before(DateText(b), DateText(a)) && !Before(DateText(a), DateText(b))
  {
    Tens();
    LongerYearSortsEarly(a, b, 4);
  }

  lemma DecimalIsLong(n: nat)
    requires n >= 10_000
    ensures Padded(n, 4) == Decimal(n)
  {
    assert |Decimal(n / 1000)| >= 1;
    assert |Decimal(n / 100)| >= 2 && |Decimal(n / 10)| >= 3;
  }

  // ---- the request signer's timestamp -----------------------------------------------

  /** `format_amz_time`: the date and the timestamp of a signed request. */
  function FormatAmzTime(t: nat): (string, string) {
    var d := AmzDate(t);
    var rem := t % DAY;
    AmzDateAgrees(t);
    DayNumberValid(t / DAY);
    var date := Padded(d.year, 4) + Padded(d.month, 2) + Padded(d.day, 2);
    (date, date + "T" + Padded(rem / 3600, 2) + Padded(rem % 3600 / 60, 2) + Padded(rem % 60, 2) + "Z")
  }

  /** The hour, minute and second of the day that `t` falls in. */
  ghost predicate ClockAt(t: nat, h: nat, m: nat, s: nat) {
    h < 24 && m < 60 && s < 60 && t == DAY * (t / DAY) + 3600 * h + 60 * m + s
  }

  lemma ClockFields(t: nat)
    ensures var rem := t % DAY; ClockAt(t, rem / 3600, rem % 3600 / 60, rem % 60)
  {
    var rem := t % DAY;
    assert rem % 60 == rem % 3600 % 60;
  }

  /** Both strings show the reference date, and the clock fields are the time of day. The
      year takes four digits as long as that is enough. */
  lemma AmzTimeCorrect(t: nat)
    ensures
      var d, (date, stamp) := DayNumber(t / DAY), FormatAmzTime(t);
      && Valid(d)
      && date == (if d.year <= 9999 then Fixed(d.year, 4) else Decimal(d.year)) + Fixed(d.month, 2) + Fixed(d.day, 2)
      && exists h: nat, m: nat, s: nat :: ClockAt(t, h, m, s)
           && stamp == date + "T" + Fixed(h, 2) + Fixed(m, 2) + Fixed(s, 2) + "Z"
  {
    hide AmzDate, ClockAt;
    AmzDateAgrees(t);
    DayNumberValid(t / DAY);
    Tens();
    ClockFields(t);
    var d, rem := DayNumber(t / DAY), t % DAY;
    if d.year <= 9999 {
      PaddedIsFixed(d.year, 4);
    } else {
      DecimalIsLong(d.year);
    }
    PaddedIsFixed(d.month, 2);
    PaddedIsFixed(d.day, 2);
    PaddedIsFixed(rem / 3600, 2);
    PaddedIsFixed(rem % 3600 / 60, 2);
    PaddedIsFixed(rem % 60, 2);
  }
}
