/**
  Partial dates as text: the helpers of `DateRangeFilter` turn what the user typed into the ends of
  a range, and the sky chart then compares ISO dates as strings.

  Years whose `Date` would be out of range are not part of this model.
 */
module DateRanges {
  import opened Common
  import opened Text

  datatype DateParts = DateParts(day: string, month: string, year: string)
  datatype Side = StartSide | EndSide

  // ---------------------------------------------------------------- the calendar

  /** A day of the proleptic Gregorian calendar. */
  datatype Date = Date(year: nat, month: nat, day: nat)

  predicate Leap(year: int) {
    year % 4 == 0 && (year % 100 != 0 || year % 400 == 0)
  }

  function DaysIn(year: int, month: int): nat {
    if month == 2 then (if Leap(year) then 29 else 28)
    else if month == 4 || month == 6 || month == 9 || month == 11 then 30
    else 31
  }

  predicate IsDate(d: Date) {
    1 <= d.month <= 12 && 1 <= d.day <= DaysIn(d.year, d.month)
  }

  // ---------------------------------------------------------------- the language's own functions

  predicate IsBlank(c: char) {
    var n := c as int;
    9 <= n <= 13 || n == 32 || n == 0xA0 || n == 0x1680 || 0x2000 <= n <= 0x200A || n == 0x2028 || n == 0x2029
    || n == 0x202F || n == 0x205F || n == 0x3000 || n == 0xFEFF
  }

  function TrimStart(s: string): string {
    if s != [] && IsBlank(s[0]) then TrimStart(s[1..]) else s
  }

  function DigitPrefix(s: string): (r: string)
    ensures AllDigits(r)
  {
    if s != [] && IsDigit(s[0]) then [s[0]] + DigitPrefix(s[1..]) else []
  }

  /** `parseInt(s, 10)`; `None` for NaN. */
  function ParseInt(s: string): Option<int> {
    var t := TrimStart(s);
    var signed := t != [] && (t[0] == '-' || t[0] == '+');
    var digits := DigitPrefix(if signed then t[1..] else t);
    var value: int := Value(digits);
    if digits == [] then None else Some(if signed && t[0] == '-' then -value else value)
  }

  function Zeros(n: nat): (s: string)
    ensures |s| == n && AllDigits(s)
  {
    if n == 0 then [] else Zeros(n - 1) + ['0']
  }

  /** `s.padStart(n, '0')`. */
  function PadStart(s: string, n: nat): string {
    if |s| >= n then s else Zeros(n - |s|) + s
  }

  /** `new Date(year, month, 0).getDate()`: a year from 0 to 99 means 1900 to 1999. */
  function LastDay(year: int, month: int): nat {
    DaysIn(if 0 <= year <= 99 then 1900 + year else year, month)
  }

  // ---------------------------------------------------------------- the helpers

  function Dashed(year: string, month: string, day: string): string {
    year + "-" + month + "-" + day
  }

  function ToISODate(d: Option<DateParts>): Option<string> {
    if d.None? || d.value.year == "" || d.value.month == "" || d.value.day == "" then None
    else Some(Dashed(PadStart(d.value.year, 4), PadStart(d.value.month, 2), PadStart(d.value.day, 2)))
  }

  function ToISODateRange(d: Option<DateParts>, side: Side): Option<string> {
    if d.None? || d.value.year == "" then None
    else
      var yearNum := ParseInt(d.value.year);
      if yearNum.None? then None
      else
        var y := PadStart(Decimal(yearNum.value), 4);
        if d.value.month == "" then Some(y + if side == StartSide then "-01-01" else "-12-31")
        else
          var monthNum := ParseInt(d.value.month);
          if monthNum.None? || monthNum.value < 1 || monthNum.value > 12 then None
          else
            var m := PadStart(Decimal(monthNum.value), 2);
            if d.value.day == "" then
              if side == StartSide then Some(Dashed(y, m, "01"))
              else Some(Dashed(y, m, PadStart(Decimal(LastDay(yearNum.value, monthNum.value)), 2)))
            else
              var dayNum := ParseInt(d.value.day);
              if dayNum.None? || dayNum.value < 1 || dayNum.value > 31 then None
              else Some(Dashed(y, m, PadStart(Decimal(dayNum.value), 2)))
  }

  function IsoToDateParts(iso: Option<string>): Option<DateParts> {
    if iso.None? || iso.value == "" then None
    else
      var parts := Split(iso.value, '-');
      if |parts| != 3 || parts[0] == "" || parts[1] == "" || parts[2] == "" then None
      else Some(DateParts(parts[2], parts[1], parts[0]))
  }

  /** The ISO text of a day. */
  function Iso(d: Date): string {
    Dashed(PadStart(Decimal(d.year), 4), PadStart(Decimal(d.month), 2), PadStart(Decimal(d.day), 2))
  }

  /** `stamp?.split('T')[0]`. */
  function DayOf(stamp: Option<string>): Option<string> {
    if stamp.None? then None else Some(Split(stamp.value, 'T')[0])
  }

  /** The sky chart keeps a location imaged from `first` to `last`; an absent or empty stamp is never held against it. */
  predicate Kept(first: Option<string>, last: Option<string>, from: Option<DateParts>, to: Option<DateParts>) {
    var fromISO, toISO := ToISODateRange(from, StartSide), ToISODateRange(to, EndSide);
    var start, end := DayOf(first), DayOf(last);
    && !(fromISO.Some? && end.Some? && end.value != "" && StrLess(end.value, fromISO.value))
    && !(toISO.Some? && start.Some? && start.value != "" && StrLess(toISO.value, start.value))
  }

  // ---------------------------------------------------------------- what a typed number means

  lemma {:induction false} TrimStartDrops(blanks: string, s: string)
    requires (forall i :: 0 <= i < |blanks| ==> IsBlank(blanks[i])) && (s == [] || !IsBlank(s[0]))
    ensures TrimStart(blanks + s) == s
  {
    if blanks == [] {
      assert blanks + s == s;
    } else {
      assert (blanks + s)[1..] == blanks[1..] + s;
      TrimStartDrops(blanks[1..], s);
    }
  }

  lemma {:induction false} DigitPrefixStops(digits: string, tail: string)
    requires AllDigits(digits) && (tail == [] || !IsDigit(tail[0]))
    ensures DigitPrefix(digits + tail) == digits
  {
    if digits == [] {
      assert digits + tail == tail;
    } else {
      assert (digits + tail)[1..] == digits[1..] + tail;
      DigitPrefixStops(digits[1..], tail);
    }
  }

  /** Blanks, a sign if any, then digits: that is the number, whatever else follows. Without a digit there it is no number. */
  lemma ParseIntReads(blanks: string, sign: string, digits: string, tail: string)
    requires forall i :: 0 <= i < |blanks| ==> IsBlank(blanks[i])
    requires sign in {"", "+", "-"} && AllDigits(digits) && (tail == [] || !IsDigit(tail[0]))
    requires sign == "" && digits == "" && tail != [] ==> !IsBlank(tail[0]) && tail[0] != '+' && tail[0] != '-'
    ensures ParseInt(blanks + (sign + digits + tail)) ==
      if digits == [] then None else Some(if sign == "-" then 0 - Value(digits) else Value(digits))
  {
    var s := sign + digits + tail;
    SignedStarts(sign, digits, tail);
    TrimStartDrops(blanks, s);
    DigitPrefixStops(digits, tail);
  }

  /** A number without blanks before it starts with its sign or its digits. */
  lemma SignedStarts(sign: string, digits: string, tail: string)
    requires sign in {"", "+", "-"} && AllDigits(digits)
    requires sign == "" && digits == "" && tail != [] ==> !IsBlank(tail[0]) && tail[0] != '+' && tail[0] != '-'
    ensures var s := sign + digits + tail;
      && (s == [] || !IsBlank(s[0]))
      && (s != [] && (s[0] == '-' || s[0] == '+') <==> sign != "")
      && (sign != "" ==> s[0] == sign[0] && s[1..] == digits + tail)
      && (sign == "" ==> s == digits + tail)
  {
    var s := sign + digits + tail;
    if sign == "" {
      assert s == digits + tail;
      if digits != [] {
        assert s[0] == digits[0];
      }
    } else {
      assert s[1..] == digits + tail;
    }
  }

  // ---------------------------------------------------------------- digit strings in order

  lemma {:induction false} StrLessConcat(a: string, x: string, b: string, y: string)
    requires |a| == |b|
    ensures StrLess(a + x, b + y) <==> StrLess(a, b) || (a == b && StrLess(x, y))
  {
    if a == [] {
      assert a + x == x && b + y == y;
    } else {
      StrLessConcat(a[1..], x, b[1..], y);
      assert (a + x)[1..] == a[1..] + x && (b + y)[1..] == b[1..] + y;
      assert a == b <==> a[0] == b[0] && a[1..] == b[1..];
    }
  }

  /** Digit strings of one length compare as the numbers they write. */
  lemma {:induction false} OrderOfDigits(s: string, t: string)
    requires AllDigits(s) && AllDigits(t) && |s| == |t|
    ensures StrLess(s, t) <==> Value(s) < Value(t)
    ensures s == t <==> Value(s) == Value(t)
  {
    if s != [] {
      var n := |s| - 1;
      OrderOfDigits(s[..n], t[..n]);
      StrLessConcat(s[..n], [s[n]], t[..n], [t[n]]);
      assert s == s[..n] + [s[n]] && t == t[..n] + [t[n]];
    }
  }

  lemma {:induction false} ValueOfPadded(n: nat, s: string)
    requires AllDigits(s)
    ensures AllDigits(Zeros(n) + s) && Value(Zeros(n) + s) == Value(s)
    decreases n + |s|
  {
    var z := Zeros(n) + s;
    if s == [] {
      if n > 0 {
        ValueOfPadded(n - 1, []);
        assert z[..|z| - 1] == Zeros(n - 1) + [];
      }
    } else {
      ValueOfPadded(n, s[..|s| - 1]);
      assert z[..|z| - 1] == Zeros(n) + s[..|s| - 1];
    }
  }

  lemma PadStartFacts(s: string, n: nat)
    requires AllDigits(s) && |s| <= n
    ensures |PadStart(s, n)| == n && AllDigits(PadStart(s, n)) && Value(PadStart(s, n)) == Value(s)
  {
    var zeros := n - |s|;
    ValueOfPadded(zeros, s);
    assert PadStart(s, n) == Zeros(zeros) + s;
  }

  /** The longest number of `n` digits. */
  function Nines(n: nat): nat {
    if n == 0 then 0 else 10 * Nines(n - 1) + 9
  }

  lemma {:induction false} DigitsFit(k: nat, n: nat)
    requires n > 0 && k <= Nines(n)
    ensures |Digits(k)| <= n
  {
    if k >= 10 {
      DigitsFit(k / 10, n - 1);
    }
  }

  /** A padded number keeps its value and has the width asked for. */
  lemma PaddedFacts(k: nat, n: nat)
    requires n > 0 && k <= Nines(n)
    ensures |PadStart(Decimal(k), n)| == n && AllDigits(PadStart(Decimal(k), n)) && Value(PadStart(Decimal(k), n)) == k
  {
    var s := Decimal(k);
    assert s == Digits(k);
    DigitsFit(k, n);
    ValueOfDigits(k);
    PadStartFacts(s, n);
  }

  lemma PaddedOrder(j: nat, k: nat, n: nat)
    requires n > 0 && j <= Nines(n) && k <= Nines(n)
    ensures StrLess(PadStart(Decimal(j), n), PadStart(Decimal(k), n)) <==> j < k
    ensures PadStart(Decimal(j), n) == PadStart(Decimal(k), n) <==> j == k
    ensures |PadStart(Decimal(j), n)| == |PadStart(Decimal(k), n)|
  {
    PaddedFacts(j, n);
    PaddedFacts(k, n);
    OrderOfDigits(PadStart(Decimal(j), n), PadStart(Decimal(k), n));
  }

  predicate Before(a: Date, b: Date) {
    a.year < b.year || (a.year == b.year && (a.month < b.month || (a.month == b.month && a.day < b.day)))
  }

  lemma DashOrder(s: string, t: string)
    ensures StrLess("-" + s, "-" + t) <==> StrLess(s, t)
  {
    assert ("-" + s)[1..] == s && ("-" + t)[1..] == t;
  }

  lemma DashedOrder(y: string, m: string, d: string, y': string, m': string, d': string)
    requires |y| == |y'| && |m| == |m'|
    ensures StrLess(Dashed(y, m, d), Dashed(y', m', d')) <==>
      StrLess(y, y') || (y == y' && (StrLess(m, m') || (m == m' && StrLess(d, d'))))
  {
    var days, days' := "-" + d, "-" + d';
    var months, months' := "-" + (m + days), "-" + (m' + days');
    assert Dashed(y, m, d) == y + months && Dashed(y', m', d') == y' + months';
    StrLessConcat(y, months, y', months');
    DashOrder(m + days, m' + days');
    StrLessConcat(m, days, m', days');
    DashOrder(d, d');
  }

  predicate Printable(d: Date) {
    d.year <= 9999 && d.month <= 99 && d.day <= 99
  }

  /** The order of ISO texts is the order of the days. */
  lemma IsoOrder(a: Date, b: Date)
    requires Printable(a) && Printable(b)
    ensures StrLess(Iso(a), Iso(b)) <==> Before(a, b)
  {
    assert Nines(1) == 9 && Nines(2) == 99 && Nines(3) == 999 && Nines(4) == 9999;
    PaddedOrder(a.year, b.year, 4);
    PaddedOrder(a.month, b.month, 2);
    PaddedOrder(a.day, b.day, 2);
    DashedOrder(PadStart(Decimal(a.year), 4), PadStart(Decimal(a.month), 2), PadStart(Decimal(a.day), 2),
                PadStart(Decimal(b.year), 4), PadStart(Decimal(b.month), 2), PadStart(Decimal(b.day), 2));
  }

  // ---------------------------------------------------------------- what a partial date means

  /** The year, and the month and the day where they were given. */
  datatype Partial = Partial(year: int, month: Option<int>, day: Option<int>)

  /** What the parts say: `None` when the year is missing or unreadable, or a given month or day is impossible. A day without a month is not looked at. */
  function Meaning(d: DateParts): Option<Partial> {
    var year, month, day := ParseInt(d.year), ParseInt(d.month), ParseInt(d.day);
    if year.None? then None
    else if d.month == "" then Some(Partial(year.value, None, None))
    else if month.None? || !(1 <= month.value <= 12) then None
    else if d.day == "" then Some(Partial(year.value, month, None))
    else if day.None? || !(1 <= day.value <= 31) then None
    else Some(Partial(year.value, month, day))
  }

  /** The day does not come before the partial date begins. */
  predicate NotBefore(d: Date, p: Partial) {
    d.year > p.year || (d.year == p.year && (p.month.None? || d.month > p.month.value
      || (d.month == p.month.value && (p.day.None? || d.day >= p.day.value))))
  }

  /** The day does not come after the partial date ends. */
  predicate NotAfter(d: Date, p: Partial) {
    d.year < p.year || (d.year == p.year && (p.month.None? || d.month < p.month.value
      || (d.month == p.month.value && (p.day.None? || d.day <= p.day.value))))
  }

  predicate Agrees(d: Date, p: Partial) {
    d.year == p.year && (p.month.Some? ==> d.month == p.month.value) && (p.day.Some? ==> d.day == p.day.value)
  }

  /** The one partial date whose last day the helper gets wrong: its year 0 becomes 1900. */
  predicate FebruaryOfYearZero(p: Partial) {
    p.year == 0 && p.month == Some(2) && p.day == None
  }

  function Bound(p: Partial, side: Side): Date
    requires 0 <= p.year && (p.month.Some? ==> p.month.value > 0) && (p.day.Some? ==> p.day.value > 0)
  {
    if p.month.None? then (if side == StartSide then Date(p.year, 1, 1) else Date(p.year, 12, 31))
    else if p.day.None? then Date(p.year, p.month.value, if side == StartSide then 1 else LastDay(p.year, p.month.value))
    else Date(p.year, p.month.value, p.day.value)
  }

  lemma TwoDigits()
    ensures PadStart(Decimal(1), 2) == "01" && PadStart(Decimal(12), 2) == "12" && PadStart(Decimal(31), 2) == "31"
  {
    assert Digits(1) == "1" && Digits(12) == Digits(1) + "2" && Digits(31) == Digits(3) + "1" && Digits(3) == "3";
    assert Zeros(1) == Zeros(0) + ['0'] == "0";
  }

  lemma NoNumberInEmpty()
    ensures ParseInt("").None?
  {
  }

  lemma YearRange(d: DateParts, side: Side)
    requires d.month == "" && Meaning(d).Some? && Meaning(d).value.year >= 0
    ensures ToISODateRange(Some(d), side) == Some(Iso(Bound(Meaning(d).value, side)))
  {
    NoNumberInEmpty();
    TwoDigits();
    var y := PadStart(Decimal(Meaning(d).value.year), 4);
    assert y + "-01-01" == Dashed(y, "01", "01");
    assert y + "-12-31" == Dashed(y, "12", "31");
  }

  lemma MonthRange(d: DateParts, side: Side)
    requires d.month != "" && d.day == "" && Meaning(d).Some? && Meaning(d).value.year >= 0
    ensures ToISODateRange(Some(d), side) == Some(Iso(Bound(Meaning(d).value, side)))
  {
    NoNumberInEmpty();
    TwoDigits();
  }

  lemma DayRange(d: DateParts, side: Side)
    requires d.month != "" && d.day != "" && Meaning(d).Some? && Meaning(d).value.year >= 0
    ensures ToISODateRange(Some(d), side) == Some(Iso(Bound(Meaning(d).value, side)))
  {
    NoNumberInEmpty();
  }

  lemma RangeExists(d: DateParts, side: Side)
    ensures ToISODateRange(Some(d), side).Some? <==> Meaning(d).Some?
  {
    NoNumberInEmpty();
  }

  /** The helper returns text exactly when the parts mean something, and then the ISO text of a bound. */
  lemma RangeIsBound(d: DateParts, side: Side)
    ensures ToISODateRange(Some(d), side).Some? <==> Meaning(d).Some?
    ensures Meaning(d).Some? && Meaning(d).value.year >= 0 ==>
      ToISODateRange(Some(d), side) == Some(Iso(Bound(Meaning(d).value, side)))
  {
    RangeExists(d, side);
    if Meaning(d).Some? && Meaning(d).value.year >= 0 {
      if d.month == "" {
        YearRange(d, side);
      } else if d.day == "" {
        MonthRange(d, side);
      } else {
        DayRange(d, side);
      }
    }
  }

  /** The bound is a real day unless the day typed is past the end of its month. */
  lemma BoundIsDay(d: DateParts, side: Side)
    requires Meaning(d).Some? && Meaning(d).value.year >= 0
    ensures var p := Meaning(d).value;
      IsDate(Bound(p, side)) <==> (p.day.Some? ==> p.day.value <= DaysIn(p.year, p.month.value))
  {
  }

  /** In string order a day is at or past the start bound exactly when it does not come before what was typed. */
  lemma StartBoundIsExact(date: Date, d: DateParts)
    requires IsDate(date) && date.year <= 9999
    requires Meaning(d).Some? && 0 <= Meaning(d).value.year <= 9999
    ensures ToISODateRange(Some(d), StartSide).Some?
    ensures !StrLess(Iso(date), ToISODateRange(Some(d), StartSide).value) <==> NotBefore(date, Meaning(d).value)
  {
    RangeIsBound(d, StartSide);
    IsoOrder(date, Bound(Meaning(d).value, StartSide));
  }

  lemma LastDayIsRight(year: nat, month: int)
    ensures LastDay(year, month) == DaysIn(year, month) <==> !(year == 0 && month == 2)
  {
  }

  /** The end bound is as exact, but for the leap day of year 0. */
  lemma EndBoundIsExact(date: Date, d: DateParts)
    requires IsDate(date) && date.year <= 9999
    requires Meaning(d).Some? && 0 <= Meaning(d).value.year <= 9999
    ensures ToISODateRange(Some(d), EndSide).Some?
    ensures
      (!StrLess(ToISODateRange(Some(d), EndSide).value, Iso(date)) <==> NotAfter(date, Meaning(d).value))
      <==> !(FebruaryOfYearZero(Meaning(d).value) && date == Date(0, 2, 29))
  {
    RangeIsBound(d, EndSide);
    var p := Meaning(d).value;
    IsoOrder(Bound(p, EndSide), date);
    EndBoundInCalendar(date, p);
  }

  /** What the parts typed can mean. */
  predicate Possible(p: Partial) {
    0 <= p.year <= 9999 && (p.month.Some? ==> 1 <= p.month.value <= 12)
    && (p.day.Some? ==> p.month.Some? && 1 <= p.day.value <= 31)
  }

  lemma EndBoundInCalendar(date: Date, p: Partial)
    requires IsDate(date) && Possible(p)
    ensures (!Before(Bound(p, EndSide), date) <==> NotAfter(date, p)) <==> !(FebruaryOfYearZero(p) && date == Date(0, 2, 29))
  {
    if p.month.Some? && p.day.None? {
      LastDayIsRight(p.year, p.month.value);
    }
  }

  /** A day lies between the two bounds that the helper gives. */
  predicate Within(date: Date, d: DateParts) {
    var start, end := ToISODateRange(Some(d), StartSide), ToISODateRange(Some(d), EndSide);
    start.Some? && end.Some? && !StrLess(Iso(date), start.value) && !StrLess(end.value, Iso(date))
  }

  /** The range covers exactly the days that agree with every part given. */
  ghost predicate CoversExactly(d: DateParts) {
    Meaning(d).Some? && forall date: Date :: IsDate(date) && date.year <= 9999 ==> (Within(date, d) <==> Agrees(date, Meaning(d).value))
  }

  /** A day lies between the two bounds of one partial date exactly when it agrees with every part given. */
  lemma WithinMeansAgreeing(date: Date, d: DateParts)
    requires IsDate(date) && date.year <= 9999
    requires Meaning(d).Some? && 0 <= Meaning(d).value.year <= 9999
    ensures (Within(date, d) <==> Agrees(date, Meaning(d).value))
       <==> !(FebruaryOfYearZero(Meaning(d).value) && date == Date(0, 2, 29))
  {
    StartBoundIsExact(date, d);
    EndBoundIsExact(date, d);
  }

  /** A partial date's range covers exactly the days that agree with it, unless it is February of year 0. */
  lemma RangeIsExact(d: DateParts)
    requires Meaning(d).Some? && 0 <= Meaning(d).value.year <= 9999
    ensures ToISODateRange(Some(d), StartSide).Some? && ToISODateRange(Some(d), EndSide).Some?
    ensures CoversExactly(d) <==> !FebruaryOfYearZero(Meaning(d).value)
  {
    RangeExists(d, StartSide);
    RangeExists(d, EndSide);
    if FebruaryOfYearZero(Meaning(d).value) {
      var leapDay := Date(0, 2, 29);
      assert IsDate(leapDay);
      WithinMeansAgreeing(leapDay, d);
    } else {
      forall date: Date | IsDate(date) && date.year <= 9999
        ensures Within(date, d) <==> Agrees(date, Meaning(d).value)
      {
        WithinMeansAgreeing(date, d);
      }
    }
  }

  /** A partial date that is missing or says nothing does not limit the chart. */
  predicate Limits(p: Option<DateParts>) {
    p.Some? && Meaning(p.value).Some?
  }

  /** The stamp of a day: its ISO text, with a time after it or without; no stamp for an unknown day. */
  function StampOf(day: Option<Date>, time: Option<string>): Option<string> {
    if day.None? then None
    else if time.None? then Some(Iso(day.value))
    else Some(Iso(day.value) + ['T'] + time.value)
  }

  predicate Storable(day: Option<Date>) {
    day.Some? ==> IsDate(day.value) && day.value.year <= 9999
  }

  lemma DigitsHaveNoT(s: string)
    requires AllDigits(s)
    ensures 'T' !in s
  {
  }

  lemma DayOfStamp(day: Date, time: Option<string>)
    requires Storable(Some(day))
    ensures DayOf(StampOf(Some(day), time)) == Some(Iso(day)) && Iso(day) != ""
  {
    assert Nines(1) == 9 && Nines(2) == 99 && Nines(3) == 999 && Nines(4) == 9999;
    PaddedFacts(day.year, 4);
    PaddedFacts(day.month, 2);
    PaddedFacts(day.day, 2);
    DigitsHaveNoT(PadStart(Decimal(day.year), 4));
    DigitsHaveNoT(PadStart(Decimal(day.month), 2));
    DigitsHaveNoT(PadStart(Decimal(day.day), 2));
    SplitWhole(Iso(day), 'T');
    if time.Some? {
      SplitFirst(Iso(day), time.value, 'T');
    }
  }

  /** Years the theorems speak of; what limits nothing may be anything. */
  predicate InFourDigits(p: Option<DateParts>) {
    Limits(p) ==> 0 <= Meaning(p.value).value.year <= 9999
  }

  /** The one day for which the end bound is wrong. */
  predicate MissesLeapDay(day: Option<Date>, to: Option<DateParts>) {
    Limits(to) && FebruaryOfYearZero(Meaning(to.value).value) && day == Some(Date(0, 2, 29))
  }

  /** The sky chart keeps a location exactly when its days meet the days asked for, an unknown day meeting any. */
  lemma ChartKeepsOverlaps(first: Option<Date>, firstTime: Option<string>, last: Option<Date>, lastTime: Option<string>,
                           from: Option<DateParts>, to: Option<DateParts>)
    requires Storable(first) && Storable(last) && InFourDigits(from) && InFourDigits(to)
    ensures Kept(StampOf(first, firstTime), StampOf(last, lastTime), from, to) <==>
      && (Limits(from) && last.Some? ==> NotBefore(last.value, Meaning(from.value).value))
      && (Limits(to) && first.Some? ==> NotAfter(first.value, Meaning(to.value).value) && !MissesLeapDay(first, to))
  {
    KeptFrom(last, lastTime, from);
    KeptTo(first, firstTime, to);
  }

  lemma KeptFrom(last: Option<Date>, time: Option<string>, from: Option<DateParts>)
    requires Storable(last) && InFourDigits(from)
    ensures var fromISO, end := ToISODateRange(from, StartSide), DayOf(StampOf(last, time));
      (fromISO.Some? && end.Some? && end.value != "" && StrLess(end.value, fromISO.value))
      <==> Limits(from) && last.Some? && !NotBefore(last.value, Meaning(from.value).value)
  {
    if from.Some? {
      RangeIsBound(from.value, StartSide);
    }
    if last.Some? {
      DayOfStamp(last.value, time);
      if Limits(from) {
        StartBoundIsExact(last.value, from.value);
      }
    }
  }

  lemma KeptTo(first: Option<Date>, time: Option<string>, to: Option<DateParts>)
    requires Storable(first) && InFourDigits(to)
    ensures var toISO, start := ToISODateRange(to, EndSide), DayOf(StampOf(first, time));
      (toISO.Some? && start.Some? && start.value != "" && StrLess(toISO.value, start.value))
      <==> Limits(to) && first.Some? && (!NotAfter(first.value, Meaning(to.value).value) || MissesLeapDay(first, to))
  {
    if to.Some? {
      RangeIsBound(to.value, EndSide);
    }
    if first.Some? {
      DayOfStamp(first.value, time);
      if Limits(to) {
        EndBoundIsExact(first.value, to.value);
      }
    }
  }

  /** String order is the order of the days for all dates of the years up to `n`. */
  ghost predicate OrderHoldsTo(n: nat) {
    forall a: Date, b: Date :: IsDate(a) && IsDate(b) && a.year <= n && b.year <= n ==>
      (StrLess(Iso(a), Iso(b)) <==> Before(a, b))
  }

  /** It is exactly as long as years have four digits. */
  lemma OrderHoldsToFourDigits(n: nat)
    ensures OrderHoldsTo(n) <==> n <= 9999
  {
    if n <= 9999 {
      forall a: Date, b: Date | IsDate(a) && IsDate(b) && a.year <= n && b.year <= n
        ensures StrLess(Iso(a), Iso(b)) <==> Before(a, b)
      {
        IsoOrder(a, b);
      }
    } else {
      var a, b := FiveDigitYearsSortWrong();
    }
  }

  lemma YearTexts()
    ensures PadStart(Decimal(9999), 4) == "9999" && PadStart(Decimal(10000), 4) == "10000"
  {
    assert Digits(9) == "9" && Digits(99) == "99" && Digits(999) == "999";
    assert Digits(1) == "1" && Digits(10) == "10" && Digits(100) == "100" && Digits(1000) == "1000";
  }

  /** January 1st of 9999 and of 10000. */
  lemma FiveDigitYearsSortWrong() returns (a: Date, b: Date)
    ensures IsDate(a) && IsDate(b) && a.year <= 10000 && b.year <= 10000
    ensures Before(a, b) && !StrLess(Iso(a), Iso(b))
  {
    a, b := Date(9999, 1, 1), Date(10000, 1, 1);
    YearTexts();
    assert Iso(b)[0] == '1' && Iso(a)[0] == '9';
  }

  // ---------------------------------------------------------------- round trips

  predicate DashFree(d: DateParts) {
    '-' !in d.year && '-' !in d.month && '-' !in d.day
  }

  predicate Padded(d: DateParts) {
    |d.year| >= 4 && |d.month| >= 2 && |d.day| >= 2
  }

  lemma DashedIsJoin(year: string, month: string, day: string)
    ensures Dashed(year, month, day) == Join([year, month, day], '-')
  {
    assert [year, month, day][1..] == [month, day] && [month, day][1..] == [day];
    assert Join([month, day], '-') == month + "-" + day;
  }

  lemma ZerosOnly(n: nat)
    ensures forall i :: 0 <= i < n ==> Zeros(n)[i] == '0'
  {
  }

  lemma PadIsDashFree(s: string, n: nat)
    ensures '-' in PadStart(s, n) <==> '-' in s
  {
    if |s| < n {
      ZerosOnly(n - |s|);
    }
  }

  function Dashes(s: string): nat {
    if s == [] then 0 else (if s[0] == '-' then 1 else 0) + Dashes(s[1..])
  }

  lemma {:induction false} DashesConcat(a: string, b: string)
    ensures Dashes(a + b) == Dashes(a) + Dashes(b)
  {
    if a == [] {
      assert a + b == b;
    } else {
      DashesConcat(a[1..], b);
      assert (a + b)[1..] == a[1..] + b;
    }
  }

  lemma {:induction false} NoDashes(s: string)
    ensures Dashes(s) == 0 <==> '-' !in s
    ensures |Split(s, '-')| == Dashes(s) + 1
  {
    if s != [] {
      NoDashes(s[1..]);
    }
  }

  function AllDashes(parts: seq<string>): nat {
    if parts == [] then 0 else Dashes(parts[0]) + AllDashes(parts[1..])
  }

  lemma {:induction false} DashesOfJoin(parts: seq<string>)
    requires |parts| > 0
    ensures Dashes(Join(parts, '-')) == |parts| - 1 + AllDashes(parts)
  {
    if |parts| > 1 {
      DashesOfJoin(parts[1..]);
      DashesConcat(parts[0] + "-", Join(parts[1..], '-'));
      DashesConcat(parts[0], "-");
    }
  }

  /** If joined parts split into as many again, none of them held a dash. */
  lemma SplitOfJoin(parts: seq<string>)
    requires |parts| > 0 && |Split(Join(parts, '-'), '-')| == |parts|
    ensures forall i :: 0 <= i < |parts| ==> '-' !in parts[i]
  {
    DashesOfJoin(parts);
    NoDashes(Join(parts, '-'));
    NoneOfAll(parts);
  }

  lemma {:induction false} NoneOfAll(parts: seq<string>)
    requires AllDashes(parts) == 0
    ensures forall i :: 0 <= i < |parts| ==> '-' !in parts[i]
  {
    if parts != [] {
      NoDashes(parts[0]);
      NoneOfAll(parts[1..]);
    }
  }

  /** Reading back a complete date gives its parts exactly when they hold no dash and were already padded. */
  lemma PartsRoundTrip(d: DateParts)
    requires d.year != "" && d.month != "" && d.day != ""
    ensures IsoToDateParts(ToISODate(Some(d))) == Some(d) <==> DashFree(d) && Padded(d)
  {
    var parts := [PadStart(d.year, 4), PadStart(d.month, 2), PadStart(d.day, 2)];
    DashedIsJoin(parts[0], parts[1], parts[2]);
    PadIsDashFree(d.year, 4);
    PadIsDashFree(d.month, 2);
    PadIsDashFree(d.day, 2);
    if |Split(Join(parts, '-'), '-')| == 3 {
      SplitOfJoin(parts);
      assert '-' !in parts[0] && '-' !in parts[1] && '-' !in parts[2];
    }
    if DashFree(d) {
      SplitUndoesJoin(parts, '-');
    }
  }

  /** What is read holds no dash, and printing it gives the text back exactly when its parts are as wide as printed ones. */
  lemma TextRoundTrip(iso: string)
    requires IsoToDateParts(Some(iso)).Some?
    ensures DashFree(IsoToDateParts(Some(iso)).value)
    ensures ToISODate(IsoToDateParts(Some(iso))) == Some(iso) <==> Padded(IsoToDateParts(Some(iso)).value)
  {
    var parts := Split(iso, '-');
    SplitPartsAreClean(iso, '-');
    JoinUndoesSplit(iso, '-');
    DashedIsJoin(parts[0], parts[1], parts[2]);
    assert parts == [parts[0], parts[1], parts[2]];
    var d := IsoToDateParts(Some(iso)).value;
    assert |Dashed(d.year, d.month, d.day)| == |d.year| + |d.month| + |d.day| + 2;
    assert ToISODate(Some(d)).value == Dashed(PadStart(d.year, 4), PadStart(d.month, 2), PadStart(d.day, 2));
  }

  lemma {:induction false} DigitsReadWhole(s: string)
    requires AllDigits(s)
    ensures DigitPrefix(s) == s
  {
    if s != [] {
      DigitsReadWhole(s[1..]);
      assert s == [s[0]] + s[1..];
    }
  }

  lemma DigitsParse(s: string)
    requires AllDigits(s) && s != ""
    ensures ParseInt(s) == Some(Value(s))
  {
    DigitsReadWhole(s);
  }

  lemma {:induction false} ValueFits(s: string)
    requires AllDigits(s)
    ensures Value(s) <= Nines(|s|)
  {
    if s != [] {
      ValueFits(s[..|s| - 1]);
    }
  }

  /** Padding typed digits and padding the number they write come to the same text. */
  lemma PaddingAgrees(s: string, n: nat)
    requires AllDigits(s) && 0 < |s| <= n
    ensures PadStart(Decimal(Value(s)), n) == PadStart(s, n)
  {
    ValueFits(s);
    NinesGrow(|s|, n);
    PaddedFacts(Value(s), n);
    PadStartFacts(s, n);
    OrderOfDigits(PadStart(Decimal(Value(s)), n), PadStart(s, n));
  }

  lemma {:induction false} NinesGrow(m: nat, n: nat)
    requires m <= n
    ensures Nines(m) <= Nines(n)
  {
    if m < n {
      NinesGrow(m, n - 1);
    }
  }

  /** A complete date the first helper understands. */
  lemma CompleteRange(d: DateParts, side: Side)
    requires d.year != "" && d.month != "" && d.day != ""
    requires ParseInt(d.year).Some? && ParseInt(d.month).Some? && ParseInt(d.day).Some?
    ensures var y, m, k := ParseInt(d.year).value, ParseInt(d.month).value, ParseInt(d.day).value;
      ToISODateRange(Some(d), side) ==
        if 1 <= m <= 12 && 1 <= k <= 31 then
          Some(Dashed(PadStart(Decimal(y), 4), PadStart(Decimal(m), 2), PadStart(Decimal(k), 2)))
        else None
  {
  }

  /** On digits no wider than the form allows, a complete date gives both helpers the same text. */
  lemma HelpersAgree(d: DateParts, side: Side)
    requires AllDigits(d.year) && AllDigits(d.month) && AllDigits(d.day)
    requires 0 < |d.year| <= 4 && 0 < |d.month| <= 2 && 0 < |d.day| <= 2
    ensures ToISODateRange(Some(d), side) ==
      if 1 <= Value(d.month) <= 12 && 1 <= Value(d.day) <= 31 then ToISODate(Some(d)) else None
  {
    DigitsParse(d.year);
    DigitsParse(d.month);
    DigitsParse(d.day);
    CompleteRange(d, side);
    PaddingAgrees(d.year, 4);
    PaddingAgrees(d.month, 2);
    PaddingAgrees(d.day, 2);
  }
}
