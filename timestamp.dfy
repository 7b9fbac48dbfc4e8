/**
 * The client's `formatTimestamp`: a message time shown as "Hoy HH:MM" on the
 * current local day, "Ayer HH:MM" on the day before, and "DD/MM/YYYY HH:MM"
 * otherwise. Times are given as the local calendar fields `Date` would report.
 */
module Timestamp {
  import opened Wrappers
  import opened Strings
  import opened Calendar

  /** A local date and time of day, as `getHours()` and `getMinutes()` report it. */
  datatype LocalTime = LocalTime(date: Date, hour: int, minute: int)

  predicate ValidTime(t: LocalTime) {
    ValidDate(t.date) && 0 <= t.hour < 24 && 0 <= t.minute < 60
  }

  /** `${hours}:${minutes}`, both padded to two digits. */
  function Clock(t: LocalTime): string
    requires ValidTime(t)
  {
    Pad2(t.hour) + ":" + Pad2(t.minute)
  }

  /**
   * `formatTimestamp(isoString)` at the moment `now`. None stands for an empty or
   * missing timestamp.
   */
  function FormatTimestamp(stamp: Option<LocalTime>, now: LocalTime): string
    requires stamp.Some? ==> ValidTime(stamp.value)
    requires ValidDate(now.date)
  {
    if stamp.None? then ""
    else
      var t := stamp.value;
      if t.date == now.date then "Hoy " + Clock(t)
      else if t.date == PreviousDay(now.date) then "Ayer " + Clock(t)
      else Pad2(t.date.day) + "/" + Pad2(t.date.month + 1) + "/" + IntToDecimal(t.date.year) + " " + Clock(t)
  }

  lemma ClockShape(t: LocalTime)
    requires ValidTime(t)
    ensures var c := Clock(t);
      && |c| == 5 && c[2] == ':'
      && AllDigits(c[..2]) && DecimalValue(c[..2]) == t.hour
      && AllDigits(c[3..]) && DecimalValue(c[3..]) == t.minute
  {
    Pad2RoundTrip(t.hour);
    Pad2RoundTrip(t.minute);
    var c := Clock(t);
    assert c[..2] == Pad2(t.hour);
    assert c[3..] == Pad2(t.minute);
  }

  /** Nothing is shown exactly when there is no timestamp. */
  lemma FormatEmptyIffMissing(stamp: Option<LocalTime>, now: LocalTime)
    requires stamp.Some? ==> ValidTime(stamp.value)
    requires ValidDate(now.date)
    ensures FormatTimestamp(stamp, now) == "" <==> stamp.None?
  {
  }

  /** Every shown time ends in "HH:MM", which reads back as the message's hour and minute. */
  lemma FormatEndsWithClock(t: LocalTime, now: LocalTime)
    requires ValidTime(t) && ValidDate(now.date)
    ensures var r := FormatTimestamp(Some(t), now);
      && |r| >= 5 && r[|r| - 5..] == Clock(t)
      && DecimalValue(r[|r| - 5..|r| - 3]) == t.hour && r[|r| - 3] == ':'
      && DecimalValue(r[|r| - 2..]) == t.minute
  {
    ClockShape(t);
    var r := FormatTimestamp(Some(t), now);
    var c := Clock(t);
    assert r[|r| - 5..] == c;
    assert r[|r| - 5..|r| - 3] == c[..2];
    assert r[|r| - 2..] == c[3..];
  }

  /**
   * The output starts with "Hoy " exactly on the current day and with "Ayer " exactly
   * on the day before; on those days it is that label and the clock, nothing more.
   */
  lemma FormatLabel(t: LocalTime, now: LocalTime)
    requires ValidTime(t) && ValidDate(now.date)
    ensures var r := FormatTimestamp(Some(t), now);
      && ((|r| >= 4 && r[..4] == "Hoy ") <==> t.date == now.date)
      && ((|r| >= 5 && r[..5] == "Ayer ") <==> t.date == PreviousDay(now.date))
    ensures var r := FormatTimestamp(Some(t), now);
      && (t.date == now.date ==> r == "Hoy " + Clock(t) && |r| == 9)
      && (t.date != now.date && t.date == PreviousDay(now.date) ==> r == "Ayer " + Clock(t) && |r| == 10)
  {
    var r := FormatTimestamp(Some(t), now);
    PreviousDayIsPredecessor(now.date);
    ClockShape(t);
    if t.date == now.date {
      assert r[..4] == "Hoy ";
      assert r[0] == 'H';
    } else if t.date == PreviousDay(now.date) {
      assert r[..5] == "Ayer ";
      assert r[0] == 'A';
    } else {
      Pad2RoundTrip(t.date.day);
      assert r[0] == Pad2(t.date.day)[0];
      assert IsDigit(r[0]);
    }
    assert |r| >= 4 && r[..4] == "Hoy " ==> r[0] == 'H';
    assert |r| >= 5 && r[..5] == "Ayer " ==> r[0] == 'A';
  }

  /**
   * On any other day the output starts with the day and the 1-based month, each as
   * two digits, separated by '/', then the year exactly as `${year}` prints it (no
   * leading zero, a '-' before a negative year, reading back as the year), a space
   * and the clock.
   */
  lemma FormatFullDate(t: LocalTime, now: LocalTime)
    requires ValidTime(t) && ValidDate(now.date)
    requires t.date != now.date && t.date != PreviousDay(now.date)
    ensures var r := FormatTimestamp(Some(t), now);
      && |r| >= 13
      && DecimalValue(r[..2]) == t.date.day && r[2] == '/'
      && DecimalValue(r[3..5]) == t.date.month + 1 && r[5] == '/'
      && r[|r| - 6] == ' '
    ensures var r := FormatTimestamp(Some(t), now); var y := r[6..|r| - 6];
      && y == IntToDecimal(t.date.year)
      && (t.date.year >= 0 ==> AllDigits(y) && DecimalValue(y) == t.date.year && (|y| == 1 || y[0] != '0'))
      && (t.date.year < 0 ==> |y| >= 2 && y[0] == '-' && AllDigits(y[1..]) && DecimalValue(y[1..]) == -t.date.year
                              && (|y| == 2 || y[1] != '0'))
  {
    var r := FormatTimestamp(Some(t), now);
    var dd := Pad2(t.date.day);
    var mm := Pad2(t.date.month + 1);
    Pad2RoundTrip(t.date.day);
    Pad2RoundTrip(t.date.month + 1);
    ClockShape(t);
    IntToDecimalShape(t.date.year);
    FullDateParts(dd, mm, IntToDecimal(t.date.year), Clock(t));
  }

  /** Where each part sits in "DD/MM/" + year + " " + clock. */
  lemma FullDateParts(dd: string, mm: string, year: string, clock: string)
    requires |dd| == 2 && |mm| == 2 && |clock| == 5
    ensures var r := dd + "/" + mm + "/" + year + " " + clock;
      && |r| == 12 + |year|
      && r[..2] == dd && r[2] == '/' && r[3..5] == mm && r[5] == '/'
      && r[6..|r| - 6] == year && r[|r| - 6] == ' '
  {
    var r := dd + "/" + mm + "/" + year + " " + clock;
    assert r[..2] == dd;
    assert r[3..5] == mm;
    assert r[6..|r| - 6] == year;
  }
}
