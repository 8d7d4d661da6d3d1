/**
 * A refrigerator's energy totals by the hour, the day and the month (cloud/devices/2RES2VE300UA2.ts), with clocks that
 * run backwards, writes that fail and restarts in between: exactly when the totals are those of the reports.
 */
module EnergyMeter {
  import opened Common

  // ---------------------------------------------------------------- the calendar in Seoul, nine hours ahead of UTC

  const HOUR := 3_600_000
  const SLOT := 900_000

  datatype Date = Date(year: nat, month: nat, day: nat)

  datatype Hour = Hour(date: Date, hour: nat)

  datatype Month = Month(year: nat, month: nat)

  predicate Leap(year: nat) { year % 4 == 0 && (year % 100 != 0 || year % 400 == 0) }

  function DaysIn(year: nat, month: nat): (n: nat)
    ensures 28 <= n <= 31
  {
    if month == 2 then (if Leap(year) then 29 else 28)
    else if month == 4 || month == 6 || month == 9 || month == 11 then 30
    else 31
  }

  /** The date `days` days after the first of a month (Gregorian). */
  function Calendar(days: nat, year: nat, month: nat): Date
    decreases days
  {
    if days < DaysIn(year, month) then Date(year, month, days + 1)
    else if month == 12 then Calendar(days - DaysIn(year, month), year + 1, 1)
    else Calendar(days - DaysIn(year, month), year, month + 1)
  }

  /** Hours since 1970 in Seoul; times are milliseconds since 1970. */
  function Hours(t: nat): nat { t / HOUR + 9 }

  function LocalDate(t: nat): Date { Calendar(Hours(t) / 24, 1970, 1) }

  function LocalHour(t: nat): Hour { Hour(LocalDate(t), Hours(t) % 24) }

  function LocalMonth(t: nat): Month { Month(LocalDate(t).year, LocalDate(t).month) }

  function SlotOf(t: nat): nat { t / SLOT }

  // ---------------------------------------------------------------- the meter

  /** `last` is the last quarter hour that was counted. */
  datatype Stats = Stats(hour: Hour, date: Date, month: Month, hourWh: nat, dayWh: nat, monthWh: nat, last: Option<nat>)

  function Empty(now: nat): Stats { Stats(LocalHour(now), LocalDate(now), LocalMonth(now), 0, 0, 0, None) }

  function Loaded(saved: Option<Stats>, now: nat): Stats {
    if saved.None? then Empty(now)
    else
      var s := saved.value;
      Stats(
        LocalHour(now), LocalDate(now), LocalMonth(now),
        if s.hour == LocalHour(now) then s.hourWh else 0,
        if s.date == LocalDate(now) then s.dayWh else 0,
        if s.month == LocalMonth(now) then s.monthWh else 0,
        s.last)
  }

  function Rolled(s: Stats, now: nat): Stats { Loaded(Some(s), now) }

  function Counted(s: Stats, wh: nat, now: nat): Stats {
    var r := Rolled(s, now);
    if r.last == Some(SlotOf(now)) then r
    else r.(last := Some(SlotOf(now)), hourWh := r.hourWh + wh, dayWh := r.dayWh + wh, monthWh := r.monthWh + wh)
  }

  /** The file follows the fields when they change and it can be written. */
  function Written(saved: Option<Stats>, before: Stats, after: Stats, writable: bool): Option<Stats> {
    if writable && after != before then Some(after) else saved
  }

  class Meter {
    var hour: Hour
    var date: Date
    var month: Month
    var hourWh: nat
    var dayWh: nat
    var monthWh: nat
    var last: Option<nat>
    var file: Option<Stats>

    function Now(): Stats
      reads this
    {
      Stats(hour, date, month, hourWh, dayWh, monthWh, last)
    }

    /** A start, with what an earlier run left in the file. */
    constructor (saved: Option<Stats>, now: nat)
      ensures file == saved && Now() == Loaded(saved, now)
    {
      file := saved;
      hour, date, month := LocalHour(now), LocalDate(now), LocalMonth(now);
      hourWh := if saved.Some? && saved.value.hour == LocalHour(now) then saved.value.hourWh else 0;
      dayWh := if saved.Some? && saved.value.date == LocalDate(now) then saved.value.dayWh else 0;
      monthWh := if saved.Some? && saved.value.month == LocalMonth(now) then saved.value.monthWh else 0;
      last := if saved.Some? then saved.value.last else None;
    }

    /** A failed write leaves the file as it was. */
    method Save(writable: bool)
      modifies this`file
      ensures file == if writable then Some(Now()) else old(file)
    {
      if writable { file := Some(Now()); }
    }

    method Roll(now: nat, writable: bool)
      modifies this
      ensures Now() == Rolled(old(Now()), now)
      ensures file == Written(old(file), old(Now()), Now(), writable)
    {
      var changed := false;
      if month != LocalMonth(now) {
        month, monthWh, changed := LocalMonth(now), 0, true;
      }
      if date != LocalDate(now) {
        date, dayWh, changed := LocalDate(now), 0, true;
      }
      if hour != LocalHour(now) {
        hour, hourWh, changed := LocalHour(now), 0, true;
      }
      if changed { Save(writable); }
    }

    /** The roll and the count each write the file, if they change anything. */
    method ProcessInterval(wh: nat, now: nat, rollWritable: bool, writable: bool)
      modifies this
      ensures Now() == Counted(old(Now()), wh, now)
      ensures var rolled := Rolled(old(Now()), now);
              file == Written(Written(old(file), old(Now()), rolled, rollWritable), rolled, Now(), writable)
    {
      Roll(now, rollWritable);
      if last == Some(SlotOf(now)) { return; }
      last := Some(SlotOf(now));
      hourWh, dayWh, monthWh := hourWh + wh, dayWh + wh, monthWh + wh;
      Save(writable);
    }
  }

  // ---------------------------------------------------------------- order of the keys

  function MonthNumber(d: Date): nat { 12 * d.year + d.month }

  function DayNumber(d: Date): nat { 31 * MonthNumber(d) + d.day }

  lemma {:induction false} CalendarBounds(days: nat, year: nat, month: nat)
    requires 1 <= month <= 12
    ensures var d := Calendar(days, year, month);
            1 <= d.month <= 12 && 1 <= d.day <= 31 && DayNumber(d) > 31 * (12 * year + month)
    decreases days
  {
    if days >= DaysIn(year, month) {
      if month == 12 {
        CalendarBounds(days - DaysIn(year, month), year + 1, 1);
      } else {
        CalendarBounds(days - DaysIn(year, month), year, month + 1);
      }
    }
  }

  lemma {:induction false} CalendarGrows(a: nat, b: nat, year: nat, month: nat)
    requires 1 <= month <= 12 && a < b
    ensures DayNumber(Calendar(a, year, month)) < DayNumber(Calendar(b, year, month))
    decreases a
  {
    var n := DaysIn(year, month);
    CalendarBounds(b, year, month);
    if a < n {
      if b >= n {
        if month == 12 {
          CalendarBounds(b - n, year + 1, 1);
        } else {
          CalendarBounds(b - n, year, month + 1);
        }
      }
    } else if month == 12 {
      CalendarGrows(a - n, b - n, year + 1, 1);
    } else {
      CalendarGrows(a - n, b - n, year, month + 1);
    }
  }

  datatype Kind = ByHour | ByDay | ByMonth

  /** Two times fall into one period. */
  predicate Same(kind: Kind, a: nat, b: nat) {
    match kind
    case ByHour => LocalHour(a) == LocalHour(b)
    case ByDay => LocalDate(a) == LocalDate(b)
    case ByMonth => LocalMonth(a) == LocalMonth(b)
  }

  lemma DatesGrow(a: nat, b: nat)
    requires a <= b
    ensures DayNumber(LocalDate(a)) <= DayNumber(LocalDate(b)) && MonthNumber(LocalDate(a)) <= MonthNumber(LocalDate(b))
    ensures LocalDate(a) == LocalDate(b) <==> Hours(a) / 24 == Hours(b) / 24
  {
    CalendarBounds(Hours(a) / 24, 1970, 1);
    CalendarBounds(Hours(b) / 24, 1970, 1);
    if Hours(a) / 24 < Hours(b) / 24 {
      CalendarGrows(Hours(a) / 24, Hours(b) / 24, 1970, 1);
    }
  }

  lemma SameHour(a: nat, b: nat)
    ensures Same(ByHour, a, b) <==> Hours(a) == Hours(b)
    ensures Same(ByHour, a, b) ==> Same(ByDay, a, b)
    ensures Same(ByDay, a, b) ==> Same(ByMonth, a, b)
  {
    if a <= b {
      DatesGrow(a, b);
    } else {
      DatesGrow(b, a);
    }
    assert Hours(a) == 24 * (Hours(a) / 24) + Hours(a) % 24;
    assert Hours(b) == 24 * (Hours(b) / 24) + Hours(b) % 24;
  }

  /** A period has no gaps. */
  lemma NoGaps(kind: Kind, a: nat, b: nat, c: nat)
    requires a <= b <= c && Same(kind, a, c)
    ensures Same(kind, a, b)
  {
    DatesGrow(a, b);
    DatesGrow(b, c);
    match kind
    case ByHour =>
      SameHour(a, c);
      SameHour(a, b);
      assert Hours(a) <= Hours(b) <= Hours(c);
    case ByDay =>
      SameNumbers(a, b);
    case ByMonth =>
      SameNumbers(a, b);
  }

  lemma SameNumbers(a: nat, b: nat)
    ensures DayNumber(LocalDate(a)) == DayNumber(LocalDate(b)) ==> Same(ByDay, a, b)
    ensures MonthNumber(LocalDate(a)) == MonthNumber(LocalDate(b)) ==> Same(ByMonth, a, b)
  {
    CalendarBounds(Hours(a) / 24, 1970, 1);
    CalendarBounds(Hours(b) / 24, 1970, 1);
  }

  // ---------------------------------------------------------------- what should be counted

  datatype Report = Report(wh: nat, now: nat)

  /** No report before the `i`-th came in its quarter hour. */
  predicate FirstInSlot(log: seq<Report>, i: nat)
    requires i < |log|
  {
    forall j :: 0 <= j < i ==> SlotOf(log[j].now) != SlotOf(log[i].now)
  }

  /** The first reports of their quarter hours, in the period of `t`. */
  function Total(log: seq<Report>, kind: Kind, t: nat): nat {
    if log == [] then 0
    else
      var n := |log| - 1;
      Total(log[..n], kind, t) + if FirstInSlot(log, n) && Same(kind, log[n].now, t) then log[n].wh else 0
  }

  function LastSlot(log: seq<Report>): Option<nat> { if log == [] then None else Some(SlotOf(log[|log| - 1].now)) }

  /** The periods are those of `c`, and the totals are those of the reports in them. */
  predicate TotalsAre(s: Stats, log: seq<Report>, c: nat) {
    && s.hour == LocalHour(c) && s.date == LocalDate(c) && s.month == LocalMonth(c)
    && s.hourWh == Total(log, ByHour, c) && s.dayWh == Total(log, ByDay, c) && s.monthWh == Total(log, ByMonth, c)
  }

  lemma SlotsGrow(a: nat, b: nat)
    requires a <= b
    ensures SlotOf(a) <= SlotOf(b)
  {
  }

  lemma SlotInHour(a: nat, b: nat)
    requires SlotOf(a) == SlotOf(b)
    ensures Same(ByHour, a, b) && Same(ByDay, a, b) && Same(ByMonth, a, b)
  {
    assert a / HOUR == SlotOf(a) / 4 && b / HOUR == SlotOf(b) / 4;
    SameHour(a, b);
  }

  // ---------------------------------------------------------------- runs

  /** A report, a check of the periods, or a restart of the process; and whether the file can be written each time. */
  datatype Event =
    | Reported(wh: nat, now: nat, rollWritable: bool, writable: bool)
    | Checked(now: nat, writable: bool)
    | Restarted(now: nat)

  datatype World = World(stats: Stats, saved: Option<Stats>)

  function RollStep(w: World, now: nat, writable: bool): World {
    var s := Rolled(w.stats, now);
    World(s, Written(w.saved, w.stats, s, writable))
  }

  /** The rest of a report, once the periods are those of its time. */
  function CountStep(w: World, wh: nat, now: nat, writable: bool): World {
    var s := Counted(w.stats, wh, now);
    World(s, Written(w.saved, w.stats, s, writable))
  }

  lemma ReportIsTwoSteps(w: World, e: Event)
    requires e.Reported?
    ensures Step(w, e) == CountStep(Step(w, Checked(e.now, e.rollWritable)), e.wh, e.now, e.writable)
    ensures Step(w, e).stats == Counted(w.stats, e.wh, e.now)
  {
  }

  function Step(w: World, e: Event): World {
    match e
    case Reported(wh, now, rollWritable, writable) => CountStep(RollStep(w, now, rollWritable), wh, now, writable)
    case Checked(now, writable) => RollStep(w, now, writable)
    case Restarted(now) => World(Loaded(w.saved, now), w.saved)
  }

  function Run(start: nat, events: seq<Event>): World {
    if events == [] then World(Empty(start), None)
    else Step(Run(start, events[..|events| - 1]), events[|events| - 1])
  }

  function Log(events: seq<Event>): seq<Report> {
    if events == [] then []
    else
      var e, before := events[|events| - 1], Log(events[..|events| - 1]);
      if e.Reported? then before + [Report(e.wh, e.now)] else before
  }

  function Clock(start: nat, events: seq<Event>): nat { if events == [] then start else events[|events| - 1].now }

  /** After each event the totals are the sums of the first reports of the quarter hours of the hour, the day and the month. */
  ghost predicate AlwaysRight(start: nat, events: seq<Event>) {
    && TotalsAre(Run(start, events).stats, Log(events), Clock(start, events))
    && (events != [] ==> AlwaysRight(start, events[..|events| - 1]))
  }

  lemma TotalMore(log: seq<Report>, r: Report, kind: Kind)
    ensures Total(log + [r], kind, r.now) == Total(log, kind, r.now) + if FirstInSlot(log + [r], |log|) then r.wh else 0
  {
    assert (log + [r])[..|log|] == log;
  }

  // ---------------------------------------------------------------- how the totals hang together

  /** The periods belong together and each total is within the next. */
  predicate Nested(s: Stats) {
    && s.date == s.hour.date && s.month == Month(s.date.year, s.date.month)
    && s.hourWh <= s.dayWh <= s.monthWh
  }

  /** Whatever the clock does and whether or not writes succeed: the hour is within the day and the day within the month. */
  lemma {:induction false} AlwaysNested(start: nat, events: seq<Event>)
    ensures var w := Run(start, events); Nested(w.stats) && (w.saved.Some? ==> Nested(w.saved.value))
    decreases |events|
  {
    if events != [] {
      AlwaysNested(start, events[..|events| - 1]);
    }
  }
}
