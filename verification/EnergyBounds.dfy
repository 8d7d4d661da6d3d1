/**
 * What an hour can hold, under any circumstances: which reports are in the totals, whatever the clock, the writes and the
 * restarts.
 */
module EnergyBounds {
  import opened Common
  import opened EnergyMeter
  import opened EnergyClock
  import opened EnergyRestarts

  // ---------------------------------------------------------------- the meter with sets of reports for its totals

  /** Reports are known by their place among the events; amounts play no part. */
  datatype Marks = Marks(hour: Hour, date: Date, month: Month, hours: set<nat>, days: set<nat>, months: set<nat>, last: Option<nat>)

  function MarksLoaded(saved: Option<Marks>, now: nat): Marks {
    if saved.None? then Marks(LocalHour(now), LocalDate(now), LocalMonth(now), {}, {}, {}, None)
    else
      var m := saved.value;
      Marks(
        LocalHour(now), LocalDate(now), LocalMonth(now),
        if m.hour == LocalHour(now) then m.hours else {},
        if m.date == LocalDate(now) then m.days else {},
        if m.month == LocalMonth(now) then m.months else {},
        m.last)
  }

  function MarksCounted(m: Marks, i: nat, now: nat): Marks {
    if m.last == Some(SlotOf(now)) then m
    else m.(last := Some(SlotOf(now)), hours := m.hours + {i}, days := m.days + {i}, months := m.months + {i})
  }

  /** What the file is compared by: the totals change with these only. */
  function Keys(m: Marks): (Hour, Date, Month, Option<nat>) { (m.hour, m.date, m.month, m.last) }

  function MarksWritten(saved: Option<Marks>, before: Marks, after: Marks, writable: bool): Option<Marks> {
    if writable && Keys(after) != Keys(before) then Some(after) else saved
  }

  datatype Tally = Tally(marks: Marks, saved: Option<Marks>)

  function MarkRolled(t: Tally, now: nat, writable: bool): Tally {
    var m := MarksLoaded(Some(t.marks), now);
    Tally(m, MarksWritten(t.saved, t.marks, m, writable))
  }

  function Marked(t: Tally, i: nat, e: Event): Tally {
    match e
    case Reported(_, now, rollWritable, writable) =>
      var r := MarkRolled(t, now, rollWritable);
      var m := MarksCounted(r.marks, i, now);
      Tally(m, MarksWritten(r.saved, r.marks, m, writable))
    case Checked(now, writable) => MarkRolled(t, now, writable)
    case Restarted(now) => Tally(MarksLoaded(t.saved, now), t.saved)
  }

  function MarkRun(start: nat, events: seq<Event>): Tally {
    if events == [] then Tally(MarksLoaded(None, start), None)
    else
      var n := |events| - 1;
      Marked(MarkRun(start, events[..n]), n, events[n])
  }

  function Marking(m: Marks, kind: Kind): set<nat> {
    match kind
    case ByHour => m.hours
    case ByDay => m.days
    case ByMonth => m.months
  }

  lemma {:induction false} MarksIgnoreAmounts(start: nat, a: seq<Event>, b: seq<Event>)
    requires SameSchedule(a, b)
    ensures MarkRun(start, a) == MarkRun(start, b)
    decreases |a|
  {
    if a != [] {
      var n := |a| - 1;
      MarksIgnoreAmounts(start, a[..n], b[..n]);
      assert SameButAmount(a[n], b[n]);
    }
  }

  // ---------------------------------------------------------------- the totals are the sums over the marks

  function Amount(e: Event): nat { if e.Reported? then e.wh else 0 }

  function Sum(events: seq<Event>, marked: set<nat>): nat {
    if events == [] then 0
    else
      var n := |events| - 1;
      Sum(events[..n], marked) + if n in marked then Amount(events[n]) else 0
  }

  lemma {:induction false} SumSkips(events: seq<Event>, a: set<nat>, b: set<nat>)
    requires forall i :: 0 <= i < |events| ==> (i in a <==> i in b)
    ensures Sum(events, a) == Sum(events, b)
    decreases |events|
  {
    if events != [] {
      SumSkips(events[..|events| - 1], a, b);
    }
  }

  ghost predicate AreReports(marked: set<nat>, events: seq<Event>) {
    forall i :: i in marked ==> i < |events| && events[i].Reported?
  }

  ghost predicate MarksOf(m: Marks, events: seq<Event>) {
    AreReports(m.hours, events) && AreReports(m.days, events) && AreReports(m.months, events)
  }

  predicate Weighs(events: seq<Event>, m: Marks, s: Stats) {
    && s.hour == m.hour && s.date == m.date && s.month == m.month && s.last == m.last
    && s.hourWh == Sum(events, m.hours) && s.dayWh == Sum(events, m.days) && s.monthWh == Sum(events, m.months)
  }

  ghost predicate Fits(events: seq<Event>, m: Marks, s: Stats) { MarksOf(m, events) && Weighs(events, m, s) }

  ghost predicate FileFits(events: seq<Event>, m: Option<Marks>, s: Option<Stats>) {
    if m.Some? then s.Some? && Fits(events, m.value, s.value) else s.None?
  }

  lemma SumLonger(events: seq<Event>, e: Event, marked: set<nat>)
    requires AreReports(marked, events)
    ensures Sum(events + [e], marked) == Sum(events, marked) && AreReports(marked, events + [e])
  {
    assert (events + [e])[..|events|] == events;
  }

  lemma FitsLonger(events: seq<Event>, e: Event, m: Marks, s: Stats)
    requires Fits(events, m, s)
    ensures Fits(events + [e], m, s)
  {
    SumLonger(events, e, m.hours);
    SumLonger(events, e, m.days);
    SumLonger(events, e, m.months);
  }

  lemma {:induction false} SumOfNone(events: seq<Event>)
    ensures Sum(events, {}) == 0
    decreases |events|
  {
    if events != [] {
      SumOfNone(events[..|events| - 1]);
    }
  }

  lemma LoadedFits(events: seq<Event>, m: Option<Marks>, s: Option<Stats>, now: nat)
    requires FileFits(events, m, s)
    ensures Fits(events, MarksLoaded(m, now), Loaded(s, now))
  {
    SumOfNone(events);
  }

  lemma RolledFits(events: seq<Event>, t: Tally, w: World, now: nat, writable: bool)
    requires Fits(events, t.marks, w.stats) && FileFits(events, t.saved, w.saved)
    ensures Fits(events, MarkRolled(t, now, writable).marks, RollStep(w, now, writable).stats)
    ensures FileFits(events, MarkRolled(t, now, writable).saved, RollStep(w, now, writable).saved)
  {
    LoadedFits(events, Some(t.marks), Some(w.stats), now);
  }

  lemma {:induction false} SumWith(events: seq<Event>, marked: set<nat>, n: nat)
    requires n < |events| && n !in marked
    ensures Sum(events, marked + {n}) == Sum(events, marked) + Amount(events[n])
    decreases |events|
  {
    var k := |events| - 1;
    if n < k {
      SumWith(events[..k], marked, n);
    } else {
      SumSkips(events[..k], marked + {n}, marked);
    }
  }

  lemma CountedFits(before: seq<Event>, e: Event, t: Tally, w: World)
    requires e.Reported? && Fits(before, t.marks, w.stats) && FileFits(before, t.saved, w.saved)
    requires Rolled(w.stats, e.now) == w.stats
    ensures var m, events := MarksCounted(t.marks, |before|, e.now), before + [e];
            && Fits(events, m, CountStep(w, e.wh, e.now, e.writable).stats)
            && FileFits(events, MarksWritten(t.saved, t.marks, m, e.writable), CountStep(w, e.wh, e.now, e.writable).saved)
  {
    var n, events, m := |before|, before + [e], t.marks;
    FitsLonger(before, e, m, w.stats);
    if t.saved.Some? {
      FitsLonger(before, e, t.saved.value, w.saved.value);
    }
    SumWith(events, m.hours, n);
    SumWith(events, m.days, n);
    SumWith(events, m.months, n);
  }

  /** In every run the totals are the sums over the marks, in memory and in the file. */
  lemma {:induction false} TotalsAreSums(start: nat, events: seq<Event>)
    ensures Fits(events, MarkRun(start, events).marks, Run(start, events).stats)
    ensures FileFits(events, MarkRun(start, events).saved, Run(start, events).saved)
    decreases |events|
  {
    if events != [] {
      var n := |events| - 1;
      TotalsAreSums(start, events[..n]);
      assert events == events[..n] + [events[n]];
      StepFits(events[..n], events[n], MarkRun(start, events[..n]), Run(start, events[..n]));
    }
  }

  lemma StepFits(before: seq<Event>, e: Event, t: Tally, w: World)
    requires Fits(before, t.marks, w.stats) && FileFits(before, t.saved, w.saved)
    ensures Fits(before + [e], Marked(t, |before|, e).marks, Step(w, e).stats)
    ensures FileFits(before + [e], Marked(t, |before|, e).saved, Step(w, e).saved)
  {
    match e
    case Reported(_, now, rollWritable, writable) =>
      RolledFits(before, t, w, now, rollWritable);
      CountedFits(before, e, MarkRolled(t, now, rollWritable), RollStep(w, now, rollWritable));
    case Checked(now, writable) =>
      RolledFits(before, t, w, now, writable);
      BothLonger(before, e, MarkRolled(t, now, writable), RollStep(w, now, writable));
    case Restarted(now) =>
      LoadedFits(before, t.saved, w.saved, now);
      BothLonger(before, e, Marked(t, |before|, e), Step(w, e));
  }

  lemma BothLonger(before: seq<Event>, e: Event, t: Tally, w: World)
    requires Fits(before, t.marks, w.stats) && FileFits(before, t.saved, w.saved)
    ensures Fits(before + [e], t.marks, w.stats) && FileFits(before + [e], t.saved, w.saved)
  {
    FitsLonger(before, e, t.marks, w.stats);
    if t.saved.Some? {
      FitsLonger(before, e, t.saved.value, w.saved.value);
    }
  }

  // ---------------------------------------------------------------- when the totals are right for all amounts

  /** The first reports of their quarter hours, in the period of `t`. */
  function Due(events: seq<Event>, kind: Kind, t: nat): (r: set<nat>)
    ensures forall i :: i in r ==> i < |events| && events[i].Reported?
  {
    if events == [] then {}
    else
      var n := |events| - 1;
      var e, before := events[n], Due(events[..n], kind, t);
      if e.Reported? && NoneInSlot(Log(events[..n]), SlotOf(e.now)) && Same(kind, e.now, t) then before + {n} else before
  }

  lemma {:induction false} TotalIsDue(events: seq<Event>, kind: Kind, t: nat)
    ensures Total(Log(events), kind, t) == Sum(events, Due(events, kind, t))
    decreases |events|
  {
    if events != [] {
      var n := |events| - 1;
      var e, log := events[n], Log(events[..n]);
      TotalIsDue(events[..n], kind, t);
      SumSkips(events[..n], Due(events, kind, t), Due(events[..n], kind, t));
      if e.Reported? {
        FirstIff(log, Report(e.wh, e.now));
        assert (log + [Report(e.wh, e.now)])[..|log|] == log;
      }
    }
  }

  /** After each event the reports in the totals are those that are due. */
  ghost predicate DueAreMarked(start: nat, events: seq<Event>) {
    && (forall kind :: Marking(MarkRun(start, events).marks, kind) == Due(events, kind, Clock(start, events)))
    && (events != [] ==> DueAreMarked(start, events[..|events| - 1]))
  }

  lemma {:induction false} PeriodsAreNow(start: nat, events: seq<Event>)
    ensures var m, c := MarkRun(start, events).marks, Clock(start, events);
            m.hour == LocalHour(c) && m.date == LocalDate(c) && m.month == LocalMonth(c)
    decreases |events|
  {
    if events != [] {
      PeriodsAreNow(start, events[..|events| - 1]);
    }
  }

  lemma {:induction false} DueIsRight(start: nat, events: seq<Event>)
    requires DueAreMarked(start, events)
    ensures AlwaysRight(start, events)
    decreases |events|
  {
    var m, c := MarkRun(start, events).marks, Clock(start, events);
    TotalsAreSums(start, events);
    PeriodsAreNow(start, events);
    TotalIsDue(events, ByHour, c);
    TotalIsDue(events, ByDay, c);
    TotalIsDue(events, ByMonth, c);
    assert Marking(m, ByHour) == m.hours && Marking(m, ByDay) == m.days && Marking(m, ByMonth) == m.months;
    if events != [] {
      DueIsRight(start, events[..|events| - 1]);
    }
  }

  /** The same events, with one watt hour in report `i` and none in the others. */
  function Only(events: seq<Event>, i: nat): (r: seq<Event>)
    ensures |r| == |events| && forall k :: 0 <= k < |r| ==> r[k] == WithAmount(events[k], if k == i then 1 else 0)
  {
    if events == [] then []
    else
      var n := |events| - 1;
      Only(events[..n], i) + [WithAmount(events[n], if n == i then 1 else 0)]
  }

  lemma {:induction false} OnlyWeighs(events: seq<Event>, i: nat, marked: set<nat>)
    ensures Sum(Only(events, i), marked) == if i < |events| && events[i].Reported? && i in marked then 1 else 0
    decreases |events|
  {
    if events != [] {
      var n := |events| - 1;
      OnlyWeighs(events[..n], i, marked);
      assert Only(events, i)[..n] == Only(events[..n], i);
    }
  }

  lemma {:induction false} DueByTimes(a: seq<Event>, b: seq<Event>, kind: Kind, t: nat)
    requires SameSchedule(a, b)
    ensures Due(a, kind, t) == Due(b, kind, t)
    decreases |a|
  {
    if a != [] {
      var n := |a| - 1;
      DueByTimes(a[..n], b[..n], kind, t);
      ScheduleReturns(t, a[..n], b[..n]);
      assert SameButAmount(a[n], b[n]);
      assert SameTimes(Log(a[..n]), Log(b[..n]));
    }
  }

  /** A report that is marked and not due, or due and not marked, shows. */
  lemma OneShows(start: nat, events: seq<Event>, kind: Kind, i: nat)
    requires i in Marking(MarkRun(start, events).marks, kind) <==> i !in Due(events, kind, Clock(start, events))
    ensures SameSchedule(events, Only(events, i)) && !AlwaysRight(start, Only(events, i))
  {
    var f, c := Only(events, i), Clock(start, events);
    assert SameSchedule(events, f);
    MarksIgnoreAmounts(start, events, f);
    ScheduleReturns(start, events, f);
    DueByTimes(events, f, kind, c);
    TotalsAreSums(start, events);
    TotalsAreSums(start, f);
    TotalIsDue(f, kind, c);
    OnlyWeighs(events, i, Marking(MarkRun(start, events).marks, kind));
    OnlyWeighs(events, i, Due(events, kind, c));
    assert TotalOf(Run(start, f).stats, kind) == Sum(f, Marking(MarkRun(start, f).marks, kind));
  }

  lemma {:induction false} UnduesShow(start: nat, events: seq<Event>) returns (f: seq<Event>)
    requires !DueAreMarked(start, events)
    ensures SameSchedule(events, f) && !AlwaysRight(start, f)
    decreases |events|
  {
    var m, c := MarkRun(start, events).marks, Clock(start, events);
    if kind :| Marking(m, kind) != Due(events, kind, c) {
      var i := Difference(Marking(m, kind), Due(events, kind, c));
      OneShows(start, events, kind, i);
      f := Only(events, i);
    } else {
      var n := |events| - 1;
      var g := UnduesShow(start, events[..n]);
      WrongStays(start, g, events[n]);
      SchedulesExtend(events[..n], g, events[n], events[n]);
      assert events == events[..n] + [events[n]];
      f := g + [events[n]];
    }
  }

  lemma Difference(a: set<nat>, b: set<nat>) returns (i: nat)
    requires a != b
    ensures i in a <==> i !in b
  {
    if x :| x in a && x !in b {
      i := x;
    } else {
      assert a <= b;
      i :| i in b && i !in a;
    }
  }

  /**
   * With any clock, any failing writes and any restarts: the totals are right for all amounts exactly when, after each
   * event, the reports that were counted and kept are those that are due.
   */
  lemma RightForAllAmounts(start: nat, events: seq<Event>)
    ensures (forall f :: SameSchedule(events, f) ==> AlwaysRight(start, f)) <==> DueAreMarked(start, events)
  {
    if DueAreMarked(start, events) {
      forall f | SameSchedule(events, f)
        ensures AlwaysRight(start, f)
      {
        DueBySchedule(start, events, f);
        DueIsRight(start, f);
      }
    } else {
      var f := UnduesShow(start, events);
      assert SameSchedule(events, f);
    }
  }

  lemma {:induction false} DueBySchedule(start: nat, a: seq<Event>, b: seq<Event>)
    requires SameSchedule(a, b) && DueAreMarked(start, a)
    ensures DueAreMarked(start, b)
    decreases |a|
  {
    MarksIgnoreAmounts(start, a, b);
    ScheduleReturns(start, a, b);
    forall kind
      ensures Marking(MarkRun(start, b).marks, kind) == Due(b, kind, Clock(start, b))
    {
      DueByTimes(a, b, kind, Clock(start, a));
    }
    if a != [] {
      DueBySchedule(start, a[..|a| - 1], b[..|b| - 1]);
    }
  }

  // ---------------------------------------------------------------- how much an hour can hold

  predicate SmallAmounts(events: seq<Event>) { forall i :: 0 <= i < |events| && events[i].Reported? ==> events[i].wh <= 65535 }

  lemma {:induction false} SumIsSmall(events: seq<Event>, marked: set<nat>)
    requires SmallAmounts(events)
    ensures Sum(events, marked) <= 65535 * |marked|
    decreases |events|
  {
    if events != [] {
      var n := |events| - 1;
      assert forall i :: 0 <= i < n ==> events[..n][i] == events[i];
      SumIsSmall(events[..n], marked - {n});
      SumSkips(events[..n], marked - {n}, marked);
      if n in marked {
        assert |marked - {n}| == |marked| - 1;
      } else {
        assert marked - {n} == marked;
      }
    }
  }

  /** The same events, with the largest amount in every report. */
  function Largest(events: seq<Event>): (r: seq<Event>)
    ensures |r| == |events| && forall k :: 0 <= k < |r| ==> r[k] == WithAmount(events[k], 65535)
  {
    if events == [] then [] else Largest(events[..|events| - 1]) + [WithAmount(events[|events| - 1], 65535)]
  }

  lemma {:induction false} LargestSum(events: seq<Event>, marked: set<nat>)
    requires forall i :: i in marked ==> i < |events| && events[i].Reported? && events[i].wh == 65535
    ensures Sum(events, marked) == 65535 * |marked|
    decreases |events|
  {
    if events == [] {
      assert marked == {};
    } else {
      var n := |events| - 1;
      LargestSum(events[..n], marked - {n});
      SumSkips(events[..n], marked - {n}, marked);
      if n in marked {
        assert |marked - {n}| == |marked| - 1;
      } else {
        assert marked - {n} == marked;
      }
    }
  }

  /**
   * Whatever the clock, the writes and the restarts: amounts of two bytes never make more than four of the largest in the
   * hour, exactly when no more than four reports are counted and kept in it.
   */
  lemma HourBoundIff(start: nat, events: seq<Event>)
    ensures (forall f :: SameSchedule(events, f) && SmallAmounts(f) ==> Run(start, f).stats.hourWh <= 4 * 65535)
       <==> |MarkRun(start, events).marks.hours| <= 4
  {
    var hours := MarkRun(start, events).marks.hours;
    if |hours| <= 4 {
      forall f | SameSchedule(events, f) && SmallAmounts(f)
        ensures Run(start, f).stats.hourWh <= 4 * 65535
      {
        MarksIgnoreAmounts(start, events, f);
        TotalsAreSums(start, f);
        SumIsSmall(f, hours);
      }
    } else {
      LargestHour(start, events);
      var f := Largest(events);
      assert SameSchedule(events, f) && SmallAmounts(f) && Run(start, f).stats.hourWh > 4 * 65535;
    }
  }

  lemma LargestHour(start: nat, events: seq<Event>)
    ensures Run(start, Largest(events)).stats.hourWh == 65535 * |MarkRun(start, events).marks.hours|
  {
    var f, m := Largest(events), MarkRun(start, events).marks;
    assert SameSchedule(events, f);
    MarksIgnoreAmounts(start, events, f);
    TotalsAreSums(start, f);
    LargestSum(f, m.hours);
  }

  /**
   * While the process runs, those are the reports since the clock came to its present hour whose quarter hour differs from
   * that of the report before.
   */
  function Counts(start: nat, events: seq<Event>): nat {
    if events == [] then 0
    else
      var before, e := events[..|events| - 1], events[|events| - 1];
      (if Same(ByHour, Clock(start, before), e.now) then Counts(start, before) else 0)
      + (if e.Reported? && LastSlot(Log(before)) != Some(SlotOf(e.now)) then 1 else 0)
  }

  lemma {:induction false} CountsAreMarks(start: nat, events: seq<Event>)
    requires NoRestarts(events)
    ensures |MarkRun(start, events).marks.hours| == Counts(start, events)
    ensures MarkRun(start, events).marks.last == LastSlot(Log(events))
    decreases |events|
  {
    if events != [] {
      var n := |events| - 1;
      var before, e := events[..n], events[n];
      assert NoRestarts(before);
      CountsAreMarks(start, before);
      PeriodsAreNow(start, before);
      TotalsAreSums(start, before);
      var t := MarkRun(start, before);
      var r := MarksLoaded(Some(t.marks), e.now);
      assert n !in t.marks.hours && n !in r.hours;
    }
  }

  /** As long as the process runs, the bound holds for all amounts exactly when no more than four reports count. */
  lemma HourBoundByTimes(start: nat, events: seq<Event>)
    requires NoRestarts(events)
    ensures (forall f :: SameSchedule(events, f) && SmallAmounts(f) ==> Run(start, f).stats.hourWh <= 4 * 65535)
       <==> Counts(start, events) <= 4
  {
    CountsAreMarks(start, events);
    HourBoundIff(start, events);
  }

  predicate SmallReports(log: seq<Report>) { forall i :: 0 <= i < |log| ==> log[i].wh <= 65535 }

  /** The quarter hours of the hour of `t` in which reports came. */
  ghost function SlotsIn(log: seq<Report>, t: nat): set<nat> {
    set i | 0 <= i < |log| && Same(ByHour, log[i].now, t) :: SlotOf(log[i].now)
  }

  lemma FourSlots(log: seq<Report>, t: nat)
    ensures SlotsIn(log, t) <= {4 * (t / HOUR), 4 * (t / HOUR) + 1, 4 * (t / HOUR) + 2, 4 * (t / HOUR) + 3}
    ensures |SlotsIn(log, t)| <= 4
  {
    var four := {4 * (t / HOUR), 4 * (t / HOUR) + 1, 4 * (t / HOUR) + 2, 4 * (t / HOUR) + 3};
    forall slot | slot in SlotsIn(log, t)
      ensures slot in four
    {
      var i :| 0 <= i < |log| && Same(ByHour, log[i].now, t) && SlotOf(log[i].now) == slot;
      SameHour(log[i].now, t);
      assert SlotOf(log[i].now) / 4 == log[i].now / HOUR;
    }
    SubsetSize(SlotsIn(log, t), four);
  }

  lemma MoreSlots(log: seq<Report>, t: nat)
    requires log != []
    ensures var n := |log| - 1;
            |SlotsIn(log, t)| >= |SlotsIn(log[..n], t)| + if FirstInSlot(log, n) && Same(ByHour, log[n].now, t) then 1 else 0
  {
    var n := |log| - 1;
    var before, slots := SlotsIn(log[..n], t), SlotsIn(log, t);
    assert before <= slots by {
      assert forall i :: 0 <= i < n ==> log[..n][i] == log[i];
    }
    if FirstInSlot(log, n) && Same(ByHour, log[n].now, t) {
      assert SlotOf(log[n].now) in slots && SlotOf(log[n].now) !in before;
      SubsetSize(before + {SlotOf(log[n].now)}, slots);
    } else {
      SubsetSize(before, slots);
    }
  }

  lemma {:induction false} TotalBySlots(log: seq<Report>, t: nat)
    requires SmallReports(log)
    ensures Total(log, ByHour, t) <= 65535 * |SlotsIn(log, t)|
    decreases |log|
  {
    if log != [] {
      var n := |log| - 1;
      TotalBySlots(log[..n], t);
      MoreSlots(log, t);
    }
  }

  /** Whatever the clock does, a right hour never holds more than four of the largest reports of two bytes. */
  lemma HourBound(log: seq<Report>, t: nat)
    requires SmallReports(log)
    ensures Total(log, ByHour, t) <= 4 * 65535
  {
    TotalBySlots(log, t);
    FourSlots(log, t);
  }

  /** Quarter hours of an hour up to the last report. */
  function SlotsUsed(last: Option<nat>, t: nat): nat {
    if last.None? || last.value < 4 * (t / HOUR) then 0
    else if last.value >= 4 * (t / HOUR) + 4 then 4
    else last.value - 4 * (t / HOUR) + 1
  }

  predicate HourOk(s: Stats, at: nat) {
    && s.hour == LocalHour(at) && (s.last.Some? ==> s.last.value <= SlotOf(at))
    && s.hourWh <= 65535 * SlotsUsed(s.last, at)
  }

  lemma HourLater(s: Stats, at: nat, now: nat)
    requires HourOk(s, at) && at <= now
    ensures HourOk(Rolled(s, now), now)
  {
    SlotsGrow(at, now);
    SameHour(at, now);
    if LocalHour(at) == LocalHour(now) {
      assert Same(ByHour, at, now);
      assert at / HOUR == now / HOUR;
    }
  }

  lemma HourCounts(s: Stats, at: nat, wh: nat, now: nat)
    requires HourOk(s, at) && at <= now && wh <= 65535
    ensures HourOk(Counted(s, wh, now), now)
  {
    HourLater(s, at, now);
    assert SlotOf(now) / 4 == now / HOUR;
    var r := Rolled(s, now);
    if r.last != Some(SlotOf(now)) {
      assert SlotsUsed(Some(SlotOf(now)), now) >= SlotsUsed(r.last, now) + 1;
    }
  }

  ghost predicate HoursOk(w: World, start: nat, c: nat) {
    HourOk(w.stats, c) && exists at: nat :: at <= c && HourOk(Seen(start, w.saved), at)
  }

  lemma HoursStayOk(w: World, start: nat, c: nat, e: Event)
    requires HoursOk(w, start, c) && c <= e.now && (e.Reported? ==> e.wh <= 65535)
    ensures HoursOk(Step(w, e), start, e.now)
  {
    var at: nat :| at <= c && HourOk(Seen(start, w.saved), at);
    var w' := Step(w, e);
    if e.Reported? {
      HourLater(w.stats, c, e.now);
      HourCounts(w.stats, c, e.wh, e.now);
    } else if e.Checked? {
      HourLater(w.stats, c, e.now);
    } else {
      HourLater(Seen(start, w.saved), at, e.now);
      assert w'.stats == Rolled(Seen(start, w.saved), e.now);
    }
    assert HourOk(Seen(start, w'.saved), if w'.saved == w.saved then at else e.now);
  }

  /** Whether or not writes succeed, and whatever restarts lose: an hour never holds more than four of the largest reports. */
  lemma {:induction false} HourStaysSmall(start: nat, events: seq<Event>)
    requires Forward(start, events)
    requires forall i :: 0 <= i < |events| && events[i].Reported? ==> events[i].wh <= 65535
    ensures Run(start, events).stats.hourWh <= 4 * 65535
    ensures HoursOk(Run(start, events), start, Clock(start, events))
    decreases |events|
  {
    if events == [] {
      assert HourOk(Seen(start, None), start);
    } else {
      var n := |events| - 1;
      assert forall i :: 0 <= i < n ==> events[..n][i] == events[i];
      HourStaysSmall(start, events[..n]);
      HoursStayOk(Run(start, events[..n]), start, Clock(start, events[..n]), events[n]);
    }
  }

  // ---------------------------------------------------------------- a clock that jumps

  function Jump(second: bool): Event { Reported(65535, if second then SLOT else 0, true, true) }

  lemma JumpCounts(events: seq<Event>, second: bool)
    requires var s := Run(0, events).stats; s.hour == LocalHour(0) && s.last != Some(if second then 1 else 0)
    ensures var s, t := Run(0, events).stats, Run(0, events + [Jump(second)]).stats;
            t.hourWh == s.hourWh + 65535 && t.hour == LocalHour(0) && t.last == Some(if second then 1 else 0)
  {
    assert (events + [Jump(second)])[..|events|] == events;
    SameHour(0, SLOT);
    assert Same(ByHour, 0, SLOT);
  }

  /** With a clock that jumps back and forth between two quarter hours, each is counted again and again. */
  lemma ClockJumps()
    ensures Run(0, [] + [Jump(false)] + [Jump(true)] + [Jump(false)] + [Jump(true)] + [Jump(false)]).stats.hourWh > 4 * 65535
  {
    var e2 := [] + [Jump(false)] + [Jump(true)];
    var e4 := e2 + [Jump(false)] + [Jump(true)];
    JumpCounts([], false);
    JumpCounts([] + [Jump(false)], true);
    JumpCounts(e2, false);
    JumpCounts(e2 + [Jump(false)], true);
    JumpCounts(e4, false);
  }

  /** These jumps are returns, of the kind that the totals are not right with. */
  lemma JumpsReturn()
    ensures !NoReturns(0, [Jump(false), Jump(true), Jump(false)])
  {
    var events := [Jump(false), Jump(true), Jump(false)];
    assert events[..2][..1] == [Jump(false)] && events[..2][..1][..0] == [];
    assert Log(events[..2][..1]) == [Report(65535, 0)];
    assert Log(events[..2]) == [Report(65535, 0), Report(65535, SLOT)];
    assert !EntersSlot(Log(events[..2]), 0) by {
      assert SlotOf(Log(events[..2])[0].now) == SlotOf(0);
    }
  }

  /** And they make five reports count in the hour. */
  lemma JumpsCount()
    ensures Counts(0, [Jump(false), Jump(true), Jump(false), Jump(true), Jump(false)]) == 5
  {
    var e1, e2 := [Jump(false)], [Jump(false), Jump(true)];
    var e3 := e2 + [Jump(false)];
    var e4 := e3 + [Jump(true)];
    var e5 := e4 + [Jump(false)];
    SameHour(0, SLOT);
    assert e1[..0] == [] && e2[..1] == e1 && e3[..2] == e2 && e4[..3] == e3 && e5[..4] == e4;
    assert Log(e1) == [Report(65535, 0)];
    assert Log(e2) == Log(e1) + [Report(65535, SLOT)];
    assert Log(e3) == Log(e2) + [Report(65535, 0)];
    assert Log(e4) == Log(e3) + [Report(65535, SLOT)];
    assert e5 == [Jump(false), Jump(true), Jump(false), Jump(true), Jump(false)];
    assert Counts(0, e1) == 1;
    assert Counts(0, e2) == 2;
    assert Counts(0, e3) == 3;
    assert Counts(0, e4) == 4;
  }
}
