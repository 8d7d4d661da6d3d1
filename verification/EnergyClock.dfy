/**
 * Totals under any clock, as long as the process runs: exactly when they are right, by the times of the reports and of the
 * checks alone.
 */
module EnergyClock {
  import opened Common
  import opened EnergyMeter

  /** No report came in the period of `t`, or in a quarter hour. */
  predicate NoneIn(log: seq<Report>, kind: Kind, t: nat) { forall i :: 0 <= i < |log| ==> !Same(kind, log[i].now, t) }

  predicate NoneInSlot(log: seq<Report>, slot: nat) { forall i :: 0 <= i < |log| ==> SlotOf(log[i].now) != slot }

  /** The clock stays in its period, or enters one that had no report. */
  predicate Enters(log: seq<Report>, kind: Kind, c: nat, now: nat) { Same(kind, c, now) || NoneIn(log, kind, now) }

  /** A report comes in the quarter hour of the last one, or in one that had none. */
  predicate EntersSlot(log: seq<Report>, now: nat) { LastSlot(log) == Some(SlotOf(now)) || NoneInSlot(log, SlotOf(now)) }

  predicate Continues(log: seq<Report>, c: nat, e: Event) {
    && Enters(log, ByHour, c, e.now) && Enters(log, ByDay, c, e.now) && Enters(log, ByMonth, c, e.now)
    && (e.Reported? ==> EntersSlot(log, e.now))
  }

  /** The clock never comes back to a period, nor a report to a quarter hour, that it had left after a report in it. */
  predicate NoReturns(start: nat, events: seq<Event>) {
    events == [] ||
    var before := events[..|events| - 1];
    NoReturns(start, before) && Continues(Log(before), Clock(start, before), events[|events| - 1])
  }

  predicate NoRestarts(events: seq<Event>) { forall i :: 0 <= i < |events| ==> !events[i].Restarted? }

  /** The same events, with reports of possibly other amounts. */
  predicate SameSchedule(a: seq<Event>, b: seq<Event>) {
    |a| == |b| && forall i :: 0 <= i < |a| ==> SameButAmount(a[i], b[i])
  }

  predicate SameButAmount(a: Event, b: Event) { if a.Reported? then b.Reported? && b == a.(wh := b.wh) else b == a }

  lemma {:induction false} TotalMoves(log: seq<Report>, kind: Kind, c: nat, now: nat)
    ensures Same(kind, c, now) ==> Total(log, kind, now) == Total(log, kind, c)
    ensures NoneIn(log, kind, now) ==> Total(log, kind, now) == 0
    decreases |log|
  {
    if log != [] {
      TotalMoves(log[..|log| - 1], kind, c, now);
    }
  }

  lemma RolledIsRight(s: Stats, log: seq<Report>, c: nat, now: nat)
    requires TotalsAre(s, log, c)
    requires Enters(log, ByHour, c, now) && Enters(log, ByDay, c, now) && Enters(log, ByMonth, c, now)
    ensures TotalsAre(Rolled(s, now), log, now)
  {
    TotalMoves(log, ByHour, c, now);
    TotalMoves(log, ByDay, c, now);
    TotalMoves(log, ByMonth, c, now);
  }

  lemma FirstIff(log: seq<Report>, r: Report)
    ensures FirstInSlot(log + [r], |log|) <==> NoneInSlot(log, SlotOf(r.now))
  {
    assert forall i :: 0 <= i < |log| ==> (log + [r])[i] == log[i];
  }

  lemma CountedIsRight(s: Stats, log: seq<Report>, c: nat, wh: nat, now: nat)
    requires TotalsAre(Rolled(s, now), log, now) && (s.last == Some(SlotOf(now)) <==> !NoneInSlot(log, SlotOf(now)))
    ensures TotalsAre(Counted(s, wh, now), log + [Report(wh, now)], now)
  {
    var r := Report(wh, now);
    FirstIff(log, r);
    TotalMore(log, r, ByHour);
    TotalMore(log, r, ByDay);
    TotalMore(log, r, ByMonth);
  }

  lemma LastIsSeen(log: seq<Report>)
    ensures LastSlot(log).Some? ==> !NoneInSlot(log, LastSlot(log).value)
  {
  }

  lemma ContinuingIsRight(w: World, log: seq<Report>, c: nat, e: Event)
    requires TotalsAre(w.stats, log, c) && w.stats.last == LastSlot(log) && Continues(log, c, e) && !e.Restarted?
    ensures var log' := if e.Reported? then log + [Report(e.wh, e.now)] else log;
            TotalsAre(Step(w, e).stats, log', e.now) && Step(w, e).stats.last == LastSlot(log')
  {
    RolledIsRight(w.stats, log, c, e.now);
    if e.Reported? {
      LastIsSeen(log);
      CountedIsRight(w.stats, log, c, e.wh, e.now);
    }
  }

  lemma {:induction false} RightWithoutReturns(start: nat, events: seq<Event>)
    requires NoRestarts(events) && NoReturns(start, events)
    ensures AlwaysRight(start, events) && Run(start, events).stats.last == LastSlot(Log(events))
    decreases |events|
  {
    if events != [] {
      var n := |events| - 1;
      RightWithoutReturns(start, events[..n]);
      ContinuingIsRight(Run(start, events[..n]), Log(events[..n]), Clock(start, events[..n]), events[n]);
    }
  }

  function WithAmount(e: Event, wh: nat): Event { if e.Reported? then e.(wh := wh) else e }

  /** The same events with reports of one watt hour each. */
  function Ones(events: seq<Event>): (r: seq<Event>)
    ensures |r| == |events|
  {
    if events == [] then [] else Ones(events[..|events| - 1]) + [WithAmount(events[|events| - 1], 1)]
  }

  predicate SameTimes(a: seq<Report>, b: seq<Report>) {
    |a| == |b| && forall i :: 0 <= i < |a| ==> a[i].now == b[i].now
  }

  predicate AllOnes(log: seq<Report>) { forall i :: 0 <= i < |log| ==> log[i].wh == 1 }

  lemma {:induction false} OnesAreScheduled(events: seq<Event>)
    ensures SameSchedule(events, Ones(events))
    decreases |events|
  {
    if events != [] {
      var n := |events| - 1;
      OnesAreScheduled(events[..n]);
      SchedulesExtend(events[..n], Ones(events[..n]), events[n], WithAmount(events[n], 1));
      assert events == events[..n] + [events[n]];
    }
  }

  lemma {:induction false} OnesAreOnes(events: seq<Event>)
    ensures AllOnes(Log(Ones(events)))
    decreases |events|
  {
    if events != [] {
      OnesAreOnes(events[..|events| - 1]);
      assert Ones(events)[..|events| - 1] == Ones(events[..|events| - 1]);
    }
  }

  lemma OnesAreSame(start: nat, events: seq<Event>)
    ensures SameSchedule(events, Ones(events)) && SameTimes(Log(events), Log(Ones(events))) && AllOnes(Log(Ones(events)))
    ensures Clock(start, Ones(events)) == Clock(start, events)
    ensures NoRestarts(events) ==> NoRestarts(Ones(events))
    ensures NoReturns(start, events) ==> NoReturns(start, Ones(events))
  {
    OnesAreScheduled(events);
    OnesAreOnes(events);
    ScheduleReturns(start, events, Ones(events));
  }

  lemma ContinuesByTimes(a: seq<Report>, b: seq<Report>, c: nat, e: Event, wh: nat)
    requires SameTimes(a, b)
    ensures Continues(a, c, e) <==> Continues(b, c, WithAmount(e, wh))
  {
    assert forall kind :: NoneIn(a, kind, e.now) <==> NoneIn(b, kind, e.now);
    assert NoneInSlot(a, SlotOf(e.now)) <==> NoneInSlot(b, SlotOf(e.now));
  }

  lemma {:induction false} TotalAtLeast(log: seq<Report>, kind: Kind, t: nat, i: nat)
    requires i < |log| && FirstInSlot(log, i) && Same(kind, log[i].now, t)
    ensures Total(log, kind, t) >= log[i].wh
    decreases |log|
  {
    var n := |log| - 1;
    if i < n {
      assert FirstInSlot(log[..n], i);
      TotalAtLeast(log[..n], kind, t, i);
    }
  }

  lemma {:induction false} FirstOfSlot(log: seq<Report>, i: nat) returns (j: nat)
    requires i < |log|
    ensures j <= i && SlotOf(log[j].now) == SlotOf(log[i].now) && FirstInSlot(log, j)
    decreases i
  {
    j := i;
    if k: nat :| k < i && SlotOf(log[k].now) == SlotOf(log[i].now) {
      j := FirstOfSlot(log, k);
    }
  }

  /** A period that had a report has a total. */
  lemma SomeInPeriod(log: seq<Report>, kind: Kind, t: nat)
    requires AllOnes(log) && !NoneIn(log, kind, t)
    ensures Total(log, kind, t) >= 1
  {
    var i :| 0 <= i < |log| && Same(kind, log[i].now, t);
    var j := FirstOfSlot(log, i);
    SlotInHour(log[j].now, log[i].now);
    TotalAtLeast(log, kind, t, j);
  }

  function TotalOf(s: Stats, kind: Kind): nat {
    match kind
    case ByHour => s.hourWh
    case ByDay => s.dayWh
    case ByMonth => s.monthWh
  }

  /** Coming back to a period that had reports: its total is gone. */
  lemma ReturnLoses(w: World, log: seq<Report>, c: nat, e: Event, kind: Kind)
    requires TotalsAre(w.stats, log, c) && AllOnes(log) && !e.Restarted? && !Enters(log, kind, c, e.now)
    ensures var f := WithAmount(e, 0);
            !TotalsAre(Step(w, f).stats, if f.Reported? then log + [Report(0, f.now)] else log, e.now)
  {
    var f := WithAmount(e, 0);
    SomeInPeriod(log, kind, e.now);
    TotalMore(log, Report(0, e.now), kind);
    assert TotalOf(Step(w, f).stats, kind) == 0;
  }

  /** Coming back to a quarter hour that was counted: it is counted again. */
  lemma RecountAdds(w: World, log: seq<Report>, c: nat, e: Event)
    requires TotalsAre(w.stats, log, c) && w.stats.last == LastSlot(log) && e.Reported? && !EntersSlot(log, e.now)
    requires Enters(log, ByHour, c, e.now) && Enters(log, ByDay, c, e.now) && Enters(log, ByMonth, c, e.now)
    ensures var f := WithAmount(e, 1);
            !TotalsAre(Step(w, f).stats, log + [Report(1, f.now)], e.now)
  {
    RolledIsRight(w.stats, log, c, e.now);
    FirstIff(log, Report(1, e.now));
    TotalMore(log, Report(1, e.now), ByHour);
  }

  /** Where a run first comes back, some amounts make its totals wrong. */
  lemma FirstReturn(start: nat, before: seq<Event>, e: Event) returns (f: Event)
    requires NoRestarts(before) && !e.Restarted? && NoReturns(start, before)
    requires !Continues(Log(before), Clock(start, before), e)
    ensures SameButAmount(e, f) && !AlwaysRight(start, Ones(before) + [f])
  {
    var ones := Ones(before);
    var w, log, c := Run(start, ones), Log(ones), Clock(start, before);
    OnesAreSame(start, before);
    RightWithoutReturns(start, ones);
    ContinuesByTimes(Log(before), log, c, e, if e.Reported? then e.wh else 0);
    if kind :| !Enters(log, kind, c, e.now) {
      f := WithAmount(e, 0);
      ReturnLoses(w, log, c, e, kind);
    } else {
      f := WithAmount(e, 1);
      RecountAdds(w, log, c, e);
    }
    assert (ones + [f])[..|ones|] == ones;
  }

  lemma ReturnIsWrong(start: nat, before: seq<Event>, e: Event) returns (f: seq<Event>)
    requires NoRestarts(before) && !e.Restarted? && NoReturns(start, before)
    requires !Continues(Log(before), Clock(start, before), e)
    ensures SameSchedule(before + [e], f) && !AlwaysRight(start, f)
  {
    var g := FirstReturn(start, before, e);
    OnesAreSame(start, before);
    f := Ones(before) + [g];
    SchedulesExtend(before, Ones(before), e, g);
  }

  lemma {:induction false} ReturnsGoWrong(start: nat, events: seq<Event>) returns (f: seq<Event>)
    requires NoRestarts(events) && !NoReturns(start, events)
    ensures SameSchedule(events, f) && !AlwaysRight(start, f)
    decreases |events|
  {
    var n := |events| - 1;
    var before, last := events[..n], events[n];
    assert NoRestarts(before) && events == before + [last];
    if NoReturns(start, before) {
      f := ReturnIsWrong(start, before, last);
    } else {
      var g := ReturnsGoWrong(start, before);
      WrongStays(start, g, last);
      SchedulesExtend(before, g, last, last);
      f := g + [last];
    }
  }

  lemma WrongStays(start: nat, events: seq<Event>, e: Event)
    requires !AlwaysRight(start, events)
    ensures !AlwaysRight(start, events + [e])
  {
    assert (events + [e])[..|events|] == events;
  }

  lemma SchedulesExtend(a: seq<Event>, b: seq<Event>, e: Event, f: Event)
    requires SameSchedule(a, b) && SameButAmount(e, f)
    ensures SameSchedule(a + [e], b + [f])
  {
  }

  /**
   * Exactly which clocks keep the totals right, whatever the amounts, as long as the process runs: those that never come
   * back to an hour, day or month, nor with a report to a quarter hour, after a report in it and time outside.
   */
  lemma RightForAnyAmounts(start: nat, events: seq<Event>)
    requires NoRestarts(events)
    ensures (forall f :: SameSchedule(events, f) ==> AlwaysRight(start, f)) <==> NoReturns(start, events)
  {
    if NoReturns(start, events) {
      forall f | SameSchedule(events, f)
        ensures AlwaysRight(start, f)
      {
        ScheduleReturns(start, events, f);
        RightWithoutReturns(start, f);
      }
    } else {
      var f := ReturnsGoWrong(start, events);
      assert SameSchedule(events, f);
    }
  }

  lemma {:induction false} ScheduleReturns(start: nat, a: seq<Event>, b: seq<Event>)
    requires SameSchedule(a, b)
    ensures NoRestarts(a) ==> NoRestarts(b)
    ensures SameTimes(Log(a), Log(b)) && Clock(start, a) == Clock(start, b)
    ensures NoReturns(start, a) ==> NoReturns(start, b)
    decreases |a|
  {
    forall i | 0 <= i < |a|
      ensures SameButAmount(a[i], b[i]) && (a[i].Restarted? <==> b[i].Restarted?)
    {
    }
    if a != [] {
      var n := |a| - 1;
      ScheduleReturns(start, a[..n], b[..n]);
      assert SameButAmount(a[n], b[n]);
      ContinuesByTimes(Log(a[..n]), Log(b[..n]), Clock(start, a[..n]), a[n], if b[n].Reported? then b[n].wh else 0);
    }
  }
}
