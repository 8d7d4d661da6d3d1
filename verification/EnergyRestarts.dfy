/**
 * Totals when writes of the file fail and the process restarts, with a clock that does not run backwards: right in every run
 * that loses nothing.
 */
module EnergyRestarts {
  import opened Common
  import opened EnergyMeter
  import opened EnergyClock

  /** The clock does not run backwards. */
  predicate Forward(start: nat, events: seq<Event>) {
    events == [] ||
    var before := events[..|events| - 1];
    Forward(start, before) && events[|events| - 1].now >= Clock(start, before)
  }

  /** The time of the last report that was counted and is not in the file yet. */
  function Pending(start: nat, events: seq<Event>): Option<nat> {
    if events == [] then None
    else
      var before, e := events[..|events| - 1], events[|events| - 1];
      PendingAfter(Run(start, before), Pending(start, before), e)
  }

  function PendingAfter(w: World, p: Option<nat>, e: Event): Option<nat> {
    match e
    case Restarted(_) => None
    case Checked(now, writable) => RollPending(w, p, now, writable)
    case Reported(_, now, rollWritable, writable) => CountPending(w, RollPending(w, p, now, rollWritable), now, writable)
  }

  function RollPending(w: World, p: Option<nat>, now: nat, writable: bool): Option<nat> {
    if writable && Rolled(w.stats, now) != w.stats then None else p
  }

  function CountPending(w: World, p: Option<nat>, now: nat, writable: bool): Option<nat> {
    if w.stats.last == Some(SlotOf(now)) then p else if writable then None else Some(now)
  }

  predicate Owed(p: Option<nat>, t: nat) { p.Some? && Same(ByMonth, p.value, t) }

  /** A restart comes while a report of the same month is pending. */
  predicate Loses(start: nat, events: seq<Event>) {
    events != [] &&
    var before, e := events[..|events| - 1], events[|events| - 1];
    Loses(start, before) || (e.Restarted? && Owed(Pending(start, before), e.now))
  }

  predicate UpTo(log: seq<Report>, c: nat) {
    && (forall i, j :: 0 <= i <= j < |log| ==> log[i].now <= log[j].now)
    && forall i :: 0 <= i < |log| ==> log[i].now <= c
  }

  /** From time `c` on it makes no difference which of the two quarter hours was the last. */
  ghost predicate Agrees(last: Option<nat>, log: seq<Report>, c: nat) {
    forall t: nat :: t >= c ==> (last == Some(SlotOf(t)) <==> LastSlot(log) == Some(SlotOf(t)))
  }

  /** A process that finds `s` in the file at time `t` is right from then on. */
  ghost predicate Serves(s: Stats, log: seq<Report>, t: nat) {
    TotalsAre(Loaded(Some(s), t), log, t) && Agrees(s.last, log, t)
  }

  /** What a process finds in the file, or begins with when there is none. */
  function Seen(start: nat, saved: Option<Stats>): Stats { if saved.Some? then saved.value else Empty(start) }

  ghost predicate FileServes(s: Stats, log: seq<Report>, p: Option<nat>, c: nat) {
    forall t: nat :: t >= c && !Owed(p, t) ==> Serves(s, log, t)
  }

  /** The periods and the quarter hour of a time up to `c`. */
  ghost predicate Past(s: Stats, c: nat) {
    exists at: nat :: at <= c && IsAt(s, at)
  }

  predicate IsAt(s: Stats, at: nat) {
    && s.hour == LocalHour(at) && s.date == LocalDate(at) && s.month == LocalMonth(at)
    && (s.last.Some? ==> s.last.value <= SlotOf(at))
  }

  ghost predicate Inv(w: World, start: nat, log: seq<Report>, p: Option<nat>, c: nat) {
    && MeterOk(w.stats, log, c)
    && Past(Seen(start, w.saved), c) && FileServes(Seen(start, w.saved), log, p, c)
    && (p.Some? ==> p.value <= c)
  }

  lemma ForwardEnters(log: seq<Report>, kind: Kind, c: nat, t: nat)
    requires UpTo(log, c) && c <= t
    ensures Enters(log, kind, c, t)
  {
    forall i | 0 <= i < |log| && Same(kind, log[i].now, t)
      ensures Same(kind, c, t)
    {
      NoGaps(kind, log[i].now, c, t);
    }
  }

  lemma LaterServes(s: Stats, log: seq<Report>, c: nat, t: nat)
    requires UpTo(log, c) && c <= t && TotalsAre(s, log, c) && Agrees(s.last, log, c)
    ensures Serves(s, log, t)
  {
    ForwardEnters(log, ByHour, c, t);
    ForwardEnters(log, ByDay, c, t);
    ForwardEnters(log, ByMonth, c, t);
    RolledIsRight(s, log, c, t);
  }

  lemma SlotSeen(log: seq<Report>, now: nat)
    requires UpTo(log, now)
    ensures LastSlot(log) == Some(SlotOf(now)) <==> !NoneInSlot(log, SlotOf(now))
  {
    if log != [] {
      var last := log[|log| - 1];
      SlotsGrow(last.now, now);
      forall i | 0 <= i < |log|
        ensures SlotOf(log[i].now) <= SlotOf(last.now)
      {
        SlotsGrow(log[i].now, last.now);
      }
    }
  }

  /** Times before a month of which nothing is left. */
  lemma MonthIsOver(at: nat, now: nat, t: nat)
    requires at <= now <= t && !Same(ByMonth, now, t)
    ensures !Same(ByMonth, at, t) && !Same(ByDay, at, t) && !Same(ByHour, at, t) && SlotOf(at) < SlotOf(t)
  {
    if Same(ByMonth, at, t) {
      NoGaps(ByMonth, at, now, t);
      NoGaps(ByMonth, now, now, t);
    }
    SameHour(at, t);
    SlotsGrow(at, t);
    if SlotOf(at) == SlotOf(t) {
      SlotInHour(at, t);
    }
  }

  /** A file from before a month serves in that month when nothing was reported in it. */
  lemma OldFileServes(s: Stats, log: seq<Report>, now: nat, t: nat)
    requires UpTo(log, now) && Past(s, now) && now <= t && !Same(ByMonth, now, t)
    ensures Serves(s, log, t)
  {
    var at: nat :| at <= now && IsAt(s, at);
    MonthIsOver(at, now, t);
    forall i | 0 <= i < |log|
      ensures !Same(ByMonth, log[i].now, t) && !Same(ByDay, log[i].now, t) && !Same(ByHour, log[i].now, t)
      ensures SlotOf(log[i].now) < SlotOf(t)
    {
      MonthIsOver(log[i].now, now, t);
    }
    TotalMoves(log, ByHour, t, t);
    TotalMoves(log, ByDay, t, t);
    TotalMoves(log, ByMonth, t, t);
    forall u: nat | u >= t
      ensures s.last != Some(SlotOf(u)) && LastSlot(log) != Some(SlotOf(u))
    {
      SlotsGrow(t, u);
    }
  }

  /** The log after an event. */
  function LogAfter(log: seq<Report>, e: Event): seq<Report> { if e.Reported? then log + [Report(e.wh, e.now)] else log }

  /** A report that was counted before adds nothing, now or later. */
  lemma RepeatAddsNothing(log: seq<Report>, r: Report, kind: Kind, t: nat)
    requires UpTo(log, r.now) && LastSlot(log) == Some(SlotOf(r.now))
    ensures Total(log + [r], kind, t) == Total(log, kind, t) && LastSlot(log + [r]) == LastSlot(log)
  {
    assert (log + [r])[..|log|] == log;
    SlotSeen(log, r.now);
    FirstIff(log, r);
  }

  /** The meter itself is right at time `c`. */
  ghost predicate MeterOk(s: Stats, log: seq<Report>, c: nat) {
    UpTo(log, c) && TotalsAre(s, log, c) && Agrees(s.last, log, c) && IsAt(s, c)
  }

  lemma RollKeepsOk(s: Stats, log: seq<Report>, c: nat, now: nat)
    requires MeterOk(s, log, c) && c <= now
    ensures MeterOk(Rolled(s, now), log, now)
  {
    LaterServes(s, log, c, now);
    SlotsGrow(c, now);
  }

  lemma CountKeepsOk(s: Stats, log: seq<Report>, c: nat, wh: nat, now: nat)
    requires MeterOk(s, log, c) && c <= now
    ensures MeterOk(Counted(s, wh, now), log + [Report(wh, now)], now)
  {
    RollKeepsOk(s, log, c, now);
    LastAgrees(s, log, c, now);
    SlotSeen(log, now);
    CountedIsRight(s, log, c, wh, now);
    assert Counted(s, wh, now).last == Some(SlotOf(now)) == LastSlot(log + [Report(wh, now)]);
  }

  lemma LastAgrees(s: Stats, log: seq<Report>, c: nat, now: nat)
    requires MeterOk(s, log, c) && c <= now
    ensures s.last == Some(SlotOf(now)) <==> LastSlot(log) == Some(SlotOf(now))
  {
  }

  lemma RollKeepsInv(w: World, start: nat, log: seq<Report>, p: Option<nat>, c: nat, now: nat, writable: bool)
    requires Inv(w, start, log, p, c) && c <= now
    ensures Inv(RollStep(w, now, writable), start, log, RollPending(w, p, now, writable), now)
  {
    var w' := RollStep(w, now, writable);
    RollKeepsOk(w.stats, log, c, now);
    forall t: nat | t >= now && !Owed(RollPending(w, p, now, writable), t)
      ensures Serves(Seen(start, w'.saved), log, t)
    {
      if writable && w'.stats != w.stats {
        LaterServes(w'.stats, log, now, t);
      }
    }
  }

  lemma CountKeepsInv(w: World, start: nat, log: seq<Report>, p: Option<nat>, wh: nat, now: nat, writable: bool)
    requires Inv(w, start, log, p, now)
    ensures Inv(CountStep(w, wh, now, writable), start, log + [Report(wh, now)], CountPending(w, p, now, writable), now)
  {
    var w', log' := CountStep(w, wh, now, writable), log + [Report(wh, now)];
    CountKeepsOk(w.stats, log, now, wh, now);
    NowRolled(w.stats, log, now);
    forall t: nat | t >= now && !Owed(CountPending(w, p, now, writable), t)
      ensures Serves(Seen(start, w'.saved), log', t)
    {
      if w.stats.last != Some(SlotOf(now)) && writable {
        LaterServes(w'.stats, log', now, t);
      } else {
        UnsavedServes(w, start, log, p, wh, now, t);
      }
    }
  }

  /** At a time of its own periods the meter does not roll. */
  lemma NowRolled(s: Stats, log: seq<Report>, now: nat)
    requires MeterOk(s, log, now)
    ensures Rolled(s, now) == s
  {
  }

  lemma UnsavedServes(w: World, start: nat, log: seq<Report>, p: Option<nat>, wh: nat, now: nat, t: nat)
    requires Inv(w, start, log, p, now) && now <= t
    requires if w.stats.last == Some(SlotOf(now)) then !Owed(p, t) else !Same(ByMonth, now, t)
    ensures Serves(Seen(start, w.saved), log + [Report(wh, now)], t)
  {
    var r := Report(wh, now);
    LastAgrees(w.stats, log, now, now);
    if w.stats.last != Some(SlotOf(now)) {
      OldFileServes(Seen(start, w.saved), log + [r], now, t);
    } else {
      assert Serves(Seen(start, w.saved), log, t);
      RepeatServes(Seen(start, w.saved), log, r, t);
    }
  }

  lemma RepeatServes(s: Stats, log: seq<Report>, r: Report, t: nat)
    requires UpTo(log, r.now) && LastSlot(log) == Some(SlotOf(r.now)) && Serves(s, log, t)
    ensures Serves(s, log + [r], t)
  {
    RepeatAddsNothing(log, r, ByHour, t);
    RepeatAddsNothing(log, r, ByDay, t);
    RepeatAddsNothing(log, r, ByMonth, t);
  }

  lemma RestartKeepsInv(w: World, start: nat, log: seq<Report>, p: Option<nat>, c: nat, now: nat)
    requires Inv(w, start, log, p, c) && c <= now && !Owed(p, now)
    ensures Inv(Step(w, Restarted(now)), start, log, None, now)
  {
    var s := Seen(start, w.saved);
    assert Loaded(w.saved, now) == Loaded(Some(s), now);
    assert Serves(s, log, now);
    forall t: nat | t >= now
      ensures Serves(s, log, t)
    {
      if Owed(p, t) {
        NoGaps(ByMonth, p.value, now, t);
      }
    }
    var at: nat :| at <= c && IsAt(s, at);
    SlotsGrow(at, now);
  }

  lemma ReportKeepsInv(w: World, start: nat, log: seq<Report>, p: Option<nat>, c: nat, e: Event)
    requires Inv(w, start, log, p, c) && c <= e.now && e.Reported?
    ensures Inv(Step(w, e), start, LogAfter(log, e), PendingAfter(w, p, e), e.now)
  {
    var v, q := RollStep(w, e.now, e.rollWritable), RollPending(w, p, e.now, e.rollWritable);
    RollKeepsInv(w, start, log, p, c, e.now, e.rollWritable);
    CountKeepsInv(v, start, log, q, e.wh, e.now, e.writable);
    RollKeepsLast(w, p, e);
  }

  lemma RollKeepsLast(w: World, p: Option<nat>, e: Event)
    requires e.Reported?
    ensures var v, q := RollStep(w, e.now, e.rollWritable), RollPending(w, p, e.now, e.rollWritable);
            Step(w, e) == CountStep(v, e.wh, e.now, e.writable) && PendingAfter(w, p, e) == CountPending(v, q, e.now, e.writable)
  {
  }

  lemma StepKeepsInv(w: World, start: nat, log: seq<Report>, p: Option<nat>, c: nat, e: Event)
    requires Inv(w, start, log, p, c) && c <= e.now && !(e.Restarted? && Owed(p, e.now))
    ensures Inv(Step(w, e), start, LogAfter(log, e), PendingAfter(w, p, e), e.now)
  {
    match e
    case Restarted(_) => RestartKeepsInv(w, start, log, p, c, e.now);
    case Checked(_, _) => RollKeepsInv(w, start, log, p, c, e.now, e.writable);
    case Reported(_, _, _, _) => ReportKeepsInv(w, start, log, p, c, e);
  }

  lemma StartInv(start: nat)
    ensures Inv(World(Empty(start), None), start, [], None, start)
  {
    assert IsAt(Empty(start), start);
  }

  /** Whether or not writes succeed, the totals are right as long as no restart loses a report of its month. */
  lemma {:induction false} EveryRun(start: nat, events: seq<Event>)
    requires Forward(start, events) && !Loses(start, events)
    ensures AlwaysRight(start, events)
    ensures Inv(Run(start, events), start, Log(events), Pending(start, events), Clock(start, events))
    decreases |events|
  {
    if events == [] {
      StartInv(start);
    } else {
      var before, e := events[..|events| - 1], events[|events| - 1];
      EveryRun(start, before);
      StepKeepsInv(Run(start, before), start, Log(before), Pending(start, before), Clock(start, before), e);
    }
  }

  // ---------------------------------------------------------------- what a lossy restart loses

  predicate SomeEnergy(events: seq<Event>) { forall i :: 0 <= i < |events| && events[i].Reported? ==> events[i].wh > 0 }

  /** The file never has more of a month than was reported, and less of it while a report of the month is pending. */
  ghost predicate Short(s: Stats, log: seq<Report>, p: Option<nat>, c: nat) {
    forall t: nat :: t >= c ==> ShortAt(s, log, p, t)
  }

  predicate ShortAt(s: Stats, log: seq<Report>, p: Option<nat>, t: nat) {
    var written, all := Loaded(Some(s), t).monthWh, Total(log, ByMonth, t);
    if Owed(p, t) then written < all else written <= all
  }

  lemma RollKeepsShort(w: World, start: nat, log: seq<Report>, p: Option<nat>, c: nat, now: nat, writable: bool)
    requires Inv(w, start, log, p, c) && Short(Seen(start, w.saved), log, p, c) && c <= now
    ensures Short(Seen(start, RollStep(w, now, writable).saved), log, RollPending(w, p, now, writable), now)
  {
    RollKeepsInv(w, start, log, p, c, now, writable);
    ShortWhenServing(RollStep(w, now, writable), start, log, RollPending(w, p, now, writable), now);
  }

  /** Without a pending report the file has all of every month. */
  lemma ShortWhenServing(w: World, start: nat, log: seq<Report>, p: Option<nat>, c: nat)
    requires Inv(w, start, log, p, c)
    ensures p.None? ==> Short(Seen(start, w.saved), log, p, c)
  {
    if p.None? {
      forall t: nat | t >= c
        ensures ShortAt(Seen(start, w.saved), log, p, t)
      {
        assert Serves(Seen(start, w.saved), log, t);
      }
    }
  }

  lemma CountKeepsShort(w: World, start: nat, log: seq<Report>, p: Option<nat>, wh: nat, now: nat, writable: bool)
    requires Inv(w, start, log, p, now) && Short(Seen(start, w.saved), log, p, now) && wh > 0
    ensures Short(Seen(start, CountStep(w, wh, now, writable).saved), log + [Report(wh, now)], CountPending(w, p, now, writable), now)
  {
    var w', r, p' := CountStep(w, wh, now, writable), Report(wh, now), CountPending(w, p, now, writable);
    CountKeepsInv(w, start, log, p, wh, now, writable);
    ShortWhenServing(w', start, log + [r], p', now);
    LastAgrees(w.stats, log, now, now);
    NowRolled(w.stats, log, now);
    if p'.Some? {
      assert w'.saved == w.saved;
      forall t: nat | t >= now
        ensures ShortAt(Seen(start, w.saved), log + [r], p', t)
      {
        assert ShortAt(Seen(start, w.saved), log, p, t);
        if w.stats.last == Some(SlotOf(now)) {
          RepeatStaysShort(Seen(start, w.saved), log, p, r, t);
        } else {
          CountedIsShort(Seen(start, w.saved), log, p, r, t);
        }
      }
    }
  }

  lemma StepKeepsShort(w: World, start: nat, log: seq<Report>, p: Option<nat>, c: nat, e: Event)
    requires Inv(w, start, log, p, c) && Short(Seen(start, w.saved), log, p, c) && c <= e.now
    requires !(e.Restarted? && Owed(p, e.now)) && (e.Reported? ==> e.wh > 0)
    ensures Short(Seen(start, Step(w, e).saved), LogAfter(log, e), PendingAfter(w, p, e), e.now)
  {
    match e
    case Restarted(now) =>
      RestartKeepsInv(w, start, log, p, c, now);
      ShortWhenServing(Step(w, e), start, log, None, now);
    case Checked(now, writable) => RollKeepsShort(w, start, log, p, c, now, writable);
    case Reported(wh, now, rollWritable, writable) =>
      var v, q := RollStep(w, now, rollWritable), RollPending(w, p, now, rollWritable);
      RollKeepsInv(w, start, log, p, c, now, rollWritable);
      RollKeepsShort(w, start, log, p, c, now, rollWritable);
      CountKeepsShort(v, start, log, q, wh, now, writable);
  }

  lemma RepeatStaysShort(s: Stats, log: seq<Report>, p: Option<nat>, r: Report, t: nat)
    requires UpTo(log, r.now) && LastSlot(log) == Some(SlotOf(r.now)) && ShortAt(s, log, p, t)
    ensures ShortAt(s, log + [r], p, t)
  {
    RepeatAddsNothing(log, r, ByMonth, t);
  }

  lemma CountedIsShort(s: Stats, log: seq<Report>, p: Option<nat>, r: Report, t: nat)
    requires UpTo(log, r.now) && LastSlot(log) != Some(SlotOf(r.now)) && r.wh > 0 && ShortAt(s, log, p, t)
    ensures ShortAt(s, log + [r], Some(r.now), t)
  {
    CountedAdds(log, r, t);
  }

  lemma CountedAdds(log: seq<Report>, r: Report, t: nat)
    requires UpTo(log, r.now) && LastSlot(log) != Some(SlotOf(r.now))
    ensures Total(log + [r], ByMonth, t) == Total(log, ByMonth, t) + if Same(ByMonth, r.now, t) then r.wh else 0
  {
    assert (log + [r])[..|log|] == log;
    SlotSeen(log, r.now);
    FirstIff(log, r);
  }

  lemma {:induction false} FileIsShort(start: nat, events: seq<Event>)
    requires Forward(start, events) && !Loses(start, events) && SomeEnergy(events)
    ensures Short(Seen(start, Run(start, events).saved), Log(events), Pending(start, events), Clock(start, events))
    decreases |events|
  {
    if events != [] {
      var before, e := events[..|events| - 1], events[|events| - 1];
      EveryRun(start, before);
      FileIsShort(start, before);
      StepKeepsShort(Run(start, before), start, Log(before), Pending(start, before), Clock(start, before), e);
    }
  }

  /** The totals of a run with a clock that does not run backwards are right exactly when no restart loses a report. */
  lemma {:induction false} RightUnlessLost(start: nat, events: seq<Event>)
    requires Forward(start, events) && SomeEnergy(events)
    ensures AlwaysRight(start, events) <==> !Loses(start, events)
    decreases |events|
  {
    if !Loses(start, events) {
      EveryRun(start, events);
    } else {
      var before, e := events[..|events| - 1], events[|events| - 1];
      assert SomeEnergy(before);
      RightUnlessLost(start, before);
      if !Loses(start, before) {
        LossShows(start, before, e);
      }
    }
  }

  lemma LossShows(start: nat, before: seq<Event>, e: Event)
    requires Forward(start, before) && SomeEnergy(before) && !Loses(start, before)
    requires e.Restarted? && e.now >= Clock(start, before) && Owed(Pending(start, before), e.now)
    ensures !TotalsAre(Step(Run(start, before), e).stats, Log(before), e.now)
  {
    FileIsShort(start, before);
    var w := Run(start, before);
    assert ShortAt(Seen(start, w.saved), Log(before), Pending(start, before), e.now);
    assert Loaded(w.saved, e.now) == Loaded(Some(Seen(start, w.saved)), e.now);
  }

  /** A report that cannot be written, and a restart in the same quarter hour: the report is lost. */
  lemma RestartLosesReport(wh: nat)
    requires wh > 0
    ensures var events := [Reported(wh, 0, true, false), Restarted(1)];
            Forward(0, events) && Loses(0, events) && !AlwaysRight(0, events) && Run(0, events).stats.dayWh == 0
  {
    var events := [Reported(wh, 0, true, false), Restarted(1)];
    assert events[..1] == [Reported(wh, 0, true, false)] && events[..1][..0] == [];
    assert Same(ByHour, 0, 1);
    SameHour(0, 1);
    assert Run(0, events[..1]) == Step(World(Empty(0), None), events[0]);
    assert Pending(0, events[..1]) == Some(0);
    RightUnlessLost(0, events);
  }
}
