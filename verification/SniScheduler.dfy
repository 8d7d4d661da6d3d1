/**
 * The books of the certificate issuer (util/sni-certificates.ts): who is pending, who waits and who works, in which order
 * they are served, and that no step of the issuer loses count, whether a task succeeds, fails, is aborted or times out.
 */
module SniScheduler {
  import opened Common
  import opened SniCertificates

  predicate Increasing(s: seq<nat>) { forall i, j :: 0 <= i < j < |s| ==> s[i] < s[j] }

  predicate Unsettled(tasks: seq<Task>, t: TaskId) { t < |tasks| && tasks[t].settled.None? }

  ghost function Running(tasks: seq<Task>): set<TaskId> {
    set t: TaskId | t < |tasks| && tasks[t].started && tasks[t].settled.None?
  }

  /** The scheduler's books, true even between a change and the drain that follows it. */
  ghost predicate Books(s: State) {
    && Ranged(s) && Listed(s)
    && OneEach(s.tasks)
    && s.active == |Running(s.tasks)| <= MAX_ACTIVE
    && |s.queue| <= MAX_QUEUED + (if s.active < MAX_ACTIVE then 1 else 0)
    && Served(s)
  }

  /** The pending map is exactly the unsettled tasks, and the queue those of them that have not started. */
  ghost predicate Listed(s: State) {
    && Distinct(s.pending)
    && (forall t: TaskId :: t in s.pending <==> Unsettled(s.tasks, t))
    && (forall t: TaskId :: t in s.queue <==> Unsettled(s.tasks, t) && !s.tasks[t].started)
  }

  /** At most one task for each hostname is unsettled; aborted tasks that still run were started, and none succeeds. */
  predicate OneEach(tasks: seq<Task>) {
    && (forall t, u :: 0 <= t < u < |tasks| && tasks[t].settled.None? && tasks[u].settled.None? ==> tasks[t].hostname != tasks[u].hostname)
    && (forall t :: 0 <= t < |tasks| && tasks[t].aborted && tasks[t].settled.None? ==> tasks[t].started)
    && (forall t :: 0 <= t < |tasks| && tasks[t].settled == Some(true) ==> tasks[t].started && !tasks[t].aborted)
  }

  /** First come, first served: tasks start in the order they were made, and nobody overtakes the queue. */
  ghost predicate Served(s: State) {
    && Increasing(s.starts + s.queue)
    && (forall t: TaskId :: t in s.starts <==> t < |s.tasks| && s.tasks[t].started)
  }

  /** Nobody waits while there is room, and once closed nobody waits or can still succeed. */
  predicate Busy(s: State) {
    && (s.queue != [] ==> s.active == MAX_ACTIVE && !s.closed)
    && (s.closed ==> forall t :: 0 <= t < |s.tasks| && s.tasks[t].settled.None? ==> s.tasks[t].aborted)
  }

  // ---------------------------------------------------------------- starting

  lemma RunningGrows(tasks: seq<Task>, t: TaskId)
    requires Unsettled(tasks, t) && !tasks[t].started
    ensures Running(tasks[t := tasks[t].(started := true)]) == Running(tasks) + {t}
    ensures |Running(tasks[t := tasks[t].(started := true)])| == |Running(tasks)| + 1
  {
    assert Running(tasks[t := tasks[t].(started := true)]) == Running(tasks) + {t};
    assert t !in Running(tasks);
  }

  lemma QueueSplits(s: State)
    requires s.queue != [] && Served(s)
    ensures s.starts + s.queue == (s.starts + [s.queue[0]]) + s.queue[1..]
    ensures s.queue[0] !in s.queue[1..]
    ensures forall t :: t in s.queue <==> t == s.queue[0] || t in s.queue[1..]
  {
    var all := s.starts + s.queue;
    forall i | 0 <= i < |s.queue[1..]|
      ensures s.queue[1..][i] != s.queue[0]
    {
      assert all[|s.starts|] == s.queue[0] && all[|s.starts| + i + 1] == s.queue[1..][i];
    }
  }

  lemma StartedKeepsBooks(s: State)
    requires Books(s) && s.queue != [] && s.active < MAX_ACTIVE
    ensures Books(Started(s))
  {
    QueueSplits(s);
    var t := s.queue[0];
    assert t in s.queue;
    RunningGrows(s.tasks, t);
    var r := Started(s);
    assert forall u: TaskId :: u in r.starts <==> u in s.starts || u == t;
    assert r.starts + r.queue == s.starts + s.queue;
  }

  lemma {:induction false} DrainedKeepsBooks(s: State)
    requires Books(s) && (s.closed ==> s.queue == [])
    ensures Books(Drained(s)) && (Drained(s).queue != [] ==> Drained(s).active == MAX_ACTIVE)
    ensures Drained(s).closed == s.closed
    decreases |s.queue|
  {
    if !s.closed && s.active < MAX_ACTIVE && s.queue != [] {
      StartedKeepsBooks(s);
      DrainedKeepsBooks(Started(s));
    }
  }

  /** Draining starts tasks and does nothing else. */
  ghost predicate OnlyStarts(s: State, r: State) {
    && |r.tasks| == |s.tasks| && r.pending == s.pending && r.cache == s.cache && r.uses == s.uses && r.closed == s.closed
    && forall t :: 0 <= t < |s.tasks| ==> r.tasks[t] == s.tasks[t].(started := r.tasks[t].started)
  }

  lemma {:induction false} DrainedOnlyStarts(s: State)
    requires Ranged(s)
    ensures OnlyStarts(s, Drained(s))
    ensures s.closed ==> Drained(s) == s
    decreases |s.queue|
  {
    if !s.closed && s.active < MAX_ACTIVE && s.queue != [] {
      DrainedOnlyStarts(Started(s));
    }
  }

  // ---------------------------------------------------------------- settling

  lemma {:induction false} IncreasingWithout(a: seq<nat>, q: seq<nat>, t: nat)
    requires Increasing(a + q)
    ensures Increasing(a + Without(q, t))
    decreases |q|
  {
    if q != [] {
      var rest := Without(q[1..], t);
      assert a + q == (a + [q[0]]) + q[1..];
      if q[0] == t {
        assert Increasing(a + q[1..]) by {
          DropOne(a, q[0], q[1..]);
        }
        IncreasingWithout(a, q[1..], t);
        assert Without(q, t) == rest;
      } else {
        IncreasingWithout(a + [q[0]], q[1..], t);
        assert a + Without(q, t) == (a + [q[0]]) + rest;
      }
    }
  }

  lemma DropOne(a: seq<nat>, x: nat, q: seq<nat>)
    requires Increasing((a + [x]) + q)
    ensures Increasing(a + q)
  {
    var all, r := (a + [x]) + q, a + q;
    forall i, j | 0 <= i < j < |r|
      ensures r[i] < r[j]
    {
      assert r[i] == all[if i < |a| then i else i + 1] && r[j] == all[if j < |a| then j else j + 1];
    }
  }

  lemma RunningShrinks(tasks: seq<Task>, t: TaskId, ok: bool)
    requires Unsettled(tasks, t)
    ensures Running(tasks[t := tasks[t].(settled := Some(ok))]) == Running(tasks) - {t}
    ensures |Running(tasks[t := tasks[t].(settled := Some(ok))])| == |Running(tasks)| - if tasks[t].started then 1 else 0
  {
    var r := tasks[t := tasks[t].(settled := Some(ok))];
    assert Running(r) == Running(tasks) - {t};
    if tasks[t].started {
      assert t in Running(tasks);
    } else {
      assert Running(r) == Running(tasks);
    }
  }

  lemma SettledKeepsBooks(s: State, t: TaskId, ok: bool)
    requires Books(s) && Unsettled(s.tasks, t)
    requires ok ==> s.tasks[t].started && !s.tasks[t].aborted
    ensures Books(Settled(s, t, ok))
  {
    RunningShrinks(s.tasks, t, ok);
    SettledListed(s, t, ok);
    SettledServed(s, t, ok);
    QueueShrinks(s, t);
    assert s.tasks[t].started ==> t in Running(s.tasks);
  }

  lemma SettledListed(s: State, t: TaskId, ok: bool)
    requires Ranged(s) && Listed(s) && Unsettled(s.tasks, t)
    ensures Listed(Settled(s, t, ok))
  {
    WithoutMembers(s.pending, t);
    WithoutDistinct(s.pending, t);
    WithoutMembers(s.queue, t);
  }

  lemma SettledServed(s: State, t: TaskId, ok: bool)
    requires Ranged(s) && Served(s) && t < |s.tasks|
    ensures Served(Settled(s, t, ok))
  {
    IncreasingWithout(s.starts, s.queue, t);
  }

  lemma QueueShrinks(s: State, t: TaskId)
    requires Listed(s) && Served(s) && Unsettled(s.tasks, t)
    ensures |Without(s.queue, t)| == |s.queue| - if s.tasks[t].started then 0 else 1
  {
    QueueDistinct(s);
    WithoutDistinct(s.queue, t);
  }

  lemma QueueDistinct(s: State)
    requires Served(s)
    ensures Distinct(s.queue)
  {
    var all := s.starts + s.queue;
    forall i, j | 0 <= i < j < |s.queue|
      ensures s.queue[i] != s.queue[j]
    {
      assert all[|s.starts| + i] == s.queue[i] && all[|s.starts| + j] == s.queue[j];
    }
  }

  /** The scheduler between events. */
  ghost predicate Sched(s: State) { Books(s) && Busy(s) }

  lemma FinishedKeepsSched(s: State, t: TaskId, ok: bool)
    requires Books(s) && Unsettled(s.tasks, t) && (ok ==> s.tasks[t].started && !s.tasks[t].aborted)
    requires s.closed ==> s.queue == [] && Busy(s)
    ensures Sched(Finished(s, t, ok))
  {
    SettledKeepsBooks(s, t, ok);
    DrainedKeepsBooks(Settled(s, t, ok));
    DrainedOnlyStarts(Settled(s, t, ok));
  }

  // ---------------------------------------------------------------- issuing

  lemma MadeKeepsBooks(s: State, h: Host)
    requires Sched(s) && !s.closed && PendingFor(s, h).None?
    requires s.active < MAX_ACTIVE || |s.queue| < MAX_QUEUED
    ensures Books(Made(s, h))
  {
    var r, t := Made(s, h), |s.tasks|;
    assert Running(r.tasks) == Running(s.tasks);
    assert forall u: TaskId :: u in r.pending <==> u in s.pending || u == t;
    assert forall u: TaskId :: u in r.queue <==> u in s.queue || u == t;
    assert t !in s.pending;
    MadeIsLast(s);
    assert r.starts + r.queue == (s.starts + s.queue) + [t];
    forall u | 0 <= u < t && s.tasks[u].settled.None?
      ensures s.tasks[u].hostname != h
    {
      assert u in s.pending;
    }
  }

  lemma MadeIsLast(s: State)
    requires Books(s)
    ensures forall i :: 0 <= i < |s.starts + s.queue| ==> (s.starts + s.queue)[i] < |s.tasks|
  {
    forall i | 0 <= i < |s.starts + s.queue|
      ensures (s.starts + s.queue)[i] < |s.tasks|
    {
      if i < |s.starts| {
        assert s.starts[i] in s.starts;
      } else {
        assert s.queue[i - |s.starts|] in s.queue;
      }
    }
  }

  lemma IssuedKeepsSched(s: State, h: Host)
    requires Sched(s)
    ensures Sched(Issued(s, h).0)
  {
    if !s.closed && CacheGet(s.cache, h).None? && PendingFor(s, h).None?
       && (s.active < MAX_ACTIVE || |s.queue| < MAX_QUEUED) {
      MadeKeepsBooks(s, h);
      DrainedKeepsBooks(Made(s, h));
      DrainedOnlyStarts(Made(s, h));
    }
  }

  // ---------------------------------------------------------------- aborting and closing

  function Marked(s: State, t: TaskId): State
    requires t < |s.tasks|
  {
    s.(tasks := s.tasks[t := s.tasks[t].(aborted := true)])
  }

  lemma MarkedKeepsBooks(s: State, t: TaskId)
    requires Books(s) && t < |s.tasks| && s.tasks[t].settled != Some(true) && (s.tasks[t].settled.None? ==> s.tasks[t].started)
    ensures Books(Marked(s, t))
  {
    assert Running(Marked(s, t).tasks) == Running(s.tasks);
  }

  lemma TimedOutIs(s: State, t: TaskId)
    requires Ranged(s) && t < |s.tasks|
    ensures TimedOut(s, t) == if s.tasks[t].started then Marked(s, t) else Drained(Marked(Settled(s, t, false), t))
  {
    if !s.tasks[t].started {
      assert Settled(Marked(s, t), t, false).tasks == Marked(Settled(s, t, false), t).tasks;
    }
  }

  lemma TimedOutKeepsSched(s: State, t: TaskId)
    requires Sched(s) && Unsettled(s.tasks, t)
    ensures Sched(TimedOut(s, t))
  {
    TimedOutIs(s, t);
    if s.tasks[t].started {
      MarkedKeepsBooks(s, t);
    } else {
      SettledKeepsBooks(s, t, false);
      MarkedKeepsBooks(Settled(s, t, false), t);
      DrainedKeepsBooks(Marked(Settled(s, t, false), t));
      DrainedOnlyStarts(Marked(Settled(s, t, false), t));
    }
  }

  /** Closing aborts every unsettled task and rejects those that have not started; others are not touched. */
  lemma {:induction false} ClosedOverIs(s: State, ts: seq<TaskId>)
    requires Books(s) && s.closed && Distinct(ts) && forall i :: 0 <= i < |ts| ==> Unsettled(s.tasks, ts[i])
    ensures var r := ClosedOver(s, ts);
            Books(r) && r.closed && CalledAll(s.tasks, r.tasks, ts)
  {
    if ts != [] {
      var n := |ts| - 1;
      ClosedOverIs(s, ts[..n]);
      var r := ClosedOver(s, ts[..n]);
      LastNotEarlier(ts);
      assert r.tasks[ts[n]] == s.tasks[ts[n]];
      CalledKeepsBooks(r, ts[n]);
      CalledMore(s.tasks, r.tasks, ts);
    }
  }

  ghost predicate CalledAll(tasks: seq<Task>, tasks': seq<Task>, ts: seq<TaskId>) {
    && |tasks'| == |tasks|
    && forall t: TaskId :: t < |tasks| ==> tasks'[t] == if t in ts then Called(tasks[t]) else tasks[t]
  }

  lemma LastNotEarlier(ts: seq<TaskId>)
    requires Distinct(ts) && ts != []
    ensures ts[|ts| - 1] !in ts[..|ts| - 1]
  {
  }

  lemma CalledMore(tasks: seq<Task>, tasks': seq<Task>, ts: seq<TaskId>)
    requires Distinct(ts) && ts != [] && ts[|ts| - 1] < |tasks| && CalledAll(tasks, tasks', ts[..|ts| - 1])
    ensures CalledAll(tasks, tasks'[ts[|ts| - 1] := Called(tasks[ts[|ts| - 1]])], ts)
  {
    var n := |ts| - 1;
    assert forall t: TaskId :: t in ts <==> t in ts[..n] || t == ts[n];
  }

  lemma {:induction false} ClosedOverKeepsCache(s: State, ts: seq<TaskId>)
    requires Ranged(s) && s.closed && InRange(ts, |s.tasks|)
    ensures var r := ClosedOver(s, ts); r.closed && r.cache == s.cache && r.uses == s.uses
  {
    if ts != [] {
      var n := |ts| - 1;
      ClosedOverKeepsCache(s, ts[..n]);
      var r := ClosedOver(s, ts[..n]);
      TimedOutIs(r, ts[n]);
      DrainedOnlyStarts(Marked(Settled(r, ts[n], false), ts[n]));
    }
  }

  /** A task after closing has called it off. */
  function Called(task: Task): Task {
    if task.started then task.(aborted := true) else task.(aborted := true, settled := Some(false))
  }

  lemma CalledKeepsBooks(s: State, t: TaskId)
    requires Books(s) && s.closed && Unsettled(s.tasks, t)
    ensures var r := TimedOut(s, t);
            Books(r) && r == (if s.tasks[t].started then Marked(s, t) else Marked(Settled(s, t, false), t))
            && r.tasks == s.tasks[t := Called(s.tasks[t])]
  {
    TimedOutIs(s, t);
    if s.tasks[t].started {
      MarkedKeepsBooks(s, t);
    } else {
      SettledKeepsBooks(s, t, false);
      MarkedKeepsBooks(Settled(s, t, false), t);
      DrainedOnlyStarts(Marked(Settled(s, t, false), t));
    }
  }

  lemma ClosingKeepsSched(s: State)
    requires Sched(s)
    ensures Sched(Closing(s)) && Closing(s).queue == []
    ensures forall t :: 0 <= t < |s.tasks| ==>
              Closing(s).tasks[t] == if s.tasks[t].settled.None? then Called(s.tasks[t]) else s.tasks[t]
  {
    var c := s.(closed := true);
    forall i | 0 <= i < |s.pending|
      ensures Unsettled(s.tasks, s.pending[i])
    {
      assert s.pending[i] in s.pending;
    }
    ClosedOverIs(c, s.pending);
    var r := Closing(s);
    assert forall t: TaskId :: t < |s.tasks| ==> (t in s.pending <==> s.tasks[t].settled.None?);
    assert forall t: TaskId :: t !in r.queue;
    QueueMember(r.queue);
  }

  lemma QueueMember(q: seq<TaskId>)
    ensures q == [] || exists t: TaskId :: t in q
  {
    if q != [] {
      assert q[0] in q;
    }
  }

  lemma GeneratedKeepsSched(s: State, t: TaskId, ok: bool)
    requires Sched(s) && Unsettled(s.tasks, t) && s.tasks[t].started
    ensures Sched(Generated(s, t, ok))
  {
    if !ok || s.tasks[t].aborted {
      FinishedKeepsSched(s, t, false);
    } else {
      FinishedKeepsSched(Stored(s, t), t, true);
    }
  }
}
