/** The slots and the queue of the SSH source lookup (router/mqtt-source.ts). */
module SourceResolver {
  import opened Common

  const MAX_ACTIVE := 2
  const MAX_QUEUED := 16

  type JobId = nat

  /** `Stuck` is a job whose SSH client could not be constructed: it took its slot and never gives it back. */
  datatype Phase = Waiting | Running | Stuck | Done

  datatype Job = Job(phase: Phase, settled: bool)

  datatype State = Slots(jobs: seq<Job>, queue: seq<JobId>, active: int)

  const EMPTY := Slots([], [], 0)

  /** `breaks` says that constructing the SSH client throws. */
  function Run(s: State, j: JobId, breaks: bool): State
    requires j < |s.jobs|
  {
    if s.jobs[j].settled then s
    else s.(active := s.active + 1, jobs := s.jobs[j := s.jobs[j].(phase := if breaks then Stuck else Running)])
  }

  /** A lookup that has passed the address and settings checks; none when both slots and the queue are full. */
  function Resolved(s: State, breaks: bool): (State, Option<JobId>) {
    if s.active >= MAX_ACTIVE && |s.queue| >= MAX_QUEUED then (s, None)
    else
      var j := |s.jobs|;
      var t := s.(jobs := s.jobs + [Job(Waiting, false)]);
      (if s.active < MAX_ACTIVE then Run(t, j, breaks) else t.(queue := s.queue + [j]), Some(j))
  }

  /** The deadline or the caller's cancellation. */
  function Cancelled(s: State, j: JobId): State
    requires j < |s.jobs|
  {
    if s.jobs[j].settled then s
    else s.(jobs := s.jobs[j := s.jobs[j].(settled := true)], queue := Without(s.queue, j))
  }

  /** A running job has ended, however its commands went; the next in the queue is run. */
  function Ended(s: State, j: JobId, breaks: bool): State
    requires j < |s.jobs| && InRange(s.queue, |s.jobs|)
  {
    var t := Cancelled(s, j);
    var u := t.(active := t.active - 1, jobs := t.jobs[j := t.jobs[j].(phase := Done)]);
    InRangeWithout(s.queue, j, |s.jobs|);
    if u.queue == [] then u else Run(u.(queue := u.queue[1..]), u.queue[0], breaks)
  }

  class RouterMqttSourceResolver {
    var jobs: seq<Job>
    var queue: seq<JobId>
    var active: int

    function State(): State reads this { Slots(jobs, queue, active) }

    constructor ()
      ensures State() == EMPTY
    {
      jobs, queue, active := [], [], 0;
    }

    method RunJob(j: JobId, breaks: bool)
      requires j < |jobs|
      modifies this
      ensures State() == Run(old(State()), j, breaks)
    {
      if jobs[j].settled {
        return;
      }
      active := active + 1;
      jobs := jobs[j := jobs[j].(phase := if breaks then Stuck else Running)];
    }

    method Resolve(breaks: bool) returns (job: Option<JobId>)
      modifies this
      ensures (State(), job) == Resolved(old(State()), breaks)
    {
      if active >= MAX_ACTIVE && |queue| >= MAX_QUEUED {
        return None;
      }
      var j := |jobs|;
      jobs := jobs + [Job(Waiting, false)];
      if active < MAX_ACTIVE {
        RunJob(j, breaks);
      } else {
        queue := queue + [j];
      }
      job := Some(j);
    }

    method Finish(j: JobId)
      requires j < |jobs|
      modifies this
      ensures State() == Cancelled(old(State()), j)
    {
      if !jobs[j].settled {
        jobs := jobs[j := jobs[j].(settled := true)];
        queue := Without(queue, j);
      }
    }

    method OnEnd(j: JobId, breaks: bool)
      requires j < |jobs| && InRange(queue, |jobs|)
      modifies this
      ensures State() == Ended(old(State()), j, breaks)
    {
      Finish(j);
      InRangeWithout(old(queue), j, |jobs|);
      active := active - 1;
      jobs := jobs[j := jobs[j].(phase := Done)];
      if queue != [] {
        var next := queue[0];
        queue := queue[1..];
        RunJob(next, breaks);
      }
    }
  }

  // ---------------------------------------------------------------- what each call does

  predicate OthersKept(s: State, t: State, j: JobId) {
    |t.jobs| >= |s.jobs| && forall k: JobId :: k < |s.jobs| && k != j ==> t.jobs[k] == s.jobs[k]
  }

  /** How a job looks once it has been given a slot. */
  function Begun(breaks: bool): Job { Job(if breaks then Stuck else Running, false) }

  /** Two lookups run at once, sixteen more wait in the order they came, and any further one is refused. */
  lemma ResolvedDoes(s: State, breaks: bool)
    requires Inv(s)
    ensures var (t, job) := Resolved(s, breaks);
            if s.active == 2 && |s.queue| == 16 then t == s && job == None
            else
              && job == Some(|s.jobs|) && |t.jobs| == |s.jobs| + 1 && OthersKept(s, t, |s.jobs|)
              && (if s.active == 2
                  then t.jobs[|s.jobs|] == Job(Waiting, false) && t.queue == s.queue + [|s.jobs|] && t.active == 2
                  else t.jobs[|s.jobs|] == Begun(breaks) && t.queue == s.queue == [] && t.active == s.active + 1)
  {
  }

  /** A cancelled lookup is settled and waits no longer; a running one keeps its slot. */
  lemma CancelledDoes(s: State, j: JobId)
    requires Inv(s) && j < |s.jobs| && !s.jobs[j].settled
    ensures var t := Cancelled(s, j);
            && t.jobs == s.jobs[j := s.jobs[j].(settled := true)] && t.active == s.active && j !in t.queue
            && (j !in s.queue ==> t.queue == s.queue)
            && forall k :: k in t.queue <==> k in s.queue && k != j
  {
    WithoutMembers(s.queue, j);
    if j !in s.queue {
      WithoutAbsent(s.queue, j);
    }
  }

  /** The slot of a lookup that has ended goes to the one that has waited longest, or is free. */
  lemma EndedDoes(s: State, j: JobId, breaks: bool)
    requires Inv(s) && j < |s.jobs| && s.jobs[j].phase.Running?
    ensures var t := Ended(s, j, breaks);
            && |t.jobs| == |s.jobs| && t.jobs[j] == Job(Done, true)
            && (if s.queue == [] then t.queue == [] && t.active == s.active - 1 && OthersKept(s, t, j)
                else t.queue == s.queue[1..] && t.active == s.active && s.queue[0] < |s.jobs| && t.jobs[s.queue[0]] == Begun(breaks)
                     && forall k: JobId :: k < |s.jobs| && k != j && k != s.queue[0] ==> t.jobs[k] == s.jobs[k])
  {
    assert j !in s.queue;
    WithoutAbsent(s.queue, j);
    if s.queue != [] {
      assert s.queue[0] in s.queue;
    }
  }

  // ---------------------------------------------------------------- runs

  datatype Event = Resolve(breaks: bool) | Cancel(j: JobId) | End(j: JobId, breaks: bool)

  predicate Enabled(s: State, e: Event) {
    match e
    case Resolve(_) => true
    case Cancel(j) => j < |s.jobs|
    case End(j, _) => j < |s.jobs| && s.jobs[j].phase.Running?
  }

  function Next(s: State, e: Event): State
    requires Enabled(s, e) && InRange(s.queue, |s.jobs|)
  {
    match e
    case Resolve(breaks) => Resolved(s, breaks).0
    case Cancel(j) => Cancelled(s, j)
    case End(j, breaks) => Ended(s, j, breaks)
  }

  ghost function InPhase(jobs: seq<Job>, p: Phase): set<JobId> {
    set j: JobId | j < |jobs| && jobs[j].phase == p
  }

  /** The queue lists the unsettled waiting jobs, oldest first. */
  ghost predicate Queued(s: State) {
    && InRange(s.queue, |s.jobs|)
    && (forall i, k :: 0 <= i < k < |s.queue| ==> s.queue[i] < s.queue[k])
    && (forall j: JobId :: j in s.queue <==> j < |s.jobs| && s.jobs[j].phase.Waiting? && !s.jobs[j].settled)
  }

  ghost predicate Inv(s: State) {
    && Queued(s) && |s.queue| <= MAX_QUEUED
    && s.active == |InPhase(s.jobs, Running)| + |InPhase(s.jobs, Stuck)| <= MAX_ACTIVE
    && (s.queue != [] ==> s.active == MAX_ACTIVE)
    && (forall j :: 0 <= j < |s.jobs| && s.jobs[j].phase.Done? ==> s.jobs[j].settled)
  }

  lemma PhaseMove(jobs: seq<Job>, j: JobId, job: Job, p: Phase)
    requires j < |jobs|
    ensures |InPhase(jobs[j := job], p)|
            == |InPhase(jobs, p)| - (if jobs[j].phase == p then 1 else 0) + (if job.phase == p then 1 else 0)
  {
    PhaseAt(jobs, j, p);
    PhaseAt(jobs[j := job], j, p);
    SameElsewhere(jobs, j, job, p);
  }

  lemma SameElsewhere(jobs: seq<Job>, j: JobId, job: Job, p: Phase)
    requires j < |jobs|
    ensures Elsewhere(jobs[j := job], j, p) == Elsewhere(jobs, j, p)
  {
  }

  ghost function Elsewhere(jobs: seq<Job>, j: JobId, p: Phase): set<JobId> { InPhase(jobs, p) - {j} }

  lemma PhaseAt(jobs: seq<Job>, j: JobId, p: Phase)
    requires j < |jobs|
    ensures |InPhase(jobs, p)| == |Elsewhere(jobs, j, p)| + if jobs[j].phase == p then 1 else 0
  {
    assert InPhase(jobs, p) == if jobs[j].phase == p then Elsewhere(jobs, j, p) + {j} else Elsewhere(jobs, j, p);
  }

  lemma PhaseMoves(jobs: seq<Job>, j: JobId, job: Job)
    requires j < |jobs|
    ensures forall p: Phase :: |InPhase(jobs[j := job], p)|
                               == |InPhase(jobs, p)| - (if jobs[j].phase == p then 1 else 0) + (if job.phase == p then 1 else 0)
  {
    forall p: Phase
      ensures |InPhase(jobs[j := job], p)|
              == |InPhase(jobs, p)| - (if jobs[j].phase == p then 1 else 0) + (if job.phase == p then 1 else 0)
    {
      PhaseMove(jobs, j, job, p);
    }
  }

  lemma PhaseAppends(jobs: seq<Job>, job: Job)
    requires job.phase.Waiting?
    ensures forall p: Phase :: p != Waiting ==> InPhase(jobs + [job], p) == InPhase(jobs, p)
  {
  }

  lemma {:induction false} WithoutIncreasing(q: seq<nat>, j: nat)
    requires forall i, k :: 0 <= i < k < |q| ==> q[i] < q[k]
    ensures var r := Without(q, j);
            (forall i, k :: 0 <= i < k < |r| ==> r[i] < r[k]) && |r| <= |q| && (q != [] && r != [] ==> q[0] <= r[0])
  {
    if q != [] {
      var tail, rest := q[1..], Without(q[1..], j);
      WithoutIncreasing(tail, j);
      assert tail != [] ==> tail[0] == q[1];
      assert Without(q, j) == if q[0] == j then rest else [q[0]] + rest;
    }
  }

  lemma CancelledQueued(s: State, j: JobId)
    requires Queued(s) && j < |s.jobs| && !s.jobs[j].settled
    ensures Queued(Cancelled(s, j)) && |Without(s.queue, j)| <= |s.queue|
  {
    InRangeWithout(s.queue, j, |s.jobs|);
    WithoutMembers(s.queue, j);
    WithoutIncreasing(s.queue, j);
  }

  lemma CancelledKeepsInv(s: State, j: JobId)
    requires Inv(s) && j < |s.jobs|
    ensures Inv(Cancelled(s, j))
  {
    if !s.jobs[j].settled {
      PhaseMoves(s.jobs, j, s.jobs[j].(settled := true));
      CancelledQueued(s, j);
      assert s.queue == [] ==> Without(s.queue, j) == [];
    }
  }

  lemma ResolvedKeepsInv(s: State, breaks: bool)
    requires Inv(s)
    ensures Inv(Resolved(s, breaks).0)
  {
    if s.active < MAX_ACTIVE || |s.queue| < MAX_QUEUED {
      var j, t := |s.jobs|, s.(jobs := s.jobs + [Job(Waiting, false)]);
      PhaseAppends(s.jobs, Job(Waiting, false));
      if s.active < MAX_ACTIVE {
        PhaseMoves(t.jobs, j, Run(t, j, breaks).jobs[j]);
      } else {
        assert forall k: JobId :: k in s.queue + [j] <==> k in s.queue || k == j;
      }
    }
  }

  lemma EndedKeepsInv(s: State, j: JobId, breaks: bool)
    requires Inv(s) && j < |s.jobs| && s.jobs[j].phase.Running?
    ensures Inv(Ended(s, j, breaks))
  {
    CancelledKeepsInv(s, j);
    var t := Cancelled(s, j);
    PhaseMoves(t.jobs, j, t.jobs[j].(phase := Done));
    var u := t.(active := t.active - 1, jobs := t.jobs[j := t.jobs[j].(phase := Done)]);
    if u.queue != [] {
      NextRuns(u, breaks);
    }
  }

  /** The head of the queue is never a settled job, so handing the slot on never stalls. */
  lemma NextRuns(u: State, breaks: bool)
    requires Queued(u) && 0 < |u.queue| <= MAX_QUEUED
    requires u.active == |InPhase(u.jobs, Running)| + |InPhase(u.jobs, Stuck)| == MAX_ACTIVE - 1
    requires forall j :: 0 <= j < |u.jobs| && u.jobs[j].phase.Done? ==> u.jobs[j].settled
    ensures Inv(Run(u.(queue := u.queue[1..]), u.queue[0], breaks))
  {
    var next := u.queue[0];
    assert next in u.queue;
    PhaseMoves(u.jobs, next, u.jobs[next].(phase := if breaks then Stuck else Running));
    assert forall k: JobId :: k in u.queue <==> k == next || k in u.queue[1..];
    assert forall i :: 0 <= i < |u.queue[1..]| ==> u.queue[1..][i] == u.queue[i + 1];
  }

  ghost predicate Behaviour(ss: seq<State>, es: seq<Event>) {
    && |ss| == |es| + 1 && ss[0] == EMPTY
    && forall i :: 0 <= i < |es| ==> InRange(ss[i].queue, |ss[i].jobs|) && Enabled(ss[i], es[i]) && ss[i + 1] == Next(ss[i], es[i])
  }

  lemma NextKeepsInv(s: State, e: Event)
    requires Inv(s) && Enabled(s, e)
    ensures Inv(Next(s, e))
    ensures |s.jobs| <= |Next(s, e).jobs|
    ensures forall j :: 0 <= j < |s.jobs| ==>
              && (s.jobs[j].settled ==> Next(s, e).jobs[j].settled)
              && (s.jobs[j].phase.Stuck? ==> Next(s, e).jobs[j].phase.Stuck?)
  {
    match e
    case Resolve(breaks) => ResolvedKeepsInv(s, breaks);
    case Cancel(j) => CancelledKeepsInv(s, j);
    case End(j, breaks) =>
      EndedKeepsInv(s, j, breaks);
      var t := Cancelled(s, j);
      CancelledKeepsInv(s, j);
      assert t.queue != [] ==> t.queue[0] in t.queue;
  }

  /** At most two slots taken and sixteen waiting, nobody waits while a slot is free, in every run. */
  lemma {:induction false} EveryRun(ss: seq<State>, es: seq<Event>, k: nat)
    requires Behaviour(ss, es) && k < |ss|
    ensures Inv(ss[k])
  {
    if k == 0 {
      assert InPhase(EMPTY.jobs, Running) == {} && InPhase(EMPTY.jobs, Stuck) == {};
    } else {
      EveryRun(ss, es, k - 1);
      NextKeepsInv(ss[k - 1], es[k - 1]);
    }
  }

  /** A slot goes to a job whose client cannot be constructed: at once, or when another job's slot comes free. */
  predicate LosesSlot(s: State, e: Event)
    requires Enabled(s, e)
  {
    match e
    case Resolve(breaks) => breaks && s.active < MAX_ACTIVE
    case Cancel(_) => false
    case End(j, breaks) => breaks && Cancelled(s, j).queue != []
  }

  predicate NoneStuck(jobs: seq<Job>) { forall j :: 0 <= j < |jobs| ==> !jobs[j].phase.Stuck? }

  ghost function StuckCount(s: State): nat { |InPhase(s.jobs, Stuck)| }

  lemma CancelKeepsStuck(s: State, j: JobId)
    requires j < |s.jobs|
    ensures StuckCount(Cancelled(s, j)) == StuckCount(s)
  {
    if !s.jobs[j].settled {
      PhaseMoves(s.jobs, j, s.jobs[j].(settled := true));
    }
  }

  lemma EndLoses(s: State, j: JobId, breaks: bool)
    requires Inv(s) && Enabled(s, End(j, breaks))
    ensures StuckCount(Ended(s, j, breaks)) == StuckCount(s) + if LosesSlot(s, End(j, breaks)) then 1 else 0
  {
    CancelledKeepsInv(s, j);
    CancelKeepsStuck(s, j);
    var t := Cancelled(s, j);
    PhaseMoves(t.jobs, j, t.jobs[j].(phase := Done));
    var u := t.(active := t.active - 1, jobs := t.jobs[j := t.jobs[j].(phase := Done)]);
    if u.queue != [] {
      var next := u.queue[0];
      assert next in t.queue;
      PhaseMoves(u.jobs, next, u.jobs[next].(phase := if breaks then Stuck else Running));
    }
  }

  /** Exactly the events that hand a slot to such a job lose one. */
  lemma NextLoses(s: State, e: Event)
    requires Inv(s) && Enabled(s, e)
    ensures StuckCount(Next(s, e)) == StuckCount(s) + if LosesSlot(s, e) then 1 else 0
  {
    match e
    case Resolve(breaks) =>
      var j, t := |s.jobs|, s.(jobs := s.jobs + [Job(Waiting, false)]);
      PhaseAppends(s.jobs, Job(Waiting, false));
      assert InPhase(t.jobs, Stuck) == InPhase(s.jobs, Stuck);
      PhaseMoves(t.jobs, j, t.jobs[j].(phase := if breaks then Stuck else Running));
    case Cancel(j) => CancelKeepsStuck(s, j);
    case End(j, breaks) => EndLoses(s, j, breaks);
  }

  /** How many of the first `k` events of a run lose a slot. */
  ghost function Losses(ss: seq<State>, es: seq<Event>, k: nat): nat
    requires Behaviour(ss, es) && k < |ss|
  {
    if k == 0 then 0 else Losses(ss, es, k - 1) + if LosesSlot(ss[k - 1], es[k - 1]) then 1 else 0
  }

  /** In every run the slots taken are the jobs at work and, for each event that lost one, a slot that is gone for good. */
  lemma {:induction false} SlotsAccounted(ss: seq<State>, es: seq<Event>, k: nat)
    requires Behaviour(ss, es) && k < |ss|
    ensures ss[k].active == |InPhase(ss[k].jobs, Running)| + Losses(ss, es, k)
    ensures StuckCount(ss[k]) == Losses(ss, es, k)
  {
    EveryRun(ss, es, k);
    if k == 0 {
      assert InPhase(EMPTY.jobs, Stuck) == {};
    } else {
      SlotsAccounted(ss, es, k - 1);
      EveryRun(ss, es, k - 1);
      NextLoses(ss[k - 1], es[k - 1]);
    }
  }

  lemma {:induction false} NoLosses(ss: seq<State>, es: seq<Event>, k: nat)
    requires Behaviour(ss, es) && k < |ss|
    ensures Losses(ss, es, k) == 0 <==> forall i :: 0 <= i < k ==> !LosesSlot(ss[i], es[i])
  {
    if k > 0 {
      NoLosses(ss, es, k - 1);
    }
  }

  /** Every slot taken is a job at work exactly when no event handed a slot to a job whose client cannot be constructed. */
  lemma SlotsAreJobs(ss: seq<State>, es: seq<Event>, k: nat)
    requires Behaviour(ss, es) && k < |ss|
    ensures ss[k].active == |InPhase(ss[k].jobs, Running)| <==> forall i :: 0 <= i < k ==> !LosesSlot(ss[i], es[i])
    ensures NoneStuck(ss[k].jobs) <==> forall i :: 0 <= i < k ==> !LosesSlot(ss[i], es[i])
  {
    SlotsAccounted(ss, es, k);
    NoLosses(ss, es, k);
    assert NoneStuck(ss[k].jobs) <==> InPhase(ss[k].jobs, Stuck) == {} by {
      forall j | 0 <= j < |ss[k].jobs|
        ensures ss[k].jobs[j].phase.Stuck? <==> j in InPhase(ss[k].jobs, Stuck)
      {
      }
    }
  }

  /** Two clients that could not be constructed take both slots for good: no later job is ever run. */
  lemma {:induction false} TwoFailuresBlock(ss: seq<State>, es: seq<Event>, i: nat, k: nat)
    requires Behaviour(ss, es) && i <= k < |ss| && |InPhase(ss[i].jobs, Stuck)| == MAX_ACTIVE
    ensures ss[k].active == MAX_ACTIVE && InPhase(ss[k].jobs, Running) == {}
  {
    EveryRun(ss, es, k);
    if k == i {
    } else {
      TwoFailuresBlock(ss, es, i, k - 1);
      StuckStays(ss, es, i, k);
      SubsetSize(InPhase(ss[i].jobs, Stuck), InPhase(ss[k].jobs, Stuck));
    }
  }

  lemma {:induction false} StuckStays(ss: seq<State>, es: seq<Event>, i: nat, k: nat)
    requires Behaviour(ss, es) && i <= k < |ss|
    ensures InPhase(ss[i].jobs, Stuck) <= InPhase(ss[k].jobs, Stuck)
  {
    if i < k {
      StuckStays(ss, es, i, k - 1);
      EveryRun(ss, es, k - 1);
      NextKeepsInv(ss[k - 1], es[k - 1]);
      assert InPhase(ss[k - 1].jobs, Stuck) <= InPhase(ss[k].jobs, Stuck);
    }
  }

  /** It takes no more than two: after the second failure the state of the previous lemma is reached. */
  lemma BlockedExample()
    ensures var s := Next(Next(EMPTY, Resolve(true)), Resolve(true));
            |InPhase(s.jobs, Stuck)| == MAX_ACTIVE && s.active == MAX_ACTIVE
  {
    var s := Next(Next(EMPTY, Resolve(true)), Resolve(true));
    assert InPhase(s.jobs, Stuck) == {0, 1};
  }
}
