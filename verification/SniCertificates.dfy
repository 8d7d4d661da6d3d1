/** The bounded certificate issuer: two at work, sixteen waiting, a recency cache (util/sni-certificates.ts). */
module SniCertificates {
  import opened Common

  const MAX_ACTIVE := 2
  const MAX_QUEUED := 16
  const MAX_CACHE := 64

  type Host = string
  type TaskId = nat

  /** `settled` is unset until a task's promise is resolved (true) or rejected (false). */
  datatype Task = Task(hostname: Host, started: bool, aborted: bool, settled: Option<bool>)

  /**
   * `tasks` lists every task ever made, by number. `pending` is the source's map from hostnames to unsettled tasks, in
   * insertion order, and `cache` its map from hostnames to certificates, each named by its issuing task.
   * `starts` and `uses` are logs: tasks in the order they were started, hostnames in the order they were hit or issued.
   */
  datatype State = State(
    tasks: seq<Task>,
    pending: seq<TaskId>,
    queue: seq<TaskId>,
    active: int,
    closed: bool,
    cache: seq<(Host, TaskId)>,
    starts: seq<TaskId>,
    uses: seq<Host>)

  const EMPTY := State([], [], [], 0, false, [], [], [])

  datatype Answer = Rejected | Cached(task: TaskId) | Promised(task: TaskId)

  // ---------------------------------------------------------------- maps in insertion order

  function CacheGet(cache: seq<(Host, TaskId)>, h: Host): Option<TaskId> {
    if cache == [] then None else if cache[0].0 == h then Some(cache[0].1) else CacheGet(cache[1..], h)
  }

  function CacheDelete(cache: seq<(Host, TaskId)>, h: Host): seq<(Host, TaskId)> {
    if cache == [] then [] else if cache[0].0 == h then cache[1..] else [cache[0]] + CacheDelete(cache[1..], h)
  }

  /** Setting a key that is there keeps its place. */
  function CacheSet(cache: seq<(Host, TaskId)>, h: Host, t: TaskId): seq<(Host, TaskId)> {
    if cache == [] then [(h, t)] else if cache[0].0 == h then [(h, t)] + cache[1..] else [cache[0]] + CacheSet(cache[1..], h, t)
  }

  function PendingFor(s: State, h: Host): Option<TaskId>
    requires InRange(s.pending, |s.tasks|)
  {
    FindPending(s.tasks, s.pending, h)
  }

  function FindPending(tasks: seq<Task>, pending: seq<TaskId>, h: Host): (r: Option<TaskId>)
    requires InRange(pending, |tasks|)
    ensures r.Some? ==> r.value in pending && tasks[r.value].hostname == h
    ensures r.None? ==> forall i :: 0 <= i < |pending| ==> tasks[pending[i]].hostname != h
  {
    if pending == [] then None
    else if tasks[pending[0]].hostname == h then Some(pending[0])
    else FindPending(tasks, pending[1..], h)
  }

  // ---------------------------------------------------------------- the steps

  predicate Ranged(s: State) { InRange(s.pending, |s.tasks|) && InRange(s.queue, |s.tasks|) }

  function Started(s: State): State
    requires s.queue != [] && Ranged(s)
  {
    var t := s.queue[0];
    s.(queue := s.queue[1..], tasks := s.tasks[t := s.tasks[t].(started := true)], active := s.active + 1,
       starts := s.starts + [t])
  }

  function Drained(s: State): (r: State)
    requires Ranged(s)
    ensures Ranged(r) && |r.tasks| == |s.tasks|
    decreases |s.queue|
  {
    if !s.closed && s.active < MAX_ACTIVE && s.queue != [] then Drained(Started(s)) else s
  }

  function Settled(s: State, t: TaskId, ok: bool): (r: State)
    requires Ranged(s) && t < |s.tasks|
    ensures Ranged(r) && |r.tasks| == |s.tasks|
  {
    var task := s.tasks[t];
    InRangeWithout(s.pending, t, |s.tasks|);
    InRangeWithout(s.queue, t, |s.tasks|);
    s.(pending := Without(s.pending, t),
       queue := Without(s.queue, t),
       active := if task.started then s.active - 1 else s.active,
       tasks := s.tasks[t := task.(settled := Some(ok))])
  }

  function Finished(s: State, t: TaskId, ok: bool): (r: State)
    requires Ranged(s) && t < |s.tasks|
    ensures Ranged(r) && |r.tasks| == |s.tasks|
  {
    Drained(Settled(s, t, ok))
  }

  function Issued(s: State, h: Host): (State, Answer)
    requires Ranged(s)
  {
    if s.closed then (s, Rejected)
    else
      var cached := CacheGet(s.cache, h);
      if cached.Some? then
        (s.(cache := CacheSet(CacheDelete(s.cache, h), h, cached.value), uses := s.uses + [h]), Cached(cached.value))
      else
        var pending := PendingFor(s, h);
        if pending.Some? then (s, Promised(pending.value))
        else if s.active >= MAX_ACTIVE && |s.queue| >= MAX_QUEUED then (s, Rejected)
        else
          (Drained(Made(s, h)), Promised(|s.tasks|))
  }

  function Made(s: State, h: Host): (r: State)
    requires Ranged(s)
    ensures Ranged(r)
  {
    var t := |s.tasks|;
    s.(tasks := s.tasks + [Task(h, false, false, None)], pending := s.pending + [t], queue := s.queue + [t])
  }

  /** The certificate of a started task has been generated, or generating it has failed. */
  function Generated(s: State, t: TaskId, ok: bool): State
    requires Ranged(s) && t < |s.tasks|
  {
    if !ok || s.tasks[t].aborted then Finished(s, t, false) else Finished(Stored(s, t), t, true)
  }

  function Stored(s: State, t: TaskId): State
    requires t < |s.tasks|
  {
    var cache := CacheSet(s.cache, s.tasks[t].hostname, t);
    s.(cache := if |cache| > MAX_CACHE then cache[1..] else cache, uses := s.uses + [s.tasks[t].hostname])
  }

  /** The deadline of an unsettled task has passed. */
  function TimedOut(s: State, t: TaskId): State
    requires Ranged(s) && t < |s.tasks|
  {
    var aborted := s.(tasks := s.tasks[t := s.tasks[t].(aborted := true)]);
    if s.tasks[t].started then aborted else Finished(aborted, t, false)
  }

  function ClosedOver(s: State, ts: seq<TaskId>): (r: State)
    requires Ranged(s) && InRange(ts, |s.tasks|)
    ensures Ranged(r) && |r.tasks| == |s.tasks|
  {
    if ts == [] then s
    else
      var n := |ts| - 1;
      assert InRange(ts[..n], |s.tasks|);
      TimedOut(ClosedOver(s, ts[..n]), ts[n])
  }

  lemma ClosedNext(s: State, ts: seq<TaskId>, i: nat)
    requires Ranged(s) && i < |ts| && InRange(ts, |s.tasks|)
    ensures InRange(ts[..i], |s.tasks|) && InRange(ts[..i + 1], |s.tasks|)
    ensures ClosedOver(s, ts[..i + 1]) == TimedOut(ClosedOver(s, ts[..i]), ts[i])
  {
    assert ts[..i + 1][..i] == ts[..i];
  }

  function Closing(s: State): State
    requires Ranged(s)
  {
    ClosedOver(s.(closed := true), s.pending)
  }

  /** All tasks have settled: closing completes. */
  function Cleared(s: State): State { s.(cache := [], uses := []) }
}
