/** The issuer's own methods, proved to be the steps of SniCertificates. */
module SniProvider {
  import opened Common
  import opened SniCertificates

  class SniCertificateProvider {
    var tasks: seq<Task>
    var pending: seq<TaskId>
    var queue: seq<TaskId>
    var active: int
    var closed: bool
    var cache: seq<(Host, TaskId)>
    ghost var starts: seq<TaskId>
    ghost var uses: seq<Host>

    ghost function State(): State reads this { SniCertificates.State(tasks, pending, queue, active, closed, cache, starts, uses) }

    constructor ()
      ensures State() == EMPTY
    {
      tasks, pending, queue, active, closed, cache, starts, uses := [], [], [], 0, false, [], [], [];
    }

    method Drain()
      requires Ranged(State())
      modifies this
      ensures State() == Drained(old(State()))
    {
      while !closed && active < MAX_ACTIVE && queue != []
        invariant Ranged(State()) && Drained(State()) == Drained(old(State()))
        decreases |queue|
      {
        var task := queue[0];
        queue := queue[1..];
        tasks := tasks[task := tasks[task].(started := true)];
        active := active + 1;
        starts := starts + [task];
      }
    }

    method Finish(task: TaskId, ok: bool)
      requires Ranged(State()) && task < |tasks|
      modifies this
      ensures State() == Finished(old(State()), task, ok)
    {
      InRangeWithout(pending, task, |tasks|);
      InRangeWithout(queue, task, |tasks|);
      pending := Without(pending, task);
      queue := Without(queue, task);
      if tasks[task].started {
        active := active - 1;
      }
      tasks := tasks[task := tasks[task].(settled := Some(ok))];
      Drain();
    }

    method Issue(hostname: Host) returns (answer: Answer)
      requires Ranged(State())
      modifies this
      ensures (State(), answer) == Issued(old(State()), hostname)
    {
      if closed {
        return Rejected;
      }
      var cached := CacheGet(cache, hostname);
      if cached.Some? {
        cache := CacheDelete(cache, hostname);
        cache := CacheSet(cache, hostname, cached.value);
        uses := uses + [hostname];
        return Cached(cached.value);
      }
      var waiting := FindPending(tasks, pending, hostname);
      if waiting.Some? {
        return Promised(waiting.value);
      }
      if active >= MAX_ACTIVE && |queue| >= MAX_QUEUED {
        return Rejected;
      }
      var task := |tasks|;
      tasks := tasks + [Task(hostname, false, false, None)];
      pending := pending + [task];
      queue := queue + [task];
      Drain();
      answer := Promised(task);
    }

    /** The generation that draining started has ended. */
    method OnGenerated(task: TaskId, ok: bool)
      requires Ranged(State()) && task < |tasks|
      modifies this
      ensures State() == Generated(old(State()), task, ok)
    {
      if !ok {
        Finish(task, false);
      } else if tasks[task].aborted {
        Finish(task, false);
      } else {
        cache := CacheSet(cache, tasks[task].hostname, task);
        if |cache| > MAX_CACHE {
          cache := cache[1..];
        }
        uses := uses + [tasks[task].hostname];
        Finish(task, true);
      }
    }

    method OnDeadline(task: TaskId)
      requires Ranged(State()) && task < |tasks|
      modifies this
      ensures State() == TimedOut(old(State()), task)
    {
      tasks := tasks[task := tasks[task].(aborted := true)];
      if !tasks[task].started {
        Finish(task, false);
      }
    }

    method Close()
      requires Ranged(State())
      modifies this
      ensures State() == Closing(old(State()))
    {
      closed := true;
      var snapshot := pending;
      ghost var from := State();
      for i := 0 to |snapshot|
        invariant Ranged(State()) && |tasks| == |old(tasks)|
        invariant InRange(snapshot[..i], |tasks|) && State() == ClosedOver(from, snapshot[..i])
      {
        ClosedNext(from, snapshot, i);
        var task := snapshot[i];
        tasks := tasks[task := tasks[task].(aborted := true)];
        if !tasks[task].started {
          Finish(task, false);
        }
      }
      assert snapshot[..|snapshot|] == snapshot;
    }

    /** Every task called off by `Close` has settled. */
    method FinishClose()
      modifies this
      ensures State() == Cleared(old(State()))
    {
      cache := [];
      uses := [];
    }
  }
}
