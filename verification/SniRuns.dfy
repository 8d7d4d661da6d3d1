/** What the certificate cache holds, and whole runs of the issuer. */
module SniRuns {
  import opened Common
  import opened SniCertificates
  import opened SniScheduler

  function Keys(cache: seq<(Host, TaskId)>): seq<Host> { seq(|cache|, i requires 0 <= i < |cache| => cache[i].0) }

  /** The hostnames of a log, each once, least recently used first. */
  function Recency(uses: seq<Host>): seq<Host> {
    if uses == [] then []
    else
      var n := |uses| - 1;
      Without(Recency(uses[..n]), uses[n]) + [uses[n]]
  }

  function Suffix(s: seq<Host>, n: nat): seq<Host> { if |s| <= n then s else s[|s| - n..] }

  // ---------------------------------------------------------------- the cache as a recency list

  lemma {:induction false} GetIs(cache: seq<(Host, TaskId)>, h: Host)
    ensures CacheGet(cache, h).Some? <==> h in Keys(cache)
    ensures CacheGet(cache, h).Some? ==> (h, CacheGet(cache, h).value) in cache
  {
    if cache != [] {
      GetIs(cache[1..], h);
      assert Keys(cache) == [cache[0].0] + Keys(cache[1..]);
    }
  }

  lemma {:induction false} SetNew(cache: seq<(Host, TaskId)>, h: Host, t: TaskId)
    requires h !in Keys(cache)
    ensures CacheSet(cache, h, t) == cache + [(h, t)]
  {
    if cache != [] {
      assert Keys(cache) == [cache[0].0] + Keys(cache[1..]);
      SetNew(cache[1..], h, t);
    }
  }

  lemma {:induction false} DeleteIs(cache: seq<(Host, TaskId)>, h: Host)
    requires Distinct(Keys(cache))
    ensures Keys(CacheDelete(cache, h)) == Without(Keys(cache), h)
    ensures forall e :: e in CacheDelete(cache, h) ==> e in cache
  {
    if cache != [] {
      var tail := cache[1..];
      assert Keys(cache) == [cache[0].0] + Keys(tail);
      assert Keys(tail) == Keys(cache)[1..];
      if cache[0].0 == h {
        DistinctHead(Keys(cache));
        WithoutAbsent(Keys(tail), h);
        assert Without(Keys(cache), h) == Keys(tail);
      } else {
        DeleteIs(tail, h);
        assert Keys(CacheDelete(cache, h)) == [cache[0].0] + Keys(CacheDelete(tail, h));
      }
    }
  }

  lemma {:induction false} RecencyDistinct(uses: seq<Host>)
    ensures Distinct(Recency(uses))
  {
    if uses != [] {
      var n := |uses| - 1;
      RecencyDistinct(uses[..n]);
      WithoutDistinct(Recency(uses[..n]), uses[n]);
      WithoutMembers(Recency(uses[..n]), uses[n]);
    }
  }

  lemma RecencyUse(uses: seq<Host>, h: Host)
    ensures Recency(uses + [h]) == Without(Recency(uses), h) + [h]
  {
    assert (uses + [h])[..|uses|] == uses;
  }

  lemma SuffixIs(a: seq<Host>, b: seq<Host>, n: nat)
    requires if a == [] then |b| <= n else |b| == n
    ensures Suffix(a + b, n) == b
  {
    assert a == [] ==> a + b == b;
  }

  /** Using a name moves it to the end; a name that had fallen out, or is new, pushes the oldest one out. */
  lemma SuffixUse(d: seq<Host>, h: Host, n: nat)
    requires Distinct(d) && n > 0
    ensures Suffix(Without(d, h) + [h], n)
            == if h in Suffix(d, n) then Without(Suffix(d, n), h) + [h] else Suffix(Suffix(d, n) + [h], n)
  {
    var k := if |d| <= n then 0 else |d| - n;
    var gone, kept := d[..k], d[k..];
    assert d == gone + kept && kept == Suffix(d, n);
    WithoutAppend(gone, kept, h);
    if h in kept {
      SuffixHit(gone, kept, h, n);
    } else {
      WithoutAbsent(kept, h);
      SuffixMiss(Without(gone, h), gone, kept, h, n);
    }
  }

  lemma SuffixHit(gone: seq<Host>, kept: seq<Host>, h: Host, n: nat)
    requires Distinct(gone + kept) && h in kept && if gone == [] then |kept| <= n else |kept| == n
    ensures Suffix((Without(gone, h) + Without(kept, h)) + [h], n) == Without(kept, h) + [h]
  {
    NotInBoth(gone, kept, h);
    WithoutAbsent(gone, h);
    assert Distinct(kept) by {
      assert forall i :: 0 <= i < |kept| ==> (gone + kept)[|gone| + i] == kept[i];
    }
    WithoutDistinct(kept, h);
    assert (gone + Without(kept, h)) + [h] == gone + (Without(kept, h) + [h]);
    SuffixIs(gone, Without(kept, h) + [h], n);
  }

  lemma SuffixMiss(rest: seq<Host>, gone: seq<Host>, kept: seq<Host>, h: Host, n: nat)
    requires n > 0 && (gone == [] ==> rest == []) && if gone == [] then |kept| <= n else |kept| == n
    ensures Suffix((rest + kept) + [h], n) == Suffix(kept + [h], n)
  {
    if |kept| == n {
      assert (rest + kept) + [h] == (rest + [kept[0]]) + (kept[1..] + [h]);
      SuffixIs(rest + [kept[0]], kept[1..] + [h], n);
      assert kept + [h] == [kept[0]] + (kept[1..] + [h]);
      SuffixIs([kept[0]], kept[1..] + [h], n);
    } else {
      assert (rest + kept) + [h] == kept + [h];
    }
  }

  lemma NotInBoth(a: seq<Host>, b: seq<Host>, h: Host)
    requires Distinct(a + b) && h in b
    ensures h !in a
  {
    var j :| 0 <= j < |b| && b[j] == h;
    assert (a + b)[|a| + j] == h;
    assert forall i :: 0 <= i < |a| ==> (a + b)[i] == a[i];
  }

  /**
   * The cache is exactly the 64 most recently used names, oldest first; every entry is the certificate of a task that
   * succeeded for that name; and no name is both cached and being issued.
   */
  ghost predicate CacheOk(s: State) { CacheRight(s.tasks, s.cache, s.uses) }

  ghost predicate CacheRight(tasks: seq<Task>, cache: seq<(Host, TaskId)>, uses: seq<Host>) {
    && Keys(cache) == Suffix(Recency(uses), MAX_CACHE)
    && EntriesOk(tasks, cache)
    && NotCached(tasks, Keys(cache))
  }

  predicate EntriesOk(tasks: seq<Task>, cache: seq<(Host, TaskId)>) {
    forall e :: e in cache ==> e.1 < |tasks| && tasks[e.1].hostname == e.0 && tasks[e.1].settled == Some(true)
  }

  predicate NotCached(tasks: seq<Task>, keys: seq<Host>) {
    forall t :: 0 <= t < |tasks| && tasks[t].settled.None? ==> tasks[t].hostname !in keys
  }

  ghost predicate Inv(s: State) { Sched(s) && CacheOk(s) }

  /** Tasks keep their names, settled tasks their outcome. */
  predicate Progress(tasks: seq<Task>, tasks': seq<Task>) {
    && |tasks| <= |tasks'|
    && forall t :: 0 <= t < |tasks| ==>
         tasks'[t].hostname == tasks[t].hostname && (tasks[t].settled.Some? ==> tasks'[t].settled == tasks[t].settled)
  }

  lemma ProgressKeepsCache(s: State, r: State)
    requires CacheOk(s) && Progress(s.tasks, r.tasks) && |r.tasks| == |s.tasks| && r.cache == s.cache && r.uses == s.uses
    ensures CacheOk(r)
  {
  }

  lemma FinishedProgress(s: State, t: TaskId, ok: bool)
    requires Ranged(s) && Unsettled(s.tasks, t)
    ensures var r := Finished(s, t, ok);
            Progress(s.tasks, r.tasks) && r.cache == s.cache && r.uses == s.uses && r.closed == s.closed
            && r.tasks[t].settled == Some(ok)
  {
    DrainedOnlyStarts(Settled(s, t, ok));
  }

  // ---------------------------------------------------------------- the log and the cache, step by step

  lemma HitKeepsCache(s: State, h: Host)
    requires CacheOk(s) && CacheGet(s.cache, h).Some?
    ensures CacheOk(s.(cache := CacheSet(CacheDelete(s.cache, h), h, CacheGet(s.cache, h).value), uses := s.uses + [h]))
  {
    GetIs(s.cache, h);
    HitKeys(s.cache, s.uses, h, CacheGet(s.cache, h).value);
  }

  lemma HitKeys(cache: seq<(Host, TaskId)>, uses: seq<Host>, h: Host, t: TaskId)
    requires Keys(cache) == Suffix(Recency(uses), MAX_CACHE) && h in Keys(cache)
    ensures var r := CacheSet(CacheDelete(cache, h), h, t);
            && Keys(r) == Suffix(Recency(uses + [h]), MAX_CACHE)
            && (forall e :: e in r ==> e in cache || e == (h, t)) && (forall x :: x in Keys(r) ==> x in Keys(cache))
  {
    RecencyDistinct(uses);
    SuffixDistinct(Recency(uses));
    DeleteIs(cache, h);
    var rest := CacheDelete(cache, h);
    WithoutMembers(Keys(cache), h);
    SetNew(rest, h, t);
    RecencyUse(uses, h);
    SuffixUse(Recency(uses), h, MAX_CACHE);
    assert Keys(rest + [(h, t)]) == Keys(rest) + [h];
  }

  lemma SuffixDistinct(d: seq<Host>)
    requires Distinct(d)
    ensures Distinct(Suffix(d, MAX_CACHE)) && |Suffix(d, MAX_CACHE)| <= MAX_CACHE
  {
  }

  /** Storing a new certificate: the name goes to the end, and the oldest leaves when there are too many. */
  lemma StoreKeepsCache(s: State, t: TaskId)
    requires CacheOk(s) && OneEach(s.tasks) && Unsettled(s.tasks, t)
    ensures CacheRight(s.tasks[t := s.tasks[t].(settled := Some(true))], Stored(s, t).cache, Stored(s, t).uses)
  {
    var h := s.tasks[t].hostname;
    SetNew(s.cache, h, t);
    StoredKeys(s.cache, s.uses, h, t);
    StoredEntries(s.tasks, s.cache, t);
    var more := s.cache + [(h, t)];
    var kept := if |more| > MAX_CACHE then more[1..] else more;
    FewerKeys(s.tasks[t := s.tasks[t].(settled := Some(true))], Keys(more), Keys(kept));
  }

  lemma FewerKeys(tasks: seq<Task>, more: seq<Host>, kept: seq<Host>)
    requires NotCached(tasks, more) && forall x :: x in kept ==> x in more
    ensures NotCached(tasks, kept)
  {
  }

  lemma StoredEntries(tasks: seq<Task>, cache: seq<(Host, TaskId)>, t: TaskId)
    requires Unsettled(tasks, t) && OneEach(tasks) && EntriesOk(tasks, cache) && NotCached(tasks, Keys(cache))
    ensures var tasks' := tasks[t := tasks[t].(settled := Some(true))];
            var more := cache + [(tasks[t].hostname, t)];
            EntriesOk(tasks', more) && EntriesOk(tasks', more[1..]) && NotCached(tasks', Keys(more))
  {
    var tasks' := tasks[t := tasks[t].(settled := Some(true))];
    var more := cache + [(tasks[t].hostname, t)];
    assert EntriesOk(tasks', more);
    assert forall e :: e in more[1..] ==> e in more;
    assert Keys(more) == Keys(cache) + [tasks[t].hostname];
  }

  lemma StoredKeys(cache: seq<(Host, TaskId)>, uses: seq<Host>, h: Host, t: TaskId)
    requires Keys(cache) == Suffix(Recency(uses), MAX_CACHE) && h !in Keys(cache)
    ensures var more := cache + [(h, t)];
            var kept := if |more| > MAX_CACHE then more[1..] else more;
            Keys(kept) == Suffix(Recency(uses + [h]), MAX_CACHE) && forall x :: x in Keys(kept) ==> x in Keys(more)
  {
    RecencyDistinct(uses);
    SuffixDistinct(Recency(uses));
    RecencyUse(uses, h);
    SuffixUse(Recency(uses), h, MAX_CACHE);
    var more := cache + [(h, t)];
    assert Keys(more) == Keys(cache) + [h];
    var kept := if |more| > MAX_CACHE then more[1..] else more;
    assert Keys(kept) == Suffix(Keys(more), MAX_CACHE);
  }

  // ---------------------------------------------------------------- whole runs

  datatype Event = Issue(h: Host) | Generate(t: TaskId, ok: bool) | Deadline(t: TaskId) | Close | Clear

  /** A started task generates once, a settled one has no timer, and closing completes when every task has settled. */
  predicate Enabled(s: State, e: Event) {
    match e
    case Generate(t, _) => Unsettled(s.tasks, t) && s.tasks[t].started
    case Deadline(t) => Unsettled(s.tasks, t)
    case Clear => s.closed && s.pending == []
    case _ => true
  }

  function Next(s: State, e: Event): State
    requires Ranged(s) && Enabled(s, e)
  {
    match e
    case Issue(h) => Issued(s, h).0
    case Generate(t, ok) => Generated(s, t, ok)
    case Deadline(t) => TimedOut(s, t)
    case Close => Closing(s)
    case Clear => Cleared(s)
  }

  lemma NextProgress(s: State, e: Event)
    requires Sched(s) && Enabled(s, e)
    ensures Progress(s.tasks, Next(s, e).tasks)
    ensures s.closed ==> Next(s, e).closed && |Next(s, e).tasks| == |s.tasks|
  {
    match e
    case Issue(h) =>
      if !s.closed && CacheGet(s.cache, h).None? && PendingFor(s, h).None? {
        DrainedOnlyStarts(Made(s, h));
      }
    case Generate(t, ok) =>
      FinishedProgress(s, t, false);
      FinishedProgress(Stored(s, t), t, true);
    case Deadline(t) =>
      TimedOutIs(s, t);
      DrainedOnlyStarts(Marked(Settled(s, t, false), t));
    case Close =>
      ClosingKeepsSched(s);
      ClosedOverKeepsCache(s.(closed := true), s.pending);
    case Clear =>
  }

  lemma NextKeepsInv(s: State, e: Event)
    requires Inv(s) && Enabled(s, e)
    ensures Inv(Next(s, e))
  {
    NextProgress(s, e);
    match e
    case Issue(h) => IssueKeepsInv(s, h);
    case Generate(t, ok) => GenerateKeepsInv(s, t, ok);
    case Deadline(t) =>
      TimedOutKeepsSched(s, t);
      TimedOutIs(s, t);
      DrainedOnlyStarts(Marked(Settled(s, t, false), t));
      ProgressKeepsCache(s, Next(s, e));
    case Close =>
      ClosingKeepsSched(s);
      ClosedOverKeepsCache(s.(closed := true), s.pending);
      ProgressKeepsCache(s, Next(s, e));
    case Clear =>
  }

  lemma IssueKeepsInv(s: State, h: Host)
    requires Inv(s)
    ensures Inv(Issued(s, h).0)
  {
    IssuedKeepsSched(s, h);
    GetIs(s.cache, h);
    if !s.closed {
      if CacheGet(s.cache, h).Some? {
        HitKeepsCache(s, h);
      } else if PendingFor(s, h).None? {
        DrainedOnlyStarts(Made(s, h));
        assert CacheOk(Made(s, h));
        ProgressKeepsCache(Made(s, h), Drained(Made(s, h)));
      }
    }
  }

  lemma GenerateKeepsInv(s: State, t: TaskId, ok: bool)
    requires Inv(s) && Unsettled(s.tasks, t) && s.tasks[t].started
    ensures Inv(Generated(s, t, ok))
  {
    GeneratedKeepsSched(s, t, ok);
    if !ok || s.tasks[t].aborted {
      FinishedProgress(s, t, false);
      ProgressKeepsCache(s, Finished(s, t, false));
    } else {
      StoreKeepsCache(s, t);
      DrainedOnlyStarts(Settled(Stored(s, t), t, true));
      ProgressKeepsCache(Settled(Stored(s, t), t, true), Finished(Stored(s, t), t, true));
    }
  }

  /** A sequence of states, each an enabled event after the one before. */
  ghost predicate Behaviour(ss: seq<State>, es: seq<Event>) {
    && |ss| == |es| + 1 && ss[0] == EMPTY
    && forall i :: 0 <= i < |es| ==> Ranged(ss[i]) && Enabled(ss[i], es[i]) && ss[i + 1] == Next(ss[i], es[i])
  }

  /**
   * The names used before the `k`-th event, as its callers see it: those answered from the cache, and those whose certificate
   * was generated before the task was called off; none once closing has completed.
   */
  ghost function Used(ss: seq<State>, es: seq<Event>, k: nat): seq<Host>
    requires Behaviour(ss, es) && k < |ss|
  {
    if k == 0 then []
    else
      var before, s := Used(ss, es, k - 1), ss[k - 1];
      match es[k - 1]
      case Issue(h) => if Issued(s, h).1.Cached? then before + [h] else before
      case Generate(t, ok) => if ok && !s.tasks[t].aborted then before + [s.tasks[t].hostname] else before
      case Clear => []
      case _ => before
  }

  lemma NextUses(s: State, e: Event)
    requires Sched(s) && Enabled(s, e)
    ensures var more := match e
              case Issue(h) => if Issued(s, h).1.Cached? then [h] else []
              case Generate(t, ok) => if ok && !s.tasks[t].aborted then [s.tasks[t].hostname] else []
              case _ => [];
            Next(s, e).uses == if e.Clear? then [] else s.uses + more
  {
    match e
    case Issue(h) =>
      if !s.closed && CacheGet(s.cache, h).None? && PendingFor(s, h).None? {
        DrainedOnlyStarts(Made(s, h));
      }
    case Generate(t, ok) =>
      FinishedProgress(s, t, false);
      FinishedProgress(Stored(s, t), t, true);
    case Deadline(t) =>
      TimedOutIs(s, t);
      DrainedOnlyStarts(Marked(Settled(s, t, false), t));
    case Close => ClosedOverKeepsCache(s.(closed := true), s.pending);
    case Clear =>
  }

  /**
   * Every reachable state: at most two tasks at work and sixteen waiting, one unsettled task a name, nobody waiting
   * while there is room, tasks started in the order they were made, and in the cache the 64 names used last.
   */
  lemma {:induction false} EveryRun(ss: seq<State>, es: seq<Event>, k: nat)
    requires Behaviour(ss, es) && k < |ss|
    ensures Inv(ss[k])
    ensures ss[k].active <= 2 && |ss[k].queue| <= 16
    ensures ss[k].uses == Used(ss, es, k) && Keys(ss[k].cache) == Suffix(Recency(Used(ss, es, k)), 64)
  {
    if k == 0 {
      EmptyIsFine();
    } else {
      EveryRun(ss, es, k - 1);
      NextKeepsInv(ss[k - 1], es[k - 1]);
      NextUses(ss[k - 1], es[k - 1]);
    }
    FewAtWork(ss[k]);
  }

  lemma EmptyIsFine()
    ensures Inv(EMPTY)
  {
    assert Running(EMPTY.tasks) == {};
  }

  lemma FewAtWork(s: State)
    requires Inv(s)
    ensures s.active <= 2 && |s.queue| <= 16 && Keys(s.cache) == Suffix(Recency(s.uses), 64)
  {
  }

  // ---------------------------------------------------------------- what each event does

  /** Everybody keeps their task, except that some may have started. */
  predicate OthersKept(s: State, r: State, t: TaskId) {
    && |r.tasks| >= |s.tasks|
    && forall u: TaskId :: u < |s.tasks| && u != t ==> r.tasks[u] == s.tasks[u].(started := r.tasks[u].started)
  }

  /** Whoever has waited longest, if anybody has, takes the place of a task that is over. */
  predicate NextInLine(s: State, r: State) {
    if s.queue == [] then r.starts == s.starts && r.queue == []
    else r.starts == s.starts + [s.queue[0]] && r.queue == s.queue[1..]
  }

  /**
   * A certificate that has been generated is delivered and cached as the newest, unless its task was called off; one that has
   * not leaves the cache alone. Either way the task is settled, and the next one starts.
   */
  lemma GeneratedDoes(s: State, t: TaskId, ok: bool)
    requires Inv(s) && Unsettled(s.tasks, t) && s.tasks[t].started
    ensures var r, done := Generated(s, t, ok), ok && !s.tasks[t].aborted;
            && |r.tasks| == |s.tasks| && r.tasks[t] == s.tasks[t].(settled := Some(done)) && OthersKept(s, r, t)
            && r.cache == (if !done then s.cache
                           else if |s.cache| < 64 then s.cache + [(s.tasks[t].hostname, t)]
                           else s.cache[1..] + [(s.tasks[t].hostname, t)])
            && NextInLine(s, r)
  {
    var h := s.tasks[t].hostname;
    var from := if ok && !s.tasks[t].aborted then Stored(s, t) else s;
    SetNew(s.cache, h, t);
    FewCached(s);
    FinishedStarts(from, t, ok && !s.tasks[t].aborted);
  }

  lemma FewCached(s: State)
    requires CacheOk(s)
    ensures |s.cache| <= 64
  {
    assert |Keys(s.cache)| == |s.cache|;
  }

  lemma FinishedStarts(s: State, t: TaskId, ok: bool)
    requires Sched(s) && Unsettled(s.tasks, t) && s.tasks[t].started
    ensures var r := Finished(s, t, ok);
            && |r.tasks| == |s.tasks| && r.tasks[t] == s.tasks[t].(settled := Some(ok)) && OthersKept(s, r, t)
            && r.cache == s.cache && NextInLine(s, r)
  {
    var d := Settled(s, t, ok);
    assert t !in s.queue;
    WithoutAbsent(s.queue, t);
    assert t in Running(s.tasks);
    DrainedOnce(d);
    DrainedOnlyStarts(d);
  }

  /** Where one task may start, draining starts the one at the head of the queue. */
  lemma DrainedOnce(d: State)
    requires Ranged(d) && (d.queue != [] ==> d.active == MAX_ACTIVE - 1 && !d.closed)
    ensures NextInLine(d, Drained(d))
    ensures forall u: TaskId :: u < |d.tasks| && (d.queue == [] || u != d.queue[0]) ==> Drained(d).tasks[u] == d.tasks[u]
  {
    if d.queue != [] {
      assert Drained(Started(d)) == Started(d);
    }
  }

  /**
   * A name that is asked for is answered from the cache, where it becomes the newest; or with the task that is at it; or
   * with a new task, which starts at once when fewer than two are at work; or it is rejected.
   */
  lemma IssuedDoes(s: State, h: Host)
    requires Inv(s)
    ensures var (r, a) := Issued(s, h);
            && (a.Rejected? ==> r == s)
            && (a.Cached? ==> r.tasks == s.tasks && r.queue == s.queue && r.starts == s.starts && (h, a.task) in s.cache
                              && r.cache == CacheDelete(s.cache, h) + [(h, a.task)])
            && (a.Promised? && a.task < |s.tasks| ==> r == s)
            && (a.Promised? && a.task >= |s.tasks| ==>
                  && a.task == |s.tasks| && |r.tasks| == |s.tasks| + 1 && r.cache == s.cache && OthersKept(s, r, a.task)
                  && r.tasks[a.task] == Task(h, s.active < 2, false, None)
                  && (if s.active < 2 then r.starts == s.starts + [a.task] else r.queue == s.queue + [a.task]))
  {
    GetIs(s.cache, h);
    if !s.closed {
      if CacheGet(s.cache, h).Some? {
        HitMoves(s.cache, s.uses, h, CacheGet(s.cache, h).value);
      } else if PendingFor(s, h).None? && (s.active < MAX_ACTIVE || |s.queue| < MAX_QUEUED) {
        MadeDrains(s, h);
      }
    }
  }

  lemma HitMoves(cache: seq<(Host, TaskId)>, uses: seq<Host>, h: Host, t: TaskId)
    requires Keys(cache) == Suffix(Recency(uses), MAX_CACHE) && h in Keys(cache)
    ensures CacheSet(CacheDelete(cache, h), h, t) == CacheDelete(cache, h) + [(h, t)]
  {
    RecencyDistinct(uses);
    SuffixDistinct(Recency(uses));
    DeleteIs(cache, h);
    WithoutMembers(Keys(cache), h);
    SetNew(CacheDelete(cache, h), h, t);
  }

  lemma MadeDrains(s: State, h: Host)
    requires Sched(s) && !s.closed && PendingFor(s, h).None? && (s.active < MAX_ACTIVE || |s.queue| < MAX_QUEUED)
    ensures var r, t := Drained(Made(s, h)), |s.tasks|;
            && |r.tasks| == |s.tasks| + 1 && r.cache == s.cache && OthersKept(s, r, t)
            && r.tasks[t] == Task(h, s.active < 2, false, None)
            && (if s.active < 2 then r.starts == s.starts + [t] else r.queue == s.queue + [t])
  {
    var m, t := Made(s, h), |s.tasks|;
    DrainedOnlyStarts(m);
    if s.active < MAX_ACTIVE {
      assert m.queue == [t];
      assert Drained(m) == Drained(Started(m)) && Drained(Started(m)) == Started(m);
    } else {
      assert Drained(m) == m;
    }
  }

  /** A deadline only calls off a task at work, and rejects a waiting one; nobody else is affected, and nothing is cached. */
  lemma DeadlineDoes(s: State, t: TaskId)
    requires Sched(s) && Unsettled(s.tasks, t)
    ensures var r := TimedOut(s, t);
            && |r.tasks| == |s.tasks| && r.cache == s.cache && r.starts == s.starts
            && r.tasks == s.tasks[t := if s.tasks[t].started then s.tasks[t].(aborted := true)
                                       else s.tasks[t].(aborted := true, settled := Some(false))]
            && r.queue == if s.tasks[t].started then s.queue else Without(s.queue, t)
  {
    TimedOutIs(s, t);
    if !s.tasks[t].started {
      assert t in s.queue;
      var m := Marked(Settled(s, t, false), t);
      assert Drained(m) == m;
    }
  }

  /** Closing calls off all that is not settled, rejects what waits, and keeps the cache until it completes. */
  lemma CloseDoes(s: State)
    requires Sched(s)
    ensures var r := Closing(s);
            && r.closed && r.queue == [] && r.cache == s.cache && |r.tasks| == |s.tasks|
            && forall t :: 0 <= t < |s.tasks| ==>
                 r.tasks[t] == if s.tasks[t].settled.Some? then s.tasks[t]
                               else if s.tasks[t].started then s.tasks[t].(aborted := true)
                               else s.tasks[t].(aborted := true, settled := Some(false))
  {
    ClosingKeepsSched(s);
    ClosedOverKeepsCache(s.(closed := true), s.pending);
  }

  // ---------------------------------------------------------------- over the run

  /** Each task is settled once: its outcome never changes again. */
  lemma {:induction false} SettledOnce(ss: seq<State>, es: seq<Event>, i: nat, k: nat, t: TaskId)
    requires Behaviour(ss, es) && i <= k < |ss| && t < |ss[i].tasks| && ss[i].tasks[t].settled.Some?
    ensures t < |ss[k].tasks| && ss[k].tasks[t].settled == ss[i].tasks[t].settled
  {
    if i < k {
      SettledOnce(ss, es, i, k - 1, t);
      EveryRun(ss, es, k - 1);
      NextProgress(ss[k - 1], es[k - 1]);
    }
  }

  predicate Shut(s: State) { s.closed && s.pending == [] && s.cache == [] }

  lemma NoneUnsettled(s: State)
    requires Sched(s) && s.pending == []
    ensures forall t :: !Unsettled(s.tasks, t)
  {
    forall t
      ensures !Unsettled(s.tasks, t)
    {
      assert t !in s.pending;
    }
  }

  lemma ShutStays(s: State, e: Event)
    requires Sched(s) && Shut(s) && Enabled(s, e)
    ensures Shut(Next(s, e))
  {
    NoneUnsettled(s);
    assert Closing(s) == s;
  }

  /** After closing completes, nothing is ever cached or issued again. */
  lemma {:induction false} ShutForGood(ss: seq<State>, es: seq<Event>, i: nat, k: nat)
    requires Behaviour(ss, es) && i < k < |ss| && es[i].Clear?
    ensures Shut(ss[k])
  {
    EveryRun(ss, es, k - 1);
    if i + 1 < k {
      ShutForGood(ss, es, i, k - 1);
      ShutStays(ss[k - 1], es[k - 1]);
    }
  }

  /** An answer names a task of the asked name: one that has succeeded, or one that is still to be settled. */
  lemma AnswerIs(s: State, h: Host)
    requires Inv(s)
    ensures var (r, a) := Issued(s, h);
            && (a.Cached? ==> a.task < |s.tasks| && s.tasks[a.task].hostname == h && s.tasks[a.task].settled == Some(true)
                              && !s.tasks[a.task].aborted)
            && (a.Promised? ==> Unsettled(r.tasks, a.task) && r.tasks[a.task].hostname == h)
            && (a.Rejected? <==> s.closed || (h !in Keys(s.cache) && |s.queue| == 16
                                              && forall t: TaskId :: Unsettled(s.tasks, t) ==> s.tasks[t].hostname != h))
  {
    GetIs(s.cache, h);
    if !s.closed && CacheGet(s.cache, h).None? {
      var p := PendingFor(s, h);
      if p.Some? {
        assert p.value in s.pending;
      } else {
        forall t: TaskId | Unsettled(s.tasks, t)
          ensures s.tasks[t].hostname != h
        {
          assert t in s.pending;
          var i :| 0 <= i < |s.pending| && s.pending[i] == t;
        }
        DrainedOnlyStarts(Made(s, h));
      }
    }
  }
}
