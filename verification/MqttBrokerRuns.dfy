/**
 * Whole-broker runs: budgets, admission and limits in every reachable state, whatever clients send, the policy answers
 * and the server publishes, in any order.
 */
module MqttBrokerRuns {
  import opened Common
  import opened MqttTopics
  import opened MqttBroker

  function Bytes(subs: seq<string>): nat {
    if subs == [] then 0 else ByteLength(subs[0]) + Bytes(subs[1..])
  }

  function StoredBytes(retained: seq<Packet>): nat {
    if retained == [] then 0 else RetainedSize(retained[0]) + StoredBytes(retained[1..])
  }

  // ---------------------------------------------------------------- one client's subscriptions

  predicate SubsOk(subs: seq<string>) {
    && |subs| <= MAX_CLIENT_SUBSCRIPTIONS
    && Distinct(subs)
    && forall i :: 0 <= i < |subs| ==> ValidFilter(subs[i])
  }

  predicate RetainedOk(sh: Shared) {
    && |sh.retained| <= MAX_RETAINED_TOPICS
    && sh.retainedBytes == StoredBytes(sh.retained) <= MAX_RETAINED_BYTES
    && UniqueTopics(sh.retained)
    && (forall i :: 0 <= i < |sh.retained| ==> sh.retained[i].payload != [] && sh.retained[i].retain)
  }

  predicate WithinBudget(sh: Shared) { sh.count <= MAX_SUBSCRIPTIONS && sh.bytes <= MAX_FILTER_BYTES }

  /** A change to one client moves the shared budget by exactly what it moves that client's subscriptions. */
  ghost predicate Settles(subs: seq<string>, sh: Shared, subs': seq<string>, sh': Shared) {
    && sh'.count - |subs'| == sh.count - |subs|
    && sh'.bytes - Bytes(subs') == sh.bytes - Bytes(subs)
    && (SubsOk(subs) ==> SubsOk(subs'))
    && (WithinBudget(sh) ==> WithinBudget(sh'))
    && (RetainedOk(sh) ==> RetainedOk(sh'))
  }

  lemma {:induction false} BytesAppend(a: seq<string>, b: seq<string>)
    ensures Bytes(a + b) == Bytes(a) + Bytes(b)
  {
    if a == [] {
      assert a + b == b;
    } else {
      assert (a + b)[1..] == a[1..] + b;
      BytesAppend(a[1..], b);
    }
  }

  lemma GrantedSettles(subs: seq<string>, sh: Shared, filter: (string, bool))
    ensures var (subs', sh', code) := Granted(subs, sh, filter);
            && Settles(subs, sh, subs', sh')
            && (subs' == subs || subs' == subs + [filter.0])
            && (code == 0 ==> filter.0 in subs' && filter.1)
            && (code != 0 ==> code == REFUSED && subs' == subs)
  {
    BytesAppend(subs, [filter.0]);
  }

  lemma SettlesTwice(s1: seq<string>, sh1: Shared, s2: seq<string>, sh2: Shared, s3: seq<string>, sh3: Shared)
    requires Settles(s1, sh1, s2, sh2) && Settles(s2, sh2, s3, sh3)
    ensures Settles(s1, sh1, s3, sh3)
  {
  }

  lemma {:induction false} GrantedAllSettles(subs: seq<string>, sh: Shared, filters: seq<(string, bool)>)
    ensures var (subs', sh', _) := GrantedAll(subs, sh, filters);
            && Settles(subs, sh, subs', sh')
            && sh'.retained == sh.retained
            && sh'.retainedBytes == sh.retainedBytes
  {
    if filters != [] {
      var n := |filters| - 1;
      GrantedAllSettles(subs, sh, filters[..n]);
      var (subs1, sh1, _) := GrantedAll(subs, sh, filters[..n]);
      GrantedSettles(subs1, sh1, filters[n]);
      var (subs2, sh2, _) := Granted(subs1, sh1, filters[n]);
      SettlesTwice(subs, sh, subs1, sh1, subs2, sh2);
    }
  }

  /** A SUBACK has one code a filter, and what was granted is subscribed. */
  lemma {:induction false} GrantCodes(subs: seq<string>, sh: Shared, filters: seq<(string, bool)>)
    ensures var (subs', _, codes) := GrantedAll(subs, sh, filters);
            && subs <= subs' && |codes| == |filters|
            && (forall i :: 0 <= i < |codes| ==> codes[i] in {0, REFUSED})
            && (forall i :: 0 <= i < |codes| && codes[i] == 0 ==> filters[i].0 in subs' && filters[i].1)
  {
    if filters != [] {
      var n := |filters| - 1;
      GrantCodes(subs, sh, filters[..n]);
      var (subs1, sh1, codes1) := GrantedAll(subs, sh, filters[..n]);
      var (subs2, sh2, code) := Granted(subs1, sh1, filters[n]);
      GrantedGrows(subs1, sh1, filters[n]);
      CodesExtend(subs1, subs2, filters, codes1, code);
    }
  }

  lemma GrantedGrows(subs: seq<string>, sh: Shared, filter: (string, bool))
    ensures var (subs', _, code) := Granted(subs, sh, filter);
            subs <= subs' && code in {0, REFUSED} && (code == 0 ==> filter.0 in subs' && filter.1)
  {
  }

  lemma CodesExtend(subs: seq<string>, subs': seq<string>, filters: seq<(string, bool)>, codes: seq<nat>, code: nat)
    requires |filters| == |codes| + 1 && subs <= subs'
    requires forall i :: 0 <= i < |codes| && codes[i] == 0 ==> filters[..|codes|][i].0 in subs && filters[..|codes|][i].1
    requires code == 0 ==> filters[|codes|].0 in subs' && filters[|codes|].1
    ensures forall i :: 0 <= i <= |codes| && (codes + [code])[i] == 0 ==> filters[i].0 in subs' && filters[i].1
  {
  }

  /** Nothing is subscribed that was not granted. */
  lemma {:induction false} OnlyGrantedIsAdded(subs: seq<string>, sh: Shared, filters: seq<(string, bool)>, t: string)
    requires t !in subs && t in GrantedAll(subs, sh, filters).0
    ensures |GrantedAll(subs, sh, filters).2| == |filters|
    ensures exists i :: 0 <= i < |filters| && filters[i].0 == t && GrantedAll(subs, sh, filters).2[i] == 0
  {
    var n := |filters| - 1;
    var codes := GrantedAll(subs, sh, filters).2;
    GrantCodes(subs, sh, filters);
    GrantCodes(subs, sh, filters[..n]);
    var (subs1, sh1, codes1) := GrantedAll(subs, sh, filters[..n]);
    if t in subs1 {
      OnlyGrantedIsAdded(subs, sh, filters[..n], t);
      var i :| 0 <= i < n && filters[..n][i].0 == t && codes1[i] == 0;
      assert filters[i].0 == t && codes[i] == 0;
    } else {
      GrantedSettles(subs1, sh1, filters[n]);
      assert filters[n].0 == t && codes[n] == 0;
    }
  }

  lemma {:induction false} WithoutBytes(subs: seq<string>, topic: string)
    requires Distinct(subs)
    ensures Bytes(Without(subs, topic)) == Bytes(subs) - (if topic in subs then ByteLength(topic) else 0)
  {
    if subs != [] {
      WithoutBytes(subs[1..], topic);
      var rest := Without(subs[1..], topic);
      assert subs[0] !in subs[1..];
      assert Without(subs, topic) == if subs[0] == topic then rest else [subs[0]] + rest;
    }
  }

  lemma DroppedSettles(subs: seq<string>, sh: Shared, topic: string)
    requires SubsOk(subs)
    ensures var (subs', sh') := Dropped(subs, sh, topic);
            && Settles(subs, sh, subs', sh')
            && sh'.retained == sh.retained
            && sh'.retainedBytes == sh.retainedBytes
            && (forall t :: t in subs' <==> t in subs && t != topic)
  {
    WithoutMembers(subs, topic);
    WithoutDistinct(subs, topic);
    WithoutBytes(subs, topic);
    var subs' := Dropped(subs, sh, topic).0;
    forall i | 0 <= i < |subs'|
      ensures ValidFilter(subs'[i])
    {
      assert subs'[i] in subs';
    }
  }

  lemma {:induction false} DroppedAllSettles(subs: seq<string>, sh: Shared, topics: seq<string>)
    requires SubsOk(subs)
    ensures var (subs', sh') := DroppedAll(subs, sh, topics);
            && Settles(subs, sh, subs', sh')
            && sh'.retained == sh.retained
            && sh'.retainedBytes == sh.retainedBytes
            && (forall t :: t in subs' <==> t in subs && t !in topics)
  {
    if topics != [] {
      var n := |topics| - 1;
      DroppedAllSettles(subs, sh, topics[..n]);
      var (subs1, sh1) := DroppedAll(subs, sh, topics[..n]);
      DroppedSettles(subs1, sh1, topics[n]);
      assert forall t :: t in topics <==> t in topics[..n] || t == topics[n];
    }
  }

  // ---------------------------------------------------------------- the retained store

  predicate UniqueTopics(s: seq<Packet>) { forall i, j :: 0 <= i < j < |s| ==> s[i].topic != s[j].topic }

  lemma {:induction false} LookupIs(s: seq<Packet>, topic: string)
    ensures Lookup(s, topic).Some? ==> Lookup(s, topic).value in s && Lookup(s, topic).value.topic == topic
    ensures Lookup(s, topic).None? <==> forall i :: 0 <= i < |s| ==> s[i].topic != topic
  {
    if s != [] && s[0].topic != topic {
      LookupIs(s[1..], topic);
    }
  }

  function Size(o: Option<Packet>): nat { if o.None? then 0 else RetainedSize(o.value) }

  /** Putting and erasing behave like a map's, in bytes as well as in contents. */
  lemma {:induction false} PutIs(s: seq<Packet>, p: Packet)
    ensures var r := Put(s, p);
            && |r| == |s| + (if Lookup(s, p.topic).None? then 1 else 0)
            && StoredBytes(r) == StoredBytes(s) - Size(Lookup(s, p.topic)) + RetainedSize(p)
            && (forall t :: Lookup(r, t) == if t == p.topic then Some(p) else Lookup(s, t))
            && (forall i :: 0 <= i < |r| ==> r[i] == p || (i < |s| && r[i] == s[i]))
            && (forall i :: 0 <= i < |s| ==> r[i].topic == s[i].topic)
  {
    if s != [] {
      var r := Put(s, p);
      if s[0].topic == p.topic {
        assert r[1..] == s[1..];
      } else {
        PutIs(s[1..], p);
        assert r[1..] == Put(s[1..], p);
        forall i | 0 <= i < |s|
          ensures r[i].topic == s[i].topic
        {
          if i > 0 {
            assert r[1..][i - 1].topic == s[1..][i - 1].topic;
          }
        }
        forall i | 0 <= i < |r|
          ensures r[i] == p || (i < |s| && r[i] == s[i])
        {
          if i > 0 {
            assert r[1..][i - 1] == r[i];
          }
        }
      }
    }
  }

  lemma PutKeepsTopicsUnique(s: seq<Packet>, p: Packet)
    requires UniqueTopics(s)
    ensures UniqueTopics(Put(s, p))
  {
    PutIs(s, p);
    LookupIs(s, p.topic);
  }

  lemma {:induction false} EraseIs(s: seq<Packet>, topic: string)
    requires UniqueTopics(s)
    ensures var r := Erase(s, topic);
            && StoredBytes(r) == StoredBytes(s) - Size(Lookup(s, topic))
            && (forall t :: Lookup(r, t) == if t == topic then None else Lookup(s, t))
  {
    if s != [] {
      if s[0].topic == topic {
        LookupIs(s[1..], topic);
      } else {
        EraseIs(s[1..], topic);
        assert Erase(s, topic)[1..] == Erase(s[1..], topic);
      }
    }
  }

  lemma {:induction false} ErasedIsShorter(s: seq<Packet>, topic: string)
    requires UniqueTopics(s)
    ensures var r := Erase(s, topic); |r| <= |s| && UniqueTopics(r) && (forall q :: q in r ==> q in s)
  {
    if s != [] && s[0].topic != topic {
      ErasedIsShorter(s[1..], topic);
      var rest := Erase(s[1..], topic);
      forall j | 0 <= j < |rest|
        ensures rest[j].topic != s[0].topic
      {
        assert rest[j] in rest;
        var k :| 0 <= k < |s[1..]| && s[1..][k] == rest[j];
        assert s[k + 1] == rest[j];
      }
    }
  }

  /**
   * What a retained publication does to the store: an empty payload erases the topic, a packet that fits replaces it,
   * and one that does not fit leaves the previous packet; other topics are never touched.
   */
  lemma RetainedIs(sh: Shared, p: Packet)
    requires RetainedOk(sh)
    ensures var sh' := Retained(sh, p);
            && RetainedOk(sh') && sh'.count == sh.count && sh'.bytes == sh.bytes
            && (forall t :: t != p.topic || !p.retain ==> Lookup(sh'.retained, t) == Lookup(sh.retained, t))
            && (p.retain && p.payload == [] ==> Lookup(sh'.retained, p.topic) == None)
            && (p.retain && p.payload != [] ==>
                  var fits := StoredBytes(sh.retained) - Size(Lookup(sh.retained, p.topic)) + RetainedSize(p) <= MAX_RETAINED_BYTES
                              && (Lookup(sh.retained, p.topic).Some? || |sh.retained| < MAX_RETAINED_TOPICS);
                  Lookup(sh'.retained, p.topic) == if fits then Some(p) else Lookup(sh.retained, p.topic))
  {
    var sh' := Retained(sh, p);
    if p.retain {
      PutIs(sh.retained, p);
      PutKeepsTopicsUnique(sh.retained, p);
      EraseIs(sh.retained, p.topic);
      ErasedIsShorter(sh.retained, p.topic);
      forall i | 0 <= i < |sh'.retained|
        ensures sh'.retained[i].payload != [] && sh'.retained[i].retain
      {
        assert sh'.retained[i] in sh'.retained;
      }
    }
  }

  // ---------------------------------------------------------------- one connection

  function TotalCost(actions: seq<Action>): nat {
    if actions == [] then 0 else TotalCost(actions[..|actions| - 1]) + actions[|actions| - 1].Cost()
  }

  /** An admitted client: it was sent a zero CONNACK and has run a prefix of what arrived. */
  predicate Running(p: Peer) {
    && p.phase.Active? && p.deferred == [] && SubsOk(p.subs)
    && p.trace.connacks == [0] && p.trace.ends == 0 && p.trace.wills == 0
    && p.trace.ran <= p.trace.arrived
  }

  predicate PeerOk(p: Peer) {
    && var t := p.trace;
    match p.phase
    case New => p == ACCEPTED.(raw := p.raw) && p.raw <= MAX_DEFERRED_BYTES
    case Pending =>
      && p.raw <= MAX_DEFERRED_BYTES && p.subs == [] && t.connacks == [] && t.ends == 0 && t.wills == 0
      && t.ran == [] && t.arrived == p.deferred
      && |p.deferred| <= MAX_DEFERRED_PACKETS && p.deferredBytes == TotalCost(p.deferred) <= MAX_DEFERRED_BYTES
    case Active => Running(p) && t.ran == t.arrived
    case Closed =>
      && p.subs == [] && p.deferred == [] && t.ends == 1
      && t.ran <= t.arrived
      && t.connacks == (if t.last.Active? then [0] else if t.last.Pending? && t.graceful && t.connacks != [] then [5] else [])
      && (t.ran != [] ==> t.last.Active?)
      && t.wills == if t.last.Active? && !t.graceful && p.will.Some? then 1 else 0
  }

  lemma DestroyedIsOk(p: Peer, sh: Shared, graceful: bool)
    requires SubsOk(p.subs) && !p.phase.Closed? && p.trace.ends == 0 && p.trace.wills == 0
    requires p.trace.ran <= p.trace.arrived && (p.trace.ran != [] ==> p.phase.Active?)
    requires p.trace.connacks == (if p.phase.Active? then [0] else if p.phase.Pending? && graceful && p.trace.connacks != [] then [5] else [])
    ensures var (q, sh') := Destroyed(p, sh, graceful);
            && PeerOk(q) && q.phase.Closed? && Settles(p.subs, sh, q.subs, sh')
            && q.trace.ran == p.trace.ran && q.trace.arrived == p.trace.arrived
  {
    DestroyedSettles(p, sh, graceful);
  }

  lemma DestroyedSettles(p: Peer, sh: Shared, graceful: bool)
    requires SubsOk(p.subs) && !p.phase.Closed?
    ensures var (q, sh') := Destroyed(p, sh, graceful); Settles(p.subs, sh, q.subs, sh')
  {
    DroppedAllSettles(p.subs, sh, p.subs);
    HasMember(DroppedAll(p.subs, sh, p.subs).0);
  }

  lemma PerformedIsOk(p: Peer, sh: Shared, action: Action)
    requires Running(p) && p.trace.ran + [action] <= p.trace.arrived
    ensures var (q, sh') := Performed(p, sh, action);
            && Settles(p.subs, sh, q.subs, sh')
            && q.trace.ran == p.trace.ran + [action] && q.trace.arrived == p.trace.arrived
            && (Running(q) || (q.phase.Closed? && PeerOk(q)))
  {
    var q := p.(trace := p.trace.(ran := p.trace.ran + [action]));
    match action
    case Publish(packet, allowed) =>
      if allowed {
        if RetainedOk(sh) {
          RetainedIs(sh, packet);
        }
      } else {
        DestroyedIsOk(q, sh, false);
      }
    case Subscribe(filters) => GrantedAllSettles(p.subs, sh, filters);
    case Unsubscribe(topics) => DroppedAllSettles(p.subs, sh, topics);
    case _ =>
  }

  lemma PrefixStep(actions: seq<Action>, n: nat, arrived: seq<Action>)
    requires actions <= arrived && |actions| == n + 1
    ensures actions[..n] + [actions[n]] == actions && actions[..n] <= arrived
  {
  }

  /** Queued operations run in arrival order, once each, until the client is no longer active. */
  lemma {:induction false} PerformedAllIsOk(p: Peer, sh: Shared, actions: seq<Action>)
    requires Running(p) && p.trace.ran == [] && actions <= p.trace.arrived
    ensures var (q, sh') := PerformedAll(p, sh, actions);
            && Settles(p.subs, sh, q.subs, sh') && q.trace.arrived == p.trace.arrived
            && q.trace.ran <= actions
            && (if q.phase.Active? then Running(q) && q.trace.ran == actions else q.phase.Closed? && PeerOk(q))
  {
    if actions != [] {
      var n := |actions| - 1;
      PerformedAllIsOk(p, sh, actions[..n]);
      var (q, sh1) := PerformedAll(p, sh, actions[..n]);
      if q.phase.Active? {
        PrefixStep(actions, n, p.trace.arrived);
        PerformedIsOk(q, sh1, actions[n]);
        var (r, sh2) := Performed(q, sh1, actions[n]);
        SettlesTwice(p.subs, sh, q.subs, sh1, r.subs, sh2);
      }
    }
  }

  // ---------------------------------------------------------------- the whole broker

  datatype Event =
    | Accept
    | Data(c: nat, n: nat)
    | Connect(c: nat)
    | Answer(c: nat, allowed: bool, will: Option<Packet>, stops: Option<nat>)
    | Operate(c: nat, action: Action)
    | End(c: nat, graceful: bool)
    | ServerPublish(packet: Packet)

  /** Every client ever accepted, by number, and the source's set of pending clients. */
  datatype World = World(peers: seq<Peer>, pending: set<nat>, sh: Shared)

  const START := World([], {}, Shared(0, 0, [], 0))

  function Stepped(p: Peer, sh: Shared, e: Event): (Peer, Shared) {
    match e
    case Accept => (p, sh)
    case ServerPublish(_) => (p, sh)
    case Data(_, n) => DataReceived(p, sh, n)
    case Connect(_) => ConnectReceived(p, sh)
    case Answer(_, allowed, will, stops) => Answered(p, sh, allowed, will, stops)
    case Operate(_, action) => Operated(p, sh, action)
    case End(_, graceful) => Destroyed(p, sh, graceful)
  }

  function Next(w: World, e: Event): World {
    if e.Accept? then
      if |w.pending| >= MAX_PENDING then w else World(w.peers + [ACCEPTED], w.pending + {|w.peers|}, w.sh)
    else if e.ServerPublish? then w.(sh := Retained(w.sh, e.packet))
    else if e.c >= |w.peers| then w
    else
      var (p, sh) := Stepped(w.peers[e.c], w.sh, e);
      World(w.peers[e.c := p], if Waiting(p) then w.pending else w.pending - {e.c}, sh)
  }

  function Run(w: World, es: seq<Event>): World
    decreases |es|
  {
    if es == [] then w else Run(Next(w, es[0]), es[1..])
  }

  function Subscriptions(peers: seq<Peer>): nat {
    if peers == [] then 0 else |peers[0].subs| + Subscriptions(peers[1..])
  }

  function SubscriptionBytes(peers: seq<Peer>): nat {
    if peers == [] then 0 else Bytes(peers[0].subs) + SubscriptionBytes(peers[1..])
  }

  predicate PeersOk(peers: seq<Peer>) {
    forall c :: 0 <= c < |peers| ==> PeerOk(peers[c])
  }

  ghost function WaitingClients(peers: seq<Peer>): set<nat> {
    set c: nat | c < |peers| && Waiting(peers[c])
  }

  ghost predicate Inv(w: World) {
    && PeersOk(w.peers)
    && w.pending == WaitingClients(w.peers)
    && |w.pending| <= MAX_PENDING
    && w.sh.count == Subscriptions(w.peers)
    && w.sh.bytes == SubscriptionBytes(w.peers)
    && WithinBudget(w.sh) && RetainedOk(w.sh)
  }

  lemma SteppedIsOk(p: Peer, sh: Shared, e: Event)
    requires PeerOk(p)
    ensures var (q, sh') := Stepped(p, sh, e);
            StepOk(p, sh, q, sh')
  {
    match e
    case Accept =>
    case ServerPublish(_) =>
    case Data(_, n) => DataReceivedIsOk(p, sh, n);
    case Connect(_) =>
      if !p.phase.New? && !p.phase.Closed? {
        DestroyedIsOk(p, sh, false);
      }
    case Answer(_, allowed, will, stops) => AnsweredIsOk(p, sh, allowed, will, stops);
    case Operate(_, action) => OperatedIsOk(p, sh, action);
    case End(_, graceful) =>
      if !p.phase.Closed? {
        DestroyedIsOk(p, sh, graceful);
      }
  }

  lemma DataReceivedIsOk(p: Peer, sh: Shared, n: nat)
    requires PeerOk(p)
    ensures var (q, sh') := DataReceived(p, sh, n);
            StepOk(p, sh, q, sh')
  {
    if Waiting(p) && p.raw + n > MAX_DEFERRED_BYTES {
      DestroyedIsOk(p.(raw := p.raw + n), sh, false);
    }
  }

  lemma AnsweredIsOk(p: Peer, sh: Shared, allowed: bool, will: Option<Packet>, stops: Option<nat>)
    requires PeerOk(p)
    ensures var (q, sh') := Answered(p, sh, allowed, will, stops);
            StepOk(p, sh, q, sh')
  {
    if p.phase.Pending? {
      if allowed {
        var (q, sh1) := PerformedAll(Admitted(p, will), sh, UpTo(p.deferred, stops));
        PerformedAllIsOk(Admitted(p, will), sh, UpTo(p.deferred, stops));
        if stops.Some? && q.phase.Active? {
          DestroyedIsOk(q, sh1, false);
          var (r, sh2) := Destroyed(q, sh1, false);
          SettlesTwice(p.subs, sh, q.subs, sh1, r.subs, sh2);
        }
      } else {
        DestroyedIsOk(p.(trace := p.trace.(connacks := p.trace.connacks + [5])), sh, true);
      }
    }
  }

  lemma OperatedIsOk(p: Peer, sh: Shared, action: Action)
    requires PeerOk(p)
    ensures var (q, sh') := Operated(p, sh, action);
            StepOk(p, sh, q, sh')
  {
    if p.phase.Active? {
      PerformedIsOk(Arrived(p, action), sh, action);
    } else if !p.phase.Closed? {
      WaitingOperatedIsOk(p, sh, action);
    }
  }

  ghost predicate StepOk(p: Peer, sh: Shared, q: Peer, sh': Shared) {
    && PeerOk(q)
    && Settles(p.subs, sh, q.subs, sh')
    && (Waiting(q) ==> Waiting(p))
  }

  lemma WaitingOperatedIsOk(p: Peer, sh: Shared, action: Action)
    requires PeerOk(p) && Waiting(p)
    ensures var (q, sh') := Operated(p, sh, action);
            StepOk(p, sh, q, sh')
  {
    if || !p.phase.Pending? || |p.deferred| >= MAX_DEFERRED_PACKETS
       || p.deferredBytes + action.Cost() > MAX_DEFERRED_BYTES {
      RejectedIsOk(p, sh, action);
    } else {
      DeferredIsOk(p, action);
    }
  }

  function Arrived(p: Peer, action: Action): Peer { p.(trace := p.trace.(arrived := p.trace.arrived + [action])) }

  lemma RejectedIsOk(p: Peer, sh: Shared, action: Action)
    requires PeerOk(p) && Waiting(p)
    ensures var (q, sh') := Destroyed(Arrived(p, action), sh, false);
            PeerOk(q) && q.phase.Closed? && Settles(p.subs, sh, q.subs, sh')
  {
    DestroyedIsOk(Arrived(p, action), sh, false);
  }

  lemma DeferredIsOk(p: Peer, action: Action)
    requires PeerOk(p) && p.phase.Pending? && |p.deferred| < MAX_DEFERRED_PACKETS
    requires p.deferredBytes + action.Cost() <= MAX_DEFERRED_BYTES
    ensures PeerOk(Arrived(p, action).(deferred := p.deferred + [action],
                                       deferredBytes := p.deferredBytes + action.Cost()))
  {
    assert (p.deferred + [action])[..|p.deferred|] == p.deferred;
  }

  lemma {:induction false} SumsUpdate(peers: seq<Peer>, c: nat, p: Peer)
    requires c < |peers|
    ensures Subscriptions(peers[c := p]) == Subscriptions(peers) - |peers[c].subs| + |p.subs|
    ensures SubscriptionBytes(peers[c := p]) == SubscriptionBytes(peers) - Bytes(peers[c].subs) + Bytes(p.subs)
  {
    var updated := peers[c := p];
    if c == 0 {
      assert updated[1..] == peers[1..];
    } else {
      assert updated[1..] == peers[1..][c - 1 := p];
      SumsUpdate(peers[1..], c - 1, p);
    }
  }

  lemma {:induction false} SumsAppend(peers: seq<Peer>, p: Peer)
    ensures Subscriptions(peers + [p]) == Subscriptions(peers) + |p.subs|
    ensures SubscriptionBytes(peers + [p]) == SubscriptionBytes(peers) + Bytes(p.subs)
  {
    if peers != [] {
      assert (peers + [p])[1..] == peers[1..] + [p];
      SumsAppend(peers[1..], p);
    }
  }

  lemma NextKeepsInv(w: World, e: Event)
    requires Inv(w)
    ensures Inv(Next(w, e))
  {
    if e.Accept? {
      AcceptKeepsInv(w);
    } else if e.ServerPublish? {
      RetainedIs(w.sh, e.packet);
    } else if e.c < |w.peers| {
      SteppedIsOk(w.peers[e.c], w.sh, e);
      var (p, sh) := Stepped(w.peers[e.c], w.sh, e);
      PeerReplaced(w, e.c, p, sh);
    }
  }

  lemma AcceptKeepsInv(w: World)
    requires Inv(w)
    ensures Inv(Next(w, Accept))
  {
    if |w.pending| < MAX_PENDING {
      SumsAppend(w.peers, ACCEPTED);
      PeersAppend(w.peers);
      OneMore(w.pending, |w.peers|);
    }
  }

  lemma PeersAppend(peers: seq<Peer>)
    requires PeersOk(peers)
    ensures PeersOk(peers + [ACCEPTED])
    ensures WaitingClients(peers + [ACCEPTED]) == WaitingClients(peers) + {|peers|}
  {
  }

  lemma PeerReplaced(w: World, c: nat, p: Peer, sh: Shared)
    requires Inv(w) && c < |w.peers|
    requires PeerOk(p) && Settles(w.peers[c].subs, w.sh, p.subs, sh) && (Waiting(p) ==> Waiting(w.peers[c]))
    ensures Inv(World(w.peers[c := p], if Waiting(p) then w.pending else w.pending - {c}, sh))
  {
    SumsUpdate(w.peers, c, p);
    SmallerPending(w.pending, c);
    WaitingUpdate(w.peers, c, p);
  }

  lemma WaitingUpdate(peers: seq<Peer>, c: nat, p: Peer)
    requires c < |peers| && (Waiting(p) ==> Waiting(peers[c]))
    ensures WaitingClients(peers[c := p]) == if Waiting(p) then WaitingClients(peers) else WaitingClients(peers) - {c}
  {
  }

  lemma SmallerPending(s: set<nat>, c: nat)
    ensures |s - {c}| <= |s|
  {
  }

  lemma OneMore(s: set<nat>, c: nat)
    ensures |s + {c}| <= |s| + 1
  {
    if c in s {
      assert s + {c} == s;
    }
  }

  /**
   * Every reachable state of the broker: the shared budget is the sum over clients and within its limits, the retained
   * store accounts for its bytes, the pending set is exactly the clients not yet answered, and every connection has
   * kept to the admission protocol.
   */
  lemma {:induction false} EveryRun(es: seq<Event>)
    ensures Inv(Run(START, es))
  {
    RunKeepsInv(START, es);
  }

  lemma {:induction false} RunKeepsInv(w: World, es: seq<Event>)
    requires Inv(w)
    ensures Inv(Run(w, es))
    decreases |es|
  {
    if es != [] {
      NextKeepsInv(w, es[0]);
      RunKeepsInv(Next(w, es[0]), es[1..]);
    }
  }
}
