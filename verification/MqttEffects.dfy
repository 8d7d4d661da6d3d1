/** What each event does to the broker. */
module MqttEffects {
  // Stated on the whole broker: who is subscribed to what, what is stored, and who hears of it.

  import opened Common
  import opened MqttTopics
  import opened MqttBroker
  import opened MqttBrokerRuns

  /** No client but this one is affected. */
  predicate OnlyClient(w: World, v: World, c: nat) {
    |v.peers| == |w.peers| && c < |w.peers| && forall d: nat :: d < |w.peers| && d != c ==> v.peers[d] == w.peers[d]
  }

  /** The client is as it was, but for the record of what it has run and what it is subscribed to. */
  predicate GoesOn(p: Peer, q: Peer, subs: seq<string>) { q.phase.Active? && q.(trace := p.trace) == p.(subs := subs) }

  lemma OneMoves(w: World, e: Event)
    requires !e.Accept? && !e.ServerPublish? && e.c < |w.peers|
    ensures var (p, sh) := Stepped(w.peers[e.c], w.sh, e);
            && Next(w, e) == World(w.peers[e.c := p], if Waiting(p) then w.pending else w.pending - {e.c}, sh)
            && OnlyClient(w, Next(w, e), e.c) && Next(w, e).peers[e.c] == p && Next(w, e).sh == sh
  {
  }

  /** What an end leaves of a client, and of what is shared. */
  predicate Ended(p: Peer, q: Peer, sh: Shared, sh': Shared) {
    q.phase.Closed? && q.subs == [] && q.will == p.will && sh'.retained == sh.retained
  }

  lemma EndIs(p: Peer, sh: Shared, graceful: bool)
    requires SubsOk(p.subs) && !p.phase.Closed?
    ensures var (q, sh') := Destroyed(p, sh, graceful);
            && Ended(p, q, sh, sh') && q.trace.ran == p.trace.ran && q.trace.connacks == p.trace.connacks
            && q.trace.wills == p.trace.wills + if p.phase.Active? && !graceful && p.will.Some? then 1 else 0
  {
    DroppedAllSettles(p.subs, sh, p.subs);
  }

  // ---------------------------------------------------------------- publications

  function Weight(p: Packet): nat { ByteLength(p.topic) + |p.payload| + ByteLength(p.properties) }

  function TotalWeight(store: seq<Packet>): nat {
    if store == [] then 0 else Weight(store[0]) + TotalWeight(store[1..])
  }

  lemma {:induction false} StoredIsWeight(store: seq<Packet>)
    ensures StoredBytes(store) == TotalWeight(store)
  {
    if store != [] {
      StoredIsWeight(store[1..]);
    }
  }

  /** There is room for the packet in place of the one it replaces, if any: 1024 topics, eight mebibytes. */
  predicate Fits(store: seq<Packet>, p: Packet) {
    var previous := Lookup(store, p.topic);
    && (previous.Some? || |store| < 1024)
    && TotalWeight(store) - (if previous.Some? then Weight(previous.value) else 0) + Weight(p) <= 8_388_608
  }

  /** An empty packet erases its topic, one that fits takes its place, and no other topic is touched. */
  ghost predicate Follows(was: seq<Packet>, now: seq<Packet>, p: Packet) {
    && (forall t :: t != p.topic ==> Lookup(now, t) == Lookup(was, t))
    && Lookup(now, p.topic) == if !p.retain then Lookup(was, p.topic)
                               else if p.payload == [] then None
                               else if Fits(was, p) then Some(p)
                               else Lookup(was, p.topic)
  }

  lemma StoreFollows(sh: Shared, p: Packet)
    requires RetainedOk(sh)
    ensures Follows(sh.retained, Retained(sh, p).retained, p)
  {
    RetainedIs(sh, p);
    StoredIsWeight(sh.retained);
  }

  /** A publication that is allowed is stored as it should be; one that is not ends its client. */
  lemma PublishDoes(w: World, c: nat, p: Packet, allowed: bool)
    requires Inv(w) && c < |w.peers| && w.peers[c].phase.Active?
    ensures var v := Next(w, Operate(c, Publish(p, allowed)));
            && OnlyClient(w, v, c)
            && (if allowed then GoesOn(w.peers[c], v.peers[c], w.peers[c].subs) && Follows(w.sh.retained, v.sh.retained, p)
                else v.peers[c].phase.Closed? && v.sh.retained == w.sh.retained)
  {
    StoreFollows(w.sh, p);
    OneMoves(w, Operate(c, Publish(p, allowed)));
    PublishMoves(w.peers[c], w.sh, p, allowed);
  }

  lemma PublishMoves(p: Peer, sh: Shared, packet: Packet, allowed: bool)
    requires p.phase.Active? && SubsOk(p.subs)
    ensures var (q, sh') := Operated(p, sh, Publish(packet, allowed));
            if allowed then GoesOn(p, q, p.subs) && sh' == Retained(sh, packet) else Ended(p, q, sh, sh')
  {
    var q := Arrived(p, Publish(packet, allowed));
    EndIs(q.(trace := q.trace.(ran := q.trace.ran + [Publish(packet, allowed)])), sh, false);
  }

  /** The server's own publications are stored alike. */
  lemma ServerPublishDoes(w: World, p: Packet)
    requires Inv(w)
    ensures var v := Next(w, ServerPublish(p)); v.peers == w.peers && Follows(w.sh.retained, v.sh.retained, p)
  {
    StoreFollows(w.sh, p);
  }

  // ---------------------------------------------------------------- subscriptions

  /** The filter is valid and allowed, and the client has it already or is within all three limits. */
  predicate MayHave(w: World, c: nat, filter: (string, bool))
    requires c < |w.peers|
  {
    var (topic, allowed) := filter;
    && ValidFilter(topic) && allowed
    && (topic in w.peers[c].subs
        || (|w.peers[c].subs| < 128 && Subscriptions(w.peers) < 4096
            && SubscriptionBytes(w.peers) + ByteLength(topic) <= 1_048_576))
  }

  lemma GrantedIs(w: World, c: nat, filter: (string, bool))
    requires Inv(w) && c < |w.peers|
    ensures var (subs, sh, code) := Granted(w.peers[c].subs, w.sh, filter);
            && code == (if MayHave(w, c, filter) then 0 else 128)
            && subs == if MayHave(w, c, filter) && filter.0 !in w.peers[c].subs then w.peers[c].subs + [filter.0] else w.peers[c].subs
  {
  }

  /** The broker when the first `i` filters of a SUBSCRIBE have been dealt with. */
  function Upon(w: World, c: nat, filters: seq<(string, bool)>, i: nat): World
    requires i <= |filters|
  {
    Next(w, Operate(c, Subscribe(filters[..i])))
  }

  lemma UponIs(w: World, c: nat, filters: seq<(string, bool)>, i: nat)
    requires Inv(w) && c < |w.peers| && w.peers[c].phase.Active? && i <= |filters|
    ensures var u, (subs, sh, _) := Upon(w, c, filters, i), GrantedAll(w.peers[c].subs, w.sh, filters[..i]);
            OnlyClient(w, u, c) && GoesOn(w.peers[c], u.peers[c], subs) && u.sh == sh && sh.retained == w.sh.retained
  {
    OneMoves(w, Operate(c, Subscribe(filters[..i])));
    SubscribeMoves(w.peers[c], w.sh, filters[..i]);
  }

  lemma UponKeepsInv(w: World, c: nat, filters: seq<(string, bool)>, i: nat)
    requires Inv(w) && i <= |filters|
    ensures Inv(Upon(w, c, filters, i))
  {
    NextKeepsInv(w, Operate(c, Subscribe(filters[..i])));
  }

  lemma SubscribeMoves(p: Peer, sh: Shared, filters: seq<(string, bool)>)
    requires p.phase.Active?
    ensures var (q, sh'), (subs, sh1, _) := Operated(p, sh, Subscribe(filters)), GrantedAll(p.subs, sh, filters);
            GoesOn(p, q, subs) && sh' == sh1 && sh'.retained == sh.retained
  {
    GrantedAllSettles(p.subs, sh, filters);
  }

  lemma GrantedNext(subs: seq<string>, sh: Shared, filters: seq<(string, bool)>, i: nat)
    requires i < |filters|
    ensures var (subs1, sh1, codes) := GrantedAll(subs, sh, filters[..i]);
            var (subs2, sh2, code) := Granted(subs1, sh1, filters[i]);
            GrantedAll(subs, sh, filters[..i + 1]) == (subs2, sh2, codes + [code])
  {
    assert filters[..i + 1][..i] == filters[..i];
  }

  /** A SUBSCRIBE works through its filters: each is added exactly when the client may have it, and has it not yet. */
  lemma SubscribeDoes(w: World, c: nat, filters: seq<(string, bool)>, i: nat)
    requires Inv(w) && c < |w.peers| && w.peers[c].phase.Active? && i < |filters|
    ensures var u, v := Upon(w, c, filters, i), Upon(w, c, filters, i + 1);
            && Inv(u) && OnlyClient(w, u, c) && OnlyClient(w, v, c)
            && GoesOn(w.peers[c], v.peers[c], v.peers[c].subs) && v.sh.retained == w.sh.retained
            && v.peers[c].subs == if MayHave(u, c, filters[i]) && filters[i].0 !in u.peers[c].subs
                                  then u.peers[c].subs + [filters[i].0] else u.peers[c].subs
  {
    UponIs(w, c, filters, i);
    UponKeepsInv(w, c, filters, i);
    UponIs(w, c, filters, i + 1);
    GrantedNext(w.peers[c].subs, w.sh, filters, i);
    GrantedIs(Upon(w, c, filters, i), c, filters[i]);
  }

  /** Its answer has a code a filter: 0 when the client may have it, and otherwise 128. */
  lemma SubackCodes(w: World, c: nat, filters: seq<(string, bool)>, i: nat, policy: Consent<nat>)
    requires Inv(w) && c < |w.peers| && w.peers[c].phase.Active? && i < |filters|
    ensures var effect := EffectAt(w, c, Subscribe(filters), policy);
            && effect.Suback? && |effect.codes| == |filters|
            && effect.codes[i] == if MayHave(Upon(w, c, filters, i), c, filters[i]) then 0 else 128
  {
    UponIs(w, c, filters, i);
    UponKeepsInv(w, c, filters, i);
    GrantedIs(Upon(w, c, filters, i), c, filters[i]);
    GrantedNext(w.peers[c].subs, w.sh, filters, i);
    GrantCodes(w.peers[c].subs, w.sh, filters[..i]);
    GrantCodes(w.peers[c].subs, w.sh, filters);
    CodesGrow(w.peers[c].subs, w.sh, filters, i + 1, |filters|);
    assert filters[..|filters|] == filters;
  }

  lemma {:induction false} CodesGrow(subs: seq<string>, sh: Shared, filters: seq<(string, bool)>, i: nat, n: nat)
    requires i <= n <= |filters|
    ensures GrantedAll(subs, sh, filters[..i]).2 <= GrantedAll(subs, sh, filters[..n]).2
  {
    if i < n {
      CodesGrow(subs, sh, filters, i, n - 1);
      GrantedNext(subs, sh, filters, n - 1);
    }
  }

  /** An UNSUBSCRIBE takes its topics away, and nothing else. */
  lemma UnsubscribeDoes(w: World, c: nat, topics: seq<string>)
    requires Inv(w) && c < |w.peers| && w.peers[c].phase.Active?
    ensures var v := Next(w, Operate(c, Unsubscribe(topics)));
            && OnlyClient(w, v, c) && GoesOn(w.peers[c], v.peers[c], v.peers[c].subs) && v.sh.retained == w.sh.retained
            && forall t :: t in v.peers[c].subs <==> t in w.peers[c].subs && t !in topics
  {
    OneMoves(w, Operate(c, Unsubscribe(topics)));
    DroppedAllSettles(w.peers[c].subs, w.sh, topics);
  }

  // ---------------------------------------------------------------- who hears of it

  ghost function ViewOf(w: World): map<nat, Peer> { map d: nat | d < |w.peers| :: w.peers[d] }

  ghost function EffectAt(w: World, c: nat, action: Action, policy: Consent<nat>): Effect<nat>
    requires c < |w.peers|
  {
    OperationEffect(ViewOf(w), c, w.peers[c], w.sh, action, policy)
  }

  /** The client is active, has a filter for the topic, and may have what is sent there. */
  ghost predicate Listens(w: World, d: nat, topic: string, policy: Consent<nat>) {
    && d < |w.peers| && w.peers[d].phase.Active? && policy.deliver(d, topic)
    && exists filter :: filter in w.peers[d].subs && TopicMatches(topic, filter)
  }

  lemma ListensIs(w: World, d: nat, p: Packet, policy: Consent<nat>)
    ensures d in Hearers(ViewOf(w), p, policy) <==> Listens(w, d, p.topic, policy)
  {
    if d < |w.peers| {
      var subs := w.peers[d].subs;
      if filter :| filter in subs && TopicMatches(p.topic, filter) {
        var i :| 0 <= i < |subs| && subs[i] == filter;
        assert SomeMatch(p.topic, subs);
      }
    }
  }

  /** An allowed publication goes to everybody who listens, the publisher included. */
  lemma PublishHeard(w: World, c: nat, p: Packet, policy: Consent<nat>)
    requires c < |w.peers| && w.peers[c].phase.Active?
    ensures var effect := EffectAt(w, c, Publish(p, true), policy);
            effect.Heard? && effect.packet == p && forall d :: d in effect.clients <==> Listens(w, d, p.topic, policy)
  {
    assert ViewOf(w)[c := w.peers[c]] == ViewOf(w);
    forall d
      ensures d in Hearers(ViewOf(w), p, policy) <==> Listens(w, d, p.topic, policy)
    {
      ListensIs(w, d, p, policy);
    }
  }

  /** After a SUBSCRIBE, the retained packets that the client had no filter for before and now has follow, in store order. */
  lemma SubscribeReplays(w: World, c: nat, filters: seq<(string, bool)>, policy: Consent<nat>)
    requires Inv(w) && c < |w.peers| && w.peers[c].phase.Active?
    ensures var effect, v := EffectAt(w, c, Subscribe(filters), policy), Next(w, Operate(c, Subscribe(filters)));
            effect.Suback? && effect.replayed == Filter(p => p in effect.replayed, w.sh.retained)
            && forall p :: p in effect.replayed <==>
                 p in w.sh.retained && Listens(v, c, p.topic, policy) && !Listens(w, c, p.topic, policy)
  {
    var effect, v := EffectAt(w, c, Subscribe(filters), policy), Next(w, Operate(c, Subscribe(filters)));
    var before, now := w.peers[c].subs, GrantedAll(w.peers[c].subs, w.sh, filters).0;
    var keep := Replayable(before, now[|before|..], c, policy);
    assert effect.replayed == Filter(keep, w.sh.retained);
    SubscribeMoves(w.peers[c], w.sh, filters);
    OneMoves(w, Operate(c, Subscribe(filters)));
    forall p
      ensures keep(p) <==> Listens(v, c, p.topic, policy) && !Listens(w, c, p.topic, policy)
    {
      NewlyListens(w, v, c, p, before, now, policy);
    }
    FilterAgain(keep, w.sh.retained, effect.replayed);
  }

  lemma NewlyListens(w: World, v: World, c: nat, p: Packet, before: seq<string>, now: seq<string>, policy: Consent<nat>)
    requires c < |w.peers| == |v.peers| && w.peers[c].phase.Active? && v.peers[c].phase.Active?
    requires w.peers[c].subs == before && v.peers[c].subs == now && before <= now
    ensures Replayable(before, now[|before|..], c, policy)(p) <==> Listens(v, c, p.topic, policy) && !Listens(w, c, p.topic, policy)
  {
    assert now == before + now[|before|..];
    MatchAppend(p.topic, before, now[|before|..]);
    ListensIs(w, c, p, policy);
    ListensIs(v, c, p, policy);
  }

  lemma MatchAppend(topic: string, a: seq<string>, b: seq<string>)
    ensures SomeMatch(topic, a + b) <==> SomeMatch(topic, a) || SomeMatch(topic, b)
  {
    if i :| 0 <= i < |a| && TopicMatches(topic, a[i]) {
      assert (a + b)[i] == a[i];
    }
    if i :| 0 <= i < |b| && TopicMatches(topic, b[i]) {
      assert (a + b)[|a| + i] == b[i];
    }
    if i :| 0 <= i < |a + b| && TopicMatches(topic, (a + b)[i]) {
      if i < |a| {
        assert TopicMatches(topic, a[i]);
      } else {
        assert TopicMatches(topic, b[i - |a|]);
      }
    }
  }

  lemma {:induction false} FilterAgain(keep: Packet -> bool, s: seq<Packet>, all: seq<Packet>)
    requires forall p :: p in s ==> (keep(p) <==> p in all)
    ensures Filter(keep, s) == Filter(p => p in all, s)
  {
    if s != [] {
      FilterAgain(keep, s[1..], all);
    }
  }

  /** A client that ends otherwise than by saying so has its will sent, not retained, to everybody else who listens. */
  lemma WillHeard(w: World, c: nat, graceful: bool, policy: Consent<nat>)
    requires c < |w.peers| && !w.peers[c].phase.Closed?
    ensures var p, effect := w.peers[c], EndEffect(ViewOf(w), c, w.peers[c], graceful, policy);
            if p.phase.Active? && !graceful && p.will.Some? && policy.publish(c, Packet(p.will.value.topic, p.will.value.payload, "", false))
            then effect.Heard? && effect.packet == Packet(p.will.value.topic, p.will.value.payload, "", false)
                 && forall d :: d in effect.clients <==> d != c && Listens(w, d, p.will.value.topic, policy)
            else effect.Nothing?
  {
    if w.peers[c].will.Some? {
      var packet := AsPublished(w.peers[c].will.value);
      forall d
        ensures d in Hearers(ViewOf(w) - {c}, packet, policy) <==> d != c && Listens(w, d, packet.topic, policy)
      {
        ListensIs(w, d, packet, policy);
      }
    }
  }

  // ---------------------------------------------------------------- the protocol of a connection

  /** What an operation counts for while it waits. */
  function Load(action: Action): nat {
    match action
    case Publish(packet, _) => ByteLength(packet.topic) + |packet.payload|
    case Pubrel => 4
    case Subscribe(filters) => 4 + 3 * |filters| + TotalLength(Topics(filters))
    case Unsubscribe(topics) => 4 + 2 * |topics| + TotalLength(topics)
    case Ping => 2
  }

  function Topics(filters: seq<(string, bool)>): seq<string> { seq(|filters|, i requires 0 <= i < |filters| => filters[i].0) }

  lemma {:induction false} FilterCostIs(filters: seq<(string, bool)>)
    ensures FilterCost(filters) == 3 * |filters| + TotalLength(Topics(filters))
  {
    if filters != [] {
      FilterCostIs(filters[1..]);
      assert Topics(filters)[1..] == Topics(filters[1..]);
    }
  }

  function TotalLoad(actions: seq<Action>): nat {
    if actions == [] then 0 else TotalLoad(actions[..|actions| - 1]) + Load(actions[|actions| - 1])
  }

  lemma {:induction false} TotalLoadIs(actions: seq<Action>)
    ensures TotalCost(actions) == TotalLoad(actions)
  {
    if actions != [] {
      TotalLoadIs(actions[..|actions| - 1]);
      CostIs(actions[|actions| - 1]);
    }
  }

  lemma CostIs(action: Action)
    ensures action.Cost() == Load(action)
  {
    if action.Subscribe? {
      FilterCostIs(action.filters);
    }
  }

  /** Before its answer a client may send eight operations of 64 KiB in all, which wait; any other ends it, and so does one before CONNECT. */
  lemma WaitingDoes(w: World, c: nat, action: Action)
    requires Inv(w) && c < |w.peers| && !w.peers[c].phase.Active? && !w.peers[c].phase.Closed?
    ensures var p, v := w.peers[c], Next(w, Operate(c, action));
            && OnlyClient(w, v, c) && v.sh.retained == w.sh.retained
            && (if p.phase.Pending? && |p.deferred| < 8 && TotalLoad(p.deferred + [action]) <= 65_536
                then v.peers[c].phase.Pending? && v.peers[c].deferred == p.deferred + [action]
                else v.peers[c].phase.Closed?)
  {
    OneMoves(w, Operate(c, action));
    WaitingMoves(w.peers[c], w.sh, action);
  }

  lemma WaitingMoves(p: Peer, sh: Shared, action: Action)
    requires PeerOk(p) && Waiting(p)
    ensures var (q, sh') := Operated(p, sh, action);
            if p.phase.Pending? && |p.deferred| < 8 && TotalLoad(p.deferred + [action]) <= 65_536
            then q.phase.Pending? && q.deferred == p.deferred + [action] && sh' == sh
            else Ended(p, q, sh, sh')
  {
    CostIs(action);
    TotalLoadIs(p.deferred);
    assert (p.deferred + [action])[..|p.deferred|] == p.deferred;
    EndIs(Arrived(p, action), sh, false);
  }

  /** The first CONNECT awaits its answer, and a second one ends the client; so do more than 64 KiB before the answer. */
  lemma ConnectDoes(w: World, c: nat)
    requires Inv(w) && c < |w.peers| && !w.peers[c].phase.Closed?
    ensures var v := Next(w, Connect(c));
            && OnlyClient(w, v, c) && v.sh.retained == w.sh.retained
            && (if w.peers[c].phase.New? then v.peers[c] == w.peers[c].(phase := Pending) else v.peers[c].phase.Closed?)
  {
    OneMoves(w, Connect(c));
    EndIs(w.peers[c], w.sh, false);
  }

  lemma DataDoes(w: World, c: nat, n: nat)
    requires Inv(w) && c < |w.peers|
    ensures var p, v := w.peers[c], Next(w, Data(c, n));
            && OnlyClient(w, v, c) && v.sh.retained == w.sh.retained
            && v.peers[c].phase == (if (p.phase.New? || p.phase.Pending?) && p.raw + n > 65_536 then Closed else p.phase)
            && (p.phase.Active? ==> v.peers[c] == p)
  {
    OneMoves(w, Data(c, n));
    if Waiting(w.peers[c]) {
      EndIs(w.peers[c].(raw := w.peers[c].raw + n), w.sh, false);
    }
  }

  /** A refused client is sent code 5 and ends without its will; its operations are never run. */
  lemma RefusalDoes(w: World, c: nat, will: Option<Packet>, stops: Option<nat>)
    requires Inv(w) && c < |w.peers| && w.peers[c].phase.Pending?
    ensures var v := Next(w, Answer(c, false, will, stops));
            && OnlyClient(w, v, c) && v.sh.retained == w.sh.retained
            && v.peers[c].phase.Closed? && v.peers[c].trace.connacks == [5] && v.peers[c].trace.ran == []
            && v.peers[c].trace.wills == 0
  {
    var p := w.peers[c];
    OneMoves(w, Answer(c, false, will, stops));
    EndIs(p.(trace := p.trace.(connacks := p.trace.connacks + [5])), w.sh, true);
  }

  /** A client that has just been admitted, with its will, and with nothing waiting. */
  function Welcomed(w: World, c: nat, will: Option<Packet>): World
    requires c < |w.peers|
  {
    var p := w.peers[c];
    World(w.peers[c := p.(phase := Active, will := will, deferred := [], deferredBytes := 0,
                          trace := p.trace.(connacks := [0], arrived := []))],
          w.pending - {c}, w.sh)
  }

  /** The operations, sent after the answer one by one. */
  function Sent(c: nat, actions: seq<Action>): (es: seq<Event>)
    ensures |es| == |actions|
  {
    seq(|actions|, i requires 0 <= i < |actions| => Operate(c, actions[i]))
  }

  /** Alike but for the record of what has arrived. */
  predicate SamePeer(p: Peer, q: Peer) { p == q.(trace := q.trace.(arrived := p.trace.arrived)) }

  predicate Alike(v: World, u: World, c: nat) {
    && c < |u.peers| && v == u.(peers := v.peers) && |v.peers| == |u.peers| && SamePeer(v.peers[c], u.peers[c])
    && v.peers == u.peers[c := v.peers[c]]
  }

  /**
   * Waiting makes no difference: what an admitted client sent before its answer is run as if it had been sent, in this order,
   * after it.
   */
  lemma AnswerDoes(w: World, c: nat, will: Option<Packet>)
    requires Inv(w) && c < |w.peers| && w.peers[c].phase.Pending?
    ensures Alike(Next(w, Answer(c, true, will, None)), Run(Welcomed(w, c, will), Sent(c, w.peers[c].deferred)), c)
  {
    var actions := w.peers[c].deferred;
    RunsAlike(w, c, will, actions);
    OneMoves(w, Answer(c, true, will, None));
  }

  /** The state after `actions` of the waiting operations. */
  function Halfway(w: World, c: nat, will: Option<Packet>, actions: seq<Action>): World
    requires c < |w.peers|
  {
    var (q, sh) := PerformedAll(Admitted(w.peers[c], will), w.sh, actions);
    World(w.peers[c := q], w.pending - {c}, sh)
  }

  lemma {:induction false} RunsAlike(w: World, c: nat, will: Option<Packet>, actions: seq<Action>)
    requires c < |w.peers| && w.peers[c].phase.Pending? && w.peers[c].trace.connacks == []
    ensures Alike(Halfway(w, c, will, actions), Run(Welcomed(w, c, will), Sent(c, actions)), c)
    ensures !Waiting(Halfway(w, c, will, actions).peers[c]) && c !in Halfway(w, c, will, actions).pending
    decreases |actions|
  {
    if actions != [] {
      var n := |actions| - 1;
      var e := Operate(c, actions[n]);
      RunsAlike(w, c, will, actions[..n]);
      assert Sent(c, actions) == Sent(c, actions[..n]) + [e];
      RunEnds(Welcomed(w, c, will), Sent(c, actions[..n]), e);
      OneAlike(Halfway(w, c, will, actions[..n]), Run(Welcomed(w, c, will), Sent(c, actions[..n])), c, actions[n]);
    }
  }

  lemma {:induction false} RunEnds(w: World, es: seq<Event>, e: Event)
    ensures Run(w, es + [e]) == Next(Run(w, es), e)
    decreases |es|
  {
    if es == [] {
      assert es + [e] == [e] && [e][1..] == [];
    } else {
      assert (es + [e])[1..] == es[1..] + [e];
      RunEnds(Next(w, es[0]), es[1..], e);
    }
  }

  lemma OneAlike(v: World, u: World, c: nat, action: Action)
    requires Alike(v, u, c) && !Waiting(v.peers[c]) && c !in v.pending
    ensures var (q, sh) := if v.peers[c].phase.Active? then Performed(v.peers[c], v.sh, action) else (v.peers[c], v.sh);
            Alike(World(v.peers[c := q], v.pending, sh), Next(u, Operate(c, action)), c) && !Waiting(q)
  {
    OneMoves(u, Operate(c, action));
    SameMove(v.peers[c], u.peers[c], v.sh, action);
  }

  lemma SameMove(p: Peer, q: Peer, sh: Shared, action: Action)
    requires SamePeer(p, q) && !Waiting(p)
    ensures var (r, sh'), (t, sh1) := (if p.phase.Active? then Performed(p, sh, action) else (p, sh)), Operated(q, sh, action);
            SamePeer(r, t) && sh' == sh1 && !Waiting(r)
  {
  }

  /** With a listener that ends the client, or an operation that throws, it is as if the connection broke after that many. */
  lemma AnswerStops(w: World, c: nat, will: Option<Packet>, n: nat)
    requires Inv(w) && c < |w.peers| && w.peers[c].phase.Pending?
    ensures var actions := w.peers[c].deferred;
            var some := if n < |actions| then actions[..n] else actions;
            Alike(Next(w, Answer(c, true, will, Some(n))), Next(Run(Welcomed(w, c, will), Sent(c, some)), End(c, false)), c)
  {
    var actions := w.peers[c].deferred;
    var some := if n < |actions| then actions[..n] else actions;
    RunsAlike(w, c, will, some);
    StopsHalfway(w, c, will, n);
    OneEnds(Halfway(w, c, will, some), Run(Welcomed(w, c, will), Sent(c, some)), c);
  }

  lemma StopsHalfway(w: World, c: nat, will: Option<Packet>, n: nat)
    requires c < |w.peers| && w.peers[c].phase.Pending?
    requires var some := if n < |w.peers[c].deferred| then w.peers[c].deferred[..n] else w.peers[c].deferred;
             !Waiting(Halfway(w, c, will, some).peers[c])
    ensures var some := if n < |w.peers[c].deferred| then w.peers[c].deferred[..n] else w.peers[c].deferred;
            var v := Halfway(w, c, will, some);
            var (q, sh) := if v.peers[c].phase.Active? then Destroyed(v.peers[c], v.sh, false) else (v.peers[c], v.sh);
            Next(w, Answer(c, true, will, Some(n))) == World(v.peers[c := q], v.pending, sh)
  {
    OneMoves(w, Answer(c, true, will, Some(n)));
  }

  lemma OneEnds(v: World, u: World, c: nat)
    requires Alike(v, u, c) && !Waiting(v.peers[c]) && c !in v.pending
    ensures var (q, sh) := if v.peers[c].phase.Active? then Destroyed(v.peers[c], v.sh, false) else (v.peers[c], v.sh);
            Alike(World(v.peers[c := q], v.pending, sh), Next(u, End(c, false)), c)
  {
    OneMoves(u, End(c, false));
  }

  /** An end takes the client's subscriptions and nothing else; its will counts if it was active and did not say goodbye. */
  lemma EndDoes(w: World, c: nat, graceful: bool)
    requires Inv(w) && c < |w.peers| && !w.peers[c].phase.Closed?
    ensures var p, v := w.peers[c], Next(w, End(c, graceful));
            && OnlyClient(w, v, c) && v.sh.retained == w.sh.retained
            && v.peers[c].phase.Closed? && v.peers[c].subs == [] && v.peers[c].will == p.will && c !in v.pending
            && v.peers[c].trace.wills == if p.phase.Active? && !graceful && p.will.Some? then 1 else 0
  {
    OneMoves(w, End(c, graceful));
    EndIs(w.peers[c], w.sh, graceful);
  }

  /** There is room for 64 connections that have no answer yet. */
  lemma AcceptDoes(w: World)
    requires Inv(w)
    ensures var v := Next(w, Accept);
            if |WaitingClients(w.peers)| >= 64 then v == w
            else |v.peers| == |w.peers| + 1 && v.peers[..|w.peers|] == w.peers && v.sh == w.sh
                 && v.peers[|w.peers|].phase.New? && v.peers[|w.peers|].subs == []
  {
  }
}
