/** The broker's own methods: loops over subscriptions and queues, proved to be the steps of MqttBroker. */
module MqttConnections {
  import opened Common
  import opened MqttTopics
  import opened MqttBroker

  class Client {
    var phase: Phase
    var subscriptions: seq<string>
    var deferred: seq<Action>
    var deferredBytes: int
    var pendingBytes: nat
    var will: Option<Packet>
    ghost var trace: Trace

    ghost function State(): Peer reads this {
      Peer(phase, subscriptions, deferred, deferredBytes, pendingBytes, will, trace)
    }

    constructor ()
      ensures State() == ACCEPTED
    {
      phase, subscriptions, deferred, deferredBytes, pendingBytes, will := New, [], [], 0, 0, None;
      trace := ACCEPTED.trace;
    }
  }

  method AnyMatches(topic: string, filters: seq<string>) returns (r: bool)
    ensures r <==> SomeMatch(topic, filters)
  {
    for i := 0 to |filters|
      invariant forall j :: 0 <= j < i ==> !TopicMatches(topic, filters[j])
    {
      var matched := MqttTopicMatches(topic, filters[i]);
      if matched {
        return true;
      }
    }
    return false;
  }

  class Broker {
    var clients: set<Client>
    var pending: set<Client>
    var retainMap: seq<Packet>
    var retainedBytes: int
    var subscriptionCount: int
    var subscriptionBytes: int

    function Totals(): Shared reads this {
      Shared(subscriptionCount, subscriptionBytes, retainMap, retainedBytes)
    }

    ghost function View(): map<Client, Peer> reads this, clients { map c | c in clients :: c.State() }

    /** A client is among the pending until it is answered, and among the clients until it ends. */
    ghost predicate Tracks(c: Client) reads this, c {
      (c in pending <==> Waiting(c.State())) && (c in clients <==> !c.phase.Closed?)
    }

    constructor ()
      ensures Totals() == Shared(0, 0, [], 0) && clients == {} && pending == {}
    {
      clients, pending, retainMap, retainedBytes, subscriptionCount, subscriptionBytes := {}, {}, [], 0, 0, 0;
    }

    method Accept() returns (client: Option<Client>)
      modifies this
      ensures client.None? <==> old(|pending|) >= MAX_PENDING
      ensures Totals() == old(Totals())
      ensures client.None? ==> clients == old(clients) && pending == old(pending)
      ensures client.Some? ==> fresh(client.value) && client.value.State() == ACCEPTED && Tracks(client.value)
                               && clients == old(clients) + {client.value} && pending == old(pending) + {client.value}
    {
      if |pending| >= MAX_PENDING {
        return None;
      }
      var c := new Client();
      clients, pending := clients + {c}, pending + {c};
      client := Some(c);
    }

    method Grant(client: Client, topic: string, allowed: bool) returns (code: nat)
      modifies this`subscriptionCount, this`subscriptionBytes, client`subscriptions
      ensures (client.subscriptions, Totals(), code) == Granted(old(client.subscriptions), old(Totals()), (topic, allowed))
    {
      if !ValidFilter(topic) || !allowed {
        return REFUSED;
      }
      if topic in client.subscriptions {
        return 0;
      }
      var bytes := ByteLength(topic);
      if || |client.subscriptions| >= MAX_CLIENT_SUBSCRIPTIONS
         || subscriptionCount >= MAX_SUBSCRIPTIONS
         || subscriptionBytes + bytes > MAX_FILTER_BYTES {
        return REFUSED;
      }
      client.subscriptions := client.subscriptions + [topic];
      subscriptionCount := subscriptionCount + 1;
      subscriptionBytes := subscriptionBytes + bytes;
      code := 0;
    }

    method Subscribe(client: Client, filters: seq<(string, bool)>, policy: Consent<Client>)
      returns (granted: seq<nat>, replayed: seq<Packet>)
      modifies this`subscriptionCount, this`subscriptionBytes, client`subscriptions
      ensures (client.subscriptions, Totals(), granted)
              == GrantedAll(old(client.subscriptions), old(Totals()), filters)
      ensures old(client.subscriptions) <= client.subscriptions
      ensures replayed == Filter(
                Replayable(old(client.subscriptions), client.subscriptions[|old(client.subscriptions)|..], client, policy),
                retainMap)
    {
      var previous := client.subscriptions;
      granted := [];
      for i := 0 to |filters|
        invariant previous <= client.subscriptions
        invariant (client.subscriptions, Totals(), granted) == GrantedAll(previous, old(Totals()), filters[..i])
      {
        assert filters[..i + 1][..i] == filters[..i];
        var code := Grant(client, filters[i].0, filters[i].1);
        granted := granted + [code];
      }
      assert filters[..|filters|] == filters;
      replayed := Replay(previous, client.subscriptions[|previous|..], client, policy);
    }

    method Replay(previous: seq<string>, added: seq<string>, client: Client, policy: Consent<Client>)
      returns (replayed: seq<Packet>)
      ensures replayed == Filter(Replayable(previous, added, client, policy), retainMap)
    {
      replayed := [];
      for i := 0 to |retainMap|
        invariant replayed == Filter(Replayable(previous, added, client, policy), retainMap[..i])
      {
        var p := retainMap[i];
        var before := AnyMatches(p.topic, previous);
        var now := AnyMatches(p.topic, added);
        if !before && now && policy.deliver(client, p.topic) {
          replayed := replayed + [p];
        }
        FilterNext(Replayable(previous, added, client, policy), retainMap, i);
      }
      assert retainMap[..|retainMap|] == retainMap;
    }

    method RemoveSubscription(client: Client, topic: string)
      modifies this`subscriptionCount, this`subscriptionBytes, client`subscriptions
      ensures (client.subscriptions, Totals()) == Dropped(old(client.subscriptions), old(Totals()), topic)
    {
      if topic !in client.subscriptions {
        return;
      }
      client.subscriptions := Without(client.subscriptions, topic);
      subscriptionCount := subscriptionCount - 1;
      subscriptionBytes := subscriptionBytes - ByteLength(topic);
    }

    method Unsubscribe(client: Client, topics: seq<string>)
      modifies this`subscriptionCount, this`subscriptionBytes, client`subscriptions
      ensures (client.subscriptions, Totals()) == DroppedAll(old(client.subscriptions), old(Totals()), topics)
    {
      for i := 0 to |topics|
        invariant (client.subscriptions, Totals()) == DroppedAll(old(client.subscriptions), old(Totals()), topics[..i])
      {
        assert topics[..i + 1][..i] == topics[..i];
        RemoveSubscription(client, topics[i]);
      }
      assert topics[..|topics|] == topics;
    }

    method Retain(packet: Packet)
      modifies this`retainMap, this`retainedBytes
      ensures Totals() == Retained(old(Totals()), packet)
    {
      if packet.retain {
        var previous := Lookup(retainMap, packet.topic);
        var previousBytes := if previous.Some? then RetainedSize(previous.value) else 0;
        if packet.payload == [] {
          retainMap := Erase(retainMap, packet.topic);
          retainedBytes := retainedBytes - previousBytes;
          return;
        }
        var bytes := RetainedSize(packet);
        if || (previous.None? && |retainMap| >= MAX_RETAINED_TOPICS)
           || retainedBytes - previousBytes + bytes > MAX_RETAINED_BYTES {
          return;
        }
        retainMap := Put(retainMap, packet);
        retainedBytes := retainedBytes + (bytes - previousBytes);
      }
    }

    method TryPublish(client: Client, packet: Packet, policy: Consent<Client>) returns (sent: bool)
      ensures sent <==> Hears(client.State(), client, packet, policy)
    {
      if !client.phase.Active? || !policy.deliver(client, packet.topic) {
        return false;
      }
      sent := AnyMatches(packet.topic, client.subscriptions);
    }

    /** A packet goes once to every active client that the policy lets have it and that has a filter for it. */
    method PublishAllowed(packet: Packet, policy: Consent<Client>) returns (receivers: set<Client>)
      modifies this`retainMap, this`retainedBytes
      ensures Totals() == Retained(old(Totals()), packet)
      ensures receivers == Hearers(View(), packet, policy)
    {
      receivers := SendToAll(packet, policy);
      Retain(packet);
    }

    method SendToAll(packet: Packet, policy: Consent<Client>) returns (receivers: set<Client>)
      ensures receivers == Hearers(View(), packet, policy)
    {
      receivers := {};
      var rest := clients;
      while rest != {}
        invariant rest <= clients
        invariant receivers <= clients - rest
        invariant forall c :: c in clients && c !in rest ==> (c in receivers <==> Hears(c.State(), c, packet, policy))
        decreases |rest|
      {
        var c :| c in rest;
        var sent := TryPublish(c, packet, policy);
        if sent {
          receivers := receivers + {c};
        }
        rest := rest - {c};
      }
    }

    /** Nothing happens to any other client. */
    ghost predicate OthersKept(view0: map<Client, Peer>, pending0: set<Client>, client: Client) reads this, clients {
      View() - {client} == view0 - {client} && pending - {client} == pending0 - {client}
    }

    /** The will of a client that has just ended goes to the others, if the policy lets it be published. */
    method LastWord(client: Client, policy: Consent<Client>) returns (effect: Effect<Client>)
      requires client.phase.Closed? && client.will.Some?
      modifies this`retainMap, this`retainedBytes
      ensures Totals() == old(Totals())
      ensures var packet := AsPublished(client.will.value);
              effect == if policy.publish(client, packet) then Heard(packet, Hearers(View() - {client}, packet, policy)) else Nothing
    {
      var packet := AsPublished(client.will.value);
      if !policy.publish(client, packet) {
        return Nothing;
      }
      var receivers := PublishAllowed(packet, policy);
      assert receivers == Hearers(View() - {client}, packet, policy);
      effect := Heard(packet, receivers);
    }

    method Destroy(client: Client, graceful: bool, policy: Consent<Client>) returns (effect: Effect<Client>)
      requires Tracks(client)
      modifies this, client
      ensures (client.State(), Totals()) == Destroyed(old(client.State()), old(Totals()), graceful)
      ensures effect == EndEffect(old(View()), client, old(client.State()), graceful, policy)
      ensures Tracks(client) && OthersKept(old(View()), old(pending), client)
    {
      effect := Nothing;
      if client.phase.Closed? {
        return;
      }
      ghost var was := View();
      var willing := client.phase.Active? && !graceful && client.will.Some?;
      Shut(client, graceful);
      if willing {
        effect := LastWord(client, policy);
      }
      clients := clients - {client};
      assert View() - {client} == was - {client};
    }

    method Shut(client: Client, graceful: bool)
      requires Tracks(client) && !client.phase.Closed?
      modifies this, client
      ensures (client.State(), Totals()) == Destroyed(old(client.State()), old(Totals()), graceful)
      ensures client.phase.Closed? && client.will == old(client.will)
      ensures clients == old(clients) && View() - {client} == old(View()) - {client} && pending == old(pending) - {client}
    {
      var willing := client.phase.Active? && !graceful && client.will.Some?;
      ghost var last := client.phase;
      client.phase := Closed;
      client.deferred, client.deferredBytes := [], 0;
      var topics := client.subscriptions;
      Unsubscribe(client, topics);
      DroppedAllEmpties(topics, old(Totals()));
      pending := pending - {client};
      client.trace := client.trace.(
        ends := client.trace.ends + 1,
        wills := client.trace.wills + if willing then 1 else 0,
        last := last,
        graceful := graceful);
    }

    method Run(client: Client, action: Action, policy: Consent<Client>) returns (effect: Effect<Client>)
      requires Tracks(client) && client.phase.Active?
      modifies this, client
      ensures (client.State(), Totals()) == Performed(old(client.State()), old(Totals()), action)
      ensures effect == EffectOf(old(View()), client, old(client.State()), old(Totals()), action, policy)
      ensures Tracks(client) && OthersKept(old(View()), old(pending), client)
    {
      ghost var was := View();
      effect := Nothing;
      match action
      case Publish(packet, allowed) => effect := RunPublish(client, packet, allowed, policy);
      case Subscribe(filters) =>
        NoteRun(client, action);
        var granted, replayed := Subscribe(client, filters, policy);
        effect := Suback(granted, replayed);
        assert View() - {client} == was - {client};
      case Unsubscribe(topics) =>
        NoteRun(client, action);
        Unsubscribe(client, topics);
        assert View() - {client} == was - {client};
      case _ =>
        NoteRun(client, action);
        assert View() - {client} == was - {client};
    }

    /** The operation goes on record, and nothing else changes. */
    method NoteRun(client: Client, action: Action)
      requires client in clients
      modifies client`trace
      ensures client.State() == old(client.State()).(trace := old(client.State()).trace.(ran := old(client.State()).trace.ran + [action]))
      ensures View() == old(View())[client := client.State()]
    {
      client.trace := client.trace.(ran := client.trace.ran + [action]);
    }

    method RunPublish(client: Client, packet: Packet, allowed: bool, policy: Consent<Client>) returns (effect: Effect<Client>)
      requires Tracks(client) && client.phase.Active?
      modifies this, client
      ensures (client.State(), Totals()) == Performed(old(client.State()), old(Totals()), Action.Publish(packet, allowed))
      ensures effect == EffectOf(old(View()), client, old(client.State()), old(Totals()), Action.Publish(packet, allowed), policy)
      ensures Tracks(client) && OthersKept(old(View()), old(pending), client)
    {
      ghost var was, before := View(), client.State();
      NoteRun(client, Action.Publish(packet, allowed));
      if allowed {
        var receivers := PublishAllowed(packet, policy);
        SameHearers(was, client, before, client.State(), packet, policy);
        effect := Heard(packet, receivers);
      } else {
        SameEnd(was, client, before, client.State(), policy);
        effect := Destroy(client, false, policy);
      }
      assert View() - {client} == was - {client};
    }

    method NoteArrival(client: Client, action: Action)
      modifies client`trace
      ensures client.State() == if old(client.phase).Closed? then old(client.State())
                                else old(client.State()).(trace := old(client.State()).trace.(arrived := old(client.State()).trace.arrived + [action]))
      ensures View() - {client} == old(View()) - {client} && View().Keys == old(View()).Keys
    {
      if !client.phase.Closed? {
        client.trace := client.trace.(arrived := client.trace.arrived + [action]);
      }
    }

    method Operation(client: Client, action: Action, policy: Consent<Client>) returns (effect: Effect<Client>)
      requires Tracks(client)
      modifies this, client
      ensures (client.State(), Totals()) == Operated(old(client.State()), old(Totals()), action)
      ensures effect == OperationEffect(old(View()), client, old(client.State()), old(Totals()), action, policy)
      ensures Tracks(client) && OthersKept(old(View()), old(pending), client)
    {
      ghost var was, before := View(), client.State();
      NoteArrival(client, action);
      SameEffect(was, View(), client, before, client.State(), Totals(), action, policy);
      if client.phase.Active? {
        effect := Run(client, action, policy);
        return;
      }
      var bytes := action.Cost();
      if || !client.phase.Pending?
         || |client.deferred| >= MAX_DEFERRED_PACKETS
         || client.deferredBytes + bytes > MAX_DEFERRED_BYTES {
        effect := Destroy(client, false, policy);
        return;
      }
      client.deferred := client.deferred + [action];
      client.deferredBytes := client.deferredBytes + bytes;
      effect := Nothing;
    }

    method OnConnect(client: Client, policy: Consent<Client>) returns (effect: Effect<Client>)
      requires Tracks(client)
      modifies this, client
      ensures (client.State(), Totals()) == ConnectReceived(old(client.State()), old(Totals()))
      ensures effect == EndEffect(old(View()), client, old(client.State()), false, policy)
      ensures Tracks(client) && OthersKept(old(View()), old(pending), client)
    {
      if !client.phase.New? {
        effect := Destroy(client, false, policy);
        return;
      }
      client.phase := Pending;
      effect := Nothing;
    }

    method OnAnswer(client: Client, allowed: bool, will: Option<Packet>, stops: Option<nat>, policy: Consent<Client>)
      returns (effects: seq<Effect<Client>>)
      requires Tracks(client)
      modifies this, client
      ensures (client.State(), Totals()) == Answered(old(client.State()), old(Totals()), allowed, will, stops)
      ensures effects == AnswerEffects(old(View()), client, old(client.State()), old(Totals()), allowed, will, stops, policy)
      ensures Tracks(client) && OthersKept(old(View()), old(pending), client)
    {
      effects := [];
      if !client.phase.Pending? {
        return;
      }
      ghost var was, sh := View(), Totals();
      if !allowed {
        client.trace := client.trace.(connacks := client.trace.connacks + [5]);
        assert View() - {client} == was - {client};
        var none := Destroy(client, true, policy);
        return;
      }
      pending := pending - {client};
      client.will := will;
      client.trace := client.trace.(connacks := client.trace.connacks + [0]);
      client.phase := Active;
      var deferred := client.deferred;
      client.deferred, client.deferredBytes := [], 0;
      ghost var start := client.State();
      assert View() - {client} == was - {client};
      ghost var now := View();
      effects := RunDeferred(client, deferred, stops, policy);
      SameEffects(was, now, client, start, sh, UpTo(deferred, stops), policy);
    }

    /** The deferred operations of a client that has just been admitted. */
    method RunDeferred(client: Client, deferred: seq<Action>, stops: Option<nat>, policy: Consent<Client>)
      returns (effects: seq<Effect<Client>>)
      requires Tracks(client) && client.phase.Active?
      modifies this, client
      ensures (client.State(), Totals()) == DeferredRun(old(client.State()), old(Totals()), deferred, stops)
      ensures effects == DeferredEffects(old(View()), client, old(client.State()), old(Totals()), deferred, stops, policy)
      ensures Tracks(client) && OthersKept(old(View()), old(pending), client)
    {
      ghost var was, start, sh := View(), client.State(), Totals();
      var todo := UpTo(deferred, stops);
      effects := [];
      for i := 0 to |todo|
        invariant (client.State(), Totals()) == PerformedAll(start, sh, todo[..i])
        invariant effects == EffectsOf(was, client, start, sh, todo[..i], policy)
        invariant Tracks(client) && OthersKept(was, old(pending), client)
        invariant !client.phase.New? && !client.phase.Pending?
      {
        assert todo[..i + 1][..i] == todo[..i];
        if client.phase.Active? {
          SameEffect(was, View(), client, client.State(), client.State(), Totals(), todo[i], policy);
          var effect := Run(client, todo[i], policy);
          effects := effects + [effect];
        }
      }
      assert todo[..|todo|] == todo;
      if stops.Some? && client.phase.Active? {
        SameEffect(was, View(), client, client.State(), client.State(), Totals(), Ping, policy);
        var effect := Destroy(client, false, policy);
        effects := effects + [effect];
      }
    }

    method OnData(client: Client, length: nat, policy: Consent<Client>)
      requires Tracks(client)
      modifies this, client
      ensures (client.State(), Totals()) == DataReceived(old(client.State()), old(Totals()), length)
      ensures Tracks(client) && OthersKept(old(View()), old(pending), client)
    {
      ghost var was := View();
      if !client.phase.New? && !client.phase.Pending? {
        return;
      }
      client.pendingBytes := client.pendingBytes + length;
      assert View() - {client} == was - {client};
      if client.pendingBytes > MAX_DEFERRED_BYTES {
        var none := Destroy(client, false, policy);
      }
    }
  }

  lemma FilterNext(keep: Packet -> bool, s: seq<Packet>, i: nat)
    requires i < |s|
    ensures Filter(keep, s[..i + 1]) == Filter(keep, s[..i]) + if keep(s[i]) then [s[i]] else []
  {
    var a, b := s[..i], [s[i]];
    assert s[..i + 1] == a + b;
    FilterAppend(keep, a, b);
    assert b[1..] == [];
  }

  lemma SameHearers(view: map<Client, Peer>, c: Client, p: Peer, q: Peer, packet: Packet, policy: Consent<Client>)
    requires p.phase == q.phase && p.subs == q.subs
    ensures Hearers(view[c := p], packet, policy) == Hearers(view[c := q], packet, policy)
  {
  }

  lemma SameEnd(view: map<Client, Peer>, c: Client, p: Peer, q: Peer, policy: Consent<Client>)
    requires p.phase == q.phase && p.will == q.will
    ensures EndEffect(view[c := q], c, q, false, policy) == EndEffect(view, c, p, false, policy)
  {
    assert view[c := q] - {c} == view - {c};
  }

  /** Only what a client is otherwise, its subscriptions and its will matter for what goes out when it acts or ends. */
  lemma SameEffect(view: map<Client, Peer>, view': map<Client, Peer>, c: Client, p: Peer, q: Peer, sh: Shared, action: Action,
                   policy: Consent<Client>)
    requires view - {c} == view' - {c} && p.phase == q.phase && p.subs == q.subs && p.will == q.will
    ensures EffectOf(view, c, p, sh, action, policy) == EffectOf(view', c, q, sh, action, policy)
    ensures EndEffect(view, c, p, false, policy) == EndEffect(view', c, q, false, policy)
  {
    assert view[c := p] == view'[c := p] by {
      assert forall d :: d in view - {c} <==> d in view && d != c;
      assert forall d :: d in view' - {c} <==> d in view' && d != c;
      assert forall d :: d in view && d != c ==> view[d] == (view - {c})[d] == (view' - {c})[d];
    }
    if action.Publish? {
      SameHearers(view', c, p, q, action.packet, policy);
    }
  }

  lemma {:induction false} SameEffects(view: map<Client, Peer>, view': map<Client, Peer>, c: Client, p: Peer, sh: Shared,
                                       actions: seq<Action>, policy: Consent<Client>)
    requires view - {c} == view' - {c}
    ensures EffectsOf(view, c, p, sh, actions, policy) == EffectsOf(view', c, p, sh, actions, policy)
    ensures EndEffect(view, c, PerformedAll(p, sh, actions).0, false, policy)
            == EndEffect(view', c, PerformedAll(p, sh, actions).0, false, policy)
  {
    var (end, sh') := PerformedAll(p, sh, actions);
    SameEffect(view, view', c, end, end, sh', Ping, policy);
    if actions != [] {
      var n := |actions| - 1;
      SameEffects(view, view', c, p, sh, actions[..n], policy);
      var (q, sh1) := PerformedAll(p, sh, actions[..n]);
      SameEffect(view, view', c, q, q, sh1, actions[n], policy);
    }
  }

  lemma {:induction false} DroppedMembers(subs: seq<string>, sh: Shared, topics: seq<string>)
    ensures forall t :: t in DroppedAll(subs, sh, topics).0 <==> t in subs && t !in topics
  {
    if topics != [] {
      var n := |topics| - 1;
      DroppedMembers(subs, sh, topics[..n]);
      WithoutMembers(DroppedAll(subs, sh, topics[..n]).0, topics[n]);
      assert forall t :: t in topics <==> t in topics[..n] || t == topics[n];
    }
  }

  lemma DroppedAllEmpties(subs: seq<string>, sh: Shared)
    ensures DroppedAll(subs, sh, subs).0 == []
  {
    DroppedMembers(subs, sh, subs);
    HasMember(DroppedAll(subs, sh, subs).0);
  }
}
