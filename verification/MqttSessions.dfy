/** The broker and the access policy together. */
module MqttSessions {
  // What the broker calls the policy for, and when (cloud/mqtt-broker.ts, cloud/mqtt-access.ts).

  import opened Common
  import B = MqttBrokerRuns
  import opened MqttBroker
  import O = MqttOwnership
  import A = MqttAccess
  import opened DeviceTopics

  /**
   * `due` are the clients whose connect packet the policy is yet to be asked about, `answers` its answers that the broker
   * is yet to act on, and `left` the clients whose end it was told of.
   */
  datatype World = World(broker: B.World, policy: O.World, due: set<nat>, answers: map<nat, bool>, left: set<nat>)

  const START := World(B.START, O.START, {}, map[], {})

  datatype Event = Network(b: B.Event) | Policy(o: O.Event)

  predicate WasActive(p: Peer) { p.phase.Active? || (p.phase.Closed? && p.trace.last.Active?) }

  /**
   * The broker acts on the answer it was given; asks about each connect packet once; asks about operations of clients
   * that are active, or have been and whose end is being dealt with; and tells of an end once.
   */
  predicate Possible(w: World, e: Event) {
    match e
    case Network(b) => b.Answer? ==> b.c in w.answers && b.allowed == w.answers[b.c]
    case Policy(o) =>
      match o.step
      case Connect(_, _, _, _, _) => o.client in w.due
      case Disconnect => o.client < |w.broker.peers| && w.broker.peers[o.client].phase.Closed? && o.client !in w.left
      case _ => o.client < |w.broker.peers| && WasActive(w.broker.peers[o.client]) && o.client !in w.left
  }

  ghost function Next(w: World, e: Event): World {
    match e
    case Network(b) =>
      var asks := b.Connect? && b.c < |w.broker.peers| && w.broker.peers[b.c].phase.New?;
      w.(broker := B.Next(w.broker, b),
         due := if asks then w.due + {b.c} else w.due,
         answers := if b.Answer? then w.answers - {b.c} else w.answers)
    case Policy(o) =>
      w.(policy := O.Next(w.policy, o),
         due := if o.step.Connect? then w.due - {o.client} else w.due,
         answers := if o.step.Connect? then w.answers[o.client := O.Allowed(w.policy, o)] else w.answers,
         left := if o.step.Disconnect? then w.left + {o.client} else w.left)
  }

  ghost predicate Behaviour(w: World, es: seq<Event>)
    decreases |es|
  {
    es == [] || (Possible(w, es[0]) && Behaviour(Next(w, es[0]), es[1..]))
  }

  ghost function Run(w: World, es: seq<Event>): World
    decreases |es|
  {
    if es == [] then w else Run(Next(w, es[0]), es[1..])
  }

  /** What the policy was called for. */
  function Calls(es: seq<Event>): seq<O.Event>
    decreases |es|
  {
    if es == [] then [] else (if es[0].Policy? then [es[0].o] else []) + Calls(es[1..])
  }

  // ---------------------------------------------------------------- the two sides agree

  predicate Known(peers: seq<Peer>, c: nat) { c < |peers| && !peers[c].phase.New? }

  /** A client is asked about once; one that has been active, and has not left, was admitted. */
  ghost predicate Agree(w: World) {
    && (forall c :: c in w.due ==> Known(w.broker.peers, c) && c !in w.policy.seen)
    && (forall c :: c in w.policy.seen ==> Known(w.broker.peers, c))
    && (forall c :: c in w.answers && w.answers[c] ==> c in w.policy.admitted || c in w.left)
    && (forall c :: c in w.left ==> c < |w.broker.peers| && w.broker.peers[c].phase.Closed?)
    && (forall c: nat :: c < |w.broker.peers| && WasActive(w.broker.peers[c]) && c !in w.left ==> c in w.policy.admitted)
  }

  lemma {:induction false} PerformedAllPhase(p: Peer, sh: Shared, actions: seq<Action>)
    requires p.phase.Active?
    ensures WasActive(PerformedAll(p, sh, actions).0)
    decreases |actions|
  {
    if actions != [] {
      PerformedAllPhase(p, sh, actions[..|actions| - 1]);
    }
  }

  /** How one event of the broker moves the phase of a client: activity only begins with an answer that allows it. */
  lemma PhaseMoves(p: Peer, sh: Shared, e: B.Event)
    ensures var q := B.Stepped(p, sh, e).0;
            && (q.phase.New? ==> p.phase.New?)
            && (p.phase.Closed? ==> q.phase.Closed? && q.trace.last == p.trace.last)
            && (WasActive(q) && !WasActive(p) ==> e.Answer? && e.allowed && p.phase.Pending?)
  {
    if e.Answer? && e.allowed && p.phase.Pending? {
      PerformedAllPhase(Admitted(p, e.will), sh, UpTo(p.deferred, e.stops));
    }
  }

  lemma NetworkKeepsAgree(w: World, b: B.Event)
    requires Agree(w) && Possible(w, Network(b))
    ensures Agree(Next(w, Network(b)))
  {
    var peers, peers' := w.broker.peers, B.Next(w.broker, b).peers;
    if !b.Accept? && !b.ServerPublish? && b.c < |peers| {
      PhaseMoves(peers[b.c], w.broker.sh, b);
    }
    assert |peers| <= |peers'|;
  }

  lemma PolicyKeepsAgree(w: World, o: O.Event)
    requires Agree(w) && Possible(w, Policy(o))
    ensures Agree(Next(w, Policy(o)))
  {
  }

  lemma CallIsEnabled(w: World, o: O.Event)
    requires Agree(w) && Possible(w, Policy(o))
    ensures O.Enabled(w.policy, o)
  {
  }

  // ---------------------------------------------------------------- every run

  lemma {:induction false} RunIsLegal(w: World, es: seq<Event>)
    requires Agree(w) && Behaviour(w, es)
    ensures Agree(Run(w, es)) && O.Legal(w.policy, Calls(es)) && Run(w, es).policy == O.Run(w.policy, Calls(es))
    decreases |es|
  {
    if es != [] {
      match es[0]
      case Network(b) =>
        NetworkKeepsAgree(w, b);
        RunIsLegal(Next(w, es[0]), es[1..]);
        assert Calls(es) == Calls(es[1..]);
      case Policy(o) =>
        PolicyKeepsAgree(w, o);
        CallIsEnabled(w, o);
        RunIsLegal(Next(w, es[0]), es[1..]);
        assert Calls(es)[1..] == Calls(es[1..]);
    }
  }

  /** The broker calls the policy as the policy's runs assume, in every run of the two. */
  lemma CallsAreLegal(es: seq<Event>)
    requires Behaviour(START, es)
    ensures O.Legal(O.START, Calls(es)) && Run(START, es).policy == O.Run(O.START, Calls(es))
  {
    RunIsLegal(START, es);
  }

  predicate SpeaksFor(a: A.Access, c: nat, id: DeviceId) {
    c in a.sessions && a.sessions[c].Appliance? && !a.sessions[c].revoked && a.sessions[c].id == Some(id)
  }

  /**
   * Whatever the network and the inventory do: two clients that the broker has active, and whose sessions are unrevoked
   * and bound to one device, belong to one inventory entry.
   */
  lemma ActiveExclusivity(es: seq<Event>, c: nat, d: nat, id: DeviceId)
    requires Behaviour(START, es)
    requires var w := Run(START, es);
             && c < |w.broker.peers| && w.broker.peers[c].phase.Active? && SpeaksFor(w.policy.access, c, id)
             && d < |w.broker.peers| && w.broker.peers[d].phase.Active? && SpeaksFor(w.policy.access, d, id)
    ensures var a := Run(START, es).policy.access; a.sessions[c].entryId == a.sessions[d].entryId
  {
    RunIsLegal(START, es);
    O.DeviceExclusivity(Calls(es), c, d);
  }
}
