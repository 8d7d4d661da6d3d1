/** Admission, subscriptions and retained messages of the MQTT broker (cloud/mqtt-broker.ts). */
module MqttBroker {
  import opened Common
  import opened MqttTopics

  const MAX_RETAINED_TOPICS := 1024
  const MAX_RETAINED_BYTES := 8 * 1024 * 1024
  const MAX_CLIENT_SUBSCRIPTIONS := 128
  const MAX_SUBSCRIPTIONS := 4096
  const MAX_FILTER_BYTES := 1024 * 1024
  const MAX_PENDING := 64
  const MAX_DEFERRED_PACKETS := 8
  const MAX_DEFERRED_BYTES := 64 * 1024

  const REFUSED := 128

  /** `properties` is the JSON text of the packet's properties, empty when it has none. */
  datatype Packet = Packet(topic: string, payload: seq<byte>, properties: string, retain: bool)

  /** What a client asks for, together with what the access policy answers when it is asked. */
  datatype Action =
    | Publish(packet: Packet, allowed: bool)
    | Pubrel
    | Subscribe(filters: seq<(string, bool)>)
    | Unsubscribe(topics: seq<string>)
    | Ping
  {
    function Cost(): nat {
      match this
      case Publish(packet, _) => ByteLength(packet.topic) + |packet.payload|
      case Pubrel => 4
      case Subscribe(filters) => 4 + FilterCost(filters)
      case Unsubscribe(topics) => 4 + 2 * |topics| + TotalLength(topics)
      case Ping => 2
    }
  }

  function FilterCost(filters: seq<(string, bool)>): nat {
    if filters == [] then 0 else ByteLength(filters[0].0) + 3 + FilterCost(filters[1..])
  }

  function TotalLength(topics: seq<string>): nat {
    if topics == [] then 0 else ByteLength(topics[0]) + TotalLength(topics[1..])
  }

  /** What all clients share: the subscription budget and the retained messages, in insertion order. */
  datatype Shared = Shared(count: int, bytes: int, retained: seq<Packet>, retainedBytes: int)

  datatype Phase = New | Pending | Active | Closed

  /**
   * What has happened on a connection: operations received and run, CONNACK codes sent, how often the policy heard of
   * its end, how often its will was considered, and the phase and manner it ended in.
   */
  datatype Trace = Trace(
    arrived: seq<Action>,
    ran: seq<Action>,
    connacks: seq<nat>,
    ends: nat,
    wills: nat,
    last: Phase,
    graceful: bool)

  datatype Peer = Peer(
    phase: Phase,
    subs: seq<string>,
    deferred: seq<Action>,
    deferredBytes: int,
    raw: nat,
    will: Option<Packet>,
    trace: Trace)

  const ACCEPTED := Peer(New, [], [], 0, 0, None, Trace([], [], [], 0, 0, New, false))

  // ---------------------------------------------------------------- subscriptions

  function Granted(subs: seq<string>, sh: Shared, filter: (string, bool)): (seq<string>, Shared, nat) {
    var (topic, allowed) := filter;
    if !ValidFilter(topic) || !allowed then (subs, sh, REFUSED)
    else if topic in subs then (subs, sh, 0)
    else if || |subs| >= MAX_CLIENT_SUBSCRIPTIONS
            || sh.count >= MAX_SUBSCRIPTIONS
            || sh.bytes + ByteLength(topic) > MAX_FILTER_BYTES then (subs, sh, REFUSED)
    else (subs + [topic], sh.(count := sh.count + 1, bytes := sh.bytes + ByteLength(topic)), 0)
  }

  function GrantedAll(subs: seq<string>, sh: Shared, filters: seq<(string, bool)>): (r: (seq<string>, Shared, seq<nat>))
    ensures subs <= r.0
  {
    if filters == [] then (subs, sh, [])
    else
      var n := |filters| - 1;
      var (subs1, sh1, codes) := GrantedAll(subs, sh, filters[..n]);
      var (subs2, sh2, code) := Granted(subs1, sh1, filters[n]);
      (subs2, sh2, codes + [code])
  }

  function Dropped(subs: seq<string>, sh: Shared, topic: string): (seq<string>, Shared) {
    if topic !in subs then (subs, sh)
    else (Without(subs, topic), sh.(count := sh.count - 1, bytes := sh.bytes - ByteLength(topic)))
  }

  function DroppedAll(subs: seq<string>, sh: Shared, topics: seq<string>): (seq<string>, Shared) {
    if topics == [] then (subs, sh)
    else
      var n := |topics| - 1;
      var (subs1, sh1) := DroppedAll(subs, sh, topics[..n]);
      Dropped(subs1, sh1, topics[n])
  }

  // ---------------------------------------------------------------- retained messages

  function RetainedSize(p: Packet): nat {
    ByteLength(p.topic) + |p.payload| + ByteLength(p.properties)
  }

  function Lookup(retained: seq<Packet>, topic: string): Option<Packet> {
    if retained == [] then None
    else if retained[0].topic == topic then Some(retained[0])
    else Lookup(retained[1..], topic)
  }

  /** Setting a key of an insertion-ordered map: an existing key keeps its place. */
  function Put(retained: seq<Packet>, p: Packet): seq<Packet> {
    if retained == [] then [p]
    else if retained[0].topic == p.topic then [p] + retained[1..]
    else [retained[0]] + Put(retained[1..], p)
  }

  function Erase(retained: seq<Packet>, topic: string): seq<Packet> {
    if retained == [] then []
    else if retained[0].topic == topic then retained[1..]
    else [retained[0]] + Erase(retained[1..], topic)
  }

  function Retained(sh: Shared, p: Packet): Shared {
    if !p.retain then sh
    else
      var previous := Lookup(sh.retained, p.topic);
      var previousBytes := if previous.Some? then RetainedSize(previous.value) else 0;
      if p.payload == [] then
        sh.(retained := Erase(sh.retained, p.topic), retainedBytes := sh.retainedBytes - previousBytes)
      else if || (previous.None? && |sh.retained| >= MAX_RETAINED_TOPICS)
              || sh.retainedBytes - previousBytes + RetainedSize(p) > MAX_RETAINED_BYTES then sh
      else
        sh.(retained := Put(sh.retained, p), retainedBytes := sh.retainedBytes + RetainedSize(p) - previousBytes)
  }

  // ---------------------------------------------------------------- one connection

  function Destroyed(p: Peer, sh: Shared, graceful: bool): (Peer, Shared) {
    if p.phase.Closed? then (p, sh)
    else
      var (_, sh1) := DroppedAll(p.subs, sh, p.subs);
      var willing := p.phase.Active? && !graceful && p.will.Some?;
      (p.(phase := Closed, deferred := [], deferredBytes := 0, subs := [],
          trace := p.trace.(ends := p.trace.ends + 1, wills := p.trace.wills + if willing then 1 else 0,
                            last := p.phase, graceful := graceful)),
       sh1)
  }

  /** Runs one operation of an active client. */
  function Performed(p: Peer, sh: Shared, action: Action): (Peer, Shared) {
    var q := p.(trace := p.trace.(ran := p.trace.ran + [action]));
    match action
    case Publish(packet, allowed) => if allowed then (q, Retained(sh, packet)) else Destroyed(q, sh, false)
    case Subscribe(filters) => var (subs, sh1, _) := GrantedAll(p.subs, sh, filters); (q.(subs := subs), sh1)
    case Unsubscribe(topics) => var (subs, sh1) := DroppedAll(p.subs, sh, topics); (q.(subs := subs), sh1)
    case _ => (q, sh)
  }

  /** Runs queued operations in order, for as long as the client stays active. */
  function PerformedAll(p: Peer, sh: Shared, actions: seq<Action>): (Peer, Shared) {
    if actions == [] then (p, sh)
    else
      var n := |actions| - 1;
      var (q, sh1) := PerformedAll(p, sh, actions[..n]);
      if q.phase.Active? then Performed(q, sh1, actions[n]) else (q, sh1)
  }

  function Operated(p: Peer, sh: Shared, action: Action): (Peer, Shared) {
    var q := if p.phase.Closed? then p else p.(trace := p.trace.(arrived := p.trace.arrived + [action]));
    if p.phase.Active? then Performed(q, sh, action)
    else if || !p.phase.Pending?
            || |p.deferred| >= MAX_DEFERRED_PACKETS
            || p.deferredBytes + action.Cost() > MAX_DEFERRED_BYTES then Destroyed(q, sh, false)
    else (q.(deferred := p.deferred + [action], deferredBytes := p.deferredBytes + action.Cost()), sh)
  }

  function ConnectReceived(p: Peer, sh: Shared): (Peer, Shared) {
    if !p.phase.New? then Destroyed(p, sh, false) else (p.(phase := Pending), sh)
  }

  /** An admitted client: CONNACK 0 is sent before anything that was deferred is run. */
  function Admitted(p: Peer, will: Option<Packet>): Peer {
    p.(phase := Active, will := will, deferred := [], deferredBytes := 0,
       trace := p.trace.(connacks := p.trace.connacks + [0]))
  }

  /**
   * The policy has answered the connect packet; `will` is the will that the packet carried. With `stops`, the deferred
   * operations end after that many: whoever listens for new clients ends this one, or an operation throws, which undoes
   * nothing of those before it and ends the client.
   */
  function Answered(p: Peer, sh: Shared, allowed: bool, will: Option<Packet>, stops: Option<nat>): (Peer, Shared) {
    if !p.phase.Pending? then (p, sh)
    else if !allowed then Destroyed(p.(trace := p.trace.(connacks := p.trace.connacks + [5])), sh, true)
    else DeferredRun(Admitted(p, will), sh, p.deferred, stops)
  }

  function DeferredRun(p: Peer, sh: Shared, actions: seq<Action>, stops: Option<nat>): (Peer, Shared) {
    var (q, sh') := PerformedAll(p, sh, UpTo(actions, stops));
    if stops.Some? && q.phase.Active? then Destroyed(q, sh', false) else (q, sh')
  }

  function UpTo(actions: seq<Action>, stops: Option<nat>): (r: seq<Action>)
    ensures r <= actions
  {
    if stops.Some? && stops.value < |actions| then actions[..stops.value] else actions
  }

  function DataReceived(p: Peer, sh: Shared, n: nat): (Peer, Shared) {
    if !Waiting(p) then (p, sh)
    else
      var q := p.(raw := p.raw + n);
      if q.raw > MAX_DEFERRED_BYTES then Destroyed(q, sh, false) else (q, sh)
  }

  predicate Waiting(p: Peer) { p.phase.New? || p.phase.Pending? }

  // ---------------------------------------------------------------- what goes out

  /** What the access policy says to a delivery, and to the publication of a client's will. */
  datatype Consent<!C> = Consent(deliver: (C, string) -> bool, publish: (C, Packet) -> bool)

  /** A packet that goes to some clients, or the codes that answer a SUBSCRIBE and the retained packets after them. */
  datatype Effect<!C(==)> = Nothing | Heard(packet: Packet, clients: set<C>) | Suback(codes: seq<nat>, replayed: seq<Packet>)

  ghost predicate SomeMatch(topic: string, filters: seq<string>) {
    exists i :: 0 <= i < |filters| && TopicMatches(topic, filters[i])
  }

  /** A retained packet is replayed for filters just added when no earlier filter of the client covered its topic. */
  ghost function Replayable<C>(previous: seq<string>, added: seq<string>, c: C, policy: Consent<C>): Packet -> bool {
    (p: Packet) => !SomeMatch(p.topic, previous) && SomeMatch(p.topic, added) && policy.deliver(c, p.topic)
  }

  /** An active client that the policy lets have a packet and that has a filter for it. */
  ghost predicate Hears<C>(p: Peer, c: C, packet: Packet, policy: Consent<C>) {
    p.phase.Active? && policy.deliver(c, packet.topic) && SomeMatch(packet.topic, p.subs)
  }

  ghost function Hearers<C>(view: map<C, Peer>, packet: Packet, policy: Consent<C>): set<C> {
    set c | c in view && Hears(view[c], c, packet, policy)
  }

  /** A will is published without being retained. */
  function AsPublished(will: Packet): Packet { Packet(will.topic, will.payload, "", false) }

  ghost function EndEffect<C>(view: map<C, Peer>, c: C, p: Peer, graceful: bool, policy: Consent<C>): Effect<C> {
    if p.phase.Active? && !graceful && p.will.Some? && policy.publish(c, AsPublished(p.will.value)) then
      Heard(AsPublished(p.will.value), Hearers(view - {c}, AsPublished(p.will.value), policy))
    else Nothing
  }

  /** What goes out when client `c`, now `p`, runs an operation. */
  ghost function EffectOf<C>(view: map<C, Peer>, c: C, p: Peer, sh: Shared, action: Action, policy: Consent<C>): Effect<C> {
    match action
    case Publish(packet, allowed) =>
      if allowed then Heard(packet, Hearers(view[c := p], packet, policy)) else EndEffect(view, c, p, false, policy)
    case Subscribe(filters) =>
      var (subs, _, codes) := GrantedAll(p.subs, sh, filters);
      Suback(codes, Filter(Replayable(p.subs, subs[|p.subs|..], c, policy), sh.retained))
    case _ => Nothing
  }

  ghost function EffectsOf<C>(view: map<C, Peer>, c: C, p: Peer, sh: Shared, actions: seq<Action>, policy: Consent<C>): seq<Effect<C>> {
    if actions == [] then []
    else
      var n := |actions| - 1;
      var (q, sh1) := PerformedAll(p, sh, actions[..n]);
      EffectsOf(view, c, p, sh, actions[..n], policy)
      + if q.phase.Active? then [EffectOf(view, c, q, sh1, actions[n], policy)] else []
  }

  ghost function OperationEffect<C>(view: map<C, Peer>, c: C, p: Peer, sh: Shared, action: Action, policy: Consent<C>): Effect<C> {
    if p.phase.Active? then EffectOf(view, c, p, sh, action, policy) else Nothing
  }

  ghost function AnswerEffects<C>(view: map<C, Peer>, c: C, p: Peer, sh: Shared, allowed: bool, will: Option<Packet>, stops: Option<nat>,
                                  policy: Consent<C>): seq<Effect<C>> {
    if !p.phase.Pending? || !allowed then [] else DeferredEffects(view, c, Admitted(p, will), sh, p.deferred, stops, policy)
  }

  ghost function DeferredEffects<C>(view: map<C, Peer>, c: C, p: Peer, sh: Shared, actions: seq<Action>, stops: Option<nat>,
                                    policy: Consent<C>): seq<Effect<C>> {
    var (q, _) := PerformedAll(p, sh, UpTo(actions, stops));
    EffectsOf(view, c, p, sh, UpTo(actions, stops), policy)
    + if stops.Some? && q.phase.Active? then [EndEffect(view, c, q, false, policy)] else []
  }
}
