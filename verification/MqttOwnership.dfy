/** Runs of the access policy. */
module MqttOwnership {
  // The inventory may be any at every step.
  // The broker contributes two facts, proved in MqttSessions: a client connects at most once, and only a client whose
  // connect was allowed publishes, subscribes or is delivered to.

  import opened Common
  import opened DeviceTopics
  import opened MqttAccess

  datatype Step =
    | Connect(packet: ConnectPacket, tls: bool, source: Option<Ip>, aborted: bool, accounts: seq<Account>)
    | Publish(publication: Publication)
    | Subscribe(filter: string)
    | Deliver(topic: string)
    | Disconnect

  datatype Event = Event(client: ClientId, step: Step, inv: Inventory)

  /** `spoken` records who has been allowed an operation for which device. */
  datatype World = World(access: Access, seen: set<ClientId>, admitted: set<ClientId>, spoken: set<(ClientId, DeviceId)>)

  const START := World(Access(map[], map[]), {}, {}, {})

  predicate Enabled(w: World, e: Event) {
    match e.step
    case Connect(_, _, _, _, _) => e.client !in w.seen
    case Disconnect => true
    case _ => e.client in w.admitted
  }

  ghost function Outcome(a: Access, e: Event): (Access, bool) {
    match e.step
    case Connect(packet, tls, source, aborted, accounts) =>
      Connected(a, e.client, packet, tls, source, aborted, accounts, e.inv)
    case Publish(publication) => Published(a, e.client, publication, e.inv)
    case Subscribe(filter) => Subscribed(a, e.client, filter, e.inv)
    case Deliver(topic) => Delivered(a, e.client, topic, e.inv)
    case Disconnect => (Disconnected(a, e.client), false)
  }

  ghost predicate Allowed(w: World, e: Event) { Outcome(w.access, e).1 }

  ghost function Next(w: World, e: Event): World {
    World(
      Outcome(w.access, e).0,
      if e.step.Connect? then w.seen + {e.client} else w.seen,
      if e.step.Disconnect? then w.admitted - {e.client}
      else if e.step.Connect? && Allowed(w, e) then w.admitted + {e.client}
      else w.admitted,
      if SpokeNow(w, e) then w.spoken + {(e.client, Device(e).value)} else w.spoken)
  }

  ghost predicate SpokeNow(w: World, e: Event) {
    && IsOperation(e.step) && Device(e).Some? && Allowed(w, e)
    && e.client in w.access.sessions && w.access.sessions[e.client].Appliance?
  }

  ghost predicate Legal(w: World, es: seq<Event>)
    decreases |es|
  {
    es == [] || (Enabled(w, es[0]) && Legal(Next(w, es[0]), es[1..]))
  }

  ghost function Run(w: World, es: seq<Event>): World
    decreases |es|
  {
    if es == [] then w else Run(Next(w, es[0]), es[1..])
  }

  // ---------------------------------------------------------------- the invariant

  /** Every claim is held by someone, by sessions of that entry bound to that id; no id is claimed twice. */
  ghost predicate ClaimsSound(a: Access) {
    && (forall e :: e in a.claims ==> a.claims[e].clients != {})
    && (forall e, c :: e in a.claims && c in a.claims[e].clients ==> Holder(a, e, c))
    && (forall e, f :: e in a.claims && f in a.claims && a.claims[e].id == a.claims[f].id ==> e == f)
  }

  predicate Holder(a: Access, e: EntryId, c: ClientId)
    requires e in a.claims
  {
    && c in a.sessions && a.sessions[c].Appliance?
    && a.sessions[c].entryId == e && a.sessions[c].id == Some(a.claims[e].id)
  }

  /** A bound, unrevoked session takes part in the claim of its entry. */
  predicate Covered(a: Access, c: ClientId) {
    && c in a.sessions
    && var s := a.sessions[c];
       s.Appliance? && s.id.Some? && !s.revoked ==> s.entryId in a.claims && c in a.claims[s.entryId].clients
  }

  ghost predicate Inv(w: World) {
    && ClaimsSound(w.access)
    && w.admitted <= w.seen && w.access.sessions.Keys <= w.seen
    && forall c :: c in w.admitted ==> Covered(w.access, c)
  }

  // ---------------------------------------------------------------- one step of a session

  /** How a session may change: the id is written once, links and revocations are never undone. */
  predicate Evolves(s: Session, t: Session) {
    if s.Diagnostic? then t == s
    else
      && t.Appliance? && t.entryId == s.entryId && t.ip == s.ip
      && (s.id.Some? ==> t.id == s.id)
      && (s.linked ==> t.linked)
      && (s.revoked ==> t.revoked && t.id == s.id)
  }

  /** What asking, purging, binding and every operation have in common. */
  ghost predicate Keeps(a: Access, b: Access) {
    && ClaimsSound(b)
    && b.sessions.Keys == a.sessions.Keys
    && (forall c :: c in a.sessions ==> Evolves(a.sessions[c], b.sessions[c]))
    && (forall c :: Covered(a, c) ==> Covered(b, c))
  }

  lemma AskedIsSound(a: Access, c: ClientId, inv: Inventory)
    requires ClaimsSound(a)
    ensures Keeps(a, a.(sessions := AskClient(a.sessions, c, inv)))
  {
    var b := a.(sessions := AskClient(a.sessions, c, inv));
    assert forall e, d :: e in b.claims && Holder(a, e, d) ==> Holder(b, e, d);
  }

  lemma PurgedClaimsSound(a: Access, inv: Inventory)
    requires ClaimsSound(a)
    ensures ClaimsSound(Purged(a, inv))
  {
    var b := Purged(a, inv);
    forall e, c | e in b.claims && c in b.claims[e].clients
      ensures Holder(b, e, c)
    {
      assert Holder(a, e, c);
    }
  }

  lemma PurgedIsSound(a: Access, inv: Inventory)
    requires ClaimsSound(a)
    ensures Keeps(a, Purged(a, inv))
  {
    PurgedClaimsSound(a, inv);
    PurgedCovers(a, inv);
  }

  lemma PurgedCovers(a: Access, inv: Inventory)
    requires ClaimsSound(a)
    ensures forall d :: Covered(a, d) ==> Covered(Purged(a, inv), d)
  {
    var b := Purged(a, inv);
    forall d | Covered(a, d)
      ensures Covered(b, d)
    {
      var s := a.sessions[d];
      if s.Appliance? && s.id.Some? && !b.sessions[d].revoked {
        assert d in Claimants(a.claims);
        assert Live(a.sessions, d, inv);
        assert d in Kept(a.claims[s.entryId], a.sessions, inv).clients;
      }
    }
  }

  lemma BoundIsSound(a: Access, client: ClientId, id: DeviceId, inv: Inventory)
    requires ClaimsSound(a) && client in a.sessions && a.sessions[client].Appliance?
    ensures var (b, ok) := Bound(a, client, id, inv);
            && Keeps(a, b)
            && (ok ==> Covered(b, client) && !b.sessions[client].revoked && b.sessions[client].id == Some(id))
  {
    var s := a.sessions[client];
    var asked := a.(sessions := AskClient(a.sessions, client, inv));
    AskedIsSound(a, client, inv);
    if Agreeable(s, id, inv) {
      PurgedIsSound(asked, inv);
      AskedTwice(s, inv);
      var p := Purged(asked, inv);
      assert p.sessions[client] == s.Asked(inv);
      if Unclaimed(p.claims, s.entryId, id) {
        var b := Bound(a, client, id, inv).0;
        JoinedIsSound(p, client, b, id);
      }
    }
  }

  lemma JoinedIsSound(p: Access, client: ClientId, b: Access, id: DeviceId)
    requires ClaimsSound(p) && client in p.sessions
    requires p.sessions[client].Appliance? && p.sessions[client].id in {None, Some(id)}
    requires Unclaimed(p.claims, p.sessions[client].entryId, id)
    requires b.claims == Joined(p.claims, p.sessions[client].entryId, id, client)
    requires exists linked :: b.sessions == p.sessions[client := p.sessions[client].(id := Some(id), linked := linked)]
    ensures ClaimsSound(b) && forall d :: Covered(p, d) || d == client ==> Covered(b, d)
  {
    forall e, c | e in b.claims && c in b.claims[e].clients
      ensures Holder(b, e, c)
    {
      if c != client || e != p.sessions[client].entryId {
        assert Holder(p, e, c);
      }
    }
  }

  lemma DisconnectedIsSound(a: Access, client: ClientId)
    requires ClaimsSound(a)
    ensures var b := Disconnected(a, client);
            && ClaimsSound(b) && b.sessions == a.sessions - {client}
            && forall d :: d != client && Covered(a, d) ==> Covered(b, d)
  {
    var b := Disconnected(a, client);
    forall e, c | e in b.claims && c in b.claims[e].clients
      ensures Holder(b, e, c)
    {
      assert Holder(a, e, c);
    }
  }

  lemma PublishedIsSound(a: Access, client: ClientId, packet: Publication, inv: Inventory)
    requires ClaimsSound(a)
    ensures Keeps(a, Published(a, client, packet, inv).0)
  {
    var topic := ParseDeviceTopic(packet.topic);
    if client in a.sessions && a.sessions[client].Appliance? && topic.Some? {
      var asked := a.(sessions := AskClient(a.sessions, client, inv));
      AskedIsSound(a, client, inv);
      BoundIsSound(asked, client, topic.value.deviceId, inv);
    }
  }

  lemma SubscribedIsSound(a: Access, client: ClientId, filter: string, inv: Inventory)
    requires ClaimsSound(a)
    ensures Keeps(a, Subscribed(a, client, filter, inv).0)
  {
    var topic := ParseDeviceTopic(filter);
    if client in a.sessions && a.sessions[client].Appliance? && topic.Some? {
      BoundIsSound(a, client, topic.value.deviceId, inv);
    }
  }

  /** The device id in the topic of an operation. */
  function Device(e: Event): Option<DeviceId> {
    var topic := match e.step
      case Publish(publication) => ParseDeviceTopic(publication.topic)
      case Subscribe(filter) => ParseDeviceTopic(filter)
      case Deliver(topic) => ParseDeviceTopic(topic)
      case _ => None;
    if topic.None? then None else Some(topic.value.deviceId)
  }

  lemma KeepsIsTransitive(a: Access, b: Access, c: Access)
    requires Keeps(a, b) && Keeps(b, c)
    ensures Keeps(a, c)
  {
  }

  lemma WillIsSound(a: Access, client: ClientId, will: Publication, inv: Inventory)
    requires ClaimsSound(a) && client in a.sessions && a.sessions[client].Appliance?
    ensures var (b, ok) := WillTaken(a, client, will, inv);
            Keeps(a, b) && (ok ==> Covered(b, client))
  {
    var topic := ParseDeviceTopic(will.topic);
    if topic.Some? && !topic.value.kind.Lime? {
      BoundIsSound(a, client, topic.value.deviceId, inv);
      var (b, bound) := Bound(a, client, topic.value.deviceId, inv);
      if bound {
        AfterBound(a, b, client, will, inv);
      }
    }
  }

  lemma AfterBound(a: Access, b: Access, client: ClientId, will: Publication, inv: Inventory)
    requires ClaimsSound(a) && Keeps(a, b) && Covered(b, client)
    ensures Keeps(a, Published(b, client, will, inv).0) && Covered(Published(b, client, will, inv).0, client)
  {
    PublishedIsSound(b, client, will, inv);
    KeepsIsTransitive(a, b, Published(b, client, will, inv).0);
  }

  lemma ConnectedIsSound(a: Access, e: Event)
    requires ClaimsSound(a) && e.step.Connect? && e.client !in a.sessions
    ensures var (b, ok) := Outcome(a, e);
            && ClaimsSound(b)
            && a.sessions.Keys <= b.sessions.Keys <= a.sessions.Keys + {e.client}
            && (forall c :: c in a.sessions ==> Evolves(a.sessions[c], b.sessions[c]))
            && (forall c :: c in a.sessions && Covered(a, c) ==> Covered(b, c))
            && (ok ==> Covered(b, e.client))
  {
    var Connect(packet, tls, source, aborted, accounts) := e.step;
    if packet.username.Some? || packet.password.Some? {
      var b := Outcome(a, e).0;
      assert forall f, c :: f in a.claims && Holder(a, f, c) ==> Holder(b, f, c);
    } else if Given(source) && !aborted {
      var matches := Filter((i: InventoryEntry) => i.ip == source.value, e.inv);
      if Admissible(matches, e.inv) {
        ApplianceConnectIsSound(a, e.client, matches[0], source.value, packet.will, e.inv);
      }
    }
  }

  lemma ApplianceConnectIsSound(a: Access, client: ClientId, entry: InventoryEntry, ip: Ip,
                                will: Option<Publication>, inv: Inventory)
    requires ClaimsSound(a) && client !in a.sessions
    requires entry.deviceId.Some? ==> Given(entry.deviceId)
    ensures var o := a.(sessions := a.sessions[client := Opened(entry, ip)]);
            var (b, linked) := if Given(entry.deviceId) then Bound(o, client, entry.deviceId.value, inv) else (o, true);
            && Keeps(o, b) && (linked ==> Covered(b, client))
            && (linked && will.Some? ==>
                  var (c, ok) := WillTaken(b, client, will.value, inv); Keeps(o, c) && (ok ==> Covered(c, client)))
    ensures var o := a.(sessions := a.sessions[client := Opened(entry, ip)]);
            forall c :: c in a.sessions && Covered(a, c) ==> Covered(o, c)
  {
    var o := a.(sessions := a.sessions[client := Opened(entry, ip)]);
    assert forall f, c :: f in a.claims && Holder(a, f, c) ==> Holder(o, f, c);
    if Given(entry.deviceId) {
      BoundIsSound(o, client, entry.deviceId.value, inv);
    }
    var (b, linked) := if Given(entry.deviceId) then Bound(o, client, entry.deviceId.value, inv) else (o, true);
    if linked && will.Some? {
      WillIsSound(b, client, will.value, inv);
      KeepsIsTransitive(o, b, WillTaken(b, client, will.value, inv).0);
    }
  }

  lemma NextKeepsInv(w: World, e: Event)
    requires Inv(w) && Enabled(w, e)
    ensures Inv(Next(w, e))
    ensures forall c :: c in w.access.sessions && c in Next(w, e).access.sessions ==>
              Evolves(w.access.sessions[c], Next(w, e).access.sessions[c])
  {
    match e.step
    case Connect(_, _, _, _, _) => ConnectedIsSound(w.access, e);
    case Disconnect => DisconnectedIsSound(w.access, e.client);
    case Publish(publication) => PublishedIsSound(w.access, e.client, publication, e.inv);
    case Subscribe(filter) => SubscribedIsSound(w.access, e.client, filter, e.inv);
    case Deliver(_) => AskedIsSound(w.access, e.client, e.inv);
  }

  lemma {:induction false} RunKeepsInv(w: World, es: seq<Event>)
    requires Inv(w) && Legal(w, es)
    ensures Inv(Run(w, es))
    decreases |es|
  {
    if es != [] {
      NextKeepsInv(w, es[0]);
      RunKeepsInv(Next(w, es[0]), es[1..]);
    }
  }

  // ---------------------------------------------------------------- what the policy promises

  /** Safety over every run: one device id, one inventory entry. */
  lemma DeviceExclusivity(es: seq<Event>, c: ClientId, d: ClientId)
    requires Legal(START, es)
    requires Speaks(Run(START, es), c) && Speaks(Run(START, es), d)
    requires Run(START, es).access.sessions[c].id == Run(START, es).access.sessions[d].id
    ensures Run(START, es).access.sessions[c].entryId == Run(START, es).access.sessions[d].entryId
  {
    RunKeepsInv(START, es);
    SameOwner(Run(START, es), c, d);
  }

  lemma SameOwner(w: World, c: ClientId, d: ClientId)
    requires Inv(w) && Speaks(w, c) && Speaks(w, d) && w.access.sessions[c].id == w.access.sessions[d].id
    ensures w.access.sessions[c].entryId == w.access.sessions[d].entryId
  {
    var a := w.access;
    assert Holder(a, a.sessions[c].entryId, c) && Holder(a, a.sessions[d].entryId, d);
  }

  /** An admitted, unrevoked appliance session that is bound to a device id. */
  predicate Speaks(w: World, c: ClientId) {
    && c in w.admitted && c in w.access.sessions
    && var s := w.access.sessions[c]; s.Appliance? && !s.revoked && s.id.Some?
  }

  predicate IsOperation(step: Step) { step.Publish? || step.Subscribe? || step.Deliver? }

  /** An allowed operation names the session's own device, and the inventory of that moment sanctions it. */
  lemma AllowedCarriesId(w: World, e: Event)
    requires Inv(w) && Enabled(w, e) && IsOperation(e.step) && Allowed(w, e)
    requires w.access.sessions[e.client].Appliance?
    ensures Speaks(Next(w, e), e.client)
    ensures Device(e).Some? && Next(w, e).access.sessions[e.client].id == Device(e)
    ensures Sanctioned(w.access.sessions[e.client], Device(e).value, e.inv)
  {
    var s := w.access.sessions[e.client];
    NextKeepsInv(w, e);
    AgreeableIsSanctioned(s, if Device(e).Some? then Device(e).value else "", e.inv);
    match e.step
    case Publish(publication) => AllowedPublish(w.access, e.client, publication, e.inv);
    case Subscribe(filter) => AllowedSubscribe(w.access, e.client, filter, e.inv);
    case Deliver(topic) => AllowedDelivery(w.access, e.client, topic, e.inv);
  }

  /** The session as an allowed operation leaves it. */
  predicate BoundTo(s: Session, id: DeviceId) { s.Appliance? && s.id == Some(id) && !s.revoked }

  lemma AllowedPublish(a: Access, client: ClientId, packet: Publication, inv: Inventory)
    requires ClaimsSound(a) && client in a.sessions && a.sessions[client].Appliance?
    requires Published(a, client, packet, inv).1
    ensures var id := ParseDeviceTopic(packet.topic).value.deviceId;
            Agreeable(a.sessions[client], id, inv) && BoundTo(Published(a, client, packet, inv).0.sessions[client], id)
  {
    var asked := a.(sessions := AskClient(a.sessions, client, inv));
    AskedTwice(a.sessions[client], inv);
    AskedIsSound(a, client, inv);
    BoundIsSound(asked, client, ParseDeviceTopic(packet.topic).value.deviceId, inv);
  }

  lemma AllowedSubscribe(a: Access, client: ClientId, filter: string, inv: Inventory)
    requires ClaimsSound(a) && client in a.sessions && a.sessions[client].Appliance?
    requires Subscribed(a, client, filter, inv).1
    ensures var id := ParseDeviceTopic(filter).value.deviceId;
            Agreeable(a.sessions[client], id, inv) && BoundTo(Subscribed(a, client, filter, inv).0.sessions[client], id)
  {
    BoundIsSound(a, client, ParseDeviceTopic(filter).value.deviceId, inv);
  }

  lemma AllowedDelivery(a: Access, client: ClientId, topic: string, inv: Inventory)
    requires client in a.sessions && a.sessions[client].Appliance?
    requires Delivered(a, client, topic, inv).1
    ensures var id := ParseDeviceTopic(topic).value.deviceId;
            Agreeable(a.sessions[client], id, inv) && BoundTo(Delivered(a, client, topic, inv).0.sessions[client], id)
  {
    ParsedIsSafe(topic);
  }

  /**
   * The inventory lists the session's entry at its address, linked to no other device, and no other entry has the
   * device.
   */
  ghost predicate Sanctioned(s: Session, id: DeviceId, inv: Inventory)
    requires s.Appliance?
  {
    && (exists entry :: entry in inv && entry.entryId == s.entryId && entry.ip == s.ip
          && entry.autoLink != Some(false) && entry.platform != Some(Thinq1)
          && entry.deviceId in {None, Some(id)} && (s.linked ==> entry.deviceId == s.id))
    && !HeldElsewhere(inv, s.entryId, id)
  }

  lemma AgreeableIsSanctioned(s: Session, id: DeviceId, inv: Inventory)
    requires s.Appliance?
    ensures Agreeable(s, id, inv) ==> Sanctioned(s, id, inv)
  {
    var matches := Filter((e: InventoryEntry) => e.entryId == s.entryId, inv);
    if |matches| == 1 {
      assert matches[0] in matches;
    }
  }

  /** Along a run a session keeps its id once written and its revocation once recorded, and never comes back once gone. */
  lemma {:induction false} RunEvolves(w: World, es: seq<Event>, c: ClientId)
    requires Inv(w) && Legal(w, es) && c in w.seen
    ensures c in Run(w, es).seen
    ensures c !in w.access.sessions ==> c !in Run(w, es).access.sessions
    ensures c in Run(w, es).access.sessions ==> Evolves(w.access.sessions[c], Run(w, es).access.sessions[c])
    ensures c in Run(w, es).access.sessions && c in w.admitted ==> c in Run(w, es).admitted
    decreases |es|
  {
    if es != [] {
      NextKeepsInv(w, es[0]);
      OthersStay(w, es[0], c);
      RunEvolves(Next(w, es[0]), es[1..], c);
    }
  }

  lemma OthersStay(w: World, e: Event, c: ClientId)
    requires Inv(w) && Enabled(w, e) && c in w.seen
    ensures c !in w.access.sessions ==> c !in Next(w, e).access.sessions
    ensures c in Next(w, e).access.sessions && c in w.admitted ==> c in Next(w, e).admitted
  {
    match e.step
    case Connect(_, _, _, _, _) => ConnectedIsSound(w.access, e);
    case Disconnect => DisconnectedIsSound(w.access, e.client);
    case Publish(publication) => PublishedIsSound(w.access, e.client, publication, e.inv);
    case Subscribe(filter) => SubscribedIsSound(w.access, e.client, filter, e.inv);
    case Deliver(_) =>
  }

  /** Revocation is permanent: whatever the inventory says later, nothing is allowed any more. */
  lemma RevokedForGood(w: World, es: seq<Event>, e: Event)
    requires Inv(w) && Legal(w, es + [e]) && IsOperation(e.step)
    requires e.client in w.access.sessions && w.access.sessions[e.client].Appliance? && w.access.sessions[e.client].revoked
    ensures !Allowed(Run(w, es), e)
  {
    LegalSplits(w, es, [e]);
    RunKeepsInv(w, es);
    RunEvolves(w, es, e.client);
    var v := Run(w, es);
    if Allowed(v, e) {
      AllowedCarriesId(v, e);
      NextKeepsInv(v, e);
      assert false;
    }
  }

  lemma {:induction false} LegalSplits(w: World, es: seq<Event>, fs: seq<Event>)
    requires Legal(w, es + fs)
    ensures Legal(w, es) && Legal(Run(w, es), fs) && Run(w, es + fs) == Run(Run(w, es), fs)
    decreases |es|
  {
    if es == [] {
      assert es + fs == fs;
    } else {
      assert (es + fs)[1..] == es[1..] + fs;
      LegalSplits(Next(w, es[0]), es[1..], fs);
    }
  }

  /** The policy gets as far as asking whether an appliance's session is still current. */
  predicate Checks(e: Event) {
    match e.step
    case Publish(publication) =>
      Device(e).Some? && publication.did == Device(e)
    case Subscribe(filter) => Device(e).Some? && ParseDeviceTopic(filter).value.kind.Lime?
    case Deliver(_) => Device(e).Some?
    case _ => false
  }

  lemma BoundRevokes(a: Access, client: ClientId, id: DeviceId, inv: Inventory)
    requires client in a.sessions && a.sessions[client].Appliance?
    ensures var b := Bound(a, client, id, inv).0;
            && client in b.sessions && b.sessions[client].Appliance?
            && (b.sessions[client].revoked <==> a.sessions[client].Current(inv).None?)
  {
    AskedTwice(a.sessions[client], inv);
  }

  /** What a check leaves of a session: revoked if it was, or if it was asked about and is not current. */
  ghost predicate RevokedAs(a: Access, b: Access, client: ClientId, checked: bool, inv: Inventory) {
    && client in a.sessions && a.sessions[client].Appliance? && client in b.sessions && b.sessions[client].Appliance?
    && (b.sessions[client].revoked <==> a.sessions[client].revoked || (checked && a.sessions[client].Current(inv).None?))
  }

  lemma PublishRevokes(a: Access, client: ClientId, packet: Publication, inv: Inventory)
    requires client in a.sessions && a.sessions[client].Appliance?
    ensures var topic, (b, ok) := ParseDeviceTopic(packet.topic), Published(a, client, packet, inv);
            var checked := topic.Some? && packet.did == Some(topic.value.deviceId);
            RevokedAs(a, b, client, checked, inv) && (checked && a.sessions[client].Current(inv).None? ==> !ok)
  {
    var topic := ParseDeviceTopic(packet.topic);
    AskedTwice(a.sessions[client], inv);
    if topic.Some? {
      BoundRevokes(a.(sessions := AskClient(a.sessions, client, inv)), client, topic.value.deviceId, inv);
    }
  }

  lemma SubscribeRevokes(a: Access, client: ClientId, name: string, inv: Inventory)
    requires client in a.sessions && a.sessions[client].Appliance?
    ensures var topic, (b, ok) := ParseDeviceTopic(name), Subscribed(a, client, name, inv);
            var checked := topic.Some? && topic.value.kind.Lime?;
            RevokedAs(a, b, client, checked, inv) && (checked && a.sessions[client].Current(inv).None? ==> !ok)
  {
    var topic := ParseDeviceTopic(name);
    if topic.Some? {
      BoundRevokes(a, client, topic.value.deviceId, inv);
    }
  }

  lemma DeliverRevokes(a: Access, client: ClientId, name: string, inv: Inventory)
    requires client in a.sessions && a.sessions[client].Appliance?
    ensures var topic, (b, ok) := ParseDeviceTopic(name), Delivered(a, client, name, inv);
            RevokedAs(a, b, client, topic.Some?, inv) && (topic.Some? && a.sessions[client].Current(inv).None? ==> !ok)
  {
    AskedTwice(a.sessions[client], inv);
  }

  /** A session is revoked by an operation of its client exactly when the policy asks, and it is no longer current. */
  lemma FailedCheckRevokes(w: World, e: Event)
    requires IsOperation(e.step) && e.client in w.access.sessions && w.access.sessions[e.client].Appliance?
    ensures RevokedAs(w.access, Next(w, e).access, e.client, Checks(e), e.inv)
    ensures Checks(e) && w.access.sessions[e.client].Current(e.inv).None? ==> !Allowed(w, e)
  {
    match e.step
    case Publish(publication) => PublishRevokes(w.access, e.client, publication, e.inv);
    case Subscribe(filter) => SubscribeRevokes(w.access, e.client, filter, e.inv);
    case Deliver(topic) => DeliverRevokes(w.access, e.client, topic, e.inv);
  }

  /** And then it is over: nothing that client tries later is allowed, whatever happens in between. */
  lemma FailedCheckIsFinal(w: World, e: Event, es: seq<Event>, e': Event)
    requires Inv(w) && Enabled(w, e) && IsOperation(e.step) && Checks(e)
    requires w.access.sessions[e.client].Appliance? && w.access.sessions[e.client].Current(e.inv).None?
    requires Legal(Next(w, e), es + [e']) && IsOperation(e'.step) && e'.client == e.client
    ensures !Allowed(Run(Next(w, e), es), e')
  {
    FailedCheckRevokes(w, e);
    NextKeepsInv(w, e);
    RevokedForGood(Next(w, e), es, e');
  }

  /**
   * Unlinking a device, changing its address or id, or deleting its entry cuts its old connection off:
   * nothing is allowed under such an inventory.
   */
  lemma UnlinkCutsOff(w: World, e: Event)
    requires Inv(w) && Enabled(w, e) && IsOperation(e.step)
    requires w.access.sessions[e.client].Appliance? && w.access.sessions[e.client].linked
    requires w.access.sessions[e.client].id.Some?
    requires var s := w.access.sessions[e.client];
             !exists entry :: entry in e.inv && entry.entryId == s.entryId && entry.ip == s.ip && entry.deviceId == s.id
    ensures !Allowed(w, e)
  {
    if Allowed(w, e) {
      AllowedCarriesId(w, e);
      NextKeepsInv(w, e);
    }
  }

  /** Two appliances that have spoken for one device, and still may, belong to one entry. */
  lemma OneDeviceOneEntry(es: seq<Event>, c: ClientId, d: ClientId, id: DeviceId)
    requires Legal(START, es)
    requires (c, id) in Run(START, es).spoken && (d, id) in Run(START, es).spoken
    requires Speaks(Run(START, es), c) && Speaks(Run(START, es), d)
    ensures Run(START, es).access.sessions[c].entryId == Run(START, es).access.sessions[d].entryId
  {
    SpokenIsBound(START, es);
    DeviceExclusivity(es, c, d);
  }

  /** Whoever was ever allowed to speak for a device is bound to that device for as long as its session lasts. */
  ghost predicate SpokenBound(w: World) {
    forall c, id :: (c, id) in w.spoken ==>
      c in w.seen && (c in w.access.sessions ==> w.access.sessions[c].Appliance? && w.access.sessions[c].id == Some(id))
  }

  lemma {:induction false} SpokenIsBound(w: World, es: seq<Event>)
    requires Inv(w) && SpokenBound(w) && Legal(w, es)
    ensures SpokenBound(Run(w, es))
    decreases |es|
  {
    if es != [] {
      NextKeepsInv(w, es[0]);
      NextSpokenIsBound(w, es[0]);
      SpokenIsBound(Next(w, es[0]), es[1..]);
    }
  }

  lemma NextSpokenIsBound(w: World, e: Event)
    requires Inv(w) && SpokenBound(w) && Enabled(w, e)
    ensures SpokenBound(Next(w, e))
  {
    var v := Next(w, e);
    NextKeepsInv(w, e);
    if SpokeNow(w, e) {
      AllowedCarriesId(w, e);
    }
    forall c, id | (c, id) in v.spoken
      ensures c in v.seen && (c in v.access.sessions ==> v.access.sessions[c].Appliance? && v.access.sessions[c].id == Some(id))
    {
      if (c, id) in w.spoken {
        OthersStay(w, e, c);
      }
    }
  }

  /**
   * Exactly when a bind succeeds, in terms of sessions alone: the inventory agrees, and among the claimants that
   * are still current, those bound to this id are those of this entry.
   */
  lemma BindSucceedsIff(a: Access, client: ClientId, id: DeviceId, inv: Inventory)
    requires ClaimsSound(a) && client in a.sessions && a.sessions[client].Appliance?
    ensures Bound(a, client, id, inv).1 <==>
            && Agreeable(a.sessions[client], id, inv)
            && OnlyOwn(a, a.sessions[client].entryId, id, inv)
  {
    var s := a.sessions[client];
    var sessions := AskClient(a.sessions, client, inv);
    AskedTwice(s, inv);
    assert forall c :: Live(a.sessions, c, inv) <==> Live(sessions, c, inv);
    UnclaimedIff(a, sessions, s.entryId, id, inv);
  }

  /** Among the claimants that are still current, those with this id are those of this entry. */
  ghost predicate OnlyOwn(a: Access, entryId: EntryId, id: DeviceId, inv: Inventory) {
    forall c :: c in Claimants(a.claims) && Live(a.sessions, c, inv) ==>
      (a.sessions[c].id == Some(id) <==> a.sessions[c].entryId == entryId)
  }

  lemma UnclaimedIff(a: Access, sessions: map<ClientId, Session>, entryId: EntryId, id: DeviceId, inv: Inventory)
    requires ClaimsSound(a) && forall c :: Live(a.sessions, c, inv) <==> Live(sessions, c, inv)
    ensures Unclaimed(Purged(a.(sessions := sessions), inv).claims, entryId, id) <==> OnlyOwn(a, entryId, id, inv)
  {
    LiveAreKept(a, sessions, inv);
    KeptAreLive(a, sessions, inv);
  }

  lemma LiveAreKept(a: Access, sessions: map<ClientId, Session>, inv: Inventory)
    requires ClaimsSound(a) && forall c :: Live(a.sessions, c, inv) <==> Live(sessions, c, inv)
    ensures var p := Purged(a.(sessions := sessions), inv).claims;
            forall e, c :: e in a.claims && c in a.claims[e].clients && Live(a.sessions, c, inv) ==>
              Holder(a, e, c) && e in p && c in p[e].clients
  {
    var p := Purged(a.(sessions := sessions), inv).claims;
    forall e, c | e in a.claims && c in a.claims[e].clients && Live(a.sessions, c, inv)
      ensures Holder(a, e, c) && e in p && c in p[e].clients
    {
      assert c in Kept(a.claims[e], sessions, inv).clients;
    }
  }

  lemma KeptAreLive(a: Access, sessions: map<ClientId, Session>, inv: Inventory)
    requires ClaimsSound(a) && forall c :: Live(a.sessions, c, inv) <==> Live(sessions, c, inv)
    ensures var p := Purged(a.(sessions := sessions), inv).claims;
            forall e :: e in p ==> e in a.claims && HasLiveHolder(a, p[e].clients, e, inv)
  {
    var p := Purged(a.(sessions := sessions), inv).claims;
    forall e | e in p
      ensures e in a.claims && HasLiveHolder(a, p[e].clients, e, inv)
    {
      var c :| c in p[e].clients;
      assert Holder(a, e, c);
    }
  }

  ghost predicate HasLiveHolder(a: Access, clients: set<ClientId>, e: EntryId, inv: Inventory)
    requires e in a.claims
  {
    exists c :: c in clients && c in a.claims[e].clients && Live(a.sessions, c, inv) && Holder(a, e, c)
  }
}
