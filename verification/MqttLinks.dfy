/** Who is admitted, and linked. */
module MqttLinks {
  import opened Common
  import opened DeviceTopics
  import opened MqttAccess
  import opened MqttOwnership
  import opened MqttBinding

  // ---------------------------------------------------------------- connecting

  /** Entry `i` is the only one at this address and the only one of its name, and is open to connections. */
  predicate Admits(inv: Inventory, i: nat, ip: Ip) {
    && i < |inv| && inv[i].ip == ip && inv[i].entryId != ""
    && (forall j :: 0 <= j < |inv| && j != i ==> inv[j].ip != ip && inv[j].entryId != inv[i].entryId)
    && inv[i].platform != Some(Thinq1) && inv[i].autoLink != Some(false)
    && (inv[i].deviceId.Some? ==> SafeDeviceId(inv[i].deviceId.value))
  }

  lemma AdmissibleIs(inv: Inventory, ip: Ip)
    ensures var matches := Filter((e: InventoryEntry) => e.ip == ip, inv);
            Admissible(matches, inv) <==> exists i: nat :: Admits(inv, i, ip) && matches == [inv[i]]
  {
    var placed := (e: InventoryEntry) => e.ip == ip;
    var matches := Filter((e: InventoryEntry) => e.ip == ip, inv);
    FilterOne(placed, inv);
    if Admissible(matches, inv) {
      var i: nat :| Sole(placed, inv, i) && Filter(placed, inv)[0] == inv[i];
      var named := (e: InventoryEntry) => e.entryId == matches[0].entryId;
      FilterOne(named, inv);
      var k: nat :| Sole(named, inv, k);
      assert k == i && Admits(inv, i, ip) && matches == [inv[i]];
    }
    if exists i: nat :: Admits(inv, i, ip) && matches == [inv[i]] {
      var i: nat :| Admits(inv, i, ip) && matches == [inv[i]];
      var named := (e: InventoryEntry) => e.entryId == matches[0].entryId;
      FilterOne(named, inv);
      assert Sole(named, inv, i);
    }
  }

  lemma AdmitsAlone(inv: Inventory, i: nat, ip: Ip)
    requires Admits(inv, i, ip)
    ensures Filter((e: InventoryEntry) => e.ip == ip, inv) == [inv[i]]
    ensures Admissible(Filter((e: InventoryEntry) => e.ip == ip, inv), inv)
  {
    var placed := (e: InventoryEntry) => e.ip == ip;
    FilterOne(placed, inv);
    assert Sole(placed, inv, i);
    AdmissibleIs(inv, ip);
  }

  /** A diagnostic account is admitted over TLS, without a will, by its name and its password, and is that account from then on. */
  lemma DiagnosticAdmittedIff(a: Access, client: ClientId, packet: ConnectPacket, tls: bool, source: Option<Ip>, aborted: bool,
                              accounts: seq<Account>, inv: Inventory)
    requires packet.username.Some? || packet.password.Some?
    ensures var (b, ok) := Connected(a, client, packet, tls, source, aborted, accounts, inv);
            && (ok <==> tls && !aborted && packet.will.None? && packet.username.Some? && Given(packet.password)
                        && exists i :: 0 <= i < |accounts| && Opens(accounts[i], packet.username.value, packet.password.value))
            && b.claims == a.claims
            && (ok ==> exists i: nat :: LastToOpen(accounts, i, packet.username.value, packet.password.value)
                         && b.sessions == a.sessions[client := Diagnostic(accounts[i].ids, accounts[i].write)])
            && (!ok ==> b == a)
  {
    if packet.username.Some? && packet.password.Some? {
      AccountIs(packet.username.value, packet.password.value, accounts);
    }
  }

  /** The session an appliance begins with: linked exactly when its entry has a device. */
  function Beginning(entry: InventoryEntry): Session {
    Appliance(entry.entryId, entry.ip, entry.deviceId, entry.deviceId.Some?, false)
  }

  function Begun(a: Access, client: ClientId, entry: InventoryEntry): Access {
    a.(sessions := a.sessions[client := Beginning(entry)])
  }

  /** The bind that a connection on an entry with a device begins with. */
  ghost predicate MayBegin(a: Access, client: ClientId, entry: InventoryEntry, inv: Inventory) {
    entry.deviceId.Some? ==> MayBind(Begun(a, client, entry), client, entry.deviceId.value, inv)
  }

  ghost function AfterBeginning(a: Access, client: ClientId, entry: InventoryEntry, inv: Inventory): (Access, bool) {
    if entry.deviceId.Some? then Bound(Begun(a, client, entry), client, entry.deviceId.value, inv)
    else (Begun(a, client, entry), true)
  }

  /** What a will has to be: a publication of the appliance's own, for a device that it may bind. */
  ghost predicate WillFits(b: Access, client: ClientId, will: Publication, inv: Inventory)
    requires client in b.sessions && b.sessions[client].Appliance?
  {
    var topic := ParseDeviceTopic(will.topic);
    && topic.Some? && topic.value.kind in {Message, Provisioning}
    && will.did == Some(topic.value.deviceId) && MayBind(b, client, topic.value.deviceId, inv)
  }

  lemma WillTakenIff(b: Access, client: ClientId, will: Publication, inv: Inventory)
    requires ClaimsSound(b) && client in b.sessions && b.sessions[client].Appliance? && LinkedHasId(b.sessions[client])
    ensures WillTaken(b, client, will, inv).1 <==> WillFits(b, client, will, inv)
  {
    var topic := ParseDeviceTopic(will.topic);
    ParsedIsSafe(will.topic);
    if topic.Some? && topic.value.kind != Lime {
      var id := topic.value.deviceId;
      BindDoes(b, client, id, inv);
      if Bound(b, client, id, inv).1 {
        var d := Bound(b, client, id, inv).0;
        BindsAgain(b, client, id, inv);
        BindLasts(b, client, id, inv);
        PublishAllowedIff(d, client, will, inv);
        BindDoes(d, client, id, inv);
      }
    }
  }

  /**
   * An appliance is admitted exactly when it comes without credentials from an address of which the inventory admits
   * connections, may bind the device of that entry if it has one, and brings no will or one that fits.
   */
  lemma ApplianceAdmittedIff(a: Access, client: ClientId, packet: ConnectPacket, tls: bool, source: Option<Ip>, aborted: bool,
                             accounts: seq<Account>, inv: Inventory)
    requires ClaimsSound(a) && client !in a.sessions && packet.username.None? && packet.password.None?
    ensures Connected(a, client, packet, tls, source, aborted, accounts, inv).1 <==>
              && Given(source) && !aborted
              && exists i: nat :: Admits(inv, i, source.value) && Welcome(a, client, inv[i], packet.will, inv)
  {
    if Given(source) && !aborted {
      AdmissibleIs(inv, source.value);
      if i: nat :| Admits(inv, i, source.value) {
        AdmitsAlone(inv, i, source.value);
        TakenConnects(a, client, packet, tls, source, accounts, inv, inv[i]);
        WelcomeIff(a, client, inv[i], packet.will, inv);
        assert forall k: nat :: Admits(inv, k, source.value) ==> k == i;
      }
    }
  }

  lemma TakenConnects(a: Access, client: ClientId, packet: ConnectPacket, tls: bool, source: Option<Ip>,
                      accounts: seq<Account>, inv: Inventory, entry: InventoryEntry)
    requires packet.username.None? && packet.password.None? && Given(source)
    requires var matches := Filter((e: InventoryEntry) => e.ip == source.value, inv);
             matches == [entry] && Admissible(matches, inv)
    ensures Connected(a, client, packet, tls, source, false, accounts, inv) == Taken(a, client, entry, source.value, packet.will, inv)
  {
  }

  ghost predicate Welcome(a: Access, client: ClientId, entry: InventoryEntry, will: Option<Publication>, inv: Inventory) {
    && MayBegin(a, client, entry, inv)
    && var b := AfterBeginning(a, client, entry, inv).0;
    && client in b.sessions && b.sessions[client].Appliance?
    && (will.Some? ==> WillFits(b, client, will.value, inv))
  }

  lemma BeginningIsSound(a: Access, client: ClientId, entry: InventoryEntry)
    requires ClaimsSound(a) && client !in a.sessions
    ensures ClaimsSound(Begun(a, client, entry))
  {
    var o := Begun(a, client, entry);
    assert forall f, c :: f in a.claims && Holder(a, f, c) ==> Holder(o, f, c);
  }

  /** What the code does with the entry it found. */
  ghost function Taken(a: Access, client: ClientId, entry: InventoryEntry, ip: Ip, will: Option<Publication>, inv: Inventory): (Access, bool) {
    var admitted := a.(sessions := a.sessions[client := Opened(entry, ip)]);
    var (b, linked) := if Given(entry.deviceId) then Bound(admitted, client, entry.deviceId.value, inv) else (admitted, true);
    if !linked || will.None? then (b, linked) else WillTaken(b, client, will.value, inv)
  }

  lemma WelcomeIff(a: Access, client: ClientId, entry: InventoryEntry, will: Option<Publication>, inv: Inventory)
    requires ClaimsSound(a) && client !in a.sessions && (entry.deviceId.Some? ==> SafeDeviceId(entry.deviceId.value))
    ensures Taken(a, client, entry, entry.ip, will, inv).1 <==> Welcome(a, client, entry, will, inv)
  {
    var o := Begun(a, client, entry);
    BeginningIsSound(a, client, entry);
    if entry.deviceId.Some? {
      BindDoes(o, client, entry.deviceId.value, inv);
      BoundIsSound(o, client, entry.deviceId.value, inv);
    }
    var (b, linked) := AfterBeginning(a, client, entry, inv);
    if linked && will.Some? {
      WillTakenIff(b, client, will.value, inv);
    }
  }

  /** Leaving takes the client from the claims, and nobody else. */
  lemma DisconnectDoes(a: Access, client: ClientId)
    requires ClaimsSound(a)
    ensures var b := Disconnected(a, client);
            && b.sessions == a.sessions - {client}
            && forall e, c :: Claims(b, e, c) <==> Claims(a, e, c) && c != client
  {
    var b := Disconnected(a, client);
    forall e, c
      ensures Claims(b, e, c) <==> Claims(a, e, c) && c != client
    {
      if Claims(a, e, c) {
        assert Holder(a, e, c);
        if c != client {
          assert c in a.claims[e].clients - {client};
        }
      }
    }
  }

  // ---------------------------------------------------------------- whom an operation asks about

  ghost function BindAsked(a: Access, client: ClientId, id: DeviceId, inv: Inventory): set<ClientId>
    requires client in a.sessions && a.sessions[client].Appliance?
  {
    {client} + if Agreeable(a.sessions[client], id, inv) then Claimants(a.claims) else {}
  }

  ghost function PublishAsked(a: Access, client: ClientId, packet: Publication, inv: Inventory): set<ClientId> {
    var topic := ParseDeviceTopic(packet.topic);
    if client !in a.sessions || a.sessions[client].Diagnostic? || topic.None? || packet.did != Some(topic.value.deviceId) then {}
    else if topic.value.kind.Lime? || (topic.value.kind.Message? && !Given(a.sessions[client].id)) then {client}
    else BindAsked(a, client, topic.value.deviceId, inv)
  }

  ghost function SubscribeAsked(a: Access, client: ClientId, name: string, inv: Inventory): set<ClientId> {
    var topic := ParseDeviceTopic(name);
    if client !in a.sessions || a.sessions[client].Diagnostic? || topic.None? || !topic.value.kind.Lime? then {}
    else BindAsked(a, client, topic.value.deviceId, inv)
  }

  ghost function DeliverAsked(a: Access, client: ClientId, name: string): set<ClientId> {
    if client in a.sessions && a.sessions[client].Appliance? && ParseDeviceTopic(name).Some? then {client} else {}
  }

  /** A found-current session with an id, on an entry with a device. */
  predicate FoundLinked(s: Session, t: Session, inv: Inventory)
    requires s.Appliance? && t.Appliance?
  {
    s.Current(inv).Some? && HasDevice(s, inv) && Given(t.id)
  }

  /**
   * How a step that asks about the clients of `asked` marks one of them: linked exactly when it was, or was asked about and
   * found so. Nobody else's session changes.
   */
  predicate Marks(s: Session, t: Session, asked: bool, inv: Inventory) {
    if s.Diagnostic? then t == s
    else
      && t.Appliance? && t.entryId == s.entryId && t.ip == s.ip
      && (t.linked <==> s.linked || (asked && FoundLinked(s, t, inv)))
      && (LinkedHasId(s) ==> LinkedHasId(t) && t.Current(inv) == if asked && s.Current(inv).None? then None else s.Current(inv))
      && (!asked ==> t == s)
      && (s.id.Some? ==> t.id == s.id)
  }

  ghost predicate MarksAll(a: Access, b: Access, asked: set<ClientId>, inv: Inventory) {
    && a.sessions.Keys <= b.sessions.Keys
    && forall c :: c in a.sessions ==> Marks(a.sessions[c], b.sessions[c], c in asked, inv)
  }

  lemma AskingMarks(s: Session, inv: Inventory)
    requires s.Appliance?
    ensures Marks(s, s.Asked(inv), true, inv)
  {
    AskedTwice(s, inv);
    if s.Current(inv).Some? {
      DeviceOfCurrent(s, inv);
      CurrentIs(s, inv);
    }
  }

  lemma BindMarks(a: Access, client: ClientId, id: DeviceId, inv: Inventory)
    requires ClaimsSound(a) && client in a.sessions && a.sessions[client].Appliance? && id != ""
    ensures MarksAll(a, Bound(a, client, id, inv).0, BindAsked(a, client, id, inv), inv)
  {
    var b, asked := Bound(a, client, id, inv).0, BindAsked(a, client, id, inv);
    BindDoes(a, client, id, inv);
    forall c | c in a.sessions
      ensures Marks(a.sessions[c], b.sessions[c], c in asked, inv)
    {
      if c == client {
        BinderMarks(a, client, id, inv);
      } else if a.sessions[c].Appliance? {
        AskingMarks(a.sessions[c], inv);
      }
    }
  }

  lemma BinderMarks(a: Access, client: ClientId, id: DeviceId, inv: Inventory)
    requires ClaimsSound(a) && client in a.sessions && a.sessions[client].Appliance? && id != ""
    ensures client in Bound(a, client, id, inv).0.sessions
    ensures Marks(a.sessions[client], Bound(a, client, id, inv).0.sessions[client], true, inv)
  {
    var s := a.sessions[client];
    BindDoes(a, client, id, inv);
    AskingMarks(s, inv);
    if Bound(a, client, id, inv).1 {
      OffersIs(s, inv, id);
      if LinkedHasId(s) {
        BindLasts(a, client, id, inv);
      }
    }
  }

  lemma MarksTwice(s: Session, t: Session, u: Session, first: bool, second: bool, inv: Inventory)
    requires Marks(s, t, first, inv) && Marks(t, u, second, inv) && LinkedHasId(s)
    ensures Marks(s, u, first || second, inv)
  {
  }

  lemma MarksAllTwice(a: Access, b: Access, d: Access, first: set<ClientId>, second: set<ClientId>, inv: Inventory)
    requires MarksAll(a, b, first, inv) && MarksAll(b, d, second, inv)
    requires forall c :: c in a.sessions ==> LinkedHasId(a.sessions[c])
    ensures MarksAll(a, d, first + second, inv)
  {
    forall c | c in a.sessions
      ensures Marks(a.sessions[c], d.sessions[c], c in first + second, inv)
    {
      MarksTwice(a.sessions[c], b.sessions[c], d.sessions[c], c in first, c in second, inv);
    }
  }

  lemma AskMarks(a: Access, client: ClientId, inv: Inventory)
    requires client in a.sessions && a.sessions[client].Appliance?
    ensures MarksAll(a, a.(sessions := AskClient(a.sessions, client, inv)), {client}, inv)
  {
    AskingMarks(a.sessions[client], inv);
  }

  lemma PublishMarks(a: Access, client: ClientId, packet: Publication, inv: Inventory)
    requires ClaimsSound(a)
    ensures MarksAll(a, Published(a, client, packet, inv).0, PublishAsked(a, client, packet, inv), inv)
  {
    NobodyMarked(a, inv);
    if client in a.sessions && a.sessions[client].Appliance? && ParseDeviceTopic(packet.topic).Some? {
      AppliancePublishMarks(a, client, packet, inv);
    }
  }

  lemma AppliancePublishMarks(a: Access, client: ClientId, packet: Publication, inv: Inventory)
    requires ClaimsSound(a) && client in a.sessions && a.sessions[client].Appliance? && ParseDeviceTopic(packet.topic).Some?
    ensures MarksAll(a, Published(a, client, packet, inv).0, PublishAsked(a, client, packet, inv), inv)
  {
    var DeviceTopic(kind, id) := ParseDeviceTopic(packet.topic).value;
    ParsedIsSafe(packet.topic);
    NobodyMarked(a, inv);
    AskMarks(a, client, inv);
    AskedOnly(a, client, id, inv);
    if packet.did == Some(id) && kind != Lime && (kind == Provisioning || Given(a.sessions[client].id)) {
      AskedBindsAlike(a, client, id, inv);
      BindMarks(a, client, id, inv);
      if a.sessions[client].Current(inv).None? {
        assert Published(a, client, packet, inv).0 == a.(sessions := AskClient(a.sessions, client, inv));
      } else {
        assert Published(a, client, packet, inv) == Bound(a, client, id, inv);
      }
    }
  }

  /** A session that is not current asks about nobody else. */
  lemma AskedOnly(a: Access, client: ClientId, id: DeviceId, inv: Inventory)
    requires client in a.sessions && a.sessions[client].Appliance?
    ensures a.sessions[client].Current(inv).None? ==> BindAsked(a, client, id, inv) == {client}
  {
  }

  lemma SubscribeMarks(a: Access, client: ClientId, name: string, inv: Inventory)
    requires ClaimsSound(a)
    ensures MarksAll(a, Subscribed(a, client, name, inv).0, SubscribeAsked(a, client, name, inv), inv)
  {
    ParsedIsSafe(name);
    if client in a.sessions && a.sessions[client].Appliance? && ParseDeviceTopic(name).Some? {
      BindMarks(a, client, ParseDeviceTopic(name).value.deviceId, inv);
    }
  }

  lemma DeliverMarks(a: Access, client: ClientId, name: string, inv: Inventory)
    ensures MarksAll(a, Delivered(a, client, name, inv).0, DeliverAsked(a, client, name), inv)
  {
    if client in a.sessions && a.sessions[client].Appliance? {
      AskingMarks(a.sessions[client], inv);
    }
  }

  ghost function WillAsked(a: Access, client: ClientId, will: Publication, inv: Inventory): set<ClientId>
    requires client in a.sessions && a.sessions[client].Appliance?
  {
    var topic := ParseDeviceTopic(will.topic);
    if topic.None? || topic.value.kind.Lime? then {}
    else
      var (b, bound) := Bound(a, client, topic.value.deviceId, inv);
      BindAsked(a, client, topic.value.deviceId, inv) + if bound then PublishAsked(b, client, will, inv) else {}
  }

  ghost predicate AllLinkedHaveId(a: Access) { forall c :: c in a.sessions ==> LinkedHasId(a.sessions[c]) }

  lemma WillMarks(a: Access, client: ClientId, will: Publication, inv: Inventory)
    requires ClaimsSound(a) && AllLinkedHaveId(a) && client in a.sessions && a.sessions[client].Appliance?
    ensures MarksAll(a, WillTaken(a, client, will, inv).0, WillAsked(a, client, will, inv), inv)
  {
    var topic := ParseDeviceTopic(will.topic);
    ParsedIsSafe(will.topic);
    NobodyMarked(a, inv);
    if topic.Some? && !topic.value.kind.Lime? {
      var id := topic.value.deviceId;
      var (b, bound) := Bound(a, client, id, inv);
      BindMarks(a, client, id, inv);
      if bound {
        BoundIsSound(a, client, id, inv);
        PublishMarks(b, client, will, inv);
        MarksAllTwice(a, b, Published(b, client, will, inv).0, BindAsked(a, client, id, inv), PublishAsked(b, client, will, inv), inv);
      }
    }
  }

  lemma NobodyMarked(a: Access, inv: Inventory)
    ensures MarksAll(a, a, {}, inv)
  {
  }

  /** Whom the connection of an appliance asks about, itself included. */
  ghost function TakenAsked(a: Access, client: ClientId, entry: InventoryEntry, ip: Ip, will: Option<Publication>, inv: Inventory): set<ClientId> {
    var admitted := a.(sessions := a.sessions[client := Opened(entry, ip)]);
    var (b, linked) := if Given(entry.deviceId) then Bound(admitted, client, entry.deviceId.value, inv) else (admitted, true);
    (if Given(entry.deviceId) then BindAsked(admitted, client, entry.deviceId.value, inv) else {})
    + (if !linked || will.None? then {} else WillAsked(b, client, will.value, inv))
  }

  lemma ThenWillMarks(o: Access, b: Access, client: ClientId, will: Publication, first: set<ClientId>, inv: Inventory)
    requires AllLinkedHaveId(o) && MarksAll(o, b, first, inv) && ClaimsSound(b) && b.sessions.Keys == o.sessions.Keys
    requires client in o.sessions && o.sessions[client].Appliance?
    ensures client in b.sessions && b.sessions[client].Appliance?
    ensures MarksAll(o, WillTaken(b, client, will, inv).0, first + WillAsked(b, client, will, inv), inv)
  {
    assert Marks(o.sessions[client], b.sessions[client], client in first, inv);
    forall c | c in b.sessions
      ensures LinkedHasId(b.sessions[c])
    {
      assert Marks(o.sessions[c], b.sessions[c], c in first, inv);
    }
    WillMarks(b, client, will, inv);
    MarksAllTwice(o, b, WillTaken(b, client, will, inv).0, first, WillAsked(b, client, will, inv), inv);
  }

  lemma FirstMarks(o: Access, client: ClientId, device: Option<DeviceId>, inv: Inventory)
    requires ClaimsSound(o) && client in o.sessions && o.sessions[client].Appliance?
    ensures var (b, _) := if Given(device) then Bound(o, client, device.value, inv) else (o, true);
            var first := if Given(device) then BindAsked(o, client, device.value, inv) else {};
            MarksAll(o, b, first, inv) && ClaimsSound(b) && b.sessions.Keys == o.sessions.Keys
  {
    NobodyMarked(o, inv);
    if Given(device) {
      BindMarks(o, client, device.value, inv);
      BoundIsSound(o, client, device.value, inv);
    }
  }

  lemma TakenMarks(a: Access, client: ClientId, entry: InventoryEntry, ip: Ip, will: Option<Publication>, inv: Inventory)
    requires ClaimsSound(a) && AllLinkedHaveId(a) && client !in a.sessions
    ensures var o := a.(sessions := a.sessions[client := Opened(entry, ip)]);
            MarksAll(o, Taken(a, client, entry, ip, will, inv).0, TakenAsked(a, client, entry, ip, will, inv), inv)
  {
    var o := a.(sessions := a.sessions[client := Opened(entry, ip)]);
    assert forall f, c :: f in a.claims && Holder(a, f, c) ==> Holder(o, f, c);
    FirstMarks(o, client, entry.deviceId, inv);
    var (b, linked) := if Given(entry.deviceId) then Bound(o, client, entry.deviceId.value, inv) else (o, true);
    var first := if Given(entry.deviceId) then BindAsked(o, client, entry.deviceId.value, inv) else {};
    assert first + {} == first;
    if linked && will.Some? {
      ThenWillMarks(o, b, client, will.value, first, inv);
    }
  }

  // ---------------------------------------------------------------- runs

  /** Whom an event asks about. */
  ghost function Asked(w: World, e: Event): set<ClientId> {
    var a := w.access;
    match e.step
    case Publish(packet) => PublishAsked(a, e.client, packet, e.inv)
    case Subscribe(name) => SubscribeAsked(a, e.client, name, e.inv)
    case Deliver(name) => DeliverAsked(a, e.client, name)
    case Disconnect => {}
    case Connect(packet, _, source, aborted, _) =>
      if packet.username.Some? || packet.password.Some? || !Given(source) || aborted then {}
      else
        var matches := Filter((i: InventoryEntry) => i.ip == source.value, e.inv);
        if Admissible(matches, e.inv) then TakenAsked(a, e.client, matches[0], source.value, packet.will, e.inv) else {}
  }

  /** The session was opened on an entry with a device, or was asked about and found current, with an id, on such an entry. */
  ghost predicate LinkedBy(a: Access, b: Access, asked: set<ClientId>, inv: Inventory, c: ClientId)
    requires c in b.sessions && b.sessions[c].Appliance?
  {
    if c in a.sessions then a.sessions[c].Appliance? && c in asked && FoundLinked(a.sessions[c], b.sessions[c], inv)
    else HasDevice(b.sessions[c], inv)
  }

  predicate WasLinked(a: Access, c: ClientId) { c in a.sessions && a.sessions[c].Appliance? && a.sessions[c].linked }

  /** Whether a session is linked afterwards, from what it was and whether the event linked it. */
  ghost predicate LinksRight(a: Access, b: Access, asked: set<ClientId>, inv: Inventory, c: ClientId) {
    c in b.sessions ==>
      && LinkedHasId(b.sessions[c])
      && (b.sessions[c].Appliance? ==> (b.sessions[c].linked <==> WasLinked(a, c) || LinkedBy(a, b, asked, inv, c)))
  }

  lemma MarkedLinks(a: Access, b: Access, asked: set<ClientId>, inv: Inventory, c: ClientId)
    requires c in a.sessions && c in b.sessions && LinkedHasId(a.sessions[c])
    requires Marks(a.sessions[c], b.sessions[c], c in asked, inv)
    ensures LinksRight(a, b, asked, inv, c)
  {
  }

  /** The same for a client that has just begun as `s`. */
  lemma BegunLinks(a: Access, b: Access, s: Session, asked: set<ClientId>, inv: Inventory, c: ClientId)
    requires c !in a.sessions && c in b.sessions && s.Appliance? && LinkedHasId(s) && Marks(s, b.sessions[c], c in asked, inv)
    requires s.linked <==> HasDevice(s, inv)
    ensures LinksRight(a, b, asked, inv, c)
  {
  }

  lemma OperationLinks(w: World, e: Event, c: ClientId)
    requires Inv(w) && AllLinkedHaveId(w.access) && IsOperation(e.step)
    ensures LinksRight(w.access, Next(w, e).access, Asked(w, e), e.inv, c)
  {
    OperationMarks(w, e);
    if c in w.access.sessions {
      MarkedLinks(w.access, Next(w, e).access, Asked(w, e), e.inv, c);
    }
  }

  lemma OperationMarks(w: World, e: Event)
    requires Inv(w) && IsOperation(e.step)
    ensures MarksAll(w.access, Next(w, e).access, Asked(w, e), e.inv)
    ensures Next(w, e).access.sessions.Keys == w.access.sessions.Keys
  {
    match e.step
    case Publish(packet) =>
      PublishMarks(w.access, e.client, packet, e.inv);
      PublishedIsSound(w.access, e.client, packet, e.inv);
    case Subscribe(name) =>
      SubscribeMarks(w.access, e.client, name, e.inv);
      SubscribedIsSound(w.access, e.client, name, e.inv);
    case Deliver(name) => DeliverMarks(w.access, e.client, name, e.inv);
  }

  /** The entry that a connection is taken on, if it gets that far. */
  predicate TakenOn(e: Event, entry: InventoryEntry) {
    && e.step.Connect? && e.step.packet.username.None? && e.step.packet.password.None?
    && Given(e.step.source) && !e.step.aborted
    && Filter((i: InventoryEntry) => i.ip == e.step.source.value, e.inv) == [entry] && Admissible([entry], e.inv)
  }

  lemma TakenIs(w: World, e: Event, entry: InventoryEntry)
    requires TakenOn(e, entry)
    ensures Next(w, e).access == Taken(w.access, e.client, entry, e.step.source.value, e.step.packet.will, e.inv).0
    ensures Asked(w, e) == TakenAsked(w.access, e.client, entry, e.step.source.value, e.step.packet.will, e.inv)
  {
    var matches := Filter((i: InventoryEntry) => i.ip == e.step.source.value, e.inv);
    assert matches[0] == entry;
  }

  lemma EntryHasDevice(inv: Inventory, entry: InventoryEntry, s: Session)
    requires entry in inv && Admissible([entry], inv) && s.Appliance? && s.entryId == entry.entryId
    ensures HasDevice(s, inv) <==> Given(entry.deviceId)
  {
    var named := (i: InventoryEntry) => i.entryId == [entry][0].entryId;
    FilterOne(named, inv);
    var i: nat :| Sole(named, inv, i);
    var k :| 0 <= k < |inv| && inv[k] == entry;
    assert k == i;
  }

  lemma TakenLinks(a: Access, b: Access, client: ClientId, entry: InventoryEntry, ip: Ip, asked: set<ClientId>, inv: Inventory, c: ClientId)
    requires AllLinkedHaveId(a) && client !in a.sessions && entry in inv && Admissible([entry], inv)
    requires var o := a.(sessions := a.sessions[client := Opened(entry, ip)]);
             MarksAll(o, b, asked, inv) && b.sessions.Keys == o.sessions.Keys
    ensures LinksRight(a, b, asked, inv, c)
  {
    var o := a.(sessions := a.sessions[client := Opened(entry, ip)]);
    if c in o.sessions {
      assert Marks(o.sessions[c], b.sessions[c], c in asked, inv);
      if c == client {
        EntryHasDevice(inv, entry, Opened(entry, ip));
        BegunLinks(a, b, Opened(entry, ip), asked, inv, c);
      } else {
        MarkedLinks(a, b, asked, inv, c);
      }
    }
  }

  lemma ApplianceLinks(w: World, e: Event, entry: InventoryEntry, c: ClientId)
    requires Inv(w) && Enabled(w, e) && AllLinkedHaveId(w.access) && TakenOn(e, entry)
    ensures LinksRight(w.access, Next(w, e).access, Asked(w, e), e.inv, c)
  {
    var ip, will := e.step.source.value, e.step.packet.will;
    assert [entry][0] in Filter((i: InventoryEntry) => i.ip == e.step.source.value, e.inv);
    TakenMarks(w.access, e.client, entry, ip, will, e.inv);
    TakenKeys(w.access, e.client, entry, ip, will, e.inv);
    TakenLinks(w.access, Taken(w.access, e.client, entry, ip, will, e.inv).0, e.client, entry, ip,
               TakenAsked(w.access, e.client, entry, ip, will, e.inv), e.inv, c);
    TakenIs(w, e, entry);
  }

  lemma TakenKeys(a: Access, client: ClientId, entry: InventoryEntry, ip: Ip, will: Option<Publication>, inv: Inventory)
    requires ClaimsSound(a) && client !in a.sessions && Admissible([entry], inv)
    ensures Taken(a, client, entry, ip, will, inv).0.sessions.Keys == a.sessions.Keys + {client}
  {
    ApplianceConnectIsSound(a, client, entry, ip, will, inv);
  }

  /** Connections that are not taken open no appliance's session and change no other. */
  lemma OtherConnect(w: World, e: Event, c: ClientId)
    requires e.step.Connect? && e.client !in w.access.sessions && forall entry :: !TakenOn(e, entry)
    ensures c in w.access.sessions ==> c in Next(w, e).access.sessions && Next(w, e).access.sessions[c] == w.access.sessions[c]
    ensures c !in w.access.sessions && c in Next(w, e).access.sessions ==> Next(w, e).access.sessions[c].Diagnostic?
    ensures Asked(w, e) == {}
  {
    if Given(e.step.source) {
      var matches := Filter((i: InventoryEntry) => i.ip == e.step.source.value, e.inv);
      assert Admissible(matches, e.inv) ==> matches == [matches[0]] && Admissible([matches[0]], e.inv);
      assert Admissible(matches, e.inv) ==> !TakenOn(e, matches[0]);
    }
  }

  lemma ConnectLinks(w: World, e: Event, c: ClientId)
    requires Inv(w) && Enabled(w, e) && AllLinkedHaveId(w.access) && e.step.Connect?
    ensures LinksRight(w.access, Next(w, e).access, Asked(w, e), e.inv, c)
  {
    if entry :| TakenOn(e, entry) {
      ApplianceLinks(w, e, entry, c);
    } else {
      OtherConnect(w, e, c);
      SameSession(w.access, Next(w, e).access, e.inv, c);
    }
  }

  lemma SameSession(a: Access, b: Access, inv: Inventory, c: ClientId)
    requires AllLinkedHaveId(a)
    requires c in a.sessions ==> c in b.sessions && b.sessions[c] == a.sessions[c]
    requires c !in a.sessions && c in b.sessions ==> b.sessions[c].Diagnostic?
    ensures LinksRight(a, b, {}, inv, c)
  {
  }

  /** One event links a session, or leaves its mark. */
  lemma NextLinks(w: World, e: Event, c: ClientId)
    requires Inv(w) && Enabled(w, e) && AllLinkedHaveId(w.access)
    ensures LinksRight(w.access, Next(w, e).access, Asked(w, e), e.inv, c)
  {
    if e.step.Connect? {
      ConnectLinks(w, e, c);
    } else if !e.step.Disconnect? {
      OperationLinks(w, e, c);
    }
  }

  lemma NextHasIds(w: World, e: Event)
    requires Inv(w) && Enabled(w, e) && AllLinkedHaveId(w.access)
    ensures AllLinkedHaveId(Next(w, e).access)
  {
    forall c | c in Next(w, e).access.sessions
      ensures LinkedHasId(Next(w, e).access.sessions[c])
    {
      NextLinks(w, e, c);
    }
  }

  /** The state of a run before its `n`-th event. */
  ghost function At(es: seq<Event>, n: nat): World
    requires n <= |es|
  {
    Run(START, es[..n])
  }

  /** The `i`-th event of a run linked this session. */
  ghost predicate LinkedAt(es: seq<Event>, i: nat, c: ClientId)
    requires i < |es|
  {
    var a, b := At(es, i).access, At(es, i + 1).access;
    c in b.sessions && b.sessions[c].Appliance? && LinkedBy(a, b, Asked(At(es, i), es[i]), es[i].inv, c)
  }

  ghost predicate LinkedBefore(es: seq<Event>, n: nat, c: ClientId)
    requires n <= |es|
  {
    exists i: nat :: i < n && LinkedAt(es, i, c)
  }

  lemma {:induction false} RunEnds(w: World, es: seq<Event>, e: Event)
    requires Legal(w, es + [e])
    ensures Legal(w, es) && Enabled(Run(w, es), e) && Run(w, es + [e]) == Next(Run(w, es), e)
    decreases |es|
  {
    if es == [] {
      assert es + [e] == [e] && [e][1..] == [];
    } else {
      assert (es + [e])[1..] == es[1..] + [e];
      RunEnds(Next(w, es[0]), es[1..], e);
    }
  }

  lemma PrefixLegal(es: seq<Event>, n: nat)
    requires Legal(START, es) && n <= |es|
    ensures Legal(START, es[..n]) && Inv(At(es, n))
  {
    assert es == es[..n] + es[n..];
    LegalSplits(START, es[..n], es[n..]);
    RunKeepsInv(START, es[..n]);
  }

  lemma PrefixRun(es: seq<Event>, n: nat)
    requires Legal(START, es) && n < |es|
    ensures Inv(At(es, n)) && Enabled(At(es, n), es[n]) && At(es, n + 1) == Next(At(es, n), es[n])
  {
    PrefixLegal(es, n);
    PrefixLegal(es, n + 1);
    assert es[..n + 1] == es[..n] + [es[n]];
    RunEnds(START, es[..n], es[n]);
  }

  /**
   * In every run: an appliance's session is linked exactly when it was opened on an entry with a device, or has since been
   * asked about and found current, with an id of its own, on such an entry.
   */
  lemma LinkedIff(es: seq<Event>, c: ClientId)
    requires Legal(START, es)
    ensures AllLinkedHaveId(Run(START, es).access)
    ensures LinkedExactly(Run(START, es).access, c, LinkedBefore(es, |es|, c))
  {
    LinkedUpTo(es, |es|, c);
    assert es[..|es|] == es;
  }

  ghost predicate LinkedExactly(a: Access, c: ClientId, when: bool) {
    c in a.sessions && a.sessions[c].Appliance? ==> (a.sessions[c].linked <==> when)
  }

  lemma {:induction false} LinkedUpTo(es: seq<Event>, n: nat, c: ClientId)
    requires Legal(START, es) && n <= |es|
    ensures AllLinkedHaveId(At(es, n).access) && LinkedExactly(At(es, n).access, c, LinkedBefore(es, n, c))
    ensures LinkedBefore(es, n, c) ==> c in At(es, n).seen
  {
    if n == 0 {
      assert es[..0] == [];
    } else {
      LinkedUpTo(es, n - 1, c);
      PrefixRun(es, n - 1);
      LinkedThen(At(es, n - 1), es[n - 1], c, LinkedBefore(es, n - 1, c), LinkedAt(es, n - 1, c));
      BeforeNext(es, n - 1, c);
    }
  }

  lemma BeforeNext(es: seq<Event>, n: nat, c: ClientId)
    requires n < |es|
    ensures LinkedBefore(es, n + 1, c) <==> LinkedBefore(es, n, c) || LinkedAt(es, n, c)
  {
  }

  lemma LinkedThen(w: World, e: Event, c: ClientId, before: bool, now: bool)
    requires Inv(w) && Enabled(w, e) && AllLinkedHaveId(w.access)
    requires LinkedExactly(w.access, c, before) && (before ==> c in w.seen)
    requires var b := Next(w, e).access;
             now <==> c in b.sessions && b.sessions[c].Appliance? && LinkedBy(w.access, b, Asked(w, e), e.inv, c)
    ensures AllLinkedHaveId(Next(w, e).access) && LinkedExactly(Next(w, e).access, c, before || now)
    ensures before || now ==> c in Next(w, e).seen
  {
    NextHasIds(w, e);
    NextLinks(w, e, c);
    NextKeepsInv(w, e);
    if c in w.seen {
      OthersStay(w, e, c);
    }
    LinkedAfter(w.access, Next(w, e).access, Asked(w, e), e.inv, c, before, now);
  }

  lemma LinkedAfter(a: Access, b: Access, asked: set<ClientId>, inv: Inventory, c: ClientId, before: bool, now: bool)
    requires LinksRight(a, b, asked, inv, c) && LinkedExactly(a, c, before)
    requires c in a.sessions && c in b.sessions ==> Evolves(a.sessions[c], b.sessions[c])
    requires c !in a.sessions && c in b.sessions ==> !before
    requires now <==> c in b.sessions && b.sessions[c].Appliance? && LinkedBy(a, b, asked, inv, c)
    ensures LinkedExactly(b, c, before || now)
  {
  }
}
