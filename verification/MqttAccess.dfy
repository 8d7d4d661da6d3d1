/** Which MQTT client may speak for which appliance (cloud/mqtt-access.ts). */
module MqttAccess {
  import opened Common
  import opened DeviceTopics

  type ClientId = nat
  type EntryId = string
  type Ip = string

  datatype InventoryEntry = InventoryEntry(
    entryId: EntryId,
    ip: Ip,
    deviceId: Option<DeviceId>,
    autoLink: Option<bool>,
    platform: Option<Platform>)

  type Inventory = seq<InventoryEntry>

  /** A present, non-empty string: what the source's truthiness tests ask for. */
  predicate Given(o: Option<string>) { o.Some? && o.value != "" }

  predicate HeldElsewhere(inv: Inventory, entryId: EntryId, id: DeviceId) {
    exists i :: 0 <= i < |inv| && inv[i].entryId != entryId && inv[i].deviceId == Some(id)
  }

  datatype Session =
    | Appliance(entryId: EntryId, ip: Ip, id: Option<DeviceId>, linked: bool, revoked: bool)
    | Diagnostic(ids: set<DeviceId>, write: bool)
  {
    /** The inventory entry this session still answers for, if any. */
    function Current(inv: Inventory): Option<InventoryEntry>
      requires Appliance?
    {
      var matches := Filter((e: InventoryEntry) => e.entryId == entryId, inv);
      if revoked || |matches| != 1 then None
      else
        var entry := matches[0];
        if || entry.ip != ip
           || entry.autoLink == Some(false)
           || entry.platform == Some(Thinq1)
           || |Filter((e: InventoryEntry) => e.ip == ip, inv)| != 1
           || (entry.deviceId.Some? && id.Some? && entry.deviceId != id)
           || (linked && entry.deviceId != id)
           || (Given(id) && HeldElsewhere(inv, entryId, id.value))
        then None
        else Some(entry)
    }

    /** What asking `Current` leaves behind: revocation is recorded, and so is a link. */
    function Asked(inv: Inventory): Session
      requires Appliance?
    {
      if revoked then this
      else if Current(inv).None? then this.(revoked := true)
      else this.(linked := linked || (Given(Current(inv).value.deviceId) && Given(id)))
    }
  }

  lemma AskedTwice(s: Session, inv: Inventory)
    requires s.Appliance?
    ensures s.Asked(inv).Current(inv) == s.Current(inv)
    ensures s.Asked(inv).Asked(inv) == s.Asked(inv)
  {
  }

  datatype Claim = Claim(id: DeviceId, clients: set<ClientId>)

  datatype Access = Access(sessions: map<ClientId, Session>, claims: map<EntryId, Claim>)

  predicate Live(sessions: map<ClientId, Session>, c: ClientId, inv: Inventory) {
    c in sessions && sessions[c].Appliance? && sessions[c].Current(inv).Some?
  }

  function AskClient(sessions: map<ClientId, Session>, c: ClientId, inv: Inventory): (r: map<ClientId, Session>)
    ensures r.Keys == sessions.Keys
  {
    if c in sessions && sessions[c].Appliance? then sessions[c := sessions[c].Asked(inv)] else sessions
  }

  ghost function AskAll(sessions: map<ClientId, Session>, cs: set<ClientId>, inv: Inventory): map<ClientId, Session> {
    map c | c in sessions :: if c in cs && sessions[c].Appliance? then sessions[c].Asked(inv) else sessions[c]
  }

  ghost function Kept(claim: Claim, sessions: map<ClientId, Session>, inv: Inventory): Claim {
    Claim(claim.id, set c | c in claim.clients && Live(sessions, c, inv))
  }

  ghost function Claimants(claims: map<EntryId, Claim>): set<ClientId> {
    set e, c | e in claims && c in claims[e].clients :: c
  }

  ghost function Purged(a: Access, inv: Inventory): Access {
    Access(
      AskAll(a.sessions, Claimants(a.claims), inv),
      map e | e in a.claims && Kept(a.claims[e], a.sessions, inv).clients != {} :: Kept(a.claims[e], a.sessions, inv))
  }

  ghost predicate Agreeable(s: Session, id: DeviceId, inv: Inventory)
    requires s.Appliance?
  {
    && s.Current(inv).Some?
    && s.Current(inv).value.deviceId in {None, Some(id)}
    && s.id in {None, Some(id)}
    && !HeldElsewhere(inv, s.entryId, id)
  }

  ghost predicate Unclaimed(claims: map<EntryId, Claim>, entryId: EntryId, id: DeviceId) {
    && (forall e :: e in claims && claims[e].id == id ==> e == entryId)
    && (entryId in claims ==> claims[entryId].id == id)
  }

  ghost function Bound(a: Access, client: ClientId, id: DeviceId, inv: Inventory): (Access, bool)
    requires client in a.sessions && a.sessions[client].Appliance?
  {
    var s := a.sessions[client];
    var asked := a.(sessions := AskClient(a.sessions, client, inv));
    if !Agreeable(s, id, inv) then (asked, false)
    else
      var p := Purged(asked, inv);
      if !Unclaimed(p.claims, s.entryId, id) then (p, false)
      else
        var session := p.sessions[client].(
          id := Some(id),
          linked := p.sessions[client].linked || Given(s.Current(inv).value.deviceId));
        (Access(p.sessions[client := session], Joined(p.claims, s.entryId, id, client)), true)
  }

  function Joined(claims: map<EntryId, Claim>, entryId: EntryId, id: DeviceId, client: ClientId): map<EntryId, Claim> {
    claims[entryId := Claim(id, if entryId in claims then claims[entryId].clients + {client} else {client})]
  }

  /** A publication as far as the policy looks at it: `did` is the payload's device id, if it parses. */
  datatype Publication = Publication(topic: string, did: Option<DeviceId>, retain: bool)

  datatype Account = Account(user: string, pass: string, ids: set<DeviceId>, write: bool)

  datatype ConnectPacket = ConnectPacket(username: Option<string>, password: Option<string>, will: Option<Publication>)

  function AccountFor(user: string, pass: string, accounts: seq<Account>): Option<Account> {
    if accounts == [] then None
    else
      var last := accounts[|accounts| - 1];
      if last.user == user && last.pass == pass then Some(last)
      else AccountFor(user, pass, accounts[..|accounts| - 1])
  }

  predicate Admissible(matches: seq<InventoryEntry>, inv: Inventory) {
    && |matches| == 1
    && matches[0].entryId != ""
    && matches[0].platform != Some(Thinq1)
    && matches[0].autoLink != Some(false)
    && |Filter((e: InventoryEntry) => e.entryId == matches[0].entryId, inv)| == 1
    && (matches[0].deviceId.Some? ==> SafeDeviceId(matches[0].deviceId.value))
  }

  function Opened(entry: InventoryEntry, ip: Ip): Session {
    Appliance(entry.entryId, ip, entry.deviceId, Given(entry.deviceId), false)
  }

  ghost function Published(a: Access, client: ClientId, packet: Publication, inv: Inventory): (Access, bool) {
    var topic := ParseDeviceTopic(packet.topic);
    if client !in a.sessions || topic.None? || packet.did != Some(topic.value.deviceId) then (a, false)
    else
      var DeviceTopic(kind, deviceId) := topic.value;
      var s := a.sessions[client];
      if s.Diagnostic? then (a, s.write && !packet.retain && kind.Lime? && deviceId in s.ids)
      else
        var asked := a.(sessions := AskClient(a.sessions, client, inv));
        if s.Current(inv).None? || kind.Lime? || (!Given(s.id) && !kind.Provisioning?) then (asked, false)
        else Bound(asked, client, deviceId, inv)
  }

  ghost function Subscribed(a: Access, client: ClientId, topicName: string, inv: Inventory): (Access, bool) {
    var topic := ParseDeviceTopic(topicName);
    if client !in a.sessions || topic.None? then (a, false)
    else if a.sessions[client].Diagnostic? then (a, topic.value.deviceId in a.sessions[client].ids)
    else if !topic.value.kind.Lime? then (a, false)
    else Bound(a, client, topic.value.deviceId, inv)
  }

  ghost function Delivered(a: Access, client: ClientId, topicName: string, inv: Inventory): (Access, bool) {
    var topic := ParseDeviceTopic(topicName);
    if client !in a.sessions || topic.None? then (a, false)
    else
      var s := a.sessions[client];
      if s.Diagnostic? then (a, topic.value.deviceId in s.ids)
      else
        (a.(sessions := AskClient(a.sessions, client, inv)),
         s.Current(inv).Some? && topic.value.kind.Lime? && s.id == Some(topic.value.deviceId))
  }

  ghost function Disconnected(a: Access, client: ClientId): Access {
    if client !in a.sessions then a
    else
      var s := a.sessions[client];
      var claims :=
        if s.Diagnostic? || s.entryId !in a.claims then a.claims
        else
          var clients := a.claims[s.entryId].clients - {client};
          if clients == {} then a.claims - {s.entryId}
          else a.claims[s.entryId := Claim(a.claims[s.entryId].id, clients)];
      Access(a.sessions - {client}, claims)
  }

  ghost function Connected(a: Access, client: ClientId, packet: ConnectPacket, tls: bool, source: Option<Ip>,
                           aborted: bool, accounts: seq<Account>, inv: Inventory): (Access, bool)
  {
    if packet.username.Some? || packet.password.Some? then
      if !tls || packet.username.None? || !Given(packet.password) || packet.will.Some? || aborted then (a, false)
      else
        var account := AccountFor(packet.username.value, packet.password.value, accounts);
        if account.None? then (a, false)
        else (a.(sessions := a.sessions[client := Diagnostic(account.value.ids, account.value.write)]), true)
    else if !Given(source) || aborted then (a, false)
    else
      var matches := Filter((e: InventoryEntry) => e.ip == source.value, inv);
      if !Admissible(matches, inv) then (a, false)
      else
        var entry := matches[0];
        var admitted := a.(sessions := a.sessions[client := Opened(entry, source.value)]);
        var (b, linked) := if Given(entry.deviceId) then Bound(admitted, client, entry.deviceId.value, inv) else (admitted, true);
        if !linked || packet.will.None? then (b, linked)
        else WillTaken(b, client, packet.will.value, inv)
  }

  ghost function WillTaken(a: Access, client: ClientId, will: Publication, inv: Inventory): (Access, bool)
    requires client in a.sessions && a.sessions[client].Appliance?
  {
    var topic := ParseDeviceTopic(will.topic);
    if topic.None? || topic.value.kind.Lime? then (a, false)
    else
      var (b, bound) := Bound(a, client, topic.value.deviceId, inv);
      if !bound then (b, false) else Published(b, client, will, inv)
  }

  class DeviceMqttAccess {
    var sessions: map<ClientId, Session>
    var claims: map<EntryId, Claim>

    ghost function State(): Access reads this { Access(sessions, claims) }

    constructor ()
      ensures State() == Access(map[], map[])
    {
      sessions, claims := map[], map[];
    }

    method Current(client: ClientId, inv: Inventory) returns (entry: Option<InventoryEntry>)
      requires client in sessions && sessions[client].Appliance?
      modifies this`sessions
      ensures entry == old(sessions[client]).Current(inv)
      ensures sessions == AskClient(old(sessions), client, inv)
    {
      var s := sessions[client];
      entry := s.Current(inv);
      if s.revoked {
        return;
      }
      if entry.None? {
        sessions := sessions[client := s.(revoked := true)];
      } else if Given(entry.value.deviceId) && Given(s.id) {
        sessions := sessions[client := s.(linked := true)];
      }
    }

    method PurgeClaim(entryId: EntryId, inv: Inventory)
      requires entryId in claims
      modifies this
      ensures sessions == AskAll(old(sessions), old(claims)[entryId].clients, inv)
      ensures var kept := Kept(old(claims)[entryId], old(sessions), inv);
              claims == if kept.clients == {} then old(claims) - {entryId} else old(claims)[entryId := kept]
    {
      var claim := claims[entryId];
      var clients := claim.clients;
      var todo := claim.clients;
      while todo != {}
        invariant todo <= claim.clients
        invariant claims == old(claims)
        invariant sessions == AskAll(old(sessions), claim.clients - todo, inv)
        invariant clients == set c | c in claim.clients && (c in todo || Live(old(sessions), c, inv))
        decreases todo
      {
        var previous :| previous in todo;
        if previous !in sessions || !sessions[previous].Appliance? {
          clients := clients - {previous};
        } else {
          assert sessions[previous] == old(sessions)[previous];
          var entry := Current(previous, inv);
          if entry.None? {
            clients := clients - {previous};
          }
        }
        todo := todo - {previous};
      }
      assert Claim(claim.id, clients) == Kept(claim, old(sessions), inv);
      claims := if clients == {} then claims - {entryId} else claims[entryId := Claim(claim.id, clients)];
    }

    method Purge(inv: Inventory)
      modifies this
      ensures State() == Purged(old(State()), inv)
    {
      ghost var was := State();
      var todo := claims.Keys;
      while todo != {}
        invariant todo <= was.claims.Keys
        invariant State() == PartlyPurged(was, todo, inv)
        decreases todo
      {
        var entryId :| entryId in todo;
        PurgeOneMore(was, todo, entryId, inv);
        PurgeClaim(entryId, inv);
        todo := todo - {entryId};
      }
      assert was.claims - {} == was.claims;
      assert claims == Purged(was, inv).claims;
    }

    method Bind(client: ClientId, id: DeviceId, inv: Inventory) returns (ok: bool)
      requires client in sessions && sessions[client].Appliance?
      modifies this
      ensures (State(), ok) == Bound(old(State()), client, id, inv)
    {
      ghost var was := State();
      var entry := Current(client, inv);
      var s := sessions[client];
      assert s.id == was.sessions[client].id && s.entryId == was.sessions[client].entryId;
      if || entry.None?
         || (entry.value.deviceId.Some? && entry.value.deviceId != Some(id))
         || (s.id.Some? && s.id != Some(id))
         || HeldElsewhere(inv, s.entryId, id) {
        return false;
      }
      ghost var asked := State();
      assert asked == was.(sessions := AskClient(was.sessions, client, inv));
      assert Agreeable(was.sessions[client], id, inv);
      Purge(inv);
      assert State() == Purged(asked, inv);
      if exists e :: e in claims.Keys && e != s.entryId && claims[e].id == id {
        return false;
      }
      if s.entryId in claims && claims[s.entryId].id != id {
        return false;
      }
      assert Unclaimed(claims, s.entryId, id);
      if s.entryId in claims {
        claims := claims[s.entryId := Claim(claims[s.entryId].id, claims[s.entryId].clients + {client})];
      } else {
        claims := claims[s.entryId := Claim(id, {client})];
      }
      s := sessions[client].(id := Some(id));
      if Given(entry.value.deviceId) {
        s := s.(linked := true);
      }
      sessions := sessions[client := s];
      ok := true;
    }

    method Publish(client: ClientId, packet: Publication, inv: Inventory) returns (ok: bool)
      modifies this
      ensures (State(), ok) == Published(old(State()), client, packet, inv)
    {
      var topic := ParseDeviceTopic(packet.topic);
      if client !in sessions || topic.None? {
        return false;
      }
      if packet.did != Some(topic.value.deviceId) {
        return false;
      }
      var session := sessions[client];
      if session.Diagnostic? {
        return session.write && !packet.retain && topic.value.kind.Lime? && topic.value.deviceId in session.ids;
      }
      var entry := Current(client, inv);
      if entry.None? || topic.value.kind.Lime? {
        return false;
      }
      if !Given(session.id) && !topic.value.kind.Provisioning? {
        return false;
      }
      ok := Bind(client, topic.value.deviceId, inv);
    }

    method Subscribe(client: ClientId, topicName: string, inv: Inventory) returns (ok: bool)
      modifies this
      ensures (State(), ok) == Subscribed(old(State()), client, topicName, inv)
    {
      var topic := ParseDeviceTopic(topicName);
      if client !in sessions || topic.None? {
        return false;
      }
      if sessions[client].Diagnostic? {
        return topic.value.deviceId in sessions[client].ids;
      }
      if !topic.value.kind.Lime? {
        return false;
      }
      ok := Bind(client, topic.value.deviceId, inv);
    }

    method Deliver(client: ClientId, topicName: string, inv: Inventory) returns (ok: bool)
      modifies this`sessions
      ensures (State(), ok) == Delivered(old(State()), client, topicName, inv)
    {
      var topic := ParseDeviceTopic(topicName);
      if client !in sessions || topic.None? {
        return false;
      }
      if sessions[client].Diagnostic? {
        return topic.value.deviceId in sessions[client].ids;
      }
      var entry := Current(client, inv);
      return entry.Some? && topic.value.kind.Lime? && Some(topic.value.deviceId) == sessions[client].id;
    }

    method Disconnect(client: ClientId)
      modifies this
      ensures State() == Disconnected(old(State()), client)
    {
      if client in sessions && sessions[client].Appliance? {
        var entryId := sessions[client].entryId;
        if entryId in claims {
          var clients := claims[entryId].clients - {client};
          claims := if clients == {} then claims - {entryId}
                    else claims[entryId := Claim(claims[entryId].id, clients)];
        }
      }
      sessions := sessions - {client};
    }

    method Connect(client: ClientId, packet: ConnectPacket, tls: bool, source: Option<Ip>, aborted: bool,
                   accounts: seq<Account>, inv: Inventory)
      returns (ok: bool)
      modifies this
      ensures (State(), ok) == Connected(old(State()), client, packet, tls, source, aborted, accounts, inv)
    {
      if packet.username.Some? || packet.password.Some? {
        if !tls || packet.username.None? || !Given(packet.password) || packet.will.Some? {
          return false;
        }
        var matched := MatchAccount(packet.username.value, packet.password.value, accounts);
        if matched.None? || aborted {
          return false;
        }
        sessions := sessions[client := Diagnostic(matched.value.ids, matched.value.write)];
        return true;
      }
      if !Given(source) || aborted {
        return false;
      }
      var matches := Filter((e: InventoryEntry) => e.ip == source.value, inv);
      if !Admissible(matches, inv) {
        return false;
      }
      var entry := matches[0];
      sessions := sessions[client := Opened(entry, source.value)];
      if Given(entry.deviceId) {
        var bound := Bind(client, entry.deviceId.value, inv);
        if !bound {
          return false;
        }
      }
      if packet.will.Some? {
        var topic := ParseDeviceTopic(packet.will.value.topic);
        if topic.None? || topic.value.kind.Lime? {
          return false;
        }
        var bound := Bind(client, topic.value.deviceId, inv);
        if !bound {
          return false;
        }
        var willing := Publish(client, packet.will.value, inv);
        if !willing {
          return false;
        }
      }
      ok := !aborted;
    }
  }

  /** Every account is compared, and the last one that matches wins. */
  method MatchAccount(user: string, pass: string, accounts: seq<Account>) returns (matched: Option<Account>)
    ensures matched == AccountFor(user, pass, accounts)
  {
    matched := None;
    for i := 0 to |accounts|
      invariant matched == AccountFor(user, pass, accounts[..i])
    {
      assert accounts[..i + 1][..i] == accounts[..i];
      if accounts[i].user == user && accounts[i].pass == pass {
        matched := Some(accounts[i]);
      }
    }
    assert accounts[..|accounts|] == accounts;
  }

  /** The state of a purge that still has the claims of `todo` to look at. */
  ghost function PartlyPurged(a: Access, todo: set<EntryId>, inv: Inventory): Access {
    Access(
      AskAll(a.sessions, Claimants(a.claims - todo), inv),
      map e | e in a.claims && (e in todo || Kept(a.claims[e], a.sessions, inv).clients != {}) ::
        if e in todo then a.claims[e] else Kept(a.claims[e], a.sessions, inv))
  }

  lemma PurgeOneMore(a: Access, todo: set<EntryId>, entryId: EntryId, inv: Inventory)
    requires todo <= a.claims.Keys && entryId in todo
    ensures var p, q := PartlyPurged(a, todo, inv), PartlyPurged(a, todo - {entryId}, inv);
            && entryId in p.claims
            && q.sessions == AskAll(p.sessions, p.claims[entryId].clients, inv)
            && var kept := Kept(p.claims[entryId], p.sessions, inv);
            && q.claims == if kept.clients == {} then p.claims - {entryId} else p.claims[entryId := kept]
  {
    var done := Claimants(a.claims - todo);
    KeptIsStable(a.claims[entryId], a.sessions, done, inv);
    AskAllMore(a.sessions, done, a.claims[entryId].clients, inv);
    assert Claimants(a.claims - (todo - {entryId})) == done + a.claims[entryId].clients by {
      var now, before := a.claims - (todo - {entryId}), a.claims - todo;
      assert forall e :: e in now <==> e == entryId || e in before;
      assert forall e :: e in before ==> now[e] == before[e];
    }
  }

  lemma KeptIsStable(claim: Claim, sessions: map<ClientId, Session>, cs: set<ClientId>, inv: Inventory)
    ensures Kept(claim, AskAll(sessions, cs, inv), inv) == Kept(claim, sessions, inv)
  {
    var asked := AskAll(sessions, cs, inv);
    forall c | c in claim.clients
      ensures Live(asked, c, inv) <==> Live(sessions, c, inv)
    {
      if c in sessions && sessions[c].Appliance? {
        AskedTwice(sessions[c], inv);
      }
    }
  }

  lemma AskAllMore(sessions: map<ClientId, Session>, cs: set<ClientId>, more: set<ClientId>, inv: Inventory)
    ensures AskAll(AskAll(sessions, cs, inv), more, inv) == AskAll(sessions, cs + more, inv)
  {
    forall c | c in sessions && sessions[c].Appliance?
      ensures sessions[c].Asked(inv).Asked(inv) == sessions[c].Asked(inv)
    {
      AskedTwice(sessions[c], inv);
    }
  }
}
