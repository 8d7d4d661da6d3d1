/** What is allowed, and what it leaves. */
module MqttBinding {
  // Stated on sessions, claims and the inventory, apart from the order in which cloud/mqtt-access.ts asks its questions.

  import opened Common
  import opened DeviceTopics
  import opened MqttAccess
  import opened MqttOwnership

  // ---------------------------------------------------------------- the entry a session answers for

  lemma {:induction false} FilterNone<T(!new)>(p: T -> bool, s: seq<T>)
    ensures Filter(p, s) == [] <==> forall i :: 0 <= i < |s| ==> !p(s[i])
  {
    if s != [] {
      FilterNone(p, s[1..]);
      assert forall i :: 0 < i < |s| ==> s[i] == s[1..][i - 1];
    }
  }

  predicate Sole<T(!new)>(p: T -> bool, s: seq<T>, i: nat) {
    i < |s| && p(s[i]) && forall j :: 0 <= j < |s| && j != i ==> !p(s[j])
  }

  lemma {:induction false} FilterOne<T(!new)>(p: T -> bool, s: seq<T>)
    ensures |Filter(p, s)| == 1 ==> exists i: nat :: Sole(p, s, i) && Filter(p, s)[0] == s[i]
    ensures forall i: nat :: Sole(p, s, i) ==> Filter(p, s) == [s[i]]
  {
    if s != [] {
      var rest := s[1..];
      FilterOne(p, rest);
      FilterNone(p, rest);
      assert forall i :: 0 < i < |s| ==> s[i] == rest[i - 1];
      if p(s[0]) {
        if |Filter(p, s)| == 1 {
          assert Filter(p, s) == [s[0]] + Filter(p, rest);
          assert Sole(p, s, 0);
        }
      } else if |Filter(p, s)| == 1 {
        var i: nat :| Sole(p, rest, i) && Filter(p, rest)[0] == rest[i];
        assert Sole(p, s, i + 1);
      }
      forall i: nat | Sole(p, s, i)
        ensures Filter(p, s) == [s[i]]
      {
        if i > 0 {
          assert Sole(p, rest, i - 1);
        }
      }
    }
  }

  /** The only entry with the session's name is the only one at its address, and nothing speaks against the device. */
  predicate AnswersFor(s: Session, inv: Inventory, i: nat)
    requires s.Appliance?
  {
    && i < |inv| && inv[i].entryId == s.entryId && inv[i].ip == s.ip
    && (forall j :: 0 <= j < |inv| && j != i ==> inv[j].entryId != s.entryId && inv[j].ip != s.ip)
    && inv[i].autoLink != Some(false) && inv[i].platform != Some(Thinq1)
    && (inv[i].deviceId.Some? && s.id.Some? ==> inv[i].deviceId == s.id)
    && (s.linked ==> inv[i].deviceId == s.id)
    && (Given(s.id) ==> forall j :: 0 <= j < |inv| && j != i ==> inv[j].deviceId != s.id)
  }

  /** A session is current exactly while such an entry is listed and it has not been revoked. */
  lemma CurrentIs(s: Session, inv: Inventory)
    requires s.Appliance?
    ensures s.Current(inv).Some? <==> !s.revoked && exists i: nat :: AnswersFor(s, inv, i)
    ensures s.Current(inv).Some? ==> exists i: nat :: AnswersFor(s, inv, i) && s.Current(inv).value == inv[i]
  {
    var named, placed := (e: InventoryEntry) => e.entryId == s.entryId, (e: InventoryEntry) => e.ip == s.ip;
    FilterOne(named, inv);
    FilterOne(placed, inv);
    if s.Current(inv).Some? {
      var i: nat :| Sole(named, inv, i) && Filter(named, inv)[0] == inv[i];
      var k: nat :| Sole(placed, inv, k);
      assert k == i;
      assert AnswersFor(s, inv, i);
    }
    if !s.revoked && exists i: nat :: AnswersFor(s, inv, i) {
      var i: nat :| AnswersFor(s, inv, i);
      assert Sole(named, inv, i) && Sole(placed, inv, i);
    }
  }

  // ---------------------------------------------------------------- binding

  /** The inventory lists the session's entry for this device or none, and no other entry for it. */
  predicate Offers(s: Session, inv: Inventory, i: nat, id: DeviceId)
    requires s.Appliance?
  {
    && AnswersFor(s, inv, i) && inv[i].deviceId in {None, Some(id)}
    && forall j :: 0 <= j < |inv| && j != i ==> inv[j].deviceId != Some(id)
  }

  /** What has to hold for a bind to succeed. */
  ghost predicate MayBind(a: Access, client: ClientId, id: DeviceId, inv: Inventory)
    requires client in a.sessions && a.sessions[client].Appliance?
  {
    var s := a.sessions[client];
    && !s.revoked && s.id in {None, Some(id)} && (exists i: nat :: Offers(s, inv, i, id))
    && OnlyOwn(a, s.entryId, id, inv)
  }

  lemma OffersIs(s: Session, inv: Inventory, id: DeviceId)
    requires s.Appliance?
    ensures Agreeable(s, id, inv) <==> !s.revoked && s.id in {None, Some(id)} && exists i: nat :: Offers(s, inv, i, id)
  {
    CurrentIs(s, inv);
    if Agreeable(s, id, inv) {
      var i: nat :| AnswersFor(s, inv, i) && s.Current(inv).value == inv[i];
      assert Offers(s, inv, i, id);
    }
    if !s.revoked && s.id in {None, Some(id)} && exists i: nat :: Offers(s, inv, i, id) {
      var i: nat :| Offers(s, inv, i, id);
      assert AnswersFor(s, inv, i);
      var k: nat :| AnswersFor(s, inv, k) && s.Current(inv).value == inv[k];
      assert k == i;
    }
  }

  /** The session's entry has a device. */
  predicate HasDevice(s: Session, inv: Inventory)
    requires s.Appliance?
  {
    exists i :: 0 <= i < |inv| && inv[i].entryId == s.entryId && Given(inv[i].deviceId)
  }

  lemma DeviceOfCurrent(s: Session, inv: Inventory)
    requires s.Appliance? && s.Current(inv).Some?
    ensures Given(s.Current(inv).value.deviceId) <==> HasDevice(s, inv)
  {
    CurrentIs(s, inv);
    var i: nat :| AnswersFor(s, inv, i) && s.Current(inv).value == inv[i];
    if HasDevice(s, inv) {
      var k :| 0 <= k < |inv| && inv[k].entryId == s.entryId && Given(inv[k].deviceId);
      assert k == i;
    }
  }

  /**
   * A bind succeeds exactly when it may. It writes the id, and the mark that the session is linked exactly when it was, or
   * its entry has a device; a failing one only records what asking found.
   */
  lemma BindDoes(a: Access, client: ClientId, id: DeviceId, inv: Inventory)
    requires ClaimsSound(a) && client in a.sessions && a.sessions[client].Appliance?
    ensures var (b, ok) := Bound(a, client, id, inv);
            var s, t := a.sessions[client], Bound(a, client, id, inv).0.sessions[client];
            && (ok <==> MayBind(a, client, id, inv))
            && b.sessions.Keys == a.sessions.Keys
            && (if ok then t == s.(id := Some(id), linked := s.linked || HasDevice(s, inv)) else t == s.Asked(inv))
  {
    var s := a.sessions[client];
    OffersIs(s, inv, id);
    BindSucceedsIff(a, client, id, inv);
    AskedTwice(s, inv);
    if Agreeable(s, id, inv) {
      DeviceOfCurrent(s, inv);
    }
  }

  /** A session is marked as linked only while it has an id. */
  predicate LinkedHasId(s: Session) { s.Appliance? && s.linked ==> s.id.Some? }

  /** A bind lasts: under the inventory that allowed it the session stays current. */
  lemma BindLasts(a: Access, client: ClientId, id: DeviceId, inv: Inventory)
    requires ClaimsSound(a) && client in a.sessions && a.sessions[client].Appliance? && LinkedHasId(a.sessions[client])
    requires Bound(a, client, id, inv).1
    ensures var b := Bound(a, client, id, inv).0;
            && client in b.sessions && b.sessions[client].Appliance? && LinkedHasId(b.sessions[client])
            && b.sessions[client].Current(inv) == a.sessions[client].Current(inv) && a.sessions[client].Current(inv).Some?
  {
    var s := a.sessions[client];
    BindDoes(a, client, id, inv);
    DeviceOfCurrent(s, inv);
  }

  /** So the same bind succeeds again. */
  lemma BindsAgain(a: Access, client: ClientId, id: DeviceId, inv: Inventory)
    requires ClaimsSound(a) && client in a.sessions && a.sessions[client].Appliance? && LinkedHasId(a.sessions[client])
    requires Bound(a, client, id, inv).1
    ensures ClaimsSound(Bound(a, client, id, inv).0) && client in Bound(a, client, id, inv).0.sessions
    ensures Bound(a, client, id, inv).0.sessions[client].Appliance?
    ensures Bound(Bound(a, client, id, inv).0, client, id, inv).1
  {
    var b := Bound(a, client, id, inv).0;
    BoundIsSound(a, client, id, inv);
    BindLasts(a, client, id, inv);
    OwnClaimStands(b, client, id, inv);
    BindSucceedsIff(b, client, id, inv);
  }

  /** Where claims are sound, a bound session's own claim stands in nobody else's way. */
  lemma OwnClaimStands(b: Access, client: ClientId, id: DeviceId, inv: Inventory)
    requires ClaimsSound(b) && Covered(b, client)
    requires b.sessions[client].Appliance? && b.sessions[client].id == Some(id) && !b.sessions[client].revoked
    ensures OnlyOwn(b, b.sessions[client].entryId, id, inv)
  {
    var own := b.sessions[client].entryId;
    assert Holder(b, own, client);
    forall c | c in Claimants(b.claims) && Live(b.sessions, c, inv)
      ensures b.sessions[c].id == Some(id) <==> b.sessions[c].entryId == own
    {
      var e :| e in b.claims && c in b.claims[e].clients;
      assert Holder(b, e, c);
    }
  }

  /** The claims after a successful bind: live claimants stay, and the client joins its entry's. */
  lemma BindClaims(a: Access, client: ClientId, id: DeviceId, inv: Inventory)
    requires ClaimsSound(a) && client in a.sessions && a.sessions[client].Appliance? && Bound(a, client, id, inv).1
    ensures forall e, c :: Claims(Bound(a, client, id, inv).0, e, c)
                           <==> (Claims(a, e, c) && Live(a.sessions, c, inv)) || (e == a.sessions[client].entryId && c == client)
  {
    var s := a.sessions[client];
    var sessions := AskClient(a.sessions, client, inv);
    var p := Purged(a.(sessions := sessions), inv).claims;
    AskedTwice(s, inv);
    assert forall c :: Live(a.sessions, c, inv) <==> Live(sessions, c, inv);
    var q := Access(sessions, p);
    LiveAreKept(a, sessions, inv);
    OnlyLiveAreKept(a.claims, a.sessions, sessions, inv);
    assert forall e, c :: Claims(q, e, c) <==> Claims(a, e, c) && Live(a.sessions, c, inv);
    assert Bound(a, client, id, inv).0.claims == Joined(p, s.entryId, id, client);
    ClaimsJoined(q, Bound(a, client, id, inv).0, s.entryId, id, client);
  }

  lemma OnlyLiveAreKept(claims: map<EntryId, Claim>, was: map<ClientId, Session>, sessions: map<ClientId, Session>, inv: Inventory)
    requires forall c :: Live(was, c, inv) <==> Live(sessions, c, inv)
    ensures var p := Purged(Access(sessions, claims), inv).claims;
            forall e, c :: e in p && c in p[e].clients ==> e in claims && c in claims[e].clients && Live(was, c, inv)
  {
    forall e, c | e in claims && c in Kept(claims[e], sessions, inv).clients
      ensures c in claims[e].clients && Live(was, c, inv)
    {
      assert Live(sessions, c, inv);
    }
  }

  lemma ClaimsJoined(q: Access, b: Access, own: EntryId, id: DeviceId, client: ClientId)
    requires b.claims == Joined(q.claims, own, id, client)
    ensures forall e, c :: Claims(b, e, c) <==> Claims(q, e, c) || (e == own && c == client)
  {
  }

  ghost predicate Claims(a: Access, e: EntryId, c: ClientId) { e in a.claims && c in a.claims[e].clients }

  // ---------------------------------------------------------------- what is allowed

  lemma {:induction false} AccountIs(user: string, pass: string, accounts: seq<Account>)
    ensures AccountFor(user, pass, accounts).None? ==> forall i :: 0 <= i < |accounts| ==> !Opens(accounts[i], user, pass)
    ensures AccountFor(user, pass, accounts).Some? ==>
              exists i: nat :: LastToOpen(accounts, i, user, pass) && AccountFor(user, pass, accounts) == Some(accounts[i])
  {
    if accounts != [] {
      var n: nat := |accounts| - 1;
      if Opens(accounts[n], user, pass) {
        assert LastToOpen(accounts, n, user, pass);
      } else {
        AccountIs(user, pass, accounts[..n]);
        if AccountFor(user, pass, accounts).Some? {
          var i: nat :| LastToOpen(accounts[..n], i, user, pass) && AccountFor(user, pass, accounts[..n]) == Some(accounts[..n][i]);
          assert LastToOpen(accounts, i, user, pass);
        }
      }
    }
  }

  /** The last account with this name and this password. */
  predicate LastToOpen(accounts: seq<Account>, i: nat, user: string, pass: string) {
    i < |accounts| && Opens(accounts[i], user, pass) && forall j :: i < j < |accounts| ==> !Opens(accounts[j], user, pass)
  }

  /** The account has this name and this password. */
  predicate Opens(account: Account, user: string, pass: string) { account.user == user && account.pass == pass }

  /** Who may publish: a diagnostic account that may write, and an appliance that may bind; the first thing it says is to provision. */
  lemma PublishAllowedIff(a: Access, client: ClientId, packet: Publication, inv: Inventory)
    requires ClaimsSound(a) && client in a.sessions && LinkedHasId(a.sessions[client])
    ensures Published(a, client, packet, inv).1 <==>
              && ParseDeviceTopic(packet.topic).Some?
              && var DeviceTopic(kind, id) := ParseDeviceTopic(packet.topic).value;
              && packet.did == Some(id)
              && match a.sessions[client]
                 case Diagnostic(ids, write) => kind == Lime && write && !packet.retain && id in ids
                 case Appliance(_, _, own, _, _) =>
                   (kind == Provisioning || (kind == Message && Given(own))) && MayBind(a, client, id, inv)
  {
    ParsedIsSafe(packet.topic);
    if a.sessions[client].Appliance? && ParseDeviceTopic(packet.topic).Some? {
      var id := ParseDeviceTopic(packet.topic).value.deviceId;
      var asked := a.(sessions := AskClient(a.sessions, client, inv));
      BindDoes(a, client, id, inv);
      AskedIsSound(a, client, inv);
      BindSucceedsIff(a, client, id, inv);
      BindSucceedsIff(asked, client, id, inv);
      AskedBindsAlike(a, client, id, inv);
    }
  }

  /** Asking first makes no difference to a bind. */
  lemma AskedBindsAlike(a: Access, client: ClientId, id: DeviceId, inv: Inventory)
    requires ClaimsSound(a) && client in a.sessions && a.sessions[client].Appliance?
    ensures Bound(a.(sessions := AskClient(a.sessions, client, inv)), client, id, inv) == Bound(a, client, id, inv)
  {
    var s := a.sessions[client];
    var once := AskClient(a.sessions, client, inv);
    AskedTwice(s, inv);
    assert AskClient(once, client, inv) == once;
  }

  /** Who may subscribe: a diagnostic account to its devices, and an appliance to what is sent to the device it may bind. */
  lemma SubscribeAllowedIff(a: Access, client: ClientId, name: string, inv: Inventory)
    requires ClaimsSound(a) && client in a.sessions
    ensures Subscribed(a, client, name, inv).1 <==>
              && ParseDeviceTopic(name).Some?
              && var DeviceTopic(kind, id) := ParseDeviceTopic(name).value;
                 match a.sessions[client]
                 case Diagnostic(ids, _) => id in ids
                 case Appliance(_, _, _, _, _) => kind == Lime && MayBind(a, client, id, inv)
  {
    if a.sessions[client].Appliance? && ParseDeviceTopic(name).Some? {
      BindDoes(a, client, ParseDeviceTopic(name).value.deviceId, inv);
    }
  }

  /** To whom is delivered: a diagnostic account of the device, and the appliance that is bound to it and current. */
  lemma DeliverAllowedIff(a: Access, client: ClientId, name: string, inv: Inventory)
    requires client in a.sessions
    ensures Delivered(a, client, name, inv).1 <==>
              && ParseDeviceTopic(name).Some?
              && var DeviceTopic(kind, id) := ParseDeviceTopic(name).value;
                 match a.sessions[client]
                 case Diagnostic(ids, _) => id in ids
                 case Appliance(_, _, own, _, revoked) =>
                   kind == Lime && own == Some(id) && !revoked && exists i: nat :: AnswersFor(a.sessions[client], inv, i)
  {
    if a.sessions[client].Appliance? {
      CurrentIs(a.sessions[client], inv);
    }
  }

  // ---------------------------------------------------------------- repeating an operation

  /** What an appliance was allowed it is allowed again, as long as the inventory is the same. */
  lemma AllowedAgain(w: World, e: Event)
    requires Inv(w) && Enabled(w, e) && IsOperation(e.step) && Allowed(w, e)
    requires LinkedHasId(w.access.sessions[e.client]) && w.access.sessions[e.client].Appliance?
    ensures Enabled(Next(w, e), e) && Allowed(Next(w, e), e)
  {
    var a, c := w.access, e.client;
    AllowedCarriesId(w, e);
    var id := Device(e).value;
    match e.step
    case Publish(packet) =>
      ParsedIsSafe(packet.topic);
      AskedBindsAlike(a, c, id, e.inv);
      BindsAgain(a, c, id, e.inv);
      BindLasts(a, c, id, e.inv);
      AskedBindsAlike(Bound(a, c, id, e.inv).0, c, id, e.inv);
    case Subscribe(_) => BindsAgain(a, c, id, e.inv);
    case Deliver(_) => AskedTwice(a.sessions[c], e.inv);
  }
}
