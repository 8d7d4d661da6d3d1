/** What an edit leaves of the entries. */
module RouterEdits {
  // And which entry an appliance goes by afterwards (router/config-store.ts, bridge/policy.ts).

  import opened Common
  import opened RouterStore

  /** Of all that is stored only this entry changes, and neither its name nor what is wanted of it. */
  predicate OnlyEntry(c: Config, c': Config, i: nat) {
    && c'.router == c.router && |c'.devices| == |c.devices| && i < |c.devices|
    && (forall j :: 0 <= j < |c.devices| && j != i ==> c'.devices[j] == c.devices[j])
    && c'.devices[i].entryId == c.devices[i].entryId && c'.devices[i].dnatDesired == c.devices[i].dnatDesired
  }

  predicate SameLink(d: Device, e: Device) {
    e.deviceId == d.deviceId && e.autoLink == d.autoLink && e.detectedName == d.detectedName && e.platform == d.platform
  }

  predicate NoLink(e: Device) { e.deviceId.None? && e.detectedName.None? && e.platform.None? }

  lemma FindIs(c: Config, i: nat)
    requires StoreOk(c) && i < |c.devices|
    ensures Find(c, c.devices[i].entryId) == Some(i)
  {
    assert c.devices[i].entryId == c.devices[i].entryId;
  }

  // ---------------------------------------------------------------- linking

  /**
   * Linking by hand works unless another entry has the device. The device then goes by this entry, wherever it connects
   * from, and an earlier unlinking is forgotten.
   */
  lemma LinkDoes(c: Config, i: nat, deviceId: string, name: Option<string>, platform: Option<Platform>)
    requires StoreOk(c) && i < |c.devices|
    ensures var r := Linked(c, c.devices[i].entryId, deviceId, name, platform);
            && (r.Ok? <==> forall j :: 0 <= j < |c.devices| && j != i ==> c.devices[j].deviceId != Some(deviceId))
            && (r.Ok? ==> LinkLeaves(c, r.value, i, deviceId, name, platform) && r.value.devices[i].autoLink.None?)
    ensures var r := Linked(c, c.devices[i].entryId, deviceId, name, platform);
            r.Ok? ==> forall source :: PolicyEntry(r.value, deviceId, source) == Some(i)
  {
    FindIs(c, i);
    LinkedKeeps(c, c.devices[i].entryId, deviceId, name, platform);
  }

  predicate LinkLeaves(c: Config, c': Config, i: nat, deviceId: string, name: Option<string>, platform: Option<Platform>) {
    && OnlyEntry(c, c', i)
    && var d, e := c.devices[i], c'.devices[i];
    && e.deviceId == Some(deviceId) && e.ip == d.ip && e.mode == d.mode && e.customName == d.customName
    && e.detectedName == (if name.None? || name.value == "" then d.detectedName else name)
    && e.platform == if platform.None? then d.platform else platform
  }

  /** After an unlinking no device goes by the entry, and none is linked to it again by its address. */
  lemma UnlinkDoes(c: Config, i: nat)
    requires StoreOk(c) && i < |c.devices|
    ensures var r := Unlinked(c, c.devices[i].entryId);
            && r.Ok? && OnlyEntry(c, r.value, i) && NoLink(r.value.devices[i]) && r.value.devices[i].autoLink == Some(false)
            && r.value.devices[i].ip == c.devices[i].ip && r.value.devices[i].mode == c.devices[i].mode
            && r.value.devices[i].customName == c.devices[i].customName
    ensures var r := Unlinked(c, c.devices[i].entryId);
            && r.Ok? && (forall id, source :: PolicyEntry(r.value, id, source) != Some(i))
            && forall id, name, platform :: LinkedByIp(r.value, Some(c.devices[i].ip), id, name, platform) == r.value
  {
    FindIs(c, i);
    var r := Unlinked(c, c.devices[i].entryId);
    assert r.value.devices[i].ip == c.devices[i].ip;
    forall id, name, platform
      ensures LinkedByIp(r.value, Some(c.devices[i].ip), id, name, platform) == r.value
    {
      var found := IndexOf(r.value.devices, (d: Device) => d.ip == Some(c.devices[i].ip).value);
      assert found.Some? ==> found.value == i;
    }
  }

  /** What has to hold for a device that connects to be linked to the entry at its address. */
  predicate MayLink(c: Config, i: nat, ip: Ip, deviceId: string) {
    && i < |c.devices| && c.devices[i].ip == ip && ip != "" && c.devices[i].autoLink != Some(false)
    && (NotEmpty(c.devices[i].deviceId) ==> c.devices[i].deviceId.value == deviceId)
    && forall j :: 0 <= j < |c.devices| && j != i ==> c.devices[j].deviceId != Some(deviceId)
  }

  /** The automatic link is made exactly when it may, and then governs; otherwise nothing changes. */
  lemma AutoLinkDoes(c: Config, ip: Ip, deviceId: string, name: Option<string>, platform: Option<Platform>)
    requires StoreOk(c)
    ensures var c' := LinkedByIp(c, Some(ip), deviceId, name, platform);
            && (forall i: nat :: MayLink(c, i, ip, deviceId) ==>
                  && LinkLeaves(c, c', i, deviceId, name, platform) && c'.devices[i].autoLink == c.devices[i].autoLink
                  && forall source :: PolicyEntry(c', deviceId, source) == Some(i))
            && ((forall i: nat :: !MayLink(c, i, ip, deviceId)) ==> c' == c)
  {
    LinkedByIpKeeps(c, Some(ip), deviceId, name, platform);
    var c' := LinkedByIp(c, Some(ip), deviceId, name, platform);
    var found := IndexOf(c.devices, (d: Device) => d.ip == Some(ip).value);
    forall i: nat | MayLink(c, i, ip, deviceId)
      ensures LinkLeaves(c, c', i, deviceId, name, platform) && c'.devices[i].autoLink == c.devices[i].autoLink
      ensures forall source :: PolicyEntry(c', deviceId, source) == Some(i)
    {
      assert found == Some(i);
    }
    if forall i: nat :: !MayLink(c, i, ip, deviceId) {
      assert found.Some? ==> !MayLink(c, found.value, ip, deviceId);
    }
  }

  // ---------------------------------------------------------------- changing, adding, deleting

  /** An address that an appliance may have. */
  predicate Free(c: Config, i: nat, ip: Ip) {
    && ValidIPv4(ip) && ip != c.router.host && ip != c.router.rethinkIp
    && forall j :: 0 <= j < |c.devices| && j != i ==> c.devices[j].ip != ip
  }

  predicate KnownMode(mode: Option<string>) { mode.None? || mode.value in {"dnat", "local"} }

  /** How a request changes the mode: an entry without one forwards by DNAT. */
  predicate ModeBecomes(d: Device, e: Device, mode: Option<string>) {
    if mode.None? then e.mode == d.mode else e.mode == Some(if mode.value == "local" then LocalMode else DnatMode)
  }

  /**
   * A change works exactly when the mode is known and the new address, if it is one, is free. An entry that moves loses its
   * link and everything found out about the device that was there; one that stays keeps them.
   */
  lemma UpdateDoes(c: Config, i: nat, ip: Option<Ip>, name: Option<string>, mode: Option<string>)
    requires StoreOk(c) && i < |c.devices|
    ensures var r, d := Updated(c, c.devices[i].entryId, ip, name, mode), c.devices[i];
            var moves := ip.Some? && Trim(ip.value) != d.ip;
            && (r.Ok? <==> KnownMode(mode) && (moves ==> Free(c, i, Trim(ip.value))))
            && (r.Ok? ==> UpdateLeaves(c, r.value, i, if moves then Some(Trim(ip.value)) else None, name, mode))
  {
    FindIs(c, i);
  }

  predicate UpdateLeaves(c: Config, c': Config, i: nat, moved: Option<Ip>, name: Option<string>, mode: Option<string>) {
    && OnlyEntry(c, c', i)
    && var d, e := c.devices[i], c'.devices[i];
    && (if moved.Some? then e.ip == moved.value && NoLink(e) && e.autoLink.None? else e.ip == d.ip && SameLink(d, e))
    && e.customName == (if name.None? then d.customName else if Trim(name.value) == "" then None else Some(Trim(name.value)))
    && ModeBecomes(d, e, mode)
  }

  /** An entry that has moved is only gone by at its new address. */
  lemma MovedIsUnlinked(c: Config, c': Config, i: nat, to: Ip, name: Option<string>, mode: Option<string>, id: string, source: Option<Ip>)
    requires UpdateLeaves(c, c', i, Some(to), name, mode) && PolicyEntry(c', id, source) == Some(i)
    ensures source == Some(to)
  {
  }

  /** A new entry is the last, has no link, and nothing is wanted of it. */
  lemma AddDoes(c: Config, id: EntryId, ip: Ip, mode: Option<string>)
    requires StoreOk(c)
    ensures var r := Added(c, id, ip, mode);
            && (r.Ok? <==> KnownMode(mode) && Free(c, |c.devices|, Trim(ip)))
            && (r.Ok? ==>
                  && r.value.router == c.router && |r.value.devices| == |c.devices| + 1 && r.value.devices[..|c.devices|] == c.devices
                  && var e := r.value.devices[|c.devices|];
                  && e.entryId == id && e.ip == Trim(ip) && NoLink(e) && e.autoLink.None? && e.customName.None? && e.dnatDesired.None?
                  && e.mode == if mode.None? then None else if mode.value == "local" then Some(LocalMode) else Some(DnatMode))
  {
  }

  /** Deleting takes away the entry, and keeps all others in their order. */
  lemma DeleteDoes(c: Config, i: nat)
    requires StoreOk(c) && i < |c.devices|
    ensures var r := Deleted(c, c.devices[i].entryId);
            && r.Ok? && r.value.router == c.router && r.value.devices == c.devices[..i] + c.devices[i + 1..]
            && forall d :: d in r.value.devices <==> d in c.devices && d != c.devices[i]
  {
    FindIs(c, i);
    var rest := c.devices[..i] + c.devices[i + 1..];
    forall d
      ensures d in rest <==> d in c.devices && d != c.devices[i]
    {
      if d in c.devices && d != c.devices[i] {
        var j :| 0 <= j < |c.devices| && c.devices[j] == d;
        assert rest[if j < i then j else j - 1] == d;
      }
    }
  }

  /** The edits of an entry that is not there fail, whatever else they ask for. */
  lemma UnknownFails(c: Config, id: EntryId)
    requires forall d :: d in c.devices ==> d.entryId != id
    ensures forall device, name, platform :: Linked(c, id, device, name, platform) == Err(UnknownDevice)
    ensures forall ip, name, mode :: Updated(c, id, ip, name, mode) == Err(UnknownDevice)
    ensures forall desired :: Desired(c, id, desired) == Err(UnknownDevice)
    ensures Unlinked(c, id) == Err(UnknownDevice) && Deleted(c, id) == Err(UnknownDevice)
  {
  }

  /** What is wanted of an entry is recorded, and nothing else changes. */
  lemma DesireDoes(c: Config, i: nat, desired: bool)
    requires StoreOk(c) && i < |c.devices|
    ensures Desired(c, c.devices[i].entryId, desired) == Ok(c.(devices := c.devices[i := c.devices[i].(dnatDesired := Some(desired))]))
  {
    FindIs(c, i);
  }

  /** A name found out about a device goes to the entry linked to it, and is all that changes. */
  lemma RenameDoes(c: Config, id: string, name: Option<string>)
    requires StoreOk(c)
    ensures forall i: nat :: i < |c.devices| && c.devices[i].deviceId == Some(id) && NotEmpty(name) ==>
              Renamed(c, id, name) == c.(devices := c.devices[i := c.devices[i].(detectedName := name)])
    ensures !NotEmpty(name) || (forall d :: d in c.devices ==> d.deviceId != Some(id)) ==> Renamed(c, id, name) == c
  {
    var found := IndexOf(c.devices, (d: Device) => d.deviceId == Some(id));
    forall i: nat | i < |c.devices| && c.devices[i].deviceId == Some(id)
      ensures found == Some(i)
    {
    }
  }

  // ---------------------------------------------------------------- who is forwarded

  /**
   * A device is forwarded exactly when the entry linked to it, or else an unlinked one at its address that has not been
   * unlinked by hand, is to be forwarded: in any mode but local, wanted on, and not released.
   */
  lemma ForwardedIff(c: Config, released: set<EntryId>, id: string, source: Option<Ip>)
    requires StoreOk(c)
    ensures Forwarding(c, released, id, source) <==> exists i: nat :: GoneBy(c, i, id, source) && ToForward(c.devices[i], released)
  {
    var linked := IndexOf(c.devices, (d: Device) => d.deviceId == Some(id));
    var placed := IndexOf(c.devices, (d: Device) =>
      d.autoLink != Some(false) && (d.deviceId.None? || d.deviceId.value == "") && Some(d.ip) == source);
    if linked.Some? {
      assert GoneBy(c, linked.value, id, source);
    } else if placed.Some? {
      assert GoneBy(c, placed.value, id, source);
    }
    if i: nat :| GoneBy(c, i, id, source) {
      if linked.Some? {
        assert linked.value == i;
      } else {
        assert placed.Some? && placed.value == i;
      }
    }
  }

  predicate ToForward(d: Device, released: set<EntryId>) {
    d.mode != Some(LocalMode) && d.dnatDesired == Some(true) && d.entryId !in released
  }

  predicate GoneBy(c: Config, i: nat, id: string, source: Option<Ip>) {
    && i < |c.devices|
    && (|| c.devices[i].deviceId == Some(id)
        || (&& (forall j :: 0 <= j < |c.devices| ==> c.devices[j].deviceId != Some(id))
            && !NotEmpty(c.devices[i].deviceId) && c.devices[i].autoLink != Some(false) && source == Some(c.devices[i].ip)))
  }

  // ---------------------------------------------------------------- router settings

  /**
   * New settings hold what was given, trimmed, and otherwise what was there; a password is never emptied, and a host key
   * that is not given does not outlive its host or its port. They are taken exactly when they are in order.
   */
  lemma SettingsDo(c: Config, p: Patch)
    ensures var r, was := RouterUpdated(c, Merged(c.router, p)), c.router;
            var host, server, port := Trim(Or(p.host, was.host)), Trim(Or(p.rethinkIp, was.rethinkIp)), Or(p.port, was.port);
            var user := Trim(Or(p.username, was.username));
            var key := KeyAfter(was, p, host, port);
            && (r.Ok? <==>
                  && ValidIPv4(host) && ValidIPv4(server) && 1 <= port <= 65535 && user != ""
                  && (was.password != "" || NotEmpty(p.password))
                  && (NotEmpty(key) ==> HostKeyFingerprint(key.value))
                  && forall d :: d in c.devices ==> d.ip != host && d.ip != server)
            && (r.Ok? ==>
                  && r.value.devices == c.devices
                  && r.value.router == Settings(host, port, user, if NotEmpty(p.password) then p.password.value else was.password, server, key))
  {
    var next := Merged(c.router, p);
    var clash := IndexOf(c.devices, (d: Device) => d.ip == next.host || d.ip == next.rethinkIp);
    forall d | d in c.devices && clash.None?
      ensures d.ip != next.host && d.ip != next.rethinkIp
    {
      var i :| 0 <= i < |c.devices| && c.devices[i] == d;
    }
  }

  /** A missing host key is filled in, and nothing else is touched; after that the router may be asked. */
  lemma RecoverDoes(c: Config, p: Patch)
    ensures Recovered(c, p).Some? ==>
              var c' := Recovered(c, p).value;
              && !NotEmpty(c.router.hostKey) && NotEmpty(c'.router.hostKey) && Configured(c')
              && c' == c.(router := c.router.(hostKey := p.hostKey))
              && Merged(c.router, p).(hostKey := None, username := c.router.username) == c.router.(hostKey := None)
  {
    if Recovered(c, p).Some? {
      AddressTrimmed(c.router.host);
      AddressTrimmed(c.router.rethinkIp);
    }
  }

  /** The six bits of a base64 digit. */
  function Sextet(c: char): Option<int> {
    if 'A' <= c <= 'Z' then Some(c as int - 'A' as int)
    else if 'a' <= c <= 'z' then Some(c as int - 'a' as int + 26)
    else if '0' <= c <= '9' then Some(c as int - '0' as int + 52)
    else if c == '+' then Some(62)
    else if c == '/' then Some(63)
    else None
  }

  /** A fingerprint is 43 digits of base64, of whose 258 bits the last two are zero: the 256 of SHA-256. */
  lemma FingerprintIff(s: string)
    ensures HostKeyFingerprint(s) <==>
              && |s| == 50 && s[..7] == "SHA256:"
              && (forall i :: 7 <= i < 50 ==> Sextet(s[i]).Some?) && Sextet(s[49]).value % 4 == 0
  {
    assert forall i :: 7 <= i < |s| ==> (Base64Char(s[i]) <==> Sextet(s[i]).Some?);
    if |s| == 50 && Sextet(s[49]).Some? {
      LastDigits(s[49]);
    }
  }

  lemma LastDigits(c: char)
    requires Sextet(c).Some?
    ensures c in "AEIMQUYcgkosw048" <==> Sextet(c).value % 4 == 0
  {
  }

  predicate NotEmpty(o: Option<string>) { o.Some? && o.value != "" }

  function KeyAfter(was: Settings, p: Patch, host: Ip, port: int): Option<string> {
    match p.hostKey
    case Some(key) => Some(Trim(key))
    case None => if host != was.host || port != was.port then None else was.hostKey
  }

  // ---------------------------------------------------------------- addresses

  predicate Digits(s: string) { forall i :: 0 <= i < |s| ==> '0' <= s[i] <= '9' }

  /** The value of a digit. */
  function Worth(c: char): int { c as int - '0' as int }

  /** A number below 256 as it is written, without leading zeros. */
  predicate Numeral(s: string) {
    && Digits(s)
    && (|| |s| == 1
        || (|s| == 2 && s[0] != '0')
        || (|s| == 3 && s[0] != '0' && 100 * Worth(s[0]) + 10 * Worth(s[1]) + Worth(s[2]) < 256))
  }

  lemma LastDigit(s: string, n: nat)
    requires Digits(s) && n + 1 == |s|
    ensures Digits(s[..n]) && DigitsValue(s) == 10 * DigitsValue(s[..n]) + Worth(s[n])
  {
  }

  lemma ShortValue(s: string)
    requires Digits(s) && 1 <= |s| <= 3
    ensures |s| == 1 ==> DigitsValue(s) == Worth(s[0])
    ensures |s| == 2 ==> DigitsValue(s) == 10 * Worth(s[0]) + Worth(s[1])
    ensures |s| == 3 ==> DigitsValue(s) == 100 * Worth(s[0]) + 10 * Worth(s[1]) + Worth(s[2])
  {
    var n: nat := |s| - 1;
    LastDigit(s, n);
    if n == 0 {
      assert s[..0] == "";
    } else {
      ShortValue(s[..n]);
    }
  }

  lemma OctetIff(s: string)
    ensures Octet(s) <==> Numeral(s)
  {
    if Digits(s) && 1 <= |s| <= 3 {
      ShortValue(s);
    }
  }

  function Joined(parts: seq<string>): string
    requires parts != []
  {
    if |parts| == 1 then parts[0] else parts[0] + "." + Joined(parts[1..])
  }

  lemma {:induction false} PartsJoin(s: string)
    ensures Joined(Parts(s)) == s
  {
    if s != "" {
      PartsJoin(s[1..]);
      var rest := Parts(s[1..]);
      assert s == [s[0]] + s[1..];
      if s[0] == '.' {
        assert Parts(s)[1..] == rest;
      } else {
        assert Parts(s)[1..] == rest[1..];
      }
    }
  }

  /** Digits, then a dot or the end: the first part is those digits. */
  lemma {:induction false} FirstPart(digits: string, more: string)
    requires Digits(digits)
    ensures Parts(digits + "." + more) == [digits] + Parts(more) && Parts(digits) == [digits]
  {
    if digits == "" {
      assert digits + "." + more == "." + more && ("." + more)[1..] == more;
    } else {
      FirstPart(digits[1..], more);
      var s := digits + "." + more;
      assert s[1..] == digits[1..] + "." + more;
      assert [digits[0]] + digits[1..] == digits;
      assert ([digits[1..]] + Parts(more))[1..] == Parts(more);
    }
  }

  function Dotted(a: string, b: string, c: string, d: string): string { a + "." + (b + "." + (c + "." + d)) }

  lemma DottedParts(a: string, b: string, c: string, d: string)
    requires Digits(a) && Digits(b) && Digits(c) && Digits(d)
    ensures Parts(Dotted(a, b, c, d)) == [a, b, c, d]
  {
    FirstPart(a, b + "." + (c + "." + d));
    FirstPart(b, c + "." + d);
    FirstPart(c, d);
    FirstPart(d, "");
  }

  lemma FourJoined(p: seq<string>)
    requires |p| == 4
    ensures Joined(p) == Dotted(p[0], p[1], p[2], p[3])
  {
    var q, r := p[1..], p[2..];
    assert q[1..] == r && r[1..] == [p[3]];
    assert Joined(r) == p[2] + "." + p[3];
    assert Joined(q) == p[1] + "." + Joined(r);
  }

  /** An address has no white space to trim. */
  lemma AddressTrimmed(s: string)
    requires ValidIPv4(s)
    ensures Trim(s) == s
  {
    AddressIff(s);
    var a, b, c, d :| Numeral(a) && Numeral(b) && Numeral(c) && Numeral(d) && s == Dotted(a, b, c, d);
    assert s[0] == a[0] && s[|s| - 1] == d[|d| - 1];
  }

  /** The addresses are four numbers below 256, written without leading zeros and with dots in between, and nothing else. */
  lemma AddressIff(s: string)
    ensures ValidIPv4(s) <==>
              exists a, b, c, d :: Numeral(a) && Numeral(b) && Numeral(c) && Numeral(d) && s == Dotted(a, b, c, d)
  {
    if ValidIPv4(s) {
      var p := Parts(s);
      PartsJoin(s);
      FourJoined(p);
      forall i | 0 <= i < 4
        ensures Numeral(p[i])
      {
        OctetIff(p[i]);
      }
    }
    if a, b, c, d :| Numeral(a) && Numeral(b) && Numeral(c) && Numeral(d) && s == Dotted(a, b, c, d) {
      DottedParts(a, b, c, d);
      OctetIff(a);
      OctetIff(b);
      OctetIff(c);
      OctetIff(d);
    }
  }
}
