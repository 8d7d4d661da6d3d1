/** What the program leaves behind on the router. */
module RouterLeftovers {
  // Every rule it wrote belongs to an entry it still manages.

  import opened Common
  import opened NatTables
  import opened DnatRules
  import opened RouterControl
  import S = RouterStore

  predicate OwnedBy(c: S.Config, i: nat, r: Rule) {
    i < |c.devices| && c.devices[i].EntryMode().DnatMode? && r in Rules(c.devices[i], c)
  }

  ghost predicate Owned(c: S.Config, r: Rule) { S.HasConnectionSettings(c) && exists i: nat :: OwnedBy(c, i, r) }

  /** Every redirection in either chain is one of the rules of an entry in DNAT mode. */
  ghost predicate Tidy(w: World) {
    forall at, r :: r in RulesAt(w.tables, at) && r.Dnat? ==> Owned(w.config, r)
  }

  /** The entry a request wants to change was off, and all were when it changes the settings: as the router had said. */
  ghost predicate WasOff(w: World, a: Action, w': World) {
    var c := w.config;
    w'.config != c && S.Configured(c) ==>
      && (IsEdit(a) && Guarded(c, a) && S.Find(c, a.id).Some? ==> StateOf(w.tables, Rules(EntryOf(c, a.id), c)) == Off)
      && (a.Configure? && S.Recovered(c, a.input).None? ==> forall d :: d in c.devices ==> StateOf(w.tables, Rules(d, c)) == Off)
  }

  /** A reboot may lose redirections; nobody else makes any. */
  ghost predicate OnlyLoses(w: World, a: Action, w': World) {
    a.Reboot? ==> forall at, r :: r in RulesAt(w'.tables, at) && r.Dnat? ==> Has(w.tables, r)
  }

  /** An entry's rules change while some of them are on the router. */
  ghost predicate Strands(w: World, w': World) {
    exists i :: 0 <= i < |w.config.devices| && i < |w'.config.devices| && StrandsOne(w, w', i)
  }

  predicate StrandsOne(w: World, w': World, i: nat)
    requires i < |w.config.devices| && i < |w'.config.devices|
  {
    && w.config.devices[i].EntryMode().DnatMode?
    && Rules(w'.config.devices[i], w'.config) != Rules(w.config.devices[i], w.config)
    && StateOf(w.tables, Rules(w.config.devices[i], w.config)) != Off
  }

  lemma TidyOwner(w: World, at: Location, r: Rule) returns (i: nat)
    requires Tidy(w) && r in RulesAt(w.tables, at) && r.Dnat?
    ensures Has(w.tables, r) && OwnedBy(w.config, i, r)
  {
    assert at == Chain || at == Prerouting;
    i :| OwnedBy(w.config, i, r);
  }

  /** An entry that is off, or in local mode, owns nothing on the router. */
  lemma OffOwnsNothing(w: World, k: nat, r: Rule)
    requires k < |w.config.devices| && Has(w.tables, r)
    requires w.config.devices[k].EntryMode().LocalMode? || StateOf(w.tables, Rules(w.config.devices[k], w.config)) == Off
    ensures !OwnedBy(w.config, k, r)
  {
    var rules := Rules(w.config.devices[k], w.config);
    if r in rules {
      assert r == rules[0] || r == rules[1];
    }
  }

  // ---------------------------------------------------------------- edits of one entry

  /** What an entry needs for its rules to have an owner after it has become `d`. */
  ghost predicate Inherits(w: World, k: nat, d: S.Device)
    requires k < |w.config.devices|
  {
    forall r :: Has(w.tables, r) && OwnedBy(w.config, k, r) ==> d.EntryMode().DnatMode? && r in Rules(d, w.config)
  }

  lemma SetKeepsTidy(w: World, k: nat, d: S.Device)
    requires Tidy(w) && k < |w.config.devices| && Inherits(w, k, d)
    ensures Tidy(w.(config := S.Set(w.config, k, d)))
  {
    var c := w.config;
    var c' := S.Set(c, k, d);
    forall at, r | r in RulesAt(w.tables, at) && r.Dnat?
      ensures Owned(c', r)
    {
      var i := TidyOwner(w, at, r);
      assert OwnedBy(c', i, r);
    }
  }

  lemma OffInherits(w: World, k: nat, d: S.Device)
    requires k < |w.config.devices|
    requires StateOf(w.tables, Rules(w.config.devices[k], w.config)) == Off || w.config.devices[k].EntryMode().LocalMode?
    ensures Inherits(w, k, d)
  {
    forall r | Has(w.tables, r)
      ensures !OwnedBy(w.config, k, r)
    {
      OffOwnsNothing(w, k, r);
    }
  }

  lemma SameRulesInherit(w: World, k: nat, d: S.Device)
    requires k < |w.config.devices| && Rules(d, w.config) == Rules(w.config.devices[k], w.config)
    requires d.EntryMode() == w.config.devices[k].EntryMode()
    ensures Inherits(w, k, d)
  {
  }

  lemma AddKeepsTidy(w: World, c': S.Config)
    requires Tidy(w) && c'.router == w.config.router && w.config.devices <= c'.devices
    ensures Tidy(w.(config := c'))
  {
    forall at, r | r in RulesAt(w.tables, at) && r.Dnat?
      ensures Owned(c', r)
    {
      var i := TidyOwner(w, at, r);
      assert OwnedBy(c', i, r);
    }
  }

  lemma EditKeepsTidy(w: World, a: Action, w': World)
    requires WorldOk(w) && Tidy(w) && IsEdit(a) && Edited(w, a, w') && WasOff(w, a, w')
    requires a.Link? ==> !Strands(w, w')
    ensures Tidy(w')
  {
    var c, c' := w.config, w'.config;
    if c' != c {
      if a.Add? {
        AddKeepsTidy(w, c');
      } else if a.Delete? {
        DeleteKeepsTidy(w, a, w');
      } else {
        ChangeKeepsTidy(w, a, w', S.Find(c, a.id).value);
      }
    }
  }

  lemma ChangeKeepsTidy(w: World, a: Action, w': World, k: nat)
    requires Tidy(w) && IsEdit(a) && Edited(w, a, w') && WasOff(w, a, w') && w'.config != w.config
    requires !a.Add? && !a.Delete? && S.Find(w.config, a.id) == Some(k) && (a.Link? ==> !Strands(w, w'))
    ensures Tidy(w')
  {
    var c, c' := w.config, w'.config;
    if Guarded(c, a) {
      OffInherits(w, k, c'.devices[k]);
    } else if Rules(c'.devices[k], c') == Rules(c.devices[k], c) {
      SameRulesInherit(w, k, c'.devices[k]);
    } else {
      assert !StrandsOne(w, w', k);
      OffInherits(w, k, c'.devices[k]);
    }
    SetKeepsTidy(w, k, c'.devices[k]);
  }

  lemma DeleteKeepsTidy(w: World, a: Action, w': World)
    requires WorldOk(w) && Tidy(w) && a.Delete? && Edited(w, a, w') && WasOff(w, a, w') && w'.config != w.config
    ensures Tidy(w')
  {
    var c, c' := w.config, w'.config;
    var k := S.Find(c, a.id).value;
    forall at, r | r in RulesAt(w.tables, at) && r.Dnat?
      ensures Owned(c', r)
    {
      var i := TidyOwner(w, at, r);
      OffOwnsNothing(w, k, r);
      assert c'.devices[if i < k then i else i - 1] == c.devices[i];
      assert OwnedBy(c', if i < k then i else i - 1, r);
    }
  }

  // ---------------------------------------------------------------- the automatic link

  lemma SyncLinkKeepsTidy(w: World, source: Option<S.Ip>, deviceId: string, name: Option<string>, platform: Option<Platform>)
    requires Tidy(w)
    requires var linked := w.(config := S.LinkedByIp(w.config, source, deviceId, name, platform)); !Strands(w, linked)
    ensures Tidy(w.(config := S.LinkedByIp(w.config, source, deviceId, name, platform)))
  {
    var c := w.config;
    var c' := S.LinkedByIp(c, source, deviceId, name, platform);
    if c' != c {
      var k := S.IndexOf(c.devices, (e: S.Device) => e.ip == source.value).value;
      if Rules(c'.devices[k], c') == Rules(c.devices[k], c) {
        SameRulesInherit(w, k, c'.devices[k]);
      } else {
        assert !StrandsOne(w, w.(config := c'), k);
        OffInherits(w, k, c'.devices[k]);
      }
      SetKeepsTidy(w, k, c'.devices[k]);
    }
  }

  lemma RenameKeepsTidy(w: World, deviceId: string, name: Option<string>)
    requires Tidy(w)
    ensures Tidy(w.(config := S.Renamed(w.config, deviceId, name)))
  {
    var c' := S.Renamed(w.config, deviceId, name);
    if c' != w.config {
      var k := S.IndexOf(w.config.devices, (e: S.Device) => e.deviceId == Some(deviceId)).value;
      SameRulesInherit(w, k, c'.devices[k]);
      SetKeepsTidy(w, k, c'.devices[k]);
    }
  }

  /** Refreshing a name strands nothing. */
  lemma RenameStrandsNothing(w: World, c: S.Config, deviceId: string, name: Option<string>)
    requires |c.devices| == |w.config.devices|
    ensures Strands(w, w.(config := c)) <==> Strands(w, w.(config := S.Renamed(c, deviceId, name)))
  {
    var v, v' := w.(config := c), w.(config := S.Renamed(c, deviceId, name));
    forall i | 0 <= i < |c.devices|
      ensures StrandsOne(w, v, i) <==> StrandsOne(w, v', i)
    {
    }
  }

  lemma SyncKeepsTidy(w: World, a: Action, w': World)
    requires Tidy(w) && a.Sync? && Step(w, a, w') && !Strands(w, w')
    ensures Tidy(w')
  {
    var linked := S.LinkedByIp(w.config, a.source, a.deviceId, a.name, a.platform);
    if w'.config != w.config {
      RenameStrandsNothing(w, linked, a.deviceId, a.name);
      SyncLinkKeepsTidy(w, a.source, a.deviceId, a.name, a.platform);
      RenameKeepsTidy(w.(config := linked), a.deviceId, a.name);
    }
  }

  // ---------------------------------------------------------------- the router's side

  /** When every redirection was there before, or belongs to an entry, tidiness carries over. */
  lemma TablesKeepTidy(w: World, t: Tables)
    requires Tidy(w)
    requires forall at, r :: r in RulesAt(t, at) && r.Dnat? ==> Has(w.tables, r) || Owned(w.config, r)
    ensures Tidy(w.(tables := t))
  {
    forall at, r | r in RulesAt(t, at) && r.Dnat?
      ensures Owned(w.config, r)
    {
      if Has(w.tables, r) {
        var where :| r in RulesAt(w.tables, where);
      }
    }
  }

  lemma GrownIsOwned(w: World, t: Tables, i: nat)
    requires S.HasConnectionSettings(w.config) && i < |w.config.devices| && w.config.devices[i].EntryMode().DnatMode?
    requires Grown(w.tables, t, Rules(w.config.devices[i], w.config), 2)
    ensures forall at, r :: r in RulesAt(t, at) && r.Dnat? ==> Has(w.tables, r) || Owned(w.config, r)
  {
    forall at, r | r in RulesAt(t, at) && r.Dnat?
      ensures Has(w.tables, r) || Owned(w.config, r)
    {
      if at.Chain? && !Has(w.tables, r) {
        assert OwnedBy(w.config, i, r);
      }
    }
  }

  lemma ExtendedIsOwned(w: World, c': S.Config, t: Tables)
    requires S.HasConnectionSettings(c') && Extended(w.tables, t, OfWanted(c', w.released))
    ensures forall at, r :: r in RulesAt(t, at) && r.Dnat? ==> Has(w.tables, r) || Owned(c', r)
  {
    JumpsAheadKeeps(w.tables.prerouting, t.prerouting);
    var own := OfWanted(c', w.released);
    forall at, r | r in RulesAt(t, at) && r.Dnat?
      ensures Has(w.tables, r) || Owned(c', r)
    {
      if at.Prerouting? {
        CountMember(t.prerouting, r);
        CountMember(w.tables.prerouting, r);
      } else if !Has(w.tables, r) {
        assert own(r);
        var d :| d in c'.devices && S.Wanted(d, w.released) && r in Rules(d, c');
        var i :| 0 <= i < |c'.devices| && c'.devices[i] == d;
        assert OwnedBy(c', i, r);
      }
    }
  }

  lemma FewerIsTidy(w: World, t: Tables)
    requires Tidy(w) && forall at, r :: CopiesAt(t, at, r) <= CopiesAt(w.tables, at, r)
    ensures Tidy(w.(tables := t))
  {
    forall at, r | r in RulesAt(t, at) && r.Dnat?
      ensures Has(w.tables, r)
    {
      CountMember(RulesAt(t, at), r);
      CountMember(RulesAt(w.tables, at), r);
      assert CopiesAt(t, at, r) <= CopiesAt(w.tables, at, r);
      assert at == Chain || at == Prerouting;
    }
    TablesKeepTidy(w, t);
  }

  /** Configurations whose entries have the same rules in the same modes own the same redirections. */
  lemma IntentsKeepTidy(w: World, c': S.Config)
    requires Tidy(w) && c'.router == w.config.router && |c'.devices| == |w.config.devices|
    requires forall i :: 0 <= i < |c'.devices| ==>
               c'.devices[i] == w.config.devices[i].(dnatDesired := c'.devices[i].dnatDesired)
    ensures Tidy(w.(config := c'))
  {
    forall at, r | r in RulesAt(w.tables, at) && r.Dnat?
      ensures Owned(c', r)
    {
      var i: nat :| OwnedBy(w.config, i, r);
      assert c'.devices[i] == w.config.devices[i].(dnatDesired := c'.devices[i].dnatDesired);
      assert OwnedBy(c', i, r);
    }
  }

  lemma ReconcileKeepsTidy(w: World, w': World)
    requires Tidy(w) && Step(w, Reconcile, w')
    ensures Tidy(w')
  {
    if w' != w {
      forall i | 0 <= i < |w'.config.devices|
        ensures w'.config.devices[i] == w.config.devices[i].(dnatDesired := w'.config.devices[i].dnatDesired)
      {
        assert Adopted(w.config.devices[i], w'.config.devices[i], w.released);
      }
      IntentsKeepTidy(w, w'.config);
      ExtendedIsOwned(w, w'.config, w'.tables);
      TablesKeepTidy(w.(config := w'.config), w'.tables);
    }
  }

  lemma SwitchKeepsTidy(w: World, a: Action, w': World)
    requires Tidy(w) && Step(w, a, w') && (a.Enable? || a.Disable?)
    ensures Tidy(w')
  {
    if w' != w {
      var t := World(w.config, w.released, w'.tables);
      if a.Enable? {
        GrownIsOwned(w, w'.tables, S.Find(w.config, a.id).value);
        TablesKeepTidy(w, w'.tables);
      } else {
        assert forall at, r :: CopiesAt(w'.tables, at, r) <= CopiesAt(w.tables, at, r);
        FewerIsTidy(w, w'.tables);
      }
      assert Tidy(t);
      IntentsKeepTidy(t, w'.config);
    }
  }

  lemma ConfigureKeepsTidy(w: World, a: Action, w': World)
    requires Tidy(w) && a.Configure? && Step(w, a, w') && WasOff(w, a, w')
    ensures Tidy(w')
  {
    if S.Recovered(w.config, a.input).Some? {
      HostKeyKeepsTidy(w, w'.config);
    } else if w'.config != w.config {
      NewSettingsFindNothing(w, a, w');
    }
  }

  /** The router's or the server's address only changes when the router holds no redirection at all. */
  lemma NewSettingsFindNothing(w: World, a: Action, w': World)
    requires Tidy(w) && a.Configure? && Step(w, a, w') && WasOff(w, a, w')
    requires w'.config != w.config && S.Recovered(w.config, a.input).None?
    ensures forall at, r :: r in RulesAt(w'.tables, at) ==> !r.Dnat?
  {
    assert AllQuiet(w);
    forall at, r | r in RulesAt(w.tables, at)
      ensures !r.Dnat?
    {
      NoRedirection(w, at, r);
    }
  }

  /** Every entry is off or, when the router cannot be asked, in local mode. */
  ghost predicate AllQuiet(w: World) {
    forall d :: d in w.config.devices && S.HasConnectionSettings(w.config) ==>
      if S.Configured(w.config) then StateOf(w.tables, Rules(d, w.config)) == Off else d.EntryMode().LocalMode?
  }

  lemma NoRedirection(w: World, at: Location, r: Rule)
    requires Tidy(w) && AllQuiet(w) && r in RulesAt(w.tables, at)
    ensures !r.Dnat?
  {
    if r.Dnat? {
      var i := TidyOwner(w, at, r);
      assert w.config.devices[i] in w.config.devices;
      OffOwnsNothing(w, i, r);
    }
  }

  lemma HostKeyKeepsOwned(c: S.Config, c': S.Config, r: Rule)
    requires Owned(c, r) && c'.devices == c.devices && c'.router == c.router.(hostKey := c'.router.hostKey)
    ensures Owned(c', r)
  {
    var i: nat :| OwnedBy(c, i, r);
    assert Rules(c'.devices[i], c') == Rules(c.devices[i], c);
    assert OwnedBy(c', i, r);
  }

  lemma HostKeyKeepsTidy(w: World, c': S.Config)
    requires Tidy(w) && c'.devices == w.config.devices
    requires c'.router == w.config.router.(hostKey := c'.router.hostKey)
    ensures Tidy(w.(config := c'))
  {
    forall at, r | r in RulesAt(w.tables, at) && r.Dnat?
      ensures Owned(c', r)
    {
      HostKeyKeepsOwned(w.config, c', r);
    }
  }

  // ---------------------------------------------------------------- every step and every run

  /** Whatever fails, no step but a link leaves a rule without an entry; a link does exactly when it strands one. */
  lemma StepKeepsTidy(w: World, a: Action, w': World)
    requires WorldOk(w) && Tidy(w) && Step(w, a, w') && WasOff(w, a, w') && OnlyLoses(w, a, w')
    ensures if a.Link? || a.Sync? then Tidy(w') <==> !Strands(w, w') else Tidy(w')
  {
    if (a.Link? || a.Sync?) && Strands(w, w') {
      StrandedIsUntidy(w, a, w');
    } else if IsEdit(a) {
      EditKeepsTidy(w, a, w');
    } else if a.Sync? {
      SyncKeepsTidy(w, a, w');
    } else if a.Reconcile? {
      ReconcileKeepsTidy(w, w');
    } else if a.Enable? || a.Disable? {
      SwitchKeepsTidy(w, a, w');
    } else if a.Configure? {
      ConfigureKeepsTidy(w, a, w');
    } else if a.Release? {
      FewerIsTidy(w, w'.tables);
    } else if a.Reboot? {
      TablesKeepTidy(w, w'.tables);
    }
  }

  lemma StrandedIsUntidy(w: World, a: Action, w': World)
    requires WorldOk(w) && (a.Link? || a.Sync?) && Step(w, a, w') && Strands(w, w')
    ensures !Tidy(w')
  {
    var c, c' := w.config, w'.config;
    var i :| 0 <= i < |c.devices| && i < |c'.devices| && StrandsOne(w, w', i);
    var rules := Rules(c.devices[i], c);
    var r := if Has(w.tables, rules[0]) then rules[0] else rules[1];
    StepKeepsWorldOk(w, a, w');
    LinkKeepsAddress(w, a, w', i);
    NoOwner(c', i, c.devices[i].platform, r);
    assert exists at :: r in RulesAt(w'.tables, at);
  }

  lemma LinkKeepsAddress(w: World, a: Action, w': World, i: nat)
    requires (a.Link? || a.Sync?) && Step(w, a, w') && i < |w.config.devices|
    ensures w'.tables == w.tables && w'.config.router == w.config.router
    ensures |w'.config.devices| == |w.config.devices| && w'.config.devices[i].ip == w.config.devices[i].ip
  {
    if a.Sync? {
      SyncKeepsAddress(w.config, a.source, a.deviceId, a.name, a.platform, i);
    } else {
      assert Edited(w, a, w');
    }
  }

  lemma SyncKeepsAddress(
    c: S.Config, source: Option<S.Ip>, deviceId: string, name: Option<string>, platform: Option<Platform>, i: nat)
    requires i < |c.devices|
    ensures var linked := S.LinkedByIp(c, source, deviceId, name, platform);
            var renamed := S.Renamed(linked, deviceId, name);
            && linked.router == c.router && |linked.devices| == |c.devices| && linked.devices[i].ip == c.devices[i].ip
            && renamed.router == c.router && |renamed.devices| == |c.devices| && renamed.devices[i].ip == c.devices[i].ip
  {
  }

  /** A rule for other ports than those of the one entry at its address has no owner. */
  lemma NoOwner(c: S.Config, i: nat, p: Option<Platform>, r: Rule)
    requires S.StoreOk(c) && i < |c.devices|
    requires var old_rules := RulesFor(c.devices[i].ip, p, c.router.rethinkIp); r in old_rules && Rules(c.devices[i], c) != old_rules
    ensures !Owned(c, r)
  {
    forall j: nat
      ensures !OwnedBy(c, j, r)
    {
      if OwnedBy(c, j, r) {
        assert c.devices[j].ip == r.src == c.devices[i].ip;
        assert j == i;
        OtherPorts(c.devices[i].ip, p, c.devices[i].platform, c.router.rethinkIp, r);
      }
    }
  }

  lemma OtherPorts(ip: S.Ip, p: Option<Platform>, q: Option<Platform>, rethinkIp: S.Ip, r: Rule)
    requires r in RulesFor(ip, p, rethinkIp) && RulesFor(ip, p, rethinkIp) != RulesFor(ip, q, rethinkIp)
    ensures r !in RulesFor(ip, q, rethinkIp)
  {
  }

  /** Whatever makes an entry change its address, mode or link, or go, no redirection of its address stays behind. */
  lemma NoneLeftBehind(w: World, a: Action, w': World)
    requires WorldOk(w) && Tidy(w) && IsEdit(a) && Edited(w, a, w') && WasOff(w, a, w')
    requires w'.config != w.config && Guarded(w.config, a)
    ensures S.Find(w.config, a.id).Some?
    ensures forall at, r :: r in RulesAt(w'.tables, at) && r.Dnat? ==> r.src != EntryOf(w.config, a.id).ip
  {
    var c := w.config;
    var k := S.Find(c, a.id).value;
    forall at, r | r in RulesAt(w.tables, at) && r.Dnat?
      ensures r.src != c.devices[k].ip
    {
      var i := TidyOwner(w, at, r);
      OffOwnsNothing(w, k, r);
      assert i != k && c.devices[i].ip == r.src;
    }
  }

  /** The router's answers to the step were right, and it strands no rule. */
  ghost predicate Clean(w: World, a: Action, w': World) {
    WasOff(w, a, w') && OnlyLoses(w, a, w') && ((a.Link? || a.Sync?) ==> !Strands(w, w'))
  }

  lemma CleanStep(w: World, a: Action, w': World)
    requires WorldOk(w) && Tidy(w) && Step(w, a, w') && Clean(w, a, w')
    ensures WorldOk(w') && Tidy(w')
  {
    StepKeepsWorldOk(w, a, w');
    StepKeepsTidy(w, a, w');
  }

  /** In every run of such steps, whatever fails, every rule has its entry. */
  lemma {:induction false} TidyThroughout(ws: seq<World>, acts: seq<Action>, k: nat)
    requires Behaviour(ws, acts) && WorldOk(ws[0]) && Tidy(ws[0]) && k < |ws|
    requires forall i :: 0 <= i < |acts| ==> Clean(ws[i], acts[i], ws[i + 1])
    ensures WorldOk(ws[k]) && Tidy(ws[k])
  {
    if k > 0 {
      TidyThroughout(ws, acts, k - 1);
      CleanStep(ws[k - 1], acts[k - 1], ws[k]);
    }
  }
}
