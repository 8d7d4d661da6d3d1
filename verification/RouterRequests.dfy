/** Requests as functions of what router and disk do. */
module RouterRequests {
  // And what their answers are worth (management/router-api.ts).

  import opened Common
  import opened NatTables
  import opened RouterWire
  import opened DnatRules
  import opened DnatExchanges
  import opened RouterControl
  import opened RouterLeftovers
  import S = RouterStore

  /** What befalls each exchange with the router, and whether each attempt to write the file works. */
  datatype Env = Env(faults: Faults, writable: nat -> bool)

  datatype Site = Site(config: S.Config, saves: nat, released: set<EntryId>, wire: Wire)

  function WorldOf(s: Site): World { World(s.config, s.released, s.wire.tables) }

  datatype Approval = Approval(source: S.Mode, target: S.Mode, acknowledged: bool)

  /** What else a request meets: a named approval, whether the device is connected, and whether the bridge throws. */
  datatype Request = Request(approval: Option<Approval>, connected: bool, bridgeFails: bool)

  // ---------------------------------------------------------------- the entry has to be off

  function RequireOffOf(f: Faults, s: Wire, c: S.Config, id: EntryId): (out: Outcome<()>)
    ensures out.wire.tables == s.tables && s.sent <= out.wire.sent
  {
    if !NotWantedOn(c, id) then Outcome(s, Err(()))
    else if !S.Configured(c) then Outcome(s, if EntryOf(c, id).EntryMode().LocalMode? then Ok(()) else Err(()))
    else
      var state := StateForOf(f, s, Rules(EntryOf(c, id), c));
      Outcome(state.wire, if state.result == Ok(Off) then Ok(()) else Err(()))
  }

  /** The state of one entry, over a connection of its own. */
  function StateForOf(f: Faults, s: Wire, rules: seq<Rule>): (out: Outcome<DnatState>)
    requires |rules| == 2
    ensures out.wire.tables == s.tables && s.sent < out.wire.sent
  {
    if f(s.sent).Fine? then StatusOf(f, Connected(s), rules) else Outcome(Connected(s), Err(()))
  }

  /** The entry is not meant to be on, and is not; a router that cannot be asked counts as off for local entries only. */
  predicate MayChange(c: S.Config, t: Tables, id: EntryId) {
    && NotWantedOn(c, id)
    && if S.Configured(c) then StateOf(t, Rules(EntryOf(c, id), c)) == Off else EntryOf(c, id).EntryMode().LocalMode?
  }

  /** The four checks that follow the connection were not refused for a rule that was there. */
  predicate ToldTruth(f: Faults, s: Wire, c: S.Config, id: EntryId)
    requires S.Find(c, id).Some?
  {
    S.Configured(c) ==> !Denied(f, s.sent + 1, s.tables, Rules(EntryOf(c, id), c))
  }

  /** An entry that passes may change, exactly when no check was refused for a rule that was there. */
  lemma RequireOffTells(f: Faults, s: Wire, c: S.Config, id: EntryId)
    ensures RequireOffOf(f, s, c, id).result.Ok? ==>
              NotWantedOn(c, id) && (MayChange(c, s.tables, id) <==> ToldTruth(f, s, c, id))
  {
    if NotWantedOn(c, id) && S.Configured(c) {
      AskedTells(f, s, c, id);
    }
  }

  lemma AskedTells(f: Faults, s: Wire, c: S.Config, id: EntryId)
    requires NotWantedOn(c, id) && S.Configured(c)
    ensures RequireOffOf(f, s, c, id).result.Ok? ==>
              (StateOf(s.tables, Rules(EntryOf(c, id), c)) == Off <==> !Denied(f, s.sent + 1, s.tables, Rules(EntryOf(c, id), c)))
  {
    StatusTells(f, Connected(s), Rules(EntryOf(c, id), c));
  }

  /** A guarded change is made to an entry that may change, exactly when no check was refused for a rule that was there. */
  predicate WasOffAsTold(f: Faults, s: Wire, c: S.Config, c': S.Config, a: Action)
    requires IsEdit(a)
  {
    c' != c && Guarded(c, a) ==>
      NotWantedOn(c, a.id) && (MayChange(c, s.tables, a.id) <==> ToldTruth(f, s, c, a.id))
  }

  /** When no command fails, exactly the entries that may change pass. */
  lemma RequireOffFine(f: Faults, s: Wire, c: S.Config, id: EntryId)
    ensures FineDuring(f, s.sent, RequireOffOf(f, s, c, id).wire.sent) ==>
              (RequireOffOf(f, s, c, id).result.Ok? <==> MayChange(c, s.tables, id))
  {
    if NotWantedOn(c, id) && S.Configured(c) && FineDuring(f, s.sent, RequireOffOf(f, s, c, id).wire.sent) {
      assert f(s.sent).Fine?;
      StatusTells(f, s.(sent := s.sent + 1), Rules(EntryOf(c, id), c));
    }
  }

  // ---------------------------------------------------------------- edits

  /** A mode is one of the two, and a change of mode was approved by name, in the right direction. */
  predicate ModeAccepted(d: S.Device, mode: Option<string>, approval: Option<Approval>) {
    mode.Some? ==>
      && S.ModeOf(mode.value).Some?
      && (S.ModeOf(mode.value).value == d.EntryMode() || approval == Some(Approval(d.EntryMode(), S.ModeOf(mode.value).value, true)))
  }

  /** Requests that are refused before the router is asked anything. */
  predicate TurnedAway(c: S.Config, a: Action, q: Request)
    requires IsEdit(a)
  {
    || ((a.Put? || a.Link?) && S.Find(c, a.id).None?)
    || (a.Put? && !ModeAccepted(EntryOf(c, a.id), a.mode, q.approval))
  }

  predicate HasLink(c: S.Config, id: EntryId) {
    S.Find(c, id).Some? && EntryOf(c, id).deviceId.Some? && EntryOf(c, id).deviceId.value != ""
  }

  /** Requests that are given up after the entry was found to be off and before the store is asked. */
  predicate GivenUp(c: S.Config, a: Action, q: Request)
    requires IsEdit(a)
  {
    || (a.Link? && !q.connected)
    || ((a.Delete? || a.Unlink?) && q.bridgeFails && HasLink(c, a.id))
  }

  /** Requests that fail although the store has done its part. */
  predicate FailsLate(c: S.Config, a: Action, q: Request)
    requires IsEdit(a)
  {
    q.bridgeFails && (a.Link? || (a.Put? && HasLink(c, a.id)))
  }

  /** All that a request has to pass before the store is asked. */
  function PermitOf(f: Faults, s: Wire, c: S.Config, a: Action, q: Request): Outcome<()>
    requires IsEdit(a)
  {
    if TurnedAway(c, a, q) then Outcome(s, Err(()))
    else
      var off := if Guarded(c, a) then RequireOffOf(f, s, c, a.id) else Outcome(s, Ok(()));
      if GivenUp(c, a, q) then Outcome(off.wire, Err(())) else off
  }

  function EditOf(e: Env, s: Site, a: Action, q: Request): (Site, bool)
    requires IsEdit(a)
  {
    var permit := PermitOf(e.faults, s.wire, s.config, a, q);
    var asked := s.(wire := permit.wire);
    if permit.result.Err? then (asked, false)
    else
      var stored := S.SaveOf(e.writable, s.config, s.saves, Edit(s.config, a), true);
      (asked.(config := stored.config, saves := stored.saves), stored.error.None? && !FailsLate(s.config, a, q))
  }

  lemma EditIsEdited(e: Env, s: Site, a: Action, q: Request)
    requires IsEdit(a) && (a.Add? ==> S.Find(s.config, a.id).None?)
    ensures Edited(WorldOf(s), a, WorldOf(EditOf(e, s, a, q).0))
  {
    var s' := EditOf(e, s, a, q).0;
    if s'.config != s.config {
      EditDone(e, s, a, q);
      if Guarded(s.config, a) {
        EditUnconfigured(e, s, a, q);
      }
    }
  }

  lemma EditDone(e: Env, s: Site, a: Action, q: Request)
    requires IsEdit(a) && EditOf(e, s, a, q).0.config != s.config
    ensures Ok(EditOf(e, s, a, q).0.config) == Edit(s.config, a)
  {
  }

  lemma EditUnconfigured(e: Env, s: Site, a: Action, q: Request)
    requires IsEdit(a) && EditOf(e, s, a, q).0.config != s.config && Guarded(s.config, a)
    ensures NotWantedOn(s.config, a.id) && (S.Configured(s.config) || EntryOf(s.config, a.id).EntryMode().LocalMode?)
  {
  }

  lemma EditIsStep(e: Env, s: Site, a: Action, q: Request)
    requires IsEdit(a) && (a.Add? ==> S.Find(s.config, a.id).None?)
    ensures Step(WorldOf(s), a, WorldOf(EditOf(e, s, a, q).0))
  {
    EditIsEdited(e, s, a, q);
  }

  lemma EditKeepsStoreOk(e: Env, s: Site, a: Action, q: Request)
    requires IsEdit(a) && S.StoreOk(s.config) && (a.Add? ==> S.Find(s.config, a.id).None?)
    ensures S.StoreOk(EditOf(e, s, a, q).0.config)
  {
    var s' := EditOf(e, s, a, q).0;
    if s'.config != s.config {
      EditDone(e, s, a, q);
      EditKeepsStore(s.config, a, s'.config);
    }
  }

  /** The router's answer goes into every guarded change: the entry was off, unless a check was refused for one of its rules. */
  lemma EditTells(e: Env, s: Site, a: Action, q: Request)
    requires IsEdit(a)
    ensures WasOffAsTold(e.faults, s.wire, s.config, EditOf(e, s, a, q).0.config, a)
    ensures EditOf(e, s, a, q).0.config != s.config && Guarded(s.config, a) ==>
              (WasOff(WorldOf(s), a, WorldOf(EditOf(e, s, a, q).0)) <==> ToldTruth(e.faults, s.wire, s.config, a.id))
  {
    if EditOf(e, s, a, q).0.config != s.config && Guarded(s.config, a) {
      RequireOffTells(e.faults, s.wire, s.config, a.id);
    }
  }

  /**
   * An entry that changes its address, mode or link, or goes, leaves no redirection of its address on the router, unless
   * one of the checks made for it was refused for a rule that was there.
   */
  lemma EditLeavesNothing(e: Env, s: Site, a: Action, q: Request)
    requires IsEdit(a) && WorldOk(WorldOf(s)) && Tidy(WorldOf(s)) && Guarded(s.config, a)
    requires EditOf(e, s, a, q).0.config != s.config
    ensures S.Find(s.config, a.id).Some?
    ensures ToldTruth(e.faults, s.wire, s.config, a.id) ==>
              forall at, r :: r in RulesAt(EditOf(e, s, a, q).0.wire.tables, at) && r.Dnat? ==> r.src != EntryOf(s.config, a.id).ip
  {
    EditTells(e, s, a, q);
    if ToldTruth(e.faults, s.wire, s.config, a.id) {
      EditIsEdited(e, s, a, q);
      NoneLeftBehind(WorldOf(s), a, WorldOf(EditOf(e, s, a, q).0));
    }
  }

  /** Success means that the store did as asked; nothing else changes, and a refusal changes nothing at all. */
  lemma EditAnswers(e: Env, s: Site, a: Action, q: Request)
    requires IsEdit(a)
    ensures var (s', ok) := EditOf(e, s, a, q);
            && s'.released == s.released && s'.wire.tables == s.wire.tables
            && (ok ==> !TurnedAway(s.config, a, q) && Ok(s'.config) == Edit(s.config, a))
            && (s'.config != s.config && a.Put? ==>
                  S.Find(s.config, a.id).Some? && ModeAccepted(EntryOf(s.config, a.id), a.mode, q.approval))
            && (ok && Guarded(s.config, a) ==> RequireOffOf(e.faults, s.wire, s.config, a.id).result.Ok?)
  {
  }

  /** When neither the router nor the disk nor the bridge fails, exactly the permissible edits succeed. */
  lemma EditFine(e: Env, s: Site, a: Action, q: Request)
    requires IsEdit(a) && FineDuring(e.faults, s.wire.sent, EditOf(e, s, a, q).0.wire.sent)
    requires e.writable(s.saves) && q.connected && !q.bridgeFails
    ensures EditOf(e, s, a, q).1 <==>
              && !TurnedAway(s.config, a, q) && Edit(s.config, a).Ok?
              && (Guarded(s.config, a) ==> MayChange(s.config, s.wire.tables, a.id))
  {
    if Guarded(s.config, a) && !TurnedAway(s.config, a, q) {
      RequireOffFine(e.faults, s.wire, s.config, a.id);
    }
  }

  /** The entry is one that the store knows. */
  predicate Knows(c: S.Config, i: nat, id: EntryId) {
    i < |c.devices| && c.devices[i].entryId == id && forall j :: 0 <= j < |c.devices| && j != i ==> c.devices[j].entryId != id
  }

  /** Nothing is wanted of the entry and the router answers that it is off, or cannot be asked about an entry in local mode. */
  predicate AnsweredOff(f: Faults, s: Wire, c: S.Config, d: S.Device) {
    && d.dnatDesired != Some(true)
    && if S.Configured(c) then StateForOf(f, s, RulesFor(d.ip, d.platform, c.router.rethinkIp)).result == Ok(Off)
       else d.mode == Some(S.LocalMode)
  }

  predicate Linked(d: S.Device) { d.deviceId.Some? && d.deviceId.value != "" }

  /** The request turns the entry's mode over, and to what. */
  predicate TurnsTo(d: S.Device, mode: Option<string>, target: S.Mode) {
    (mode == Some("local") && target == S.LocalMode && d.mode != Some(S.LocalMode))
    || (mode == Some("dnat") && target == S.DnatMode && d.mode == Some(S.LocalMode))
  }

  predicate Turns(d: S.Device, mode: Option<string>) { TurnsTo(d, mode, S.LocalMode) || TurnsTo(d, mode, S.DnatMode) }

  /** A change of mode has been approved as it is: from the mode the entry has, to the one asked for, and acknowledged. */
  predicate Approved(d: S.Device, mode: Option<string>, approval: Option<Approval>) {
    && (TurnsTo(d, mode, S.LocalMode) ==> approval == Some(Approval(S.DnatMode, S.LocalMode, true)))
    && (TurnsTo(d, mode, S.DnatMode) ==> approval == Some(Approval(S.LocalMode, S.DnatMode, true)))
  }

  /** What an edit of this entry has to pass, apart from what the store says to it. */
  predicate Passes(e: Env, s: Site, d: S.Device, a: Action, q: Request)
    requires IsEdit(a)
  {
    match a
    case Put(_, move, _, mode) =>
      && (mode.Some? ==> mode.value in {"dnat", "local"}) && Approved(d, mode, q.approval)
      && ((move.Some? && S.Trim(move.value) != d.ip) || Turns(d, mode) ==> AnsweredOff(e.faults, s.wire, s.config, d))
      && !(q.bridgeFails && Linked(d))
    case Link(_, deviceId, _, _) =>
      && q.connected && !q.bridgeFails
      && (Linked(d) && d.deviceId.value != deviceId ==> AnsweredOff(e.faults, s.wire, s.config, d))
    case _ => a.Add? || (AnsweredOff(e.faults, s.wire, s.config, d) && !(q.bridgeFails && Linked(d)))
  }

  /** Exactly when an edit succeeds, whatever goes wrong. */
  lemma EditSucceedsIff(e: Env, s: Site, i: nat, a: Action, q: Request)
    requires IsEdit(a) && !a.Add? && Knows(s.config, i, a.id)
    ensures EditOf(e, s, a, q).1 <==> Passes(e, s, s.config.devices[i], a, q) && Edit(s.config, a).Ok? && e.writable(s.saves)
  {
    var found := S.Find(s.config, a.id);
    assert found == Some(i);
    assert EntryOf(s.config, a.id) == s.config.devices[i];
    match a
    case Put(_, move, _, mode) => PutPasses(s.config.devices[i], mode, q.approval);
    case _ =>
  }

  lemma PutPasses(d: S.Device, mode: Option<string>, approval: Option<Approval>)
    ensures ModeAccepted(d, mode, approval) <==> (mode.Some? ==> mode.value in {"dnat", "local"}) && Approved(d, mode, approval)
    ensures mode.Some? && mode.value in {"dnat", "local"} ==> (S.ModeOf(mode.value) != Some(d.EntryMode()) <==> Turns(d, mode))
  {
  }

  /** An edit of an entry that the store does not know fails and changes nothing; adding one needs only the store and the disk. */
  lemma OtherEdits(e: Env, s: Site, a: Action, q: Request)
    requires IsEdit(a)
    ensures !a.Add? && (forall d :: d in s.config.devices ==> d.entryId != a.id) ==>
              !EditOf(e, s, a, q).1 && EditOf(e, s, a, q).0.config == s.config
    ensures a.Add? ==> (EditOf(e, s, a, q).1 <==> Edit(s.config, a).Ok? && e.writable(s.saves))
  {
    var found := S.Find(s.config, a.id);
    assert found.Some? ==> s.config.devices[found.value] in s.config.devices;
  }

  function SyncOf(
    e: Env, s: Site, source: Option<S.Ip>, deviceId: string, name: Option<string>, platform: Option<Platform>): (Site, bool) {
    var linked := S.SaveOf(e.writable, s.config, s.saves, Ok(S.LinkedByIp(s.config, source, deviceId, name, platform)), false);
    var after := s.(config := linked.config, saves := linked.saves);
    if linked.error.Some? then (after, false)
    else
      var named := S.SaveOf(e.writable, after.config, after.saves, Ok(S.Renamed(after.config, deviceId, name)), false);
      (after.(config := named.config, saves := named.saves), named.error.None?)
  }

  lemma SyncIsStep(e: Env, s: Site, source: Option<S.Ip>, deviceId: string, name: Option<string>, platform: Option<Platform>)
    ensures Step(WorldOf(s), Sync(source, deviceId, name, platform), WorldOf(SyncOf(e, s, source, deviceId, name, platform).0))
  {
  }

  /** It succeeds exactly when its writes do, and then the link and after it the name are as they should be. */
  lemma SyncDoes(e: Env, s: Site, source: Option<S.Ip>, deviceId: string, name: Option<string>, platform: Option<Platform>)
    ensures var (s', ok) := SyncOf(e, s, source, deviceId, name, platform);
            && (ok <==> forall n :: s.saves <= n < s'.saves ==> e.writable(n))
            && (ok ==> s'.config == S.Renamed(S.LinkedByIp(s.config, source, deviceId, name, platform), deviceId, name))
            && s'.wire == s.wire && s'.released == s.released
  {
    var linked := S.LinkedByIp(s.config, source, deviceId, name, platform);
    SavedIff(e.writable, s.config, s.saves, linked);
    var first := S.SaveOf(e.writable, s.config, s.saves, Ok(linked), false);
    SavedIff(e.writable, first.config, first.saves, S.Renamed(first.config, deviceId, name));
  }

  lemma SavedIff(writable: nat -> bool, c: S.Config, saves: nat, done: S.Config)
    ensures var r := S.SaveOf(writable, c, saves, Ok(done), false);
            && saves <= r.saves <= saves + 1
            && (r.error.None? <==> forall n :: saves <= n < r.saves ==> writable(n)) && (r.error.None? ==> r.config == done)
  {
  }

  // ---------------------------------------------------------------- switching one entry

  predicate CanSwitchOn(c: S.Config, id: EntryId) {
    S.Configured(c) && S.Find(c, id).Some? && EntryOf(c, id).EntryMode().DnatMode?
  }

  function SwitchOnOf(e: Env, s: Site, id: EntryId, bridgeFails: bool): (Site, bool) {
    if !CanSwitchOn(s.config, id) then (s, false)
    else
      var out := EnableOf(e.faults, s.wire, Rules(EntryOf(s.config, id), s.config));
      var asked := s.(wire := out.wire);
      if out.result.Err? then (asked, false)
      else
        var stored := S.SaveOf(e.writable, s.config, s.saves, S.Desired(s.config, id, true), false);
        var kept := asked.(config := stored.config, saves := stored.saves);
        if stored.error.Some? then (kept, false)
        else (kept.(released := s.released - {id}), !(bridgeFails && HasLink(s.config, id)))
  }

  lemma SwitchOnIsStep(e: Env, s: Site, id: EntryId, bridgeFails: bool)
    ensures Step(WorldOf(s), Enable(id), WorldOf(SwitchOnOf(e, s, id, bridgeFails).0))
  {
    if CanSwitchOn(s.config, id) {
      EnableGrows(e.faults, s.wire, Rules(EntryOf(s.config, id), s.config));
      SwitchOnLeaves(e, s, id, bridgeFails);
    }
  }

  lemma SwitchOnLeaves(e: Env, s: Site, id: EntryId, bridgeFails: bool)
    requires CanSwitchOn(s.config, id)
    ensures var s' := SwitchOnOf(e, s, id, bridgeFails).0;
            && s'.wire == EnableOf(e.faults, s.wire, Rules(EntryOf(s.config, id), s.config)).wire
            && (|| (s'.config == s.config && s'.released == s.released)
                || (Ok(s'.config) == S.Desired(s.config, id, true) && s'.released == s.released - {id}))
  {
  }

  /** Intent and latch change together, and only once the router has answered that both rules are in place. */
  lemma SwitchOnTells(e: Env, s: Site, id: EntryId, bridgeFails: bool)
    requires S.StoreOk(s.config)
    ensures var (s', ok) := SwitchOnOf(e, s, id, bridgeFails);
            ok || s'.config != s.config || s'.released != s.released ==>
              && CanSwitchOn(s.config, id) && EnableOf(e.faults, s.wire, Rules(EntryOf(s.config, id), s.config)).result == Ok(On)
              && IsWanted(s', id) && OnAsTold(e, s, s', id)
  {
    var (s', ok) := SwitchOnOf(e, s, id, bridgeFails);
    if ok || s'.config != s.config || s'.released != s.released {
      SwitchedOn(e, s, id, bridgeFails);
      DesiredIs(s.config, id, true);
      EnableTells(e.faults, s.wire, Rules(EntryOf(s.config, id), s.config));
    }
  }

  lemma SwitchedOn(e: Env, s: Site, id: EntryId, bridgeFails: bool)
    requires var (s', ok) := SwitchOnOf(e, s, id, bridgeFails); ok || s'.config != s.config || s'.released != s.released
    ensures CanSwitchOn(s.config, id)
    ensures var s', out := SwitchOnOf(e, s, id, bridgeFails).0, EnableOf(e.faults, s.wire, Rules(EntryOf(s.config, id), s.config));
            out.result == Ok(On) && s'.wire == out.wire && Ok(s'.config) == S.Desired(s.config, id, true) && id !in s'.released
  {
  }

  lemma SwitchOnKeepsStoreOk(e: Env, s: Site, id: EntryId, bridgeFails: bool)
    requires S.StoreOk(s.config)
    ensures S.StoreOk(SwitchOnOf(e, s, id, bridgeFails).0.config)
  {
    S.DesiredKeeps(s.config, id, true);
  }

  predicate IsWanted(s: Site, id: EntryId) { S.Find(s.config, id).Some? && S.Wanted(EntryOf(s.config, id), s.released) }

  /** Both rules of the entry are in place, exactly when the last checks of the enable were not feigned. */
  predicate OnAsTold(e: Env, s: Site, s': Site, id: EntryId)
    requires S.Find(s.config, id).Some? && S.Find(s'.config, id).Some?
  {
    var rules := Rules(EntryOf(s.config, id), s.config);
    var checked := PlacedOf(e.faults, s.wire, rules).wire;
    StateOf(s'.wire.tables, Rules(EntryOf(s'.config, id), s'.config)) == On
    <==> !Feigned(e.faults, checked.sent, checked.tables, rules)
  }

  lemma DesiredIs(c: S.Config, id: EntryId, desired: bool)
    requires S.StoreOk(c) && S.Find(c, id).Some?
    ensures S.Desired(c, id, desired).Ok?
    ensures var c' := S.Desired(c, id, desired).value;
            && S.Find(c', id) == S.Find(c, id) && c'.router == c.router
            && EntryOf(c', id) == EntryOf(c, id).(dnatDesired := Some(desired))
  {
    S.DesiredKeeps(c, id, desired);
    var c' := S.Desired(c, id, desired).value;
    var i := S.Find(c, id).value;
    assert c'.devices[i].entryId == id;
  }

  function SwitchOffOf(e: Env, s: Site, id: EntryId, bridgeFails: bool): (Site, bool) {
    if !S.Configured(s.config) || S.Find(s.config, id).None? then (s, false)
    else
      var out := DisableOf(e.faults, s.wire, Rules(EntryOf(s.config, id), s.config));
      var asked := s.(wire := out.wire);
      if out.result.Err? then (asked, false)
      else
        var paused := asked.(released := s.released + {id});
        if bridgeFails && HasLink(s.config, id) then (paused, false)
        else
          var stored := S.SaveOf(e.writable, s.config, s.saves, S.Desired(s.config, id, false), false);
          (paused.(config := stored.config, saves := stored.saves), stored.error.None?)
  }

  lemma SwitchOffIsStep(e: Env, s: Site, id: EntryId, bridgeFails: bool)
    ensures Step(WorldOf(s), Disable(id), WorldOf(SwitchOffOf(e, s, id, bridgeFails).0))
  {
    if S.Configured(s.config) && S.Find(s.config, id).Some? {
      DisablePrunes(e.faults, s.wire, Rules(EntryOf(s.config, id), s.config));
    }
  }

  /** The router has answered a disable, or would have if nothing went wrong. */
  predicate Answered(e: Env, s: Site, id: EntryId) {
    && S.Configured(s.config) && S.Find(s.config, id).Some?
    && DisableOf(e.faults, s.wire, Rules(EntryOf(s.config, id), s.config)).result.Ok?
  }

  /** When no command fails, the router answers exactly when there were no more than ten copies of a rule in a chain. */
  lemma DisableAnswers(e: Env, s: Site, id: EntryId, bridgeFails: bool)
    requires S.Configured(s.config) && S.Find(s.config, id).Some?
    requires FineDuring(e.faults, s.wire.sent, SwitchOffOf(e, s, id, bridgeFails).0.wire.sent)
    ensures Answered(e, s, id) <==> FewCopies(s.wire.tables, Rules(EntryOf(s.config, id), s.config))
  {
    DisableFine(e.faults, s.wire, Rules(EntryOf(s.config, id), s.config));
  }

  /** No command of the disable failed, and ten deletions a chain were enough. */
  ghost predicate WentWell(e: Env, s: Site, id: EntryId, sent: nat) {
    && S.Configured(s.config) && S.Find(s.config, id).Some? && FineDuring(e.faults, s.wire.sent, sent)
    && FewCopies(s.wire.tables, Rules(EntryOf(s.config, id), s.config))
  }

  /** A disable that the router answered latches the entry, whatever the bridge and the disk do then; any other does nothing. */
  lemma DisableLatches(e: Env, s: Site, id: EntryId, bridgeFails: bool)
    ensures var (s', ok) := SwitchOffOf(e, s, id, bridgeFails);
            if Answered(e, s, id) then id in s'.released && Latched(WorldOf(s'), id)
            else s'.config == s.config && s'.released == s.released && !ok
  {
  }

  lemma DisableGoesWell(e: Env, s: Site, id: EntryId, bridgeFails: bool)
    ensures WentWell(e, s, id, SwitchOffOf(e, s, id, bridgeFails).0.wire.sent) ==> Answered(e, s, id)
  {
    if WentWell(e, s, id, SwitchOffOf(e, s, id, bridgeFails).0.wire.sent) {
      DisableAnswers(e, s, id, bridgeFails);
    }
  }

  lemma DisableKeepsStoreOk(e: Env, s: Site, id: EntryId, bridgeFails: bool)
    requires S.StoreOk(s.config)
    ensures S.StoreOk(SwitchOffOf(e, s, id, bridgeFails).0.config)
  {
    S.DesiredKeeps(s.config, id, false);
  }

  /** A successful disable is recorded, so that its latch outlives a restart. */
  lemma DisableRecords(e: Env, s: Site, id: EntryId, bridgeFails: bool)
    requires S.StoreOk(s.config)
    ensures SwitchOffOf(e, s, id, bridgeFails).1 ==> OffByIntent(SwitchOffOf(e, s, id, bridgeFails).0.config, id)
  {
    if SwitchOffOf(e, s, id, bridgeFails).1 {
      DesiredIs(s.config, id, false);
      DesiredOff(s.config, S.Desired(s.config, id, false).value, id);
    }
  }
}
