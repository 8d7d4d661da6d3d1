/** The handlers and the reconciler themselves, proved to be steps of RouterControl. */
module RouterHandlers {
  import opened Common
  import opened RouterWire
  import opened DnatRules
  import opened DnatExchanges
  import opened RouterControl
  import opened RouterRequests
  import opened RouterCycles
  import opened RouterReconciler
  import M = DnatManager
  import S = RouterStore

  class RouterApi {
    const store: S.RouterConfigStore
    const router: Router

    ghost function Around(): Env { Env(router.faults, store.writable) }

    ghost function Here(): Site reads store, router { Site(store.config, store.saves, store.released, router.Now()) }

    ghost function State(): World reads store, router { WorldOf(Here()) }

    ghost predicate Valid() reads store { store.Valid() && S.StoreOk(store.config) }

    constructor (store: S.RouterConfigStore, router: Router)
      ensures this.store == store && this.router == router
    {
      this.store, this.router := store, router;
    }

    /** The states of some entries, as the router reports them; none when a command went unanswered. */
    method Status(entries: seq<S.Device>, c: S.Config) returns (states: Option<States>)
      modifies router
      ensures Outcome(router.Now(), if states.Some? then Ok(states.value) else Err(()))
              == StatusesOf(router.faults, old(router.Now()), entries, c)
    {
      var connected := router.Connect();
      if !connected {
        return None;
      }
      ghost var f, start := router.faults, router.Now();
      var found: States := map[];
      assert entries[0..] == entries;
      for i := 0 to |entries|
        invariant StatesOf(f, router.Now(), entries[i..], c, found) == StatesOf(f, start, entries, c, map[])
      {
        StatesNext(f, router.Now(), entries, i, c, found);
        var state := Ask(entries[i], c);
        if state.Err? {
          return None;
        }
        found := found[entries[i].entryId := state.value];
      }
      states := Some(found);
    }

    method Ask(d: S.Device, c: S.Config) returns (state: Result<DnatState, ()>)
      modifies router
      ensures Outcome(router.Now(), state) == StatusOf(router.faults, old(router.Now()), Rules(d, c))
    {
      state := M.DeviceStatus(router, Rules(d, c));
    }

    /** Records the intent of entries whose rules were reported to be in place; stops at the first save that fails. */
    method Adopt(states: States) returns (error: Option<S.Error>)
      requires Valid()
      modifies store`config, store`persisted, store`saves
      ensures Valid()
      ensures S.Stored(store.config, store.saves, error)
              == AdoptOf(store.writable, old(store.config), old(store.saves), store.released, states, 0)
    {
      ghost var all := AdoptOf(store.writable, store.config, store.saves, store.released, states, 0);
      var entries := store.config.devices;
      for i := 0 to |entries|
        invariant Valid() && |store.config.devices| == |entries|
        invariant AdoptOf(store.writable, store.config, store.saves, store.released, states, i) == all
        invariant forall j :: i <= j < |entries| ==> store.config.devices[j] == entries[j]
      {
        var d := entries[i];
        if ToAdopt(d, store.released, states) {
          error := Want(i);
          if error.Some? {
            return;
          }
        }
      }
      error := None;
    }

    /** Records that entry `i` is wanted. */
    method Want(i: nat) returns (error: Option<S.Error>)
      requires Valid() && i < |store.config.devices|
      modifies store`config, store`persisted, store`saves
      ensures Valid()
      ensures S.Stored(store.config, store.saves, error)
              == S.SaveOf(store.writable, old(store.config), old(store.saves),
                          Ok(S.Set(old(store.config), i, old(store.config).devices[i].(dnatDesired := Some(true)))), false)
    {
      DesiredAt(store.config, i);
      error := store.SetDnatDesired(store.config.devices[i].entryId, true);
    }

    /** Puts back what wanted entries miss; a command that fails only spoils its own entry. */
    method Restore(states: States)
      requires Valid()
      modifies router
      ensures router.Now() == RestoreOf(router.faults, old(router.Now()), store.config, store.released, states, |store.config.devices|)
    {
      var c := store.config;
      ghost var f, start, released := router.faults, router.Now(), store.released;
      for i := 0 to |c.devices|
        invariant router.Now() == RestoreOf(f, start, c, released, states, i)
      {
        var d := c.devices[i];
        if S.Wanted(d, store.released) && !Reported(d, states) {
          var state := M.Enable(router, d.ip, d.platform, c.router.rethinkIp);
        }
      }
    }

    /** One cycle: adopt what is in place without a recorded intent, and restore what is wanted and missing. */
    method Reconcile() returns (completed: bool)
      requires Valid()
      modifies store`config, store`persisted, store`saves, router
      ensures Valid()
      ensures (Here(), completed) == CycleOf(Around(), old(Here()))
    {
      if !S.Configured(store.config) {
        return false;
      }
      var entries := Filter(IsManaged(store.released), store.config.devices);
      if |entries| == 0 {
        return true;
      }
      var states := Status(entries, store.config);
      if states.None? {
        return false;
      }
      var error := Adopt(states.value);
      if error.Some? {
        return false;
      }
      Restore(states.value);
      completed := true;
    }

    /** Latches every entry in DNAT mode before touching the router, then takes their rules away. */
    method Release(bridgeFails: set<EntryId>) returns (ok: bool)
      requires Valid()
      modifies store`released, router
      ensures Valid()
      ensures (Here(), ok) == ReleaseOf(Around(), old(Here()), bridgeFails)
      ensures S.Configured(store.config) ==> DnatIds(store.config) <= store.released
      ensures ok ==> var entries := Filter(IsDnat, store.config.devices);
                AllOff(router.tables, entries, store.config) <==> !AnyDenied(router.faults, old(router.Now()), entries, store.config)
    {
      if ReleaseOf(Around(), Here(), bridgeFails).1 {
        ReleaseTells(Around(), Here(), bridgeFails);
      }
      if !S.Configured(store.config) {
        return false;
      }
      var c := store.config;
      var entries := Filter(IsDnat, c.devices);
      Latch(entries);
      assert store.released == old(store.released) + DnatIds(c);
      ok := DisableAll(entries, c, bridgeFails);
    }

    method Latch(entries: seq<S.Device>)
      modifies store`released
      ensures store.released == old(store.released) + set d | d in entries :: d.entryId
    {
      for i := 0 to |entries|
        invariant store.released == old(store.released) + set d | d in entries[..i] :: d.entryId
      {
        store.released := store.released + {entries[i].entryId};
        assert entries[..i + 1] == entries[..i] + [entries[i]];
      }
      assert entries[..|entries|] == entries;
    }

    method DisableAll(entries: seq<S.Device>, c: S.Config, bridgeFails: set<EntryId>) returns (ok: bool)
      modifies router
      ensures Outcome(router.Now(), if ok then Ok(()) else Err(()))
              == DisableAllOf(router.faults, old(router.Now()), entries, c, bridgeFails)
    {
      ghost var f, start := router.faults, router.Now();
      assert entries[0..] == entries;
      for i := 0 to |entries|
        invariant DisableAllOf(f, router.Now(), entries[i..], c, bridgeFails) == DisableAllOf(f, start, entries, c, bridgeFails)
      {
        var d := entries[i];
        assert entries[i..][0] == d && entries[i..][1..] == entries[i + 1..];
        var state := M.Disable(router, d.ip, d.platform, c.router.rethinkIp);
        if state.Err? || (d.deviceId.Some? && d.deviceId.value != "" && d.entryId in bridgeFails) {
          return false;
        }
      }
      ok := true;
    }

    method EnableDnat(id: EntryId, bridgeFails: bool) returns (ok: bool)
      requires Valid()
      modifies store, router
      ensures Valid()
      ensures (Here(), ok) == SwitchOnOf(Around(), old(Here()), id, bridgeFails)
      ensures ok ==> S.Find(old(store.config), id).Some? && IsWanted(Here(), id)
      ensures ok ==> OnAsTold(Around(), old(Here()), Here(), id)
    {
      ghost var e, s := Around(), Here();
      if !S.Configured(store.config) {
        return false;
      }
      var found := S.Find(store.config, id);
      if found.None? || store.config.devices[found.value].EntryMode().LocalMode? {
        return false;
      }
      var d := store.config.devices[found.value];
      var state := M.Enable(router, d.ip, d.platform, store.config.router.rethinkIp);
      if state.Err? {
        return false;
      }
      SwitchOnKeepsStoreOk(e, s, id, bridgeFails);
      SwitchOnTells(e, s, id, bridgeFails);
      var error := store.SetDnatDesired(id, true);
      if error.Some? {
        return false;
      }
      store.released := store.released - {id};
      ok := !(bridgeFails && d.deviceId.Some? && d.deviceId.value != "");
    }

    method DisableDnat(id: EntryId, bridgeFails: bool) returns (ok: bool)
      requires Valid()
      modifies store, router
      ensures Valid()
      ensures (Here(), ok) == SwitchOffOf(Around(), old(Here()), id, bridgeFails)
      ensures Answered(Around(), old(Here()), id) ==> id in store.released && Latched(State(), id)
      ensures WentWell(Around(), old(Here()), id, router.sent) ==> id in store.released
      ensures ok ==> id in store.released && OffByIntent(store.config, id)
    {
      ghost var e, s := Around(), Here();
      DisableGoesWell(e, s, id, bridgeFails);
      if !S.Configured(store.config) {
        return false;
      }
      var found := S.Find(store.config, id);
      if found.None? {
        return false;
      }
      var d := store.config.devices[found.value];
      var state := M.Disable(router, d.ip, d.platform, store.config.router.rethinkIp);
      if state.Err? {
        return false;
      }
      DisableLatches(e, s, id, bridgeFails);
      DisableKeepsStoreOk(e, s, id, bridgeFails);
      DisableRecords(e, s, id, bridgeFails);
      store.released := store.released + {id};
      if bridgeFails && d.deviceId.Some? && d.deviceId.value != "" {
        return false;
      }
      var error := store.SetDnatDesired(id, false);
      ok := error.None?;
    }

    /** Nothing is meant to be forwarded for the entry and, as far as the router says, nothing is. */
    method RequireOff(id: EntryId) returns (ok: bool)
      modifies router
      ensures Outcome(router.Now(), if ok then Ok(()) else Err(()))
              == RequireOffOf(router.faults, old(router.Now()), store.config, id)
      ensures router.tables == old(router.tables)
      ensures ok ==> NotWantedOn(store.config, id)
                     && (MayChange(store.config, router.tables, id) <==> ToldTruth(router.faults, old(router.Now()), store.config, id))
      ensures FineDuring(router.faults, old(router.sent), router.sent) ==> (ok <==> MayChange(store.config, router.tables, id))
    {
      RequireOffTells(router.faults, router.Now(), store.config, id);
      RequireOffFine(router.faults, router.Now(), store.config, id);
      var found := S.Find(store.config, id);
      if found.None? {
        return false;
      }
      var d := store.config.devices[found.value];
      if d.dnatDesired == Some(true) {
        return false;
      }
      if !S.Configured(store.config) {
        return d.EntryMode().LocalMode?;
      }
      var state := StateFor(d);
      ok := state == Ok(Off);
    }

    method StateFor(d: S.Device) returns (state: Result<DnatState, ()>)
      modifies router
      ensures Outcome(router.Now(), state) == StateForOf(router.faults, old(router.Now()), Rules(d, store.config))
    {
      var connected := router.Connect();
      if !connected {
        return Err(());
      }
      state := Ask(d, store.config);
    }

    /** A mode is one of the two, and a change of mode needs an approval of just that change. */
    method Approves(d: S.Device, mode: Option<string>, approval: Option<Approval>) returns (ok: bool)
      ensures ok <==> ModeAccepted(d, mode, approval)
    {
      if mode.Some? && mode.value != "dnat" && mode.value != "local" {
        return false;
      }
      var changesMode := mode.Some? && S.ModeOf(mode.value) != Some(d.EntryMode());
      if changesMode {
        if || approval.None?
           || approval.value.source != d.EntryMode()
           || Some(approval.value.target) != S.ModeOf(mode.value)
           || !approval.value.acknowledged {
          return false;
        }
      }
      ok := true;
    }

    /** Everything that is checked before the store is asked to change an entry. */
    method PermitPut(
      id: EntryId, move: Option<S.Ip>, name: Option<string>, mode: Option<string>, q: Request) returns (ok: bool)
      modifies router
      ensures Outcome(router.Now(), if ok then Ok(()) else Err(()))
              == PermitOf(router.faults, old(router.Now()), store.config, RouterControl.Put(id, move, name, mode), q)
    {
      var found := S.Find(store.config, id);
      if found.None? {
        return false;
      }
      var d := store.config.devices[found.value];
      var approved := Approves(d, mode, q.approval);
      if !approved {
        return false;
      }
      var changesIdentity := move.Some? && S.Trim(move.value) != d.ip;
      var changesMode := mode.Some? && S.ModeOf(mode.value) != Some(d.EntryMode());
      if changesIdentity || changesMode {
        ok := RequireOff(id);
      } else {
        ok := true;
      }
    }

    method PutDevice(
      id: EntryId, move: Option<S.Ip>, name: Option<string>, mode: Option<string>, q: Request) returns (ok: bool)
      requires Valid()
      modifies store`config, store`persisted, store`saves, router
      ensures Valid()
      ensures (Here(), ok) == EditOf(Around(), old(Here()), RouterControl.Put(id, move, name, mode), q)
      ensures ok ==> Ok(store.config) == S.Updated(old(store.config), id, move, name, mode)
      ensures store.config != old(store.config) ==>
                S.Find(old(store.config), id).Some? && ModeAccepted(EntryOf(old(store.config), id), mode, q.approval)
      ensures WasOffAsTold(router.faults, old(router.Now()), old(store.config), store.config, RouterControl.Put(id, move, name, mode))
    {
      ghost var a := RouterControl.Put(id, move, name, mode);
      EditAnswers(Around(), Here(), a, q);
      EditTells(Around(), Here(), a, q);
      EditKeepsStoreOk(Around(), Here(), a, q);
      var permitted := PermitPut(id, move, name, mode, q);
      if !permitted {
        return false;
      }
      var d := store.config.devices[S.Find(store.config, id).value];
      var error := store.UpdateDevice(id, move, name, mode);
      ok := error.None? && !(q.bridgeFails && d.deviceId.Some? && d.deviceId.value != "");
    }

    method AddDevice(id: EntryId, ip: S.Ip, mode: Option<string>) returns (ok: bool)
      requires Valid() && S.Find(store.config, id).None?
      modifies store`config, store`persisted, store`saves
      ensures Valid()
      ensures (Here(), ok) == EditOf(Around(), old(Here()), RouterControl.Add(id, ip, mode), Request(None, true, false))
      ensures ok <==> S.Added(old(store.config), id, ip, mode).Ok? && store.writable(old(store.saves))
      ensures if ok then Ok(store.config) == S.Added(old(store.config), id, ip, mode) else store.config == old(store.config)
    {
      S.AddedKeeps(store.config, id, ip, mode);
      var error := store.AddDevice(id, ip, mode);
      ok := error.None?;
    }

    method DeleteDevice(id: EntryId, q: Request) returns (ok: bool)
      requires Valid()
      modifies store`config, store`persisted, store`saves, router
      ensures Valid()
      ensures (Here(), ok) == EditOf(Around(), old(Here()), RouterControl.Delete(id), q)
      ensures ok ==> Ok(store.config) == S.Deleted(old(store.config), id)
      ensures WasOffAsTold(router.faults, old(router.Now()), old(store.config), store.config, RouterControl.Delete(id))
    {
      ghost var e, s := Around(), Here();
      ghost var a := RouterControl.Delete(id);
      var off := RequireOff(id);
      if !off {
        return false;
      }
      var d := store.config.devices[S.Find(store.config, id).value];
      if d.deviceId.Some? && d.deviceId.value != "" && q.bridgeFails {
        return false;
      }
      EditAnswers(e, s, a, q);
      EditTells(e, s, a, q);
      EditKeepsStoreOk(e, s, a, q);
      var error := store.DeleteDevice(id);
      ok := error.None?;
    }

    method LinkDevice(
      id: EntryId, deviceId: string, name: Option<string>, platform: Option<Platform>, q: Request) returns (ok: bool)
      requires Valid()
      modifies store`config, store`persisted, store`saves, router
      ensures Valid()
      ensures (Here(), ok) == EditOf(Around(), old(Here()), RouterControl.Link(id, deviceId, name, platform), q)
      ensures ok ==> Ok(store.config) == S.Linked(old(store.config), id, deviceId, name, platform)
      ensures WasOffAsTold(router.faults, old(router.Now()), old(store.config), store.config, RouterControl.Link(id, deviceId, name, platform))
    {
      ghost var a := RouterControl.Link(id, deviceId, name, platform);
      EditAnswers(Around(), Here(), a, q);
      EditTells(Around(), Here(), a, q);
      EditKeepsStoreOk(Around(), Here(), a, q);
      var found := S.Find(store.config, id);
      if found.None? {
        return false;
      }
      var d := store.config.devices[found.value];
      if d.deviceId.Some? && d.deviceId.value != "" && d.deviceId.value != deviceId {
        var off := RequireOff(id);
        if !off {
          return false;
        }
      }
      if !q.connected {
        return false;
      }
      var error := store.LinkDevice(id, deviceId, name, platform);
      ok := error.None? && !q.bridgeFails;
    }

    method UnlinkDevice(id: EntryId, q: Request) returns (ok: bool)
      requires Valid()
      modifies store`config, store`persisted, store`saves, router
      ensures Valid()
      ensures (Here(), ok) == EditOf(Around(), old(Here()), RouterControl.Unlink(id), q)
      ensures ok ==> Ok(store.config) == S.Unlinked(old(store.config), id)
      ensures WasOffAsTold(router.faults, old(router.Now()), old(store.config), store.config, RouterControl.Unlink(id))
    {
      ghost var e, s := Around(), Here();
      ghost var a := RouterControl.Unlink(id);
      var off := RequireOff(id);
      if !off {
        return false;
      }
      var d := store.config.devices[S.Find(store.config, id).value];
      if d.deviceId.Some? && d.deviceId.value != "" && q.bridgeFails {
        return false;
      }
      EditAnswers(e, s, a, q);
      EditTells(e, s, a, q);
      EditKeepsStoreOk(e, s, a, q);
      var error := store.UnlinkDevice(id);
      ok := error.None?;
    }

    /** A device has connected from an address: it is linked by that address, and then its name is refreshed. */
    method SyncDevice(source: Option<S.Ip>, deviceId: string, name: Option<string>, platform: Option<Platform>)
      returns (ok: bool)
      requires Valid()
      modifies store`config, store`persisted, store`saves
      ensures Valid()
      ensures (Here(), ok) == SyncOf(Around(), old(Here()), source, deviceId, name, platform)
      ensures ok ==> store.config == S.Renamed(S.LinkedByIp(old(store.config), source, deviceId, name, platform), deviceId, name)
      ensures WritesWork(store.writable, old(store.saves), store.saves) ==> ok
    {
      S.LinkedByIpKeeps(store.config, source, deviceId, name, platform);
      ghost var first := store.saves;
      var changed, error := store.LinkByIp(source, deviceId, name, platform);
      if error.Some? {
        assert !store.writable(first);
        return false;
      }
      S.RenamedKeeps(store.config, deviceId, name);
      ghost var second := store.saves;
      changed, error := store.RefreshDetectedName(deviceId, name);
      ok := error.None?;
      assert !ok ==> !store.writable(second);
    }

    /** New settings for the router, which need every entry to be off. */
    method UpdateSettings(input: S.Patch) returns (ok: bool)
      requires Valid()
      modifies store`config, store`persisted, store`saves, router
      ensures Valid()
      ensures (Here(), ok) == ConfigureOf(Around(), old(Here()), input)
    {
      S.RouterUpdatedKeeps(store.config, S.Merged(store.config.router, input));
      var recovered, error := store.RecoverHostKeyFingerprint(input);
      if recovered || error.Some? {
        return recovered;
      }
      var quiet := Quiet();
      if !quiet {
        return false;
      }
      error := store.UpdateRouter(input);
      ok := error.None?;
    }

    /** No entry is meant to be on, and none is, as far as there is a router to ask. */
    method Quiet() returns (ok: bool)
      modifies router
      ensures if Settles(store.config)
              then Outcome(router.Now(), if ok then Ok(()) else Err(())) == QuietOf(router.faults, old(router.Now()), store.config)
              else !ok && router.Now() == old(router.Now())
    {
      var all := store.config.devices;
      if exists i :: 0 <= i < |all| && all[i].dnatDesired == Some(true) {
        return false;
      }
      if S.HasConnectionSettings(store.config) && !S.Configured(store.config)
         && exists i :: 0 <= i < |all| && all[i].EntryMode().DnatMode? {
        return false;
      }
      if S.Configured(store.config) {
        var states := Status(all, store.config);
        return states.Some? && AllReportedOff(all, states.value);
      }
      ok := true;
    }
  }

  lemma DesiredAt(c: S.Config, i: nat)
    requires S.StoreOk(c) && i < |c.devices|
    ensures var done := S.Set(c, i, c.devices[i].(dnatDesired := Some(true)));
            S.Desired(c, c.devices[i].entryId, true) == Ok(done) && S.StoreOk(done)
  {
    assert S.Find(c, c.devices[i].entryId) == Some(i);
    S.DesiredKeeps(c, c.devices[i].entryId, true);
  }
}
