/** A whole cycle, and a change of settings. */
module RouterReconciler {
  // Both ask the router for the state of many entries at once (router/dnat-reconciler.ts, management/router-api.ts).

  import opened Common
  import opened NatTables
  import opened RouterWire
  import opened DnatRules
  import opened DnatExchanges
  import opened RouterControl
  import opened RouterLeftovers
  import opened RouterRequests
  import opened RouterCycles
  import S = RouterStore

  // ---------------------------------------------------------------- the state of many entries

  predicate DistinctIds(s: seq<S.Device>) {
    forall i, j :: 0 <= i < j < |s| ==> s[i].entryId != s[j].entryId
  }

  /** One entry after the other is asked about; a lost answer ends it. */
  function StatesOf(f: Faults, s: Wire, entries: seq<S.Device>, c: S.Config, found: States): (out: Outcome<States>)
    ensures out.wire.tables == s.tables && s.sent <= out.wire.sent
    decreases |entries|
  {
    if entries == [] then Outcome(s, Ok(found))
    else
      var status := StatusOf(f, s, Rules(entries[0], c));
      if status.result.Err? then Outcome(status.wire, Err(()))
      else StatesOf(f, status.wire, entries[1..], c, found[entries[0].entryId := status.result.value])
  }

  lemma StatesNext(f: Faults, s: Wire, entries: seq<S.Device>, i: nat, c: S.Config, found: States)
    requires i < |entries|
    ensures StatesOf(f, s, entries[i..], c, found)
            == var status := StatusOf(f, s, Rules(entries[i], c));
               if status.result.Err? then Outcome(status.wire, Err(()))
               else StatesOf(f, status.wire, entries[i + 1..], c, found[entries[i].entryId := status.result.value])
  {
    assert entries[i..][0] == entries[i] && entries[i..][1..] == entries[i + 1..];
  }

  /** The exchange at which entry `i` is first asked about, as long as those before it are off. */
  function FirstCheck(s: Wire, i: nat): nat { s.sent + 4 * i }

  ghost predicate FoundKept(entries: seq<S.Device>, found: States, states: States) {
    forall id :: id in found && (forall i :: 0 <= i < |entries| ==> entries[i].entryId != id) ==> id in states && states[id] == found[id]
  }

  lemma {:induction false} StatesKeepFound(f: Faults, s: Wire, entries: seq<S.Device>, c: S.Config, found: States)
    requires StatesOf(f, s, entries, c, found).result.Ok?
    ensures FoundKept(entries, found, StatesOf(f, s, entries, c, found).result.value)
    ensures forall i :: 0 <= i < |entries| ==> entries[i].entryId in StatesOf(f, s, entries, c, found).result.value
    decreases |entries|
  {
    if entries != [] {
      var status := StatusOf(f, s, Rules(entries[0], c));
      var next := found[entries[0].entryId := status.result.value];
      StatesKeepFound(f, status.wire, entries[1..], c, next);
      var states := StatesOf(f, s, entries, c, found).result.value;
      forall i | 0 <= i < |entries|
        ensures entries[i].entryId in states
      {
        if i > 0 {
          assert entries[1..][i - 1] == entries[i];
        } else if exists j :: 0 <= j < |entries[1..]| && entries[1..][j].entryId == entries[0].entryId {
        } else {
          assert entries[0].entryId in next;
        }
      }
      forall id | id in found && (forall i :: 0 <= i < |entries| ==> entries[i].entryId != id)
        ensures id in states && states[id] == found[id]
      {
        assert entries[0].entryId != id && id in next;
        assert forall j :: 0 <= j < |entries[1..]| ==> entries[1..][j] == entries[j + 1];
      }
    }
  }

  /** The state of the first entry is the one the router reported, and the others' are those of the rest of the list. */
  lemma StatesHead(f: Faults, s: Wire, entries: seq<S.Device>, c: S.Config, found: States)
    requires entries != [] && DistinctIds(entries) && StatesOf(f, s, entries, c, found).result.Ok?
    ensures var status := StatusOf(f, s, Rules(entries[0], c));
            var states := StatesOf(f, s, entries, c, found).result.value;
            && status.result.Ok? && entries[0].entryId in states && states[entries[0].entryId] == status.result.value
  {
    var status := StatusOf(f, s, Rules(entries[0], c));
    var next := found[entries[0].entryId := status.result.value];
    StatesKeepFound(f, status.wire, entries[1..], c, next);
    assert forall j :: 0 <= j < |entries[1..]| ==> entries[1..][j] == entries[j + 1];
    assert entries[0].entryId in next;
  }

  lemma DistinctTail(entries: seq<S.Device>)
    requires entries != [] && DistinctIds(entries)
    ensures DistinctIds(entries[1..])
  {
    assert forall j :: 0 <= j < |entries[1..]| ==> entries[1..][j] == entries[j + 1];
  }

  /** The wire on which entry `i` is asked about. */
  function WireFor(f: Faults, s: Wire, entries: seq<S.Device>, c: S.Config, i: nat): (r: Wire)
    requires i < |entries|
    ensures r.tables == s.tables
    decreases |entries|
  {
    if i == 0 then s else WireFor(f, StatusOf(f, s, Rules(entries[0], c)).wire, entries[1..], c, i - 1)
  }

  /**
   * What is reported on is on, exactly when none of its own checks was feigned; with no fault at all, every state is
   * right.
   */
  lemma {:induction false} StatesTell(f: Faults, s: Wire, entries: seq<S.Device>, c: S.Config, found: States, i: nat)
    requires DistinctIds(entries) && i < |entries| && StatesOf(f, s, entries, c, found).result.Ok?
    ensures var out, rules := StatesOf(f, s, entries, c, found), Rules(entries[i], c);
            && entries[i].entryId in out.result.value
            && (out.result.value[entries[i].entryId] == On ==>
                  (StateOf(s.tables, rules) == On <==> !Feigned(f, WireFor(f, s, entries, c, i).sent, s.tables, rules)))
            && (FineDuring(f, s.sent, out.wire.sent) ==> out.result.value[entries[i].entryId] == StateOf(s.tables, rules))
    decreases |entries|
  {
    var status := StatusOf(f, s, Rules(entries[0], c));
    StatesHead(f, s, entries, c, found);
    StatusTells(f, s, Rules(entries[0], c));
    if i > 0 {
      DistinctTail(entries);
      assert entries[1..][i - 1] == entries[i];
      StatesTell(f, status.wire, entries[1..], c, found[entries[0].entryId := status.result.value], i - 1);
    }
  }

  lemma {:induction false} StatesFine(f: Faults, s: Wire, entries: seq<S.Device>, c: S.Config, found: States)
    requires FineDuring(f, s.sent, StatesOf(f, s, entries, c, found).wire.sent)
    ensures StatesOf(f, s, entries, c, found).result.Ok?
    decreases |entries|
  {
    if entries != [] {
      var status := StatusOf(f, s, Rules(entries[0], c));
      StatusTells(f, s, Rules(entries[0], c));
      StatesFine(f, status.wire, entries[1..], c, found[entries[0].entryId := status.result.value]);
    }
  }

  predicate AllReportedOff(entries: seq<S.Device>, states: States) {
    forall i :: 0 <= i < |entries| ==> entries[i].entryId in states && states[entries[i].entryId] == Off
  }

  /** When all are reported off, each is so exactly when none of its four checks was refused for a rule that was there. */
  lemma {:induction false} OffAsTold(f: Faults, s: Wire, entries: seq<S.Device>, c: S.Config, found: States, i: nat)
    requires DistinctIds(entries) && i < |entries| && StatesOf(f, s, entries, c, found).result.Ok?
    requires AllReportedOff(entries, StatesOf(f, s, entries, c, found).result.value)
    ensures StateOf(s.tables, Rules(entries[i], c)) == Off <==> !Denied(f, FirstCheck(s, i), s.tables, Rules(entries[i], c))
    decreases |entries|
  {
    var status := StatusOf(f, s, Rules(entries[0], c));
    StatesHead(f, s, entries, c, found);
    StatusTells(f, s, Rules(entries[0], c));
    assert entries[0].entryId in StatesOf(f, s, entries, c, found).result.value;
    if i > 0 {
      DistinctTail(entries);
      assert forall j :: 0 <= j < |entries[1..]| ==> entries[1..][j] == entries[j + 1];
      OffAsTold(f, status.wire, entries[1..], c, found[entries[0].entryId := status.result.value], i - 1);
      assert FirstCheck(status.wire, i - 1) == FirstCheck(s, i);
    }
  }

  /** The states of some entries, over a connection of its own. */
  function StatusesOf(f: Faults, s: Wire, entries: seq<S.Device>, c: S.Config): (out: Outcome<States>)
    ensures out.wire.tables == s.tables && s.sent < out.wire.sent
  {
    var connected := s.(sent := s.sent + 1);
    if f(s.sent).Fine? then StatesOf(f, connected, entries, c, map[]) else Outcome(connected, Err(()))
  }

  // ---------------------------------------------------------------- adopting

  /** Every entry in DNAT mode that has not been released. */
  predicate Managed(d: S.Device, released: set<EntryId>) { d.EntryMode().DnatMode? && d.entryId !in released }

  function IsManaged(released: set<EntryId>): S.Device -> bool { d => Managed(d, released) }

  predicate ToAdopt(d: S.Device, released: set<EntryId>, states: States) {
    Managed(d, released) && d.dnatDesired.None? && Reported(d, states)
  }

  /** From entry `i` on, intents are recorded one save at a time; the first save that fails ends it. */
  function AdoptOf(
    writable: nat -> bool, c: S.Config, saves: nat, released: set<EntryId>, states: States, i: nat): (r: S.Stored)
    requires i <= |c.devices|
    ensures saves <= r.saves
    decreases |c.devices| - i
  {
    if i == |c.devices| then S.Stored(c, saves, None)
    else if ToAdopt(c.devices[i], released, states) then
      var done := S.SaveOf(writable, c, saves, Ok(S.Set(c, i, c.devices[i].(dnatDesired := Some(true)))), false);
      if done.error.Some? then done else AdoptOf(writable, done.config, done.saves, released, states, i + 1)
    else AdoptOf(writable, c, saves, released, states, i + 1)
  }

  ghost predicate WritesWork(writable: nat -> bool, from: nat, to: nat) { forall n :: from <= n < to ==> writable(n) }

  /** What adoption makes of one entry when it gets that far. */
  function Adoption(d: S.Device, released: set<EntryId>, states: States): S.Device {
    if ToAdopt(d, released, states) then d.(dnatDesired := Some(true)) else d
  }

  /** Exactly the entries that were to be adopted have become wanted, or a save failed and the later ones have not. */
  lemma {:induction false} AdoptTells(
    writable: nat -> bool, c: S.Config, saves: nat, released: set<EntryId>, states: States, i: nat, j: nat)
    requires i <= |c.devices| && j < |c.devices|
    ensures var r := AdoptOf(writable, c, saves, released, states, i);
            && r.config.router == c.router && |r.config.devices| == |c.devices|
            && r.config.devices[j] in {c.devices[j], Adoption(c.devices[j], released, states)}
            && (r.error.None? && j >= i ==> r.config.devices[j] == Adoption(c.devices[j], released, states))
            && (j < i ==> r.config.devices[j] == c.devices[j])
    decreases |c.devices| - i
  {
    if i < |c.devices| {
      var c' := S.Set(c, i, c.devices[i].(dnatDesired := Some(true)));
      AdoptTells(writable, c, saves, released, states, i + 1, j);
      AdoptTells(writable, c', saves + 1, released, states, i + 1, j);
      assert c'.devices[i] != c.devices[i] <== ToAdopt(c.devices[i], released, states);
    }
  }

  lemma {:induction false} AdoptFails(
    writable: nat -> bool, c: S.Config, saves: nat, released: set<EntryId>, states: States, i: nat)
    requires i <= |c.devices|
    ensures var r := AdoptOf(writable, c, saves, released, states, i); r.error.None? <==> WritesWork(writable, saves, r.saves)
    decreases |c.devices| - i
  {
    if i < |c.devices| {
      var c' := S.Set(c, i, c.devices[i].(dnatDesired := Some(true)));
      assert c'.devices[i] != c.devices[i] <== ToAdopt(c.devices[i], released, states);
      if ToAdopt(c.devices[i], released, states) {
        AdoptFails(writable, c', saves + 1, released, states, i + 1);
      } else {
        AdoptFails(writable, c, saves, released, states, i + 1);
      }
    }
  }

  lemma AdoptIsAdopts(writable: nat -> bool, c: S.Config, saves: nat, released: set<EntryId>, states: States)
    ensures Adopts(c, AdoptOf(writable, c, saves, released, states, 0).config, released)
  {
    var c' := AdoptOf(writable, c, saves, released, states, 0).config;
    if |c.devices| > 0 {
      forall j | 0 <= j < |c.devices|
        ensures c'.router == c.router && |c'.devices| == |c.devices| && Adopted(c.devices[j], c'.devices[j], released)
      {
        AdoptTells(writable, c, saves, released, states, 0, j);
      }
      assert Adopted(c.devices[0], c'.devices[0], released);
    }
  }

  // ---------------------------------------------------------------- one cycle

  function CycleOf(e: Env, s: Site): (Site, bool) {
    var c := s.config;
    var entries := Filter(IsManaged(s.released), c.devices);
    if !S.Configured(c) then (s, false)
    else if entries == [] then (s, true)
    else
      var status := StatusesOf(e.faults, s.wire, entries, c);
      if status.result.Err? then (s.(wire := status.wire), false)
      else
        var states := status.result.value;
        var adopted := AdoptOf(e.writable, c, s.saves, s.released, states, 0);
        var kept := s.(wire := status.wire, config := adopted.config, saves := adopted.saves);
        if adopted.error.Some? then (kept, false)
        else
          (kept.(wire := RestoreOf(e.faults, status.wire, adopted.config, s.released, states, |adopted.config.devices|)), true)
  }

  lemma NothingExtended(t: Tables, own: Rule -> bool)
    ensures Extended(t, t, own)
  {
  }

  /** Whatever fails, a cycle only records intents of unreleased entries and only adds rules of entries that are wanted on. */
  lemma CycleIsStep(e: Env, s: Site)
    ensures Step(WorldOf(s), Reconcile, WorldOf(CycleOf(e, s).0))
  {
    var s' := CycleOf(e, s).0;
    var entries := Filter(IsManaged(s.released), s.config.devices);
    if S.Configured(s.config) && entries != [] {
      var status := StatusesOf(e.faults, s.wire, entries, s.config);
      NothingExtended(s.wire.tables, OfWanted(s'.config, s.released));
      if status.result.Ok? {
        var states := status.result.value;
        AdoptIsAdopts(e.writable, s.config, s.saves, s.released, states);
        RestoreExtends(e.faults, status.wire, s'.config, s.released, states, 0, |s'.config.devices|);
      }
    }
  }

  lemma {:induction false} FilterDistinct(p: S.Device -> bool, s: seq<S.Device>)
    requires DistinctIds(s)
    ensures DistinctIds(Filter(p, s))
  {
    if s != [] {
      FilterDistinct(p, s[1..]);
      var rest := Filter(p, s[1..]);
      forall j | 0 <= j < |rest|
        ensures rest[j].entryId != s[0].entryId
      {
        assert rest[j] in rest;
        var k :| 0 <= k < |s[1..]| && s[1..][k] == rest[j];
        assert s[k + 1] == rest[j];
      }
      assert DistinctIds([s[0]] + rest);
      assert Filter(p, s) == if p(s[0]) then [s[0]] + rest else rest;
    }
  }

  /** The place of an entry among those that a cycle asks about. */
  function Place(entries: seq<S.Device>, id: EntryId): Option<nat> {
    S.IndexOf(entries, (d: S.Device) => d.entryId == id)
  }

  lemma ManagedPlace(c: S.Config, released: set<EntryId>, d: S.Device)
    requires S.StoreOk(c) && d in c.devices && Managed(d, released)
    ensures var entries := Filter(IsManaged(released), c.devices);
            && Place(entries, d.entryId).Some? && entries[Place(entries, d.entryId).value] == d
  {
    var entries := Filter(IsManaged(released), c.devices);
    assert IsManaged(released)(d);
    assert d in entries;
    var i :| 0 <= i < |entries| && entries[i] == d;
    FilterDistinct(IsManaged(released), c.devices);
  }

  /** A check of a managed entry was feigned in the status of a cycle. */
  predicate StatusFeigned(f: Faults, s: Wire, c: S.Config, released: set<EntryId>, d: S.Device) {
    var entries := Filter(IsManaged(released), c.devices);
    var place := Place(entries, d.entryId);
    place.Some? && Feigned(f, WireFor(f, Connected(s), entries, c, place.value).sent, s.tables, Rules(d, c))
  }

  /** What the status of a cycle reports of a managed entry. */
  lemma StatusesTell(f: Faults, s: Wire, c: S.Config, released: set<EntryId>, d: S.Device)
    requires S.StoreOk(c) && d in c.devices && Managed(d, released)
    requires StatusesOf(f, s, Filter(IsManaged(released), c.devices), c).result.Ok?
    ensures var out := StatusesOf(f, s, Filter(IsManaged(released), c.devices), c);
            && d.entryId in out.result.value
            && (Reported(d, out.result.value) ==>
                  (StateOf(s.tables, Rules(d, c)) == On <==> !StatusFeigned(f, s, c, released, d)))
            && (FineDuring(f, s.sent, out.wire.sent) ==> out.result.value[d.entryId] == StateOf(s.tables, Rules(d, c)))
  {
    var entries := Filter(IsManaged(released), c.devices);
    ManagedPlace(c, released, d);
    FilterDistinct(IsManaged(released), c.devices);
    StatesTell(f, Connected(s), entries, c, map[], Place(entries, d.entryId).value);
  }

  /** An entry that a cycle adopts had both its rules in place, exactly when none of its checks was feigned. */
  lemma AdoptedWasOn(e: Env, s: Site, i: nat)
    requires S.StoreOk(s.config) && i < |s.config.devices|
    ensures |CycleOf(e, s).0.config.devices| == |s.config.devices|
    ensures CycleOf(e, s).0.config.devices[i] != s.config.devices[i] ==>
              var d := s.config.devices[i];
              && Adoptable(d, s.released)
              && (StateOf(s.wire.tables, Rules(d, s.config)) == On
                  <==> !StatusFeigned(e.faults, s.wire, s.config, s.released, d))
  {
    var c, d := s.config, s.config.devices[i];
    var entries := Filter(IsManaged(s.released), c.devices);
    var status := StatusesOf(e.faults, s.wire, entries, c);
    if S.Configured(c) && entries != [] && status.result.Ok? {
      var states := status.result.value;
      AdoptTells(e.writable, c, s.saves, s.released, states, 0, i);
      if ToAdopt(d, s.released, states) {
        assert d in c.devices;
        StatusesTell(e.faults, s.wire, c, s.released, d);
      }
    }
  }

  /** The states a cycle goes by. */
  function AskedOf(e: Env, s: Site): Outcome<States> {
    StatusesOf(e.faults, s.wire, Filter(IsManaged(s.released), s.config.devices), s.config)
  }

  lemma SomeManaged(s: Site, i: nat)
    requires i < |s.config.devices| && Managed(s.config.devices[i], s.released)
    ensures Filter(IsManaged(s.released), s.config.devices) != []
  {
    var d := s.config.devices[i];
    assert IsManaged(s.released)(d) && d in s.config.devices;
    assert d in Filter(IsManaged(s.released), s.config.devices);
  }

  /** When no command and no save fails, the cycle goes through. */
  lemma CycleCompletes(e: Env, s: Site)
    requires S.Configured(s.config) && FineDuring(e.faults, s.wire.sent, CycleOf(e, s).0.wire.sent)
    requires WritesWork(e.writable, s.saves, CycleOf(e, s).0.saves)
    ensures CycleOf(e, s).1
    ensures Filter(IsManaged(s.released), s.config.devices) != [] ==>
              AskedOf(e, s).result.Ok? && FineDuring(e.faults, s.wire.sent, AskedOf(e, s).wire.sent)
  {
    if Filter(IsManaged(s.released), s.config.devices) != [] {
      StatusesFine(e.faults, s.wire, Filter(IsManaged(s.released), s.config.devices), s.config);
      AdoptFails(e.writable, s.config, s.saves, s.released, AskedOf(e, s).result.value, 0);
    }
  }

  lemma StatusesFine(f: Faults, s: Wire, entries: seq<S.Device>, c: S.Config)
    requires FineDuring(f, s.sent, StatusesOf(f, s, entries, c).wire.sent)
    ensures StatusesOf(f, s, entries, c).result.Ok?
  {
    assert f(s.sent).Fine?;
    StatesFine(f, s.(sent := s.sent + 1), entries, c, map[]);
  }

  /** What a completed cycle consists of. */
  lemma CompletedCycle(e: Env, s: Site, i: nat)
    requires CycleOf(e, s).1 && i < |s.config.devices| && Managed(s.config.devices[i], s.released)
    ensures var (s', _) := CycleOf(e, s);
            && S.Configured(s.config) && AskedOf(e, s).result.Ok? && s'.released == s.released
            && s'.wire == RestoreOf(e.faults, AskedOf(e, s).wire, s'.config, s.released, AskedOf(e, s).result.value, |s'.config.devices|)
            && |s'.config.devices| == |s.config.devices| && Rules(s'.config.devices[i], s'.config) == Rules(s.config.devices[i], s.config)
            && s'.config.devices[i] == Adoption(s.config.devices[i], s.released, AskedOf(e, s).result.value)
  {
    SomeManaged(s, i);
    AdoptTells(e.writable, s.config, s.saves, s.released, AskedOf(e, s).result.value, 0, i);
  }

  /**
   * In a cycle in which no command and no save fails, every wanted entry ends with both its rules, and every unreleased
   * entry without an intent that had both in place is wanted from now on.
   */
  lemma CycleFine(e: Env, s: Site, i: nat)
    requires S.StoreOk(s.config) && S.Configured(s.config) && i < |s.config.devices|
    requires FineDuring(e.faults, s.wire.sent, CycleOf(e, s).0.wire.sent)
    requires WritesWork(e.writable, s.saves, CycleOf(e, s).0.saves)
    requires Managed(s.config.devices[i], s.released)
    ensures var (s', completed) := CycleOf(e, s);
            && completed && |s'.config.devices| == |s.config.devices|
            && (S.Wanted(s'.config.devices[i], s'.released) ==> StateOf(s'.wire.tables, Rules(s'.config.devices[i], s'.config)) == On)
            && (Adoptable(s.config.devices[i], s.released) && StateOf(s.wire.tables, Rules(s.config.devices[i], s.config)) == On ==>
                  s'.config.devices[i].dnatDesired == Some(true))
  {
    var s', asked := CycleOf(e, s).0, AskedOf(e, s);
    CycleCompletes(e, s);
    CompletedCycle(e, s, i);
    SomeManaged(s, i);
    assert s.config.devices[i] in s.config.devices;
    StatusesTell(e.faults, s.wire, s.config, s.released, s.config.devices[i]);
    if S.Wanted(s'.config.devices[i], s.released) {
      RestoreFine(e.faults, asked.wire, s'.config, s.released, asked.result.value, i);
    }
  }

  /** The redirections of an appliance, by its platform, are in place. */
  predicate Redirected(t: Tables, ip: S.Ip, platform: Option<Platform>, server: S.Ip) {
    if platform == Some(Thinq1) then Has(t, Dnat(ip, 46030, server, 46030)) && Has(t, Dnat(ip, 47878, server, 47878))
    else Has(t, Dnat(ip, 443, server, 4433)) && Has(t, Dnat(ip, 8883, server, 8883))
  }

  /** Such a cycle puts back whatever a reboot has lost of an entry that is not in local mode, is wanted on and not released. */
  lemma CycleServes(e: Env, s: Site, i: nat)
    requires S.StoreOk(s.config) && S.Configured(s.config) && i < |s.config.devices|
    requires FineDuring(e.faults, s.wire.sent, CycleOf(e, s).0.wire.sent)
    requires WritesWork(e.writable, s.saves, CycleOf(e, s).0.saves)
    requires var d := s.config.devices[i];
             d.mode != Some(S.LocalMode) && d.dnatDesired == Some(true) && d.entryId !in s.released
    ensures var s', d := CycleOf(e, s).0, s.config.devices[i];
            |s'.config.devices| == |s.config.devices| && s'.config.devices[i] == d
            && Redirected(s'.wire.tables, d.ip, d.platform, s.config.router.rethinkIp)
  {
    CycleFine(e, s, i);
    CompletedCycle(e, s, i);
  }

  /** And it takes over what it finds: from now on an entry in place that nothing was said of is wanted. */
  lemma CycleAdopts(e: Env, s: Site, i: nat)
    requires S.StoreOk(s.config) && S.Configured(s.config) && i < |s.config.devices|
    requires FineDuring(e.faults, s.wire.sent, CycleOf(e, s).0.wire.sent)
    requires WritesWork(e.writable, s.saves, CycleOf(e, s).0.saves)
    requires var d := s.config.devices[i];
             && d.mode != Some(S.LocalMode) && d.dnatDesired.None? && d.entryId !in s.released
             && Redirected(s.wire.tables, d.ip, d.platform, s.config.router.rethinkIp)
    ensures var s' := CycleOf(e, s).0;
            |s'.config.devices| == |s.config.devices| && s'.config.devices[i] == s.config.devices[i].(dnatDesired := Some(true))
  {
    CycleFine(e, s, i);
    CompletedCycle(e, s, i);
  }

  /**
   * Whatever fails in a cycle that completes, and whatever becomes of the other entries: a wanted entry reported on stays
   * in the state it was in, which is on exactly when no check was feigned; any other is tried, ends in the state its own
   * attempt left and, if that succeeded, is on exactly when its last checks were not feigned.
   */
  lemma CycleTriesEach(e: Env, s: Site, i: nat)
    requires S.StoreOk(s.config) && CycleOf(e, s).1
    requires i < |s.config.devices| && Managed(s.config.devices[i], s.released)
    ensures AskedOf(e, s).result.Ok? && |CycleOf(e, s).0.config.devices| == |s.config.devices|
    ensures S.Wanted(CycleOf(e, s).0.config.devices[i], s.released) ==>
              var asked, d' := AskedOf(e, s), CycleOf(e, s).0.config.devices[i];
              if Reported(d', asked.result.value) then StaysAsReported(e, s, i) else EndsAsTried(e, s, i)
  {
    CompletedCycle(e, s, i);
    if S.Wanted(CycleOf(e, s).0.config.devices[i], s.released) {
      if Reported(CycleOf(e, s).0.config.devices[i], AskedOf(e, s).result.value) {
        ReportedStays(e, s, i);
      } else {
        UnreportedIsTried(e, s, i);
      }
    }
  }

  predicate StaysAsReported(e: Env, s: Site, i: nat)
    requires i < |s.config.devices| == |CycleOf(e, s).0.config.devices|
  {
    var s', d := CycleOf(e, s).0, s.config.devices[i];
    && StateOf(s'.wire.tables, Rules(s'.config.devices[i], s'.config)) == StateOf(s.wire.tables, Rules(d, s.config))
    && (StateOf(s.wire.tables, Rules(d, s.config)) == On <==> !StatusFeigned(e.faults, s.wire, s.config, s.released, d))
  }

  predicate EndsAsTried(e: Env, s: Site, i: nat)
    requires i < |s.config.devices| == |CycleOf(e, s).0.config.devices| && AskedOf(e, s).result.Ok?
  {
    var s', asked := CycleOf(e, s).0, AskedOf(e, s);
    var rules := Rules(s'.config.devices[i], s'.config);
    var attempt := AttemptFor(e.faults, asked.wire, s'.config, s.released, asked.result.value, i);
    && StateOf(s'.wire.tables, rules) == StateOf(attempt.wire.tables, rules)
    && (attempt.result.Ok? ==>
          (StateOf(s'.wire.tables, rules) == On
           <==> !AttemptFeigned(e.faults, asked.wire, s'.config, s.released, asked.result.value, i)))
  }

  lemma ReportedStays(e: Env, s: Site, i: nat)
    requires S.StoreOk(s.config) && CycleOf(e, s).1
    requires i < |s.config.devices| == |CycleOf(e, s).0.config.devices| && Managed(s.config.devices[i], s.released)
    requires AskedOf(e, s).result.Ok? && Reported(CycleOf(e, s).0.config.devices[i], AskedOf(e, s).result.value)
    ensures StaysAsReported(e, s, i)
  {
    var s', asked := CycleOf(e, s).0, AskedOf(e, s);
    CompletedCycle(e, s, i);
    CycleKeepsIps(e, s);
    assert s.config.devices[i] in s.config.devices;
    StatusesTell(e.faults, s.wire, s.config, s.released, s.config.devices[i]);
    OthersSpare(e.faults, asked.wire, s'.config, s.released, asked.result.value, i, 0, |s'.config.devices|);
  }

  lemma UnreportedIsTried(e: Env, s: Site, i: nat)
    requires S.StoreOk(s.config) && CycleOf(e, s).1
    requires i < |s.config.devices| == |CycleOf(e, s).0.config.devices| && Managed(s.config.devices[i], s.released)
    requires AskedOf(e, s).result.Ok? && ToRestore(CycleOf(e, s).0.config.devices[i], s.released, AskedOf(e, s).result.value)
    ensures EndsAsTried(e, s, i)
  {
    CompletedCycle(e, s, i);
    CycleKeepsIps(e, s);
    EachIsTried(e.faults, AskedOf(e, s).wire, CycleOf(e, s).0.config, s.released, AskedOf(e, s).result.value, i);
  }

  lemma CycleKeepsIps(e: Env, s: Site)
    requires S.StoreOk(s.config)
    ensures DistinctIps(CycleOf(e, s).0.config.devices)
  {
    var c' := CycleOf(e, s).0.config;
    if c' != s.config {
      var states := AskedOf(e, s).result.value;
      AdoptIsAdopts(e.writable, s.config, s.saves, s.released, states);
      forall i | 0 <= i < |c'.devices|
        ensures c'.devices[i].ip == s.config.devices[i].ip
      {
        assert Adopted(s.config.devices[i], c'.devices[i], s.released);
      }
    }
  }

  // ---------------------------------------------------------------- new settings

  /** Settings may only change when nothing is meant to be on and, without a host key, nothing is to be forwarded at all. */
  predicate Settles(c: S.Config) {
    && (forall i :: 0 <= i < |c.devices| ==> c.devices[i].dnatDesired != Some(true))
    && (S.HasConnectionSettings(c) && !S.Configured(c) ==> forall i :: 0 <= i < |c.devices| ==> c.devices[i].EntryMode().LocalMode?)
  }

  /** What a request for new settings asks of the router. */
  function QuietOf(f: Faults, s: Wire, c: S.Config): (out: Outcome<()>)
    ensures out.wire.tables == s.tables && s.sent <= out.wire.sent
  {
    if !S.Configured(c) then Outcome(s, Ok(()))
    else
      var status := StatusesOf(f, s, c.devices, c);
      Outcome(status.wire, if status.result.Ok? && AllReportedOff(c.devices, status.result.value) then Ok(()) else Err(()))
  }

  function ConfigureOf(e: Env, s: Site, input: S.Patch): (Site, bool) {
    var c := s.config;
    var recovered := S.Recovered(c, input);
    if recovered.Some? then
      var stored := S.SaveOf(e.writable, c, s.saves, Ok(recovered.value), true);
      (s.(config := stored.config, saves := stored.saves), stored.error.None?)
    else if !Settles(c) then (s, false)
    else
      var quiet := QuietOf(e.faults, s.wire, c);
      var asked := s.(wire := quiet.wire);
      if quiet.result.Err? then (asked, false)
      else
        var stored := S.SaveOf(e.writable, c, s.saves, S.RouterUpdated(c, S.Merged(c.router, input)), true);
        (asked.(config := stored.config, saves := stored.saves), stored.error.None?)
  }

  lemma ConfigureIsStep(e: Env, s: Site, input: S.Patch)
    ensures Step(WorldOf(s), Configure(input), WorldOf(ConfigureOf(e, s, input).0))
  {
    var c := s.config;
    var done := S.RouterUpdated(c, S.Merged(c.router, input));
    if S.Recovered(c, input).None? && Settles(c) && done.Ok? {
      SettlesIsReconfigured(c, input);
    }
  }

  lemma SettlesIsReconfigured(c: S.Config, input: S.Patch)
    requires S.Recovered(c, input).None? && Settles(c)
    ensures var done := S.RouterUpdated(c, S.Merged(c.router, input)); done.Ok? ==> Reconfigured(c, done.value, input)
  {
    forall d | d in c.devices
      ensures d.dnatDesired != Some(true)
    {
      var i :| 0 <= i < |c.devices| && c.devices[i] == d;
    }
  }

  /** The answers about entry `i`, when all are reported off, were right. */
  predicate ToldTruthOf(f: Faults, s: Wire, c: S.Config, i: nat)
    requires i < |c.devices|
  {
    !Denied(f, s.sent + 1 + 4 * i, s.tables, Rules(c.devices[i], c))
  }

  /** The settings change after every entry was off, exactly when no check was refused for a rule that was there. */
  lemma ConfigureTells(e: Env, s: Site, input: S.Patch)
    requires S.StoreOk(s.config) && ConfigureOf(e, s, input).0.config != s.config && S.Recovered(s.config, input).None?
    ensures Settles(s.config)
    ensures Ok(ConfigureOf(e, s, input).0.config) == S.RouterUpdated(s.config, S.Merged(s.config.router, input))
    ensures S.Configured(s.config) ==>
              forall i :: 0 <= i < |s.config.devices| ==>
                (StateOf(s.wire.tables, Rules(s.config.devices[i], s.config)) == Off <==> ToldTruthOf(e.faults, s.wire, s.config, i))
  {
    if S.Configured(s.config) {
      forall i | 0 <= i < |s.config.devices|
        ensures StateOf(s.wire.tables, Rules(s.config.devices[i], s.config)) == Off <==> ToldTruthOf(e.faults, s.wire, s.config, i)
      {
        QuietTells(e.faults, s.wire, s.config, i);
      }
    }
  }

  lemma QuietTells(f: Faults, s: Wire, c: S.Config, i: nat)
    requires S.StoreOk(c) && S.Configured(c) && i < |c.devices| && QuietOf(f, s, c).result.Ok?
    ensures StateOf(s.tables, Rules(c.devices[i], c)) == Off <==> ToldTruthOf(f, s, c, i)
  {
    OffAsTold(f, s.(sent := s.sent + 1), c.devices, c, map[], i);
  }

  lemma ConfigureWasOff(e: Env, s: Site, input: S.Patch)
    requires S.StoreOk(s.config)
    requires forall i :: 0 <= i < |s.config.devices| ==> ToldTruthOf(e.faults, s.wire, s.config, i)
    ensures WasOff(WorldOf(s), Configure(input), WorldOf(ConfigureOf(e, s, input).0))
  {
    if ConfigureOf(e, s, input).0.config != s.config && S.Recovered(s.config, input).None? {
      ConfigureTells(e, s, input);
    }
  }

  predicate AllOffNow(c: S.Config, t: Tables) {
    forall i :: 0 <= i < |c.devices| ==> StateOf(t, Rules(c.devices[i], c)) == Off
  }

  /** When nothing fails, exactly the settings that are permissible take effect, or a missing host key is filled in. */
  lemma ConfigureFine(e: Env, s: Site, input: S.Patch)
    requires S.StoreOk(s.config) && e.writable(s.saves)
    requires FineDuring(e.faults, s.wire.sent, ConfigureOf(e, s, input).0.wire.sent)
    ensures ConfigureOf(e, s, input).1 <==>
              || S.Recovered(s.config, input).Some?
              || (&& Settles(s.config) && S.RouterUpdated(s.config, S.Merged(s.config.router, input)).Ok?
                  && (S.Configured(s.config) ==> AllOffNow(s.config, s.wire.tables)))
  {
    if S.Recovered(s.config, input).None? && Settles(s.config) && S.Configured(s.config) {
      QuietFine(e.faults, s.wire, s.config);
    }
  }

  lemma QuietFine(f: Faults, s: Wire, c: S.Config)
    requires S.StoreOk(c) && S.Configured(c) && FineDuring(f, s.sent, QuietOf(f, s, c).wire.sent)
    ensures QuietOf(f, s, c).result.Ok? <==> AllOffNow(c, s.tables)
  {
    StatusesFine(f, s, c.devices, c);
    forall i | 0 <= i < |c.devices|
      ensures var states := StatusesOf(f, s, c.devices, c).result.value;
              c.devices[i].entryId in states && states[c.devices[i].entryId] == StateOf(s.tables, Rules(c.devices[i], c))
    {
      FineStatus(f, s, c, i);
    }
  }

  lemma FineStatus(f: Faults, s: Wire, c: S.Config, i: nat)
    requires S.StoreOk(c) && FineDuring(f, s.sent, StatusesOf(f, s, c.devices, c).wire.sent)
    requires StatusesOf(f, s, c.devices, c).result.Ok? && i < |c.devices|
    ensures var states := StatusesOf(f, s, c.devices, c).result.value;
            c.devices[i].entryId in states && states[c.devices[i].entryId] == StateOf(s.tables, Rules(c.devices[i], c))
  {
    assert f(s.sent).Fine?;
    StatesTell(f, s.(sent := s.sent + 1), c.devices, c, map[], i);
  }
}
