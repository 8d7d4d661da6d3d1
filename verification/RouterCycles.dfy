/** Going over all entries: restoring and releasing. */
module RouterCycles {
  // The loops of router/dnat-reconciler.ts and of the release in management/router-api.ts.

  import opened Common
  import opened NatTables
  import opened RouterWire
  import opened DnatRules
  import opened DnatExchanges
  import opened RouterControl
  import opened RouterRequests
  import S = RouterStore

  /** What a status reported of each entry. */
  type States = map<EntryId, DnatState>

  /** The entry's rules were all reported to be in place. */
  predicate Reported(d: S.Device, states: States) { d.entryId in states && states[d.entryId] == On }

  // ---------------------------------------------------------------- restoring

  predicate ToRestore(d: S.Device, released: set<EntryId>, states: States) {
    S.Wanted(d, released) && !Reported(d, states)
  }

  /** What restoring does for the first `n` entries: each one that misses rules is tried, however the others fared. */
  function RestoreOf(f: Faults, s: Wire, c: S.Config, released: set<EntryId>, states: States, n: nat): (r: Wire)
    requires n <= |c.devices|
    ensures s.sent <= r.sent
    decreases n
  {
    if n == 0 then s
    else
      var before := RestoreOf(f, s, c, released, states, n - 1);
      if ToRestore(c.devices[n - 1], released, states) then EnableOf(f, before, Rules(c.devices[n - 1], c)).wire else before
  }

  lemma StaysOn(t: Tables, t': Tables, own: Rule -> bool, rules: seq<Rule>)
    requires Extended(t, t', own) && |rules| == 2 && StateOf(t, rules) == On
    ensures StateOf(t', rules) == On
  {
    ExtendedHas(t, t', own, rules[0]);
    ExtendedHas(t, t', own, rules[1]);
  }

  lemma OneRestored(f: Faults, s: Wire, c: S.Config, released: set<EntryId>, states: States, n: nat)
    requires n < |c.devices|
    ensures var own := OfWanted(c, released);
            Extended(RestoreOf(f, s, c, released, states, n).tables, RestoreOf(f, s, c, released, states, n + 1).tables, own)
  {
    var d := c.devices[n];
    var before := RestoreOf(f, s, c, released, states, n);
    if ToRestore(d, released, states) {
      EnableGrows(f, before, Rules(d, c));
      assert d in c.devices;
      GrownIsExtended(before.tables, EnableOf(f, before, Rules(d, c)).wire.tables, Rules(d, c), 2, OfWanted(c, released));
    }
  }

  /** Restoring only adds rules of wanted entries. */
  lemma {:induction false} RestoreExtends(
    f: Faults, s: Wire, c: S.Config, released: set<EntryId>, states: States, m: nat, n: nat)
    requires m <= n <= |c.devices|
    ensures var own := OfWanted(c, released);
            Extended(RestoreOf(f, s, c, released, states, m).tables, RestoreOf(f, s, c, released, states, n).tables, own)
    decreases n
  {
    if m < n {
      RestoreExtends(f, s, c, released, states, m, n - 1);
      OneRestored(f, s, c, released, states, n - 1);
      ExtendedTwice(RestoreOf(f, s, c, released, states, m).tables, RestoreOf(f, s, c, released, states, n - 1).tables,
                    RestoreOf(f, s, c, released, states, n).tables, OfWanted(c, released));
    }
  }

  /** What is on at some point of the restoring is on in the end. */
  lemma RestoreKeepsOn(f: Faults, s: Wire, c: S.Config, released: set<EntryId>, states: States, m: nat, rules: seq<Rule>)
    requires m <= |c.devices| && |rules| == 2 && StateOf(RestoreOf(f, s, c, released, states, m).tables, rules) == On
    ensures StateOf(RestoreOf(f, s, c, released, states, |c.devices|).tables, rules) == On
  {
    RestoreExtends(f, s, c, released, states, m, |c.devices|);
    StaysOn(RestoreOf(f, s, c, released, states, m).tables, RestoreOf(f, s, c, released, states, |c.devices|).tables,
            OfWanted(c, released), rules);
  }

  /** The attempt made for entry `i`, on what the attempts before it left behind. */
  function AttemptFor(f: Faults, s: Wire, c: S.Config, released: set<EntryId>, states: States, i: nat)
    : Outcome<DnatState>
    requires i < |c.devices|
  {
    EnableOf(f, RestoreOf(f, s, c, released, states, i), Rules(c.devices[i], c))
  }

  /** The last checks of the attempt for entry `i` were feigned. */
  predicate AttemptFeigned(f: Faults, s: Wire, c: S.Config, released: set<EntryId>, states: States, i: nat)
    requires i < |c.devices|
  {
    var checked := PlacedOf(f, RestoreOf(f, s, c, released, states, i), Rules(c.devices[i], c)).wire;
    Feigned(f, checked.sent, checked.tables, Rules(c.devices[i], c))
  }

  lemma AttemptIsNext(f: Faults, s: Wire, c: S.Config, released: set<EntryId>, states: States, i: nat)
    requires i < |c.devices| && ToRestore(c.devices[i], released, states)
    ensures RestoreOf(f, s, c, released, states, i + 1) == AttemptFor(f, s, c, released, states, i).wire
  {
  }

  lemma GrownSpares(t: Tables, t': Tables, rules: seq<Rule>, n: nat, other: seq<Rule>)
    requires Grown(t, t', rules, n) && |other| == 2 && other[0].Dnat? && other[1].Dnat?
    requires other[0] !in rules && other[1] !in rules
    ensures StateOf(t', other) == StateOf(t, other)
  {
    GrownSparesRule(t, t', rules, n, other[0]);
    GrownSparesRule(t, t', rules, n, other[1]);
  }

  lemma GrownSparesRule(t: Tables, t': Tables, rules: seq<Rule>, n: nat, r: Rule)
    requires Grown(t, t', rules, n) && r.Dnat? && r !in rules
    ensures Has(t', r) <==> Has(t, r)
  {
    var chain, chain' := RulesAt(t, Chain), RulesAt(t', Chain);
    if r in chain' {
      var i :| 0 <= i < |chain'| && chain'[i] == r;
      assert i < |chain| && chain[i] == chain'[i];
    }
  }

  /** The attempts for other entries make no difference to the state of an entry. */
  lemma {:induction false} OthersSpare(
    f: Faults, s: Wire, c: S.Config, released: set<EntryId>, states: States, i: nat, m: nat, n: nat)
    requires DistinctIps(c.devices) && i < |c.devices| && m <= n <= |c.devices|
    requires n <= i || i < m || !ToRestore(c.devices[i], released, states)
    ensures StateOf(RestoreOf(f, s, c, released, states, n).tables, Rules(c.devices[i], c))
            == StateOf(RestoreOf(f, s, c, released, states, m).tables, Rules(c.devices[i], c))
    decreases n
  {
    if m < n {
      OthersSpare(f, s, c, released, states, i, m, n - 1);
      var before, d := RestoreOf(f, s, c, released, states, n - 1), c.devices[n - 1];
      if ToRestore(d, released, states) {
        EnableGrows(f, before, Rules(d, c));
        GrownSpares(before.tables, EnableOf(f, before, Rules(d, c)).wire.tables, Rules(d, c), 2, Rules(c.devices[i], c));
      }
    }
  }

  /**
   * Whatever becomes of the other attempts, the state in the end is the one that the entry's own attempt left; and when
   * that succeeded, it is on exactly when its last checks were not feigned.
   */
  lemma EachIsTried(f: Faults, s: Wire, c: S.Config, released: set<EntryId>, states: States, i: nat)
    requires DistinctIps(c.devices) && i < |c.devices| && ToRestore(c.devices[i], released, states)
    ensures var end, attempt := RestoreOf(f, s, c, released, states, |c.devices|), AttemptFor(f, s, c, released, states, i);
            && StateOf(end.tables, Rules(c.devices[i], c)) == StateOf(attempt.wire.tables, Rules(c.devices[i], c))
            && (attempt.result.Ok? ==>
                  (StateOf(end.tables, Rules(c.devices[i], c)) == On <==> !AttemptFeigned(f, s, c, released, states, i)))
  {
    AttemptIsNext(f, s, c, released, states, i);
    OthersSpare(f, s, c, released, states, i, i + 1, |c.devices|);
    if AttemptFor(f, s, c, released, states, i).result.Ok? {
      EnableTells(f, RestoreOf(f, s, c, released, states, i), Rules(c.devices[i], c));
    }
  }

  lemma {:induction false} SentGrows(f: Faults, s: Wire, c: S.Config, released: set<EntryId>, states: States, m: nat, n: nat)
    requires m <= n <= |c.devices|
    ensures RestoreOf(f, s, c, released, states, m).sent <= RestoreOf(f, s, c, released, states, n).sent
    decreases n
  {
    if m < n {
      SentGrows(f, s, c, released, states, m, n - 1);
    }
  }

  lemma FineAttempt(f: Faults, s: Wire, c: S.Config, released: set<EntryId>, states: States, i: nat)
    requires i < |c.devices| && ToRestore(c.devices[i], released, states)
    requires FineDuring(f, s.sent, RestoreOf(f, s, c, released, states, |c.devices|).sent)
    ensures StateOf(RestoreOf(f, s, c, released, states, i + 1).tables, Rules(c.devices[i], c)) == On
  {
    AttemptIsNext(f, s, c, released, states, i);
    SentGrows(f, s, c, released, states, i + 1, |c.devices|);
    var before := RestoreOf(f, s, c, released, states, i);
    EnableFine(f, before, Rules(c.devices[i], c));
    EnabledIsOn(before.tables, Rules(c.devices[i], c));
  }

  /** When no command fails, every wanted entry is on in the end. */
  lemma RestoreFine(f: Faults, s: Wire, c: S.Config, released: set<EntryId>, states: States, i: nat)
    requires i < |c.devices| && S.Wanted(c.devices[i], released)
    requires FineDuring(f, s.sent, RestoreOf(f, s, c, released, states, |c.devices|).sent)
    requires Reported(c.devices[i], states) ==> StateOf(s.tables, Rules(c.devices[i], c)) == On
    ensures StateOf(RestoreOf(f, s, c, released, states, |c.devices|).tables, Rules(c.devices[i], c)) == On
  {
    if Reported(c.devices[i], states) {
      RestoreKeepsOn(f, s, c, released, states, 0, Rules(c.devices[i], c));
    } else {
      FineAttempt(f, s, c, released, states, i);
      RestoreKeepsOn(f, s, c, released, states, i + 1, Rules(c.devices[i], c));
    }
  }

  /**
   * A release that is not backed by a recorded intent ends with the next restart: the first cycle after it in which
   * no command fails puts the rules of a wanted entry back.
   */
  lemma RestartPutsBack(f: Faults, s: Wire, c: S.Config, released: set<EntryId>, states: States, i: nat)
    requires S.Configured(c) && i < |c.devices| && c.devices[i].EntryMode().DnatMode?
    requires c.devices[i].dnatDesired == Some(true)
    requires c.devices[i].entryId in released
    requires FineDuring(f, s.sent, RestoreOf(f, s, c, {}, states, |c.devices|).sent)
    requires Reported(c.devices[i], states) ==> StateOf(s.tables, Rules(c.devices[i], c)) == On
    ensures var w0, w1 := World(c, released, s.tables), World(c, {}, s.tables);
            var w2 := w1.(tables := RestoreOf(f, s, c, {}, states, |c.devices|).tables);
            && Behaviour([w0, w1, w2], [Restart, Reconcile]) && Latched(w0, c.devices[i].entryId)
            && StateOf(w2.tables, Rules(c.devices[i], c)) == On
  {
    var w0, w1 := World(c, released, s.tables), World(c, {}, s.tables);
    var w2 := w1.(tables := RestoreOf(f, s, c, {}, states, |c.devices|).tables);
    RestoreFine(f, s, c, {}, states, i);
    RestoreExtends(f, s, c, {}, states, 0, |c.devices|);
    assert Step(w1, Reconcile, w2);
    assert Step(w0, Restart, w1);
  }

  // ---------------------------------------------------------------- releasing

  predicate IsDnat(d: S.Device) { d.EntryMode().DnatMode? }

  /** One entry after the other is disabled; the first that fails, or whose bridge fails, ends it. */
  function DisableAllOf(f: Faults, s: Wire, entries: seq<S.Device>, c: S.Config, broken: set<EntryId>): (out: Outcome<()>)
    ensures s.sent <= out.wire.sent
    decreases |entries|
  {
    if entries == [] then Outcome(s, Ok(()))
    else
      var d := entries[0];
      var off := DisableOf(f, s, Rules(d, c));
      if off.result.Err? || (d.deviceId.Some? && d.deviceId.value != "" && d.entryId in broken) then Outcome(off.wire, Err(()))
      else DisableAllOf(f, off.wire, entries[1..], c, broken)
  }

  function ReleaseOf(e: Env, s: Site, broken: set<EntryId>): (Site, bool) {
    if !S.Configured(s.config) then (s, false)
    else
      var out := DisableAllOf(e.faults, s.wire, Filter(IsDnat, s.config.devices), s.config, broken);
      (s.(released := s.released + DnatIds(s.config), wire := out.wire), out.result.Ok?)
  }

  lemma {:induction false} DisableAllReduces(f: Faults, s: Wire, entries: seq<S.Device>, c: S.Config, broken: set<EntryId>)
    requires forall d :: d in entries ==> d in c.devices && IsDnat(d)
    ensures Reduced(s.tables, DisableAllOf(f, s, entries, c, broken).wire.tables, OfDnat(c))
    decreases |entries|
  {
    if entries != [] {
      var off := DisableOf(f, s, Rules(entries[0], c)).wire;
      assert entries[0] in entries;
      DisablePrunes(f, s, Rules(entries[0], c));
      PrunedIsReduced(s.tables, off.tables, Rules(entries[0], c), OfDnat(c));
      DisableAllReduces(f, off, entries[1..], c, broken);
      ReducedTwice(s.tables, off.tables, DisableAllOf(f, off, entries[1..], c, broken).wire.tables, OfDnat(c));
    }
  }

  lemma ReleaseIsStep(e: Env, s: Site, broken: set<EntryId>)
    ensures Step(WorldOf(s), Release, WorldOf(ReleaseOf(e, s, broken).0))
  {
    DisableAllReduces(e.faults, s.wire, Filter(IsDnat, s.config.devices), s.config, broken);
  }

  /** A release latches every entry in DNAT mode, however many of the commands then fail. */
  lemma ReleaseLatches(e: Env, s: Site, broken: set<EntryId>, d: S.Device)
    requires S.Configured(s.config) && d in s.config.devices && IsDnat(d)
    ensures Latched(WorldOf(ReleaseOf(e, s, broken).0), d.entryId)
  {
    assert d.entryId in DnatIds(s.config);
  }

  /** Some entry's last checks were refused for a rule that was still there. */
  predicate AnyDenied(f: Faults, s: Wire, entries: seq<S.Device>, c: S.Config)
    decreases |entries|
  {
    entries != [] &&
    var rules := Rules(entries[0], c);
    var cleaned := CleanedOf(f, s, rules).wire;
    Denied(f, cleaned.sent, cleaned.tables, rules) || AnyDenied(f, DisableOf(f, s, rules).wire, entries[1..], c)
  }

  predicate AllOff(t: Tables, entries: seq<S.Device>, c: S.Config) {
    forall i :: 0 <= i < |entries| ==> StateOf(t, Rules(entries[i], c)) == Off
  }

  predicate DistinctIps(s: seq<S.Device>) {
    forall i, j :: 0 <= i < j < |s| ==> s[i].ip != s[j].ip
  }

  lemma {:induction false} FilteredCount(keep: Rule -> bool, rules: seq<Rule>, r: Rule)
    requires keep(r)
    ensures Count(Filter(keep, rules), r) == Count(rules, r)
  {
    if rules != [] {
      FilteredCount(keep, rules[1..], r);
      var rest := Filter(keep, rules[1..]);
      if keep(rules[0]) {
        assert Filter(keep, rules)[1..] == rest;
      } else {
        assert Filter(keep, rules) == rest;
      }
    }
  }

  /** Rules outside `rules` are neither fewer nor more after pruning. */
  lemma PrunedSpares(t: Tables, t': Tables, rules: seq<Rule>, other: seq<Rule>)
    requires Pruned(t, t', rules) && |other| == 2 && other[0] !in rules && other[1] !in rules
    ensures StateOf(t', other) == StateOf(t, other) && (FewCopies(t', other) <==> FewCopies(t, other))
  {
    SparedCount(t, t', rules, other[0]);
    SparedCount(t, t', rules, other[1]);
    GoneIff(t, other[0]);
    GoneIff(t, other[1]);
    GoneIff(t', other[0]);
    GoneIff(t', other[1]);
  }

  lemma SparedCount(t: Tables, t': Tables, rules: seq<Rule>, r: Rule)
    requires Pruned(t, t', rules) && r !in rules
    ensures forall at :: CopiesAt(t', at, r) == CopiesAt(t, at, r)
  {
    forall at
      ensures CopiesAt(t', at, r) == CopiesAt(t, at, r)
    {
      FilteredCount(NotOf(rules), RulesAt(t, at), r);
      FilteredCount(NotOf(rules), RulesAt(t', at), r);
      assert Filter(NotOf(rules), RulesAt(t', at)) == Filter(NotOf(rules), RulesAt(t, at));
    }
  }

  lemma {:induction false} DisableAllSpares(
    f: Faults, s: Wire, entries: seq<S.Device>, c: S.Config, broken: set<EntryId>, d: S.Device)
    requires forall i :: 0 <= i < |entries| ==> entries[i].ip != d.ip
    ensures StateOf(DisableAllOf(f, s, entries, c, broken).wire.tables, Rules(d, c)) == StateOf(s.tables, Rules(d, c))
    decreases |entries|
  {
    if entries != [] {
      var rules := Rules(entries[0], c);
      DisablePrunes(f, s, rules);
      PrunedSpares(s.tables, DisableOf(f, s, rules).wire.tables, rules, Rules(d, c));
      DisableAllSpares(f, DisableOf(f, s, rules).wire, entries[1..], c, broken, d);
    }
  }

  lemma {:induction false} DisableAllTells(f: Faults, s: Wire, entries: seq<S.Device>, c: S.Config, broken: set<EntryId>)
    requires DistinctIps(entries) && DisableAllOf(f, s, entries, c, broken).result.Ok?
    ensures AllOff(DisableAllOf(f, s, entries, c, broken).wire.tables, entries, c) <==> !AnyDenied(f, s, entries, c)
    decreases |entries|
  {
    if entries != [] {
      var rules, rest := Rules(entries[0], c), entries[1..];
      var off := DisableOf(f, s, rules).wire;
      var end := DisableAllOf(f, off, rest, c, broken).wire.tables;
      DisableTells(f, s, rules);
      DisableAllSpares(f, off, rest, c, broken, entries[0]);
      DisableAllTells(f, off, rest, c, broken);
      assert AllOff(end, entries, c) <==> StateOf(end, rules) == Off && AllOff(end, rest, c) by {
        assert forall i :: 0 <= i < |rest| ==> rest[i] == entries[i + 1];
        assert forall i :: 0 < i < |entries| ==> entries[i] == rest[i - 1];
      }
    }
  }

  lemma {:induction false} FilterDistinctIps(p: S.Device -> bool, s: seq<S.Device>)
    requires DistinctIps(s)
    ensures DistinctIps(Filter(p, s))
  {
    if s != [] {
      FilterDistinctIps(p, s[1..]);
      var rest := Filter(p, s[1..]);
      forall j | 0 <= j < |rest|
        ensures rest[j].ip != s[0].ip
      {
        assert rest[j] in rest;
        var k :| 0 <= k < |s[1..]| && s[1..][k] == rest[j];
        assert s[k + 1] == rest[j];
      }
      assert DistinctIps([s[0]] + rest);
      assert Filter(p, s) == if p(s[0]) then [s[0]] + rest else rest;
    }
  }

  /** A successful release leaves every entry in DNAT mode off, exactly when no last check was refused for a rule still there. */
  lemma ReleaseTells(e: Env, s: Site, broken: set<EntryId>)
    requires S.StoreOk(s.config) && ReleaseOf(e, s, broken).1
    ensures var entries := Filter(IsDnat, s.config.devices);
            AllOff(ReleaseOf(e, s, broken).0.wire.tables, entries, s.config) <==> !AnyDenied(e.faults, s.wire, entries, s.config)
  {
    FilterDistinctIps(IsDnat, s.config.devices);
    DisableAllTells(e.faults, s.wire, Filter(IsDnat, s.config.devices), s.config, broken);
  }

  predicate AllFew(t: Tables, entries: seq<S.Device>, c: S.Config) {
    forall i :: 0 <= i < |entries| ==> FewCopies(t, Rules(entries[i], c))
  }

  lemma FewElsewhere(t: Tables, t': Tables, entries: seq<S.Device>, c: S.Config)
    requires entries != [] && DistinctIps(entries) && Pruned(t, t', Rules(entries[0], c))
    ensures AllFew(t', entries[1..], c) <==> AllFew(t, entries[1..], c)
  {
    forall i | 0 <= i < |entries[1..]|
      ensures FewCopies(t', Rules(entries[1..][i], c)) <==> FewCopies(t, Rules(entries[1..][i], c))
    {
      assert entries[1..][i] == entries[i + 1];
      PrunedSpares(t, t', Rules(entries[0], c), Rules(entries[i + 1], c));
    }
  }

  /** When no command and no bridge fails, all entries are disabled exactly when no chain has over ten copies of a rule. */
  lemma {:induction false} DisableAllFine(f: Faults, s: Wire, entries: seq<S.Device>, c: S.Config)
    requires DistinctIps(entries) && FineDuring(f, s.sent, DisableAllOf(f, s, entries, c, {}).wire.sent)
    ensures DisableAllOf(f, s, entries, c, {}).result.Ok? <==> AllFew(s.tables, entries, c)
    decreases |entries|
  {
    if entries != [] {
      var rules, rest := Rules(entries[0], c), entries[1..];
      var off := DisableOf(f, s, rules);
      DisableFine(f, s, rules);
      assert AllFew(s.tables, entries, c) <==> FewCopies(s.tables, rules) && AllFew(s.tables, rest, c) by {
        assert forall i :: 0 <= i < |rest| ==> rest[i] == entries[i + 1];
        assert forall i :: 0 < i < |entries| ==> entries[i] == rest[i - 1];
      }
      if off.result.Ok? {
        DisablePrunes(f, s, rules);
        FewElsewhere(s.tables, off.wire.tables, entries, c);
        DisableAllFine(f, off.wire, rest, c);
      }
    }
  }

  // ---------------------------------------------------------------- and from then on

  /**
   * From a disable that the router answered until an explicit enable, no cycle adds a rule for the entry; a restart in
   * between makes no difference when the disable had succeeded, and otherwise only when no intent to be off was recorded.
   */
  lemma DisabledStaysOff(e: Env, s: Site, id: EntryId, bridgeFails: bool, ws: seq<World>, acts: seq<Action>, k: nat)
    requires WorldOk(WorldOf(s)) && Answered(e, s, id)
    requires Behaviour(ws, acts) && ws[0] == WorldOf(SwitchOffOf(e, s, id, bridgeFails).0)
    requires forall i :: 0 <= i < |acts| ==> !SwitchesOn(acts[i], id)
    requires SwitchOffOf(e, s, id, bridgeFails).1 || forall i :: 0 <= i < |acts| ==> Spares(ws[i], acts[i], id)
    requires 0 < k < |ws| && acts[k - 1].Reconcile?
    ensures CyclePasses(ws[k - 1], ws[k], id)
  {
    DisableStarts(e, s, id, bridgeFails, ws[0]);
    if SwitchOffOf(e, s, id, bridgeFails).1 {
      OffCycle(ws, acts, id, k);
    } else {
      LatchedThroughout(ws, acts, id, k);
    }
  }

  lemma DisableStarts(e: Env, s: Site, id: EntryId, bridgeFails: bool, w: World)
    requires WorldOk(WorldOf(s)) && Answered(e, s, id) && w == WorldOf(SwitchOffOf(e, s, id, bridgeFails).0)
    ensures WorldOk(w) && Latched(w, id) && (SwitchOffOf(e, s, id, bridgeFails).1 ==> OffByIntent(w.config, id))
  {
    SwitchOffIsStep(e, s, id, bridgeFails);
    StepKeepsWorldOk(WorldOf(s), Disable(id), w);
    DisableLatches(e, s, id, bridgeFails);
    DisableRecords(e, s, id, bridgeFails);
  }

  lemma OffCycle(ws: seq<World>, acts: seq<Action>, id: EntryId, k: nat)
    requires Behaviour(ws, acts) && WorldOk(ws[0]) && OffByIntent(ws[0].config, id)
    requires forall i :: 0 <= i < |acts| ==> !SwitchesOn(acts[i], id)
    requires 0 < k < |ws| && acts[k - 1].Reconcile?
    ensures CyclePasses(ws[k - 1], ws[k], id)
  {
    OffThroughout(ws, acts, id, k - 1);
    LatchedCycle(ws[k - 1], ws[k], id);
  }

  /** From a release until an explicit enable, or a restart that finds no intent to be off, no cycle adds a rule either. */
  lemma ReleasedStaysOff(e: Env, s: Site, broken: set<EntryId>, d: S.Device, ws: seq<World>, acts: seq<Action>, k: nat)
    requires WorldOk(WorldOf(s)) && S.Configured(s.config) && d in s.config.devices && IsDnat(d)
    requires Behaviour(ws, acts) && ws[0] == WorldOf(ReleaseOf(e, s, broken).0)
    requires forall i :: 0 <= i < |acts| ==> Spares(ws[i], acts[i], d.entryId)
    requires 0 < k < |ws| && acts[k - 1].Reconcile?
    ensures CyclePasses(ws[k - 1], ws[k], d.entryId)
  {
    ReleaseLatches(e, s, broken, d);
    LatchedThroughout(ws, acts, d.entryId, k);
  }

  // ---------------------------------------------------------------- how a rule can lose its entry

  /** Everything works. */
  ghost predicate Works(e: Env) { (forall n :: e.faults(n).Fine?) && forall n :: e.writable(n) }

  /** An entry that is on for an appliance of unknown platform, at the address a ThinQ1 appliance then connects from. */
  ghost predicate AboutToStrand(s: Site, i: nat, deviceId: string) {
    && i < |s.config.devices| && S.StoreOk(s.config) && S.Configured(s.config)
    && var d := s.config.devices[i];
       && d.EntryMode().DnatMode? && d.platform.None? && d.deviceId.None? && d.autoLink.None? && d.ip != ""
       && !S.LinkTaken(s.config.devices, i, deviceId)
       && StateOf(s.wire.tables, RulesFor(d.ip, None, s.config.router.rethinkIp)) == On
       && StateOf(s.wire.tables, RulesFor(d.ip, Some(Thinq1), s.config.router.rethinkIp)) == Off
  }

  lemma LinkChangesPlatform(e: Env, s: Site, i: nat, deviceId: string)
    requires Works(e) && AboutToStrand(s, i, deviceId)
    ensures var d := s.config.devices[i];
            SyncOf(e, s, Some(d.ip), deviceId, None, Some(Thinq1))
            == (s.(config := S.Set(s.config, i, d.(deviceId := Some(deviceId), platform := Some(Thinq1))), saves := s.saves + 1), true)
  {
    var d := s.config.devices[i];
    assert S.IndexOf(s.config.devices, (x: S.Device) => x.ip == d.ip) == Some(i);
  }

  lemma OffWithStrayRules(e: Env, s: Site, id: EntryId, i: nat, stray: seq<Rule>)
    requires Works(e) && S.StoreOk(s.config) && S.Configured(s.config) && S.Find(s.config, id) == Some(i)
    requires var rules := Rules(s.config.devices[i], s.config);
             && |stray| == 2 && stray[0] !in rules && stray[1] !in rules
             && StateOf(s.wire.tables, rules) == Off && StateOf(s.wire.tables, stray) == On
    ensures var (off, ok) := SwitchOffOf(e, s, id, false);
            && ok && Ok(off.config) == S.Desired(s.config, id, false)
            && StateOf(off.wire.tables, stray) == On && StateOf(off.wire.tables, Rules(s.config.devices[i], s.config)) == Off
  {
    DisableSpares(e.faults, s.wire, Rules(s.config.devices[i], s.config), stray);
  }

  lemma FewWhenOff(t: Tables, rules: seq<Rule>)
    requires |rules| == 2 && StateOf(t, rules) == Off
    ensures FewCopies(t, rules)
  {
    GoneIff(t, rules[0]);
    GoneIff(t, rules[1]);
    forall at
      ensures CopiesAt(t, at, rules[0]) <= MAX_COPIES && CopiesAt(t, at, rules[1]) <= MAX_COPIES
    {
      assert at == Chain || at == Prerouting;
    }
  }

  lemma DisableSpares(f: Faults, s: Wire, rules: seq<Rule>, stray: seq<Rule>)
    requires OneDevice(rules) && |stray| == 2 && stray[0] !in rules && stray[1] !in rules
    requires StateOf(s.tables, rules) == Off && forall n :: f(n).Fine?
    ensures var out := DisableOf(f, s, rules);
            && out.result.Ok? && StateOf(out.wire.tables, stray) == StateOf(s.tables, stray) && StateOf(out.wire.tables, rules) == Off
  {
    FewWhenOff(s.tables, rules);
    DisableFine(f, s, rules);
    DisabledState(s.tables, rules);
    DisablePrunes(f, s, rules);
    PrunedSpares(s.tables, DisableOf(f, s, rules).wire.tables, rules, stray);
  }

  /**
   * The automatic link gives the entry another platform, and so other rules: switching it off and deleting it then
   * succeed, with nothing going wrong, and leave the rules of the former platform in force without an entry.
   */
  lemma StrandedForGood(e: Env, s: Site, i: nat, deviceId: string)
    requires Works(e) && AboutToStrand(s, i, deviceId)
    ensures var d := s.config.devices[i];
            var (linked, ok1) := SyncOf(e, s, Some(d.ip), deviceId, None, Some(Thinq1));
            var (off, ok2) := SwitchOffOf(e, linked, d.entryId, false);
            var (gone, ok3) := EditOf(e, off, Delete(d.entryId), Request(None, true, false));
            && ok1 && ok2 && ok3
            && StateOf(gone.wire.tables, RulesFor(d.ip, None, s.config.router.rethinkIp)) == On
            && forall x :: x in gone.config.devices ==> x.ip != d.ip
  {
    var d := s.config.devices[i];
    LinkChangesPlatform(e, s, i, deviceId);
    var linked := SyncOf(e, s, Some(d.ip), deviceId, None, Some(Thinq1)).0;
    S.LinkedByIpKeeps(s.config, Some(d.ip), deviceId, None, Some(Thinq1));
    assert linked.config.devices[i].entryId == d.entryId;
    OffWithStrayRules(e, linked, d.entryId, i, RulesFor(d.ip, None, s.config.router.rethinkIp));
    var off := SwitchOffOf(e, linked, d.entryId, false).0;
    DesiredIs(linked.config, d.entryId, false);
    S.DesiredKeeps(linked.config, d.entryId, false);
    DeletedIsGone(e, off, i);
  }

  lemma DeletedIsGone(e: Env, s: Site, i: nat)
    requires Works(e) && S.StoreOk(s.config) && i < |s.config.devices|
    requires MayChange(s.config, s.wire.tables, s.config.devices[i].entryId)
    ensures var (gone, ok) := EditOf(e, s, Delete(s.config.devices[i].entryId), Request(None, true, false));
            ok && gone.wire.tables == s.wire.tables && forall x :: x in gone.config.devices ==> x.ip != s.config.devices[i].ip
  {
    EditFine(e, s, Delete(s.config.devices[i].entryId), Request(None, true, false));
  }
}
