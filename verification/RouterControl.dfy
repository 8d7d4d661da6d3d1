/** Runs of the forwarding handlers and the reconciler. */
module RouterControl {
  // The router may lose its rules at any time (management/router-api.ts, router/dnat-reconciler.ts).

  import opened Common
  import opened NatTables
  import opened DnatRules
  import S = RouterStore

  type EntryId = string

  function Rules(d: S.Device, c: S.Config): (r: seq<Rule>)
    ensures |r| == 2 && forall i :: 0 <= i < 2 ==> r[i].Dnat? && r[i].src == d.ip
  {
    RulesFor(d.ip, d.platform, c.router.rethinkIp)
  }

  // ---------------------------------------------------------------- how the tables may change

  /** `p'` is `p` with some jumps put in front. */
  ghost predicate JumpsAhead(p: seq<Rule>, p': seq<Rule>) {
    p' == p || (p' != [] && p'[0] == Jump && JumpsAhead(p, p'[1..]))
  }

  /** Nothing is lost; jumps may come first in PREROUTING, and rules that satisfy `own` last in the chain. */
  ghost predicate Extended(t: Tables, t': Tables, own: Rule -> bool) {
    && JumpsAhead(t.prerouting, t'.prerouting)
    && (t.chain.Some? ==> t'.chain.Some?)
    && RulesAt(t, Chain) <= RulesAt(t', Chain)
    && forall i :: |RulesAt(t, Chain)| <= i < |RulesAt(t', Chain)| ==> own(RulesAt(t', Chain)[i])
  }

  lemma {:induction false} JumpsAheadTwice(p: seq<Rule>, q: seq<Rule>, r: seq<Rule>)
    requires JumpsAhead(p, q) && JumpsAhead(q, r)
    ensures JumpsAhead(p, r)
    decreases |r|
  {
    if r != q {
      JumpsAheadTwice(p, q, r[1..]);
    }
  }

  lemma {:induction false} JumpsAheadKeeps(p: seq<Rule>, q: seq<Rule>)
    requires JumpsAhead(p, q)
    ensures forall r :: r != Jump ==> Count(q, r) == Count(p, r)
    ensures forall r :: r in p ==> r in q
    decreases |q|
  {
    if p != q {
      JumpsAheadKeeps(p, q[1..]);
    }
  }

  lemma ExtendedTwice(t: Tables, u: Tables, v: Tables, own: Rule -> bool)
    requires Extended(t, u, own) && Extended(u, v, own)
    ensures Extended(t, v, own)
  {
    JumpsAheadTwice(t.prerouting, u.prerouting, v.prerouting);
  }

  lemma GrownIsExtended(t: Tables, t': Tables, rules: seq<Rule>, n: nat, own: Rule -> bool)
    requires Grown(t, t', rules, n) && forall r :: r in rules ==> own(r)
    ensures Extended(t, t', own)
  {
    if t'.prerouting != t.prerouting {
      assert t'.prerouting[1..] == t.prerouting;
    }
  }

  lemma ExtendedHas(t: Tables, t': Tables, own: Rule -> bool, r: Rule)
    requires Extended(t, t', own) && Has(t, r)
    ensures Has(t', r)
  {
    JumpsAheadKeeps(t.prerouting, t'.prerouting);
  }

  lemma {:induction false} CountAppend(a: seq<Rule>, b: seq<Rule>, r: Rule)
    ensures Count(a + b, r) == Count(a, r) + Count(b, r)
  {
    if a == [] {
      assert a + b == b;
    } else {
      assert (a + b)[1..] == a[1..] + b;
      CountAppend(a[1..], b, r);
    }
  }

  /** An extension adds no copy of a rule that is neither a jump nor one of its own. */
  lemma ExtendedCount(t: Tables, t': Tables, own: Rule -> bool, r: Rule)
    requires Extended(t, t', own) && !own(r) && r != Jump
    ensures forall at :: CopiesAt(t', at, r) == CopiesAt(t, at, r)
  {
    JumpsAheadKeeps(t.prerouting, t'.prerouting);
    var chain, chain' := RulesAt(t, Chain), RulesAt(t', Chain);
    var more := chain'[|chain|..];
    assert chain' == chain + more;
    CountAppend(chain, more, r);
    CountMember(more, r);
    assert RulesAt(t, Prerouting) == t.prerouting && RulesAt(t', Prerouting) == t'.prerouting;
  }

  function Not(own: Rule -> bool): Rule -> bool { r => !own(r) }

  /** Nothing is added, and only rules that satisfy `own` are taken away. */
  ghost predicate Reduced(t: Tables, t': Tables, own: Rule -> bool) {
    && t'.chain.Some? == t.chain.Some?
    && (forall at :: Filter(Not(own), RulesAt(t', at)) == Filter(Not(own), RulesAt(t, at)))
    && (forall at, r :: CopiesAt(t', at, r) <= CopiesAt(t, at, r))
  }

  lemma {:induction false} FilterTwice(p: Rule -> bool, q: Rule -> bool, s: seq<Rule>)
    requires forall r :: p(r) ==> q(r)
    ensures Filter(p, Filter(q, s)) == Filter(p, s)
  {
    if s != [] {
      FilterTwice(p, q, s[1..]);
      var rest := Filter(q, s[1..]);
      if q(s[0]) {
        assert Filter(q, s)[1..] == rest;
      } else {
        assert Filter(q, s) == rest;
      }
    }
  }

  lemma ReducedTwice(t: Tables, u: Tables, v: Tables, own: Rule -> bool)
    requires Reduced(t, u, own) && Reduced(u, v, own)
    ensures Reduced(t, v, own)
  {
  }

  lemma PrunedIsReduced(t: Tables, t': Tables, rules: seq<Rule>, own: Rule -> bool)
    requires Pruned(t, t', rules) && forall r :: r in rules ==> own(r)
    ensures Reduced(t, t', own)
  {
    forall at
      ensures Filter(Not(own), RulesAt(t', at)) == Filter(Not(own), RulesAt(t, at))
    {
      FilterTwice(Not(own), NotOf(rules), RulesAt(t', at));
      FilterTwice(Not(own), NotOf(rules), RulesAt(t, at));
    }
  }

  // ---------------------------------------------------------------- the world and its steps

  datatype World = World(config: S.Config, released: set<EntryId>, tables: Tables)

  /** `Reboot` is the router's; `Restart` is this program's, which keeps its file and forgets what was released. */
  datatype Action =
    | Reboot
    | Restart
    | Reconcile
    | Release
    | Enable(id: EntryId)
    | Disable(id: EntryId)
    | Put(id: EntryId, move: Option<S.Ip>, name: Option<string>, mode: Option<string>)
    | Add(id: EntryId, ip: S.Ip, mode: Option<string>)
    | Delete(id: EntryId)
    | Link(id: EntryId, deviceId: string, name: Option<string>, platform: Option<Platform>)
    | Unlink(id: EntryId)
    | Sync(source: Option<S.Ip>, deviceId: string, name: Option<string>, platform: Option<Platform>)
    | Configure(input: S.Patch)

  /** A rule of some entry that is wanted on. */
  ghost function OfWanted(c: S.Config, released: set<EntryId>): Rule -> bool {
    r => exists d :: d in c.devices && S.Wanted(d, released) && r in Rules(d, c)
  }

  /** A rule of some entry in DNAT mode. */
  ghost function OfDnat(c: S.Config): Rule -> bool {
    r => exists d :: d in c.devices && d.EntryMode().DnatMode? && r in Rules(d, c)
  }

  function DnatIds(c: S.Config): set<EntryId> {
    set d | d in c.devices && d.EntryMode().DnatMode? :: d.entryId
  }

  predicate Adoptable(d: S.Device, released: set<EntryId>) {
    d.EntryMode().DnatMode? && d.entryId !in released && d.dnatDesired.None?
  }

  /** Entries without a recorded intent may have become wanted; nothing else changes. */
  ghost predicate Adopts(c: S.Config, c': S.Config, released: set<EntryId>) {
    && c'.router == c.router && |c'.devices| == |c.devices|
    && forall i :: 0 <= i < |c.devices| ==> Adopted(c.devices[i], c'.devices[i], released)
  }

  predicate Adopted(d: S.Device, d': S.Device, released: set<EntryId>) {
    d' == d || (Adoptable(d, released) && d' == d.(dnatDesired := Some(true)))
  }

  /** The configuration is as before, or as the mutator leaves it. */
  predicate Tried(c: S.Config, c': S.Config, done: Result<S.Config, S.Error>) {
    c' == c || (done.Ok? && c' == done.value)
  }

  /** The entry's intent is not to be on, as far as the handler looked at it before a change of identity or mode. */
  predicate NotWantedOn(c: S.Config, id: EntryId) {
    var found := S.Find(c, id);
    found.Some? && c.devices[found.value].dnatDesired != Some(true)
  }

  predicate Moves(c: S.Config, id: EntryId, move: Option<S.Ip>, mode: Option<string>) {
    var found := S.Find(c, id);
    found.Some? &&
    var d := c.devices[found.value];
    || (move.Some? && S.Trim(move.value) != d.ip)
    || (mode.Some? && S.ModeOf(mode.value) != Some(d.EntryMode()))
  }

  /** The entry is linked to another device than this one. */
  predicate LinkedElsewhere(c: S.Config, id: EntryId, deviceId: string) {
    var found := S.Find(c, id);
    found.Some? && var d := c.devices[found.value]; d.deviceId.Some? && d.deviceId.value != "" && d.deviceId.value != deviceId
  }

  predicate IsEdit(a: Action) { a.Put? || a.Add? || a.Delete? || a.Link? || a.Unlink? }

  /** What the store makes of a request to edit it. */
  function Edit(c: S.Config, a: Action): Result<S.Config, S.Error>
    requires IsEdit(a)
  {
    match a
    case Put(id, move, name, mode) => S.Updated(c, id, move, name, mode)
    case Add(id, ip, mode) => S.Added(c, id, ip, mode)
    case Delete(id) => S.Deleted(c, id)
    case Link(id, deviceId, name, platform) => S.Linked(c, id, deviceId, name, platform)
    case Unlink(id) => S.Unlinked(c, id)
  }

  /** The edits for which the entry has to be off. */
  predicate Guarded(c: S.Config, a: Action)
    requires IsEdit(a)
  {
    match a
    case Put(id, move, _, mode) => Moves(c, id, move, mode)
    case Link(id, deviceId, _, _) => LinkedElsewhere(c, id, deviceId)
    case _ => !a.Add?
  }

  ghost predicate Edited(w: World, a: Action, w': World)
    requires IsEdit(a)
  {
    && w' == w.(config := w'.config) && Tried(w.config, w'.config, Edit(w.config, a))
    && (a.Add? ==> S.Find(w.config, a.id).None?)
    && (w' != w && Guarded(w.config, a) ==>
          NotWantedOn(w.config, a.id) && (S.Configured(w.config) || EntryOf(w.config, a.id).EntryMode().LocalMode?))
  }

  function EntryOf(c: S.Config, id: EntryId): S.Device
    requires S.Find(c, id).Some?
  {
    c.devices[S.Find(c, id).value]
  }

  /** Settings change when no entry is meant to be on and, without a host key, when there is no entry to forward. */
  ghost predicate Reconfigured(c: S.Config, c': S.Config, input: S.Patch) {
    if S.Recovered(c, input).Some? then Some(c') == S.Recovered(c, input)
    else
      && Ok(c') == S.RouterUpdated(c, S.Merged(c.router, input))
      && (forall d :: d in c.devices ==> d.dnatDesired != Some(true))
      && (S.HasConnectionSettings(c) && !S.Configured(c) ==> forall d :: d in c.devices ==> d.EntryMode().LocalMode?)
  }

  /** What each handler, cycle or accident may do, whatever commands and file writes fail on the way. */
  ghost predicate Step(w: World, a: Action, w': World) {
    var c := w.config;
    match a
    case Reboot => w' == w.(tables := w'.tables)
    case Restart => w' == w.(released := {})
    case Reconcile =>
      || w' == w
      || (&& S.Configured(c) && w'.released == w.released
          && Adopts(c, w'.config, w.released)
          && Extended(w.tables, w'.tables, OfWanted(w'.config, w.released)))
    case Release =>
      || w' == w
      || (&& S.Configured(c) && w'.config == c && w'.released == w.released + DnatIds(c)
          && Reduced(w.tables, w'.tables, OfDnat(c)))
    case Enable(id) =>
      || w' == w
      || (&& S.Configured(c) && S.Find(c, id).Some? && EntryOf(c, id).EntryMode().DnatMode?
          && Grown(w.tables, w'.tables, Rules(EntryOf(c, id), c), 2)
          && (|| (w'.config == c && w'.released == w.released)
              || (Ok(w'.config) == S.Desired(c, id, true) && w'.released == w.released - {id})))
    case Disable(id) =>
      || w' == w
      || (&& S.Configured(c) && S.Find(c, id).Some? && Pruned(w.tables, w'.tables, Rules(EntryOf(c, id), c))
          && (|| (w'.config == c && w'.released == w.released)
              || (w'.released == w.released + {id} && Tried(c, w'.config, S.Desired(c, id, false)))))
    case Sync(source, deviceId, name, platform) =>
      && w' == w.(config := w'.config)
      && var linked := S.LinkedByIp(c, source, deviceId, name, platform);
         w'.config == c || w'.config == linked || w'.config == S.Renamed(linked, deviceId, name)
    case Configure(input) => w' == w.(config := w'.config) && (w' == w || Reconfigured(c, w'.config, input))
    case _ => Edited(w, a, w')
  }

  // ---------------------------------------------------------------- invariants of every run

  /** An entry in local mode is never meant to have DNAT. */
  ghost predicate NoLocalIntent(c: S.Config) {
    forall d :: d in c.devices && d.EntryMode().LocalMode? ==> d.dnatDesired != Some(true)
  }

  ghost predicate WorldOk(w: World) { S.StoreOk(w.config) && NoLocalIntent(w.config) }

  lemma SetKeepsIntent(c: S.Config, i: nat, d: S.Device)
    requires NoLocalIntent(c) && i < |c.devices| && (d.EntryMode().LocalMode? ==> d.dnatDesired != Some(true))
    ensures NoLocalIntent(S.Set(c, i, d))
  {
    forall e | e in S.Set(c, i, d).devices
      ensures e == d || e in c.devices
    {
    }
  }

  lemma SetKeepsOk(c: S.Config, c': S.Config, i: nat)
    requires NoLocalIntent(c) && i < |c.devices| && |c'.devices| == |c.devices| && c' == S.Set(c, i, c'.devices[i])
    requires var d, d' := c.devices[i], c'.devices[i];
             d'.dnatDesired == d.dnatDesired && (d'.EntryMode() == d.EntryMode() || d.dnatDesired != Some(true))
    ensures NoLocalIntent(c')
  {
    assert c.devices[i] in c.devices;
    SetKeepsIntent(c, i, c'.devices[i]);
  }

  lemma EditKeepsWorldOk(w: World, a: Action, w': World)
    requires WorldOk(w) && IsEdit(a) && Edited(w, a, w') && w'.config != w.config
    ensures WorldOk(w')
  {
    EditKeepsStore(w.config, a, w'.config);
    if !a.Add? && !a.Delete? {
      SetKeepsOk(w.config, w'.config, S.Find(w.config, a.id).value);
    }
  }

  lemma EditKeepsStore(c: S.Config, a: Action, c': S.Config)
    requires S.StoreOk(c) && IsEdit(a) && Edit(c, a) == Ok(c') && (a.Add? ==> S.Find(c, a.id).None?)
    ensures S.StoreOk(c')
  {
    match a
    case Put(id, move, name, mode) => S.UpdatedKeeps(c, id, move, name, mode);
    case Add(id, ip, mode) => S.AddedKeeps(c, id, ip, mode);
    case Delete(id) => S.DeletedKeeps(c, id);
    case Link(id, deviceId, name, platform) => S.LinkedKeeps(c, id, deviceId, name, platform);
    case Unlink(id) => S.UnlinkedKeeps(c, id);
  }

  lemma LinkedByIpKeepsOk(
    c: S.Config, source: Option<S.Ip>, deviceId: string, name: Option<string>, platform: Option<Platform>)
    requires S.StoreOk(c) && NoLocalIntent(c)
    ensures var c' := S.LinkedByIp(c, source, deviceId, name, platform); S.StoreOk(c') && NoLocalIntent(c')
  {
    var c' := S.LinkedByIp(c, source, deviceId, name, platform);
    S.LinkedByIpKeeps(c, source, deviceId, name, platform);
    if c' != c {
      SetKeepsOk(c, c', S.IndexOf(c.devices, (e: S.Device) => e.ip == source.value).value);
    }
  }

  lemma RenamedKeepsOk(c: S.Config, deviceId: string, name: Option<string>)
    requires S.StoreOk(c) && NoLocalIntent(c)
    ensures var c' := S.Renamed(c, deviceId, name); S.StoreOk(c') && NoLocalIntent(c')
  {
    var c' := S.Renamed(c, deviceId, name);
    S.RenamedKeeps(c, deviceId, name);
    if c' != c {
      SetKeepsOk(c, c', S.IndexOf(c.devices, (e: S.Device) => e.deviceId == Some(deviceId)).value);
    }
  }

  lemma IntentKeepsWorldOk(c: S.Config, c': S.Config, id: EntryId, desired: bool)
    requires S.StoreOk(c) && NoLocalIntent(c) && Ok(c') == S.Desired(c, id, desired)
    requires desired ==> c.devices[S.Find(c, id).value].EntryMode().DnatMode?
    ensures S.StoreOk(c') && NoLocalIntent(c')
  {
    S.DesiredKeeps(c, id, desired);
    SetKeepsIntent(c, S.Find(c, id).value, c'.devices[S.Find(c, id).value]);
  }

  /** Unique entries, addresses and links, and no intent in local mode, whatever fails. */
  lemma StepKeepsWorldOk(w: World, a: Action, w': World)
    requires WorldOk(w) && Step(w, a, w')
    ensures WorldOk(w')
  {
    if w'.config != w.config {
      if IsEdit(a) {
        EditKeepsWorldOk(w, a, w');
      } else if a.Reconcile? {
        AdoptsKeeps(w, w'.config);
      } else if a.Enable? || a.Disable? {
        IntentKeepsWorldOk(w.config, w'.config, a.id, a.Enable?);
      } else if a.Sync? {
        LinkedByIpKeepsOk(w.config, a.source, a.deviceId, a.name, a.platform);
        RenamedKeepsOk(S.LinkedByIp(w.config, a.source, a.deviceId, a.name, a.platform), a.deviceId, a.name);
      } else {
        S.RouterUpdatedKeeps(w.config, S.Merged(w.config.router, a.input));
      }
    }
  }

  lemma AdoptsKeeps(w: World, c': S.Config)
    requires WorldOk(w) && Adopts(w.config, c', w.released)
    ensures S.StoreOk(c') && NoLocalIntent(c')
  {
    var c := w.config;
    forall i | 0 <= i < |c.devices|
      ensures c'.devices[i].entryId == c.devices[i].entryId && c'.devices[i].ip == c.devices[i].ip
      ensures c'.devices[i].deviceId == c.devices[i].deviceId
      ensures c'.devices[i].EntryMode().LocalMode? ==> c'.devices[i].dnatDesired != Some(true)
    {
      assert Adopted(c.devices[i], c'.devices[i], w.released);
      assert c.devices[i] in c.devices;
    }
  }

  // ---------------------------------------------------------------- the latch

  /** Recorded as meant to be off. */
  ghost predicate OffByIntent(c: S.Config, id: EntryId) {
    forall d :: d in c.devices && d.entryId == id ==> d.dnatDesired == Some(false)
  }

  /** Released by hand, which is only remembered until a restart, or recorded as meant to be off. */
  ghost predicate Latched(w: World, id: EntryId) { id in w.released || OffByIntent(w.config, id) }

  /** An explicit enable; adding an entry under the same id is none, but ids are never used again. */
  ghost predicate SwitchesOn(a: Action, id: EntryId) { (a.Enable? || a.Add?) && a.id == id }

  /** Entries called `id` afterwards were called `id` before, with the same intent. */
  ghost predicate IntentKept(c: S.Config, c': S.Config, id: EntryId) {
    forall d' :: d' in c'.devices && d'.entryId == id ==>
      exists d :: d in c.devices && d.entryId == id && d.dnatDesired == d'.dnatDesired
  }

  lemma SetKeepsIntentOf(c: S.Config, i: nat, d: S.Device, id: EntryId)
    requires i < |c.devices| && d.entryId == c.devices[i].entryId
    requires d.entryId == id ==> d.dnatDesired == c.devices[i].dnatDesired
    ensures IntentKept(c, S.Set(c, i, d), id)
  {
    forall d' | d' in S.Set(c, i, d).devices && d'.entryId == id
      ensures exists e :: e in c.devices && e.entryId == id && e.dnatDesired == d'.dnatDesired
    {
      assert d' == d || d' in c.devices;
      assert c.devices[i] in c.devices;
    }
  }

  /** Edits of the store do not touch intents. */
  lemma EditsKeepIntent(w: World, a: Action, w': World, id: EntryId)
    requires IsEdit(a) && Edited(w, a, w') && w'.config != w.config && !SwitchesOn(a, id)
    ensures IntentKept(w.config, w'.config, id)
  {
    var c, c' := w.config, w'.config;
    if a.Add? {
      assert forall d :: d in c'.devices ==> d in c.devices || d.entryId == a.id;
    } else if a.Delete? {
      assert forall d :: d in c'.devices ==> d in c.devices;
    } else {
      var i := S.Find(c, a.id).value;
      SetKeepsIntentOf(c, i, c'.devices[i], id);
    }
  }

  lemma SyncKeepsIntent(
    c: S.Config, source: Option<S.Ip>, deviceId: string, name: Option<string>, platform: Option<Platform>, id: EntryId)
    ensures var linked := S.LinkedByIp(c, source, deviceId, name, platform);
            IntentKept(c, linked, id) && IntentKept(linked, S.Renamed(linked, deviceId, name), id)
  {
    var linked := S.LinkedByIp(c, source, deviceId, name, platform);
    if linked != c {
      var i := S.IndexOf(c.devices, (e: S.Device) => e.ip == source.value).value;
      SetKeepsIntentOf(c, i, linked.devices[i], id);
    }
    var renamed := S.Renamed(linked, deviceId, name);
    if renamed != linked {
      var i := S.IndexOf(linked.devices, (e: S.Device) => e.deviceId == Some(deviceId)).value;
      SetKeepsIntentOf(linked, i, renamed.devices[i], id);
    }
  }

  lemma OtherIntent(c: S.Config, c': S.Config, other: EntryId, desired: bool, id: EntryId)
    requires other != id && Ok(c') == S.Desired(c, other, desired)
    ensures IntentKept(c, c', id)
  {
    SetKeepsIntentOf(c, S.Find(c, other).value, c'.devices[S.Find(c, other).value], id);
  }

  lemma AdoptionKeepsIntent(c: S.Config, c': S.Config, released: set<EntryId>, id: EntryId)
    requires Adopts(c, c', released) && OffByIntent(c, id)
    ensures OffByIntent(c', id)
  {
    forall d' | d' in c'.devices && d'.entryId == id
      ensures d'.dnatDesired == Some(false)
    {
      var i :| 0 <= i < |c'.devices| && c'.devices[i] == d';
      assert Adopted(c.devices[i], d', released);
      assert c.devices[i] in c.devices;
    }
  }

  lemma DesiredOff(c: S.Config, c': S.Config, id: EntryId)
    requires S.StoreOk(c) && Ok(c') == S.Desired(c, id, false)
    ensures OffByIntent(c', id)
  {
    S.DesiredKeeps(c, id, false);
    var i := S.Find(c, id).value;
    forall d | d in c'.devices && d.entryId == id
      ensures d.dnatDesired == Some(false)
    {
      var j :| 0 <= j < |c'.devices| && c'.devices[j] == d;
      assert j == i;
    }
  }

  /** A recorded intent to be off outlives everything but an explicit enable, a restart included. */
  lemma IntentHolds(w: World, a: Action, w': World, id: EntryId)
    requires WorldOk(w) && Step(w, a, w') && OffByIntent(w.config, id) && !SwitchesOn(a, id)
    ensures OffByIntent(w'.config, id)
  {
    if w'.config != w.config {
      if IsEdit(a) {
        EditsKeepIntent(w, a, w', id);
      } else if a.Reconcile? {
        AdoptionKeepsIntent(w.config, w'.config, w.released, id);
      } else if a.Disable? && a.id == id {
        DesiredOff(w.config, w'.config, id);
      } else if a.Enable? || a.Disable? {
        OtherIntent(w.config, w'.config, a.id, a.Enable?, id);
      } else if a.Sync? {
        SyncKeepsIntent(w.config, a.source, a.deviceId, a.name, a.platform, id);
      } else {
        assert w'.config.devices == w.config.devices;
      }
    }
  }

  /** No cycle, accident or other handler lifts the latch; a restart lifts one that is not recorded, and no other. */
  lemma LatchHolds(w: World, a: Action, w': World, id: EntryId)
    requires WorldOk(w) && Step(w, a, w') && Latched(w, id) && !SwitchesOn(a, id)
    ensures a.Restart? ==> (Latched(w', id) <==> OffByIntent(w.config, id))
    ensures !a.Restart? ==> Latched(w', id)
  {
    if OffByIntent(w.config, id) {
      IntentHolds(w, a, w', id);
    }
  }

  /** A cycle adds no copy of any rule for an address whose entry is not wanted on. */
  lemma CycleLeavesOthersAlone(w: World, w': World, d: S.Device, r: Rule)
    requires WorldOk(w) && Step(w, Reconcile, w')
    requires d in w'.config.devices && !S.Wanted(d, w.released) && r.Dnat? && r.src == d.ip
    ensures forall at :: CopiesAt(w'.tables, at, r) == CopiesAt(w.tables, at, r)
  {
    if w' != w {
      AdoptsKeeps(w, w'.config);
      var own := OfWanted(w'.config, w.released);
      forall e | e in w'.config.devices && S.Wanted(e, w.released)
        ensures r !in Rules(e, w'.config)
      {
        assert e.ip != d.ip;
      }
      ExtendedCount(w.tables, w'.tables, own, r);
    }
  }

  /** So no cycle adds a redirection for an entry that is in local mode, or not wanted on, or released. */
  lemma CycleSparesUnwanted(w: World, w': World, d: S.Device, at: Location, dport: nat, to: S.Ip, toPort: nat)
    requires WorldOk(w) && Step(w, Reconcile, w') && d in w'.config.devices
    requires d.mode == Some(S.LocalMode) || d.dnatDesired != Some(true) || d.entryId in w.released
    ensures CopiesAt(w'.tables, at, Dnat(d.ip, dport, to, toPort)) == CopiesAt(w.tables, at, Dnat(d.ip, dport, to, toPort))
  {
    CycleLeavesOthersAlone(w, w', d, Dnat(d.ip, dport, to, toPort));
  }

  /** No cycle puts a rule in place for a latched entry. */
  lemma CycleRespectsLatch(w: World, w': World, id: EntryId, d: S.Device, r: Rule)
    requires WorldOk(w) && Step(w, Reconcile, w') && Latched(w, id)
    requires d in w.config.devices && d.entryId == id && r.Dnat? && r.src == d.ip
    ensures forall at :: CopiesAt(w'.tables, at, r) == CopiesAt(w.tables, at, r)
  {
    if w' != w {
      LatchHolds(w, Reconcile, w', id);
      var i :| 0 <= i < |w.config.devices| && w.config.devices[i] == d;
      var d' := w'.config.devices[i];
      assert Adopted(d, d', w.released);
      assert d' in w'.config.devices && d'.entryId == id;
      CycleLeavesOthersAlone(w, w', d', r);
    }
  }

  /** The bridge does not forward for a device that goes by a latched entry. */
  lemma LatchedIsNotForwarded(w: World, id: EntryId, deviceId: string, sourceIp: Option<S.Ip>)
    requires Latched(w, id)
    ensures var entry := S.PolicyEntry(w.config, deviceId, sourceIp);
            entry.Some? && w.config.devices[entry.value].entryId == id ==>
              !S.Forwarding(w.config, w.released, deviceId, sourceIp)
  {
    var entry := S.PolicyEntry(w.config, deviceId, sourceIp);
    if entry.Some? {
      assert w.config.devices[entry.value] in w.config.devices;
    }
  }

  // ---------------------------------------------------------------- whole runs

  ghost predicate Behaviour(ws: seq<World>, acts: seq<Action>) {
    && |ws| == |acts| + 1
    && forall i :: 0 <= i < |acts| ==> Step(ws[i], acts[i], ws[i + 1])
  }

  /** No cycle adds a rule for the address of an entry with this id. */
  ghost predicate CyclePasses(w: World, w': World, id: EntryId) {
    forall d, r: Rule :: d in w.config.devices && d.entryId == id && r.Dnat? && r.src == d.ip ==>
      forall at :: CopiesAt(w'.tables, at, r) == CopiesAt(w.tables, at, r)
  }

  lemma LatchedCycle(w: World, w': World, id: EntryId)
    requires WorldOk(w) && Step(w, Reconcile, w') && Latched(w, id)
    ensures CyclePasses(w, w', id)
  {
    forall d, r: Rule | d in w.config.devices && d.entryId == id && r.Dnat? && r.src == d.ip
      ensures forall at :: CopiesAt(w'.tables, at, r) == CopiesAt(w.tables, at, r)
    {
      CycleRespectsLatch(w, w', id, d, r);
    }
  }

  /** A step after which the entry is still latched. */
  ghost predicate Spares(w: World, a: Action, id: EntryId) {
    !SwitchesOn(a, id) && (a.Restart? ==> OffByIntent(w.config, id))
  }

  lemma SparingStep(w: World, a: Action, w': World, id: EntryId)
    requires WorldOk(w) && Step(w, a, w') && Latched(w, id) && Spares(w, a, id)
    ensures WorldOk(w') && Latched(w', id) && (a.Reconcile? ==> CyclePasses(w, w', id))
  {
    StepKeepsWorldOk(w, a, w');
    LatchHolds(w, a, w', id);
    if a.Reconcile? {
      LatchedCycle(w, w', id);
    }
  }

  /**
   * Once latched, until an explicit enable or a restart that finds no recorded intent to be off: whatever happens in
   * between, including reboots and failing commands and saves, no cycle adds a rule for the entry.
   */
  lemma {:induction false} LatchedThroughout(ws: seq<World>, acts: seq<Action>, id: EntryId, k: nat)
    requires Behaviour(ws, acts) && WorldOk(ws[0]) && Latched(ws[0], id) && k < |ws|
    requires forall i :: 0 <= i < |acts| ==> Spares(ws[i], acts[i], id)
    ensures WorldOk(ws[k]) && Latched(ws[k], id)
    ensures k > 0 && acts[k - 1].Reconcile? ==> CyclePasses(ws[k - 1], ws[k], id)
  {
    if k > 0 {
      LatchedThroughout(ws, acts, id, k - 1);
      SparingStep(ws[k - 1], acts[k - 1], ws[k], id);
    }
  }

  lemma OffStep(w: World, a: Action, w': World, id: EntryId)
    requires WorldOk(w) && Step(w, a, w') && OffByIntent(w.config, id) && !SwitchesOn(a, id)
    ensures WorldOk(w') && OffByIntent(w'.config, id)
  {
    StepKeepsWorldOk(w, a, w');
    IntentHolds(w, a, w', id);
  }

  /** A latch by recorded intent needs no such condition: it holds across any number of restarts. */
  lemma {:induction false} OffThroughout(ws: seq<World>, acts: seq<Action>, id: EntryId, k: nat)
    requires Behaviour(ws, acts) && WorldOk(ws[0]) && OffByIntent(ws[0].config, id) && k < |ws|
    requires forall i :: 0 <= i < |acts| ==> !SwitchesOn(acts[i], id)
    ensures WorldOk(ws[k]) && OffByIntent(ws[k].config, id)
  {
    if k > 0 {
      OffThroughout(ws, acts, id, k - 1);
      OffStep(ws[k - 1], acts[k - 1], ws[k], id);
    }
  }
}
