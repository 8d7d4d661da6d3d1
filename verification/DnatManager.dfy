/** Switching one appliance's forwarding on and off over SSH (router/dnat-manager.ts). */
module DnatManager {
  import opened Common
  import opened NatTables
  import opened RouterWire
  import opened DnatRules
  import opened DnatExchanges

  method HasRule(router: Router, r: Rule) returns (found: Result<bool, ()>)
    modifies router
    ensures Outcome(router.Now(), found) == HasRuleOf(router.faults, old(router.Now()), r)
    ensures router.tables == old(router.tables)
    ensures found == Ok(false) ==> (Has(router.tables, r) <==> RuleDenied(router.faults, old(router.sent), router.tables, r))
    ensures found == Ok(true) ==> (Has(router.tables, r) <==> !RuleFeigned(router.faults, old(router.sent), router.tables, r))
    ensures FineDuring(router.faults, old(router.sent), router.sent) ==> found == Ok(Has(router.tables, r))
  {
    HasRuleTells(router.faults, router.Now(), r);
    var reply := router.Exec(CheckRule(Chain, r));
    if reply.Lost? {
      return Err(());
    }
    if reply.Zero? {
      return Ok(true);
    }
    reply := router.Exec(CheckRule(Prerouting, r));
    if reply.Lost? {
      return Err(());
    }
    return Ok(reply.Zero?);
  }

  method DeviceStatus(router: Router, rules: seq<Rule>) returns (state: Result<DnatState, ()>)
    requires |rules| == 2
    modifies router
    ensures Outcome(router.Now(), state) == StatusOf(router.faults, old(router.Now()), rules)
    ensures router.tables == old(router.tables)
    ensures state == Ok(Off) ==>
              (StateOf(router.tables, rules) == Off <==> !Denied(router.faults, old(router.sent), router.tables, rules))
    ensures state == Ok(On) ==>
              (StateOf(router.tables, rules) == On <==> !Feigned(router.faults, old(router.sent), router.tables, rules))
    ensures FineDuring(router.faults, old(router.sent), router.sent) ==> state == Ok(StateOf(router.tables, rules))
  {
    StatusTells(router.faults, router.Now(), rules);
    var first := HasRule(router, rules[0]);
    var second := HasRule(router, rules[1]);
    if first.Err? || second.Err? {
      return Err(());
    }
    if first.value && second.value {
      return Ok(On);
    }
    if !first.value && !second.value {
      return Ok(Off);
    }
    return Ok(Partial);
  }

  method EnsureChain(router: Router) returns (ok: bool)
    modifies router
    ensures Outcome(router.Now(), if ok then Ok(()) else Err(())) == EnsureChainOf(router.faults, old(router.Now()))
    ensures Grown(old(router.tables), router.tables, [], 0)
    ensures ok ==> (Jump in router.tables.prerouting <==> !JumpFeigned(router.faults, old(router.Now())))
    ensures FineDuring(router.faults, old(router.sent), router.sent) ==> ok && router.tables == ChainEnsured(old(router.tables))
  {
    ghost var f, before := router.faults, router.Now();
    EnsureChainGrows(f, before, []);
    if EnsureChainOf(f, before).result.Ok? {
      EnsureChainTells(f, before);
    }
    if FineDuring(f, before.sent, EnsureChainOf(f, before).wire.sent) {
      EnsureChainFine(f, before);
    }
    var listed := router.Exec(ListChain);
    if listed.Lost? {
      return false;
    }
    if !listed.Zero? {
      var created := router.Exec(NewChain);
      if !created.Zero? {
        return false;
      }
    }
    var linked := router.Exec(CheckRule(Prerouting, Jump));
    if linked.Lost? {
      return false;
    }
    if !linked.Zero? {
      linked := router.Exec(InsertJump);
      if !linked.Zero? {
        return false;
      }
    }
    ok := true;
  }

  method ClearConntrack(router: Router, ip: Ip, platform: Option<Platform>, ghost rules: seq<Rule>) returns (ok: bool)
    requires exists rethinkIp :: rules == RulesFor(ip, platform, rethinkIp)
    modifies router
    ensures Outcome(router.Now(), if ok then Ok(()) else Err(())) == ForgetOf(router.faults, old(router.Now()), rules)
    ensures router.tables == old(router.tables)
  {
    var ports := Ports(platform);
    assert rules[0..] == rules;
    for i := 0 to |ports|
      invariant ForgetOf(router.faults, router.Now(), rules[i..]) == ForgetOf(router.faults, old(router.Now()), rules)
      invariant router.tables == old(router.tables)
    {
      assert rules[i..][1..] == rules[i + 1..];
      var reply := router.Exec(ForgetConnections(ip, ports[i].0));
      if reply.Lost? {
        return false;
      }
    }
    ok := true;
  }

  /** Everything that enabling does before it looks at the state. */
  method Place(router: Router, ip: Ip, platform: Option<Platform>, rethinkIp: Ip) returns (ok: bool)
    modifies router
    ensures Outcome(router.Now(), if ok then Ok(()) else Err(()))
            == PlacedOf(router.faults, old(router.Now()), RulesFor(ip, platform, rethinkIp))
  {
    ghost var f, rules := router.faults, RulesFor(ip, platform, rethinkIp);
    var connected := router.Connect();
    if !connected {
      return false;
    }
    ok := EnsureChain(router);
    if !ok {
      return false;
    }
    var ports := Ports(platform);
    ghost var chained := router.Now();
    assert rules[0..] == rules;
    for i := 0 to |ports|
      invariant PutRulesOf(f, router.Now(), rules[i..]) == PutRulesOf(f, chained, rules)
    {
      var args := RuleFor(ip, ports[i], rethinkIp);
      assert args == rules[i] && rules[i..][1..] == rules[i + 1..];
      var has := HasRule(router, args);
      if has.Err? {
        return false;
      }
      if !has.value {
        var added := router.Exec(AppendToChain(args));
        if !added.Zero? {
          return false;
        }
      }
    }
    ok := ClearConntrack(router, ip, platform, rules);
  }

  method Enable(router: Router, ip: Ip, platform: Option<Platform>, rethinkIp: Ip) returns (state: Result<DnatState, ()>)
    modifies router
    ensures Outcome(router.Now(), state) == EnableOf(router.faults, old(router.Now()), RulesFor(ip, platform, rethinkIp))
    ensures Grown(old(router.tables), router.tables, RulesFor(ip, platform, rethinkIp), 2)
    ensures state.Ok? ==>
              var rules := RulesFor(ip, platform, rethinkIp);
              var checked := PlacedOf(router.faults, old(router.Now()), rules).wire;
              && (StateOf(router.tables, rules) == On <==> !Feigned(router.faults, checked.sent, checked.tables, rules))
              && (Jump in router.tables.prerouting <==> !JumpFeigned(router.faults, Connected(old(router.Now()))))
    ensures FineDuring(router.faults, old(router.sent), router.sent) ==>
              state == Ok(On) && router.tables == Enabled(old(router.tables), RulesFor(ip, platform, rethinkIp))
  {
    ghost var f, before, rules := router.faults, router.Now(), RulesFor(ip, platform, rethinkIp);
    EnableGrows(f, before, rules);
    if EnableOf(f, before, rules).result.Ok? {
      EnableTells(f, before, rules);
    }
    if FineDuring(f, before.sent, EnableOf(f, before, rules).wire.sent) {
      EnableFine(f, before, rules);
    }
    var ok := Place(router, ip, platform, rethinkIp);
    if !ok {
      return Err(());
    }
    state := DeviceStatus(router, RulesFor(ip, platform, rethinkIp));
    if state != Ok(On) {
      state := Err(());
    }
  }

  method RemoveCopies(router: Router, at: Location, r: Rule) returns (ok: bool)
    modifies router
    ensures Outcome(router.Now(), if ok then Ok(()) else Err(())) == RemoveCopiesOf(router.faults, old(router.Now()), at, r, MAX_COPIES)
    ensures Pruned(old(router.tables), router.tables, [r])
    ensures FineDuring(router.faults, old(router.sent), router.sent) ==>
              ok && router.tables == Cleared(old(router.tables), at, r, MAX_COPIES)
  {
    ghost var f, before := router.faults, router.Now();
    RemoveCopiesPrunes(f, before, at, r, MAX_COPIES, [r]);
    if FineDuring(f, before.sent, RemoveCopiesOf(f, before, at, r, MAX_COPIES).wire.sent) {
      RemoveCopiesFine(f, before, at, r, MAX_COPIES);
    }
    for duplicate := 0 to MAX_COPIES
      invariant RemoveCopiesOf(f, router.Now(), at, r, MAX_COPIES - duplicate) == RemoveCopiesOf(f, before, at, r, MAX_COPIES)
    {
      var present := router.Exec(CheckRule(at, r));
      if present.Lost? {
        return false;
      }
      if !present.Zero? {
        return true;
      }
      var removed := router.Exec(DeleteRule(at, r));
      if !removed.Zero? {
        return false;
      }
    }
    ok := true;
  }

  method RemoveRule(router: Router, r: Rule) returns (ok: bool)
    modifies router
    ensures Outcome(router.Now(), if ok then Ok(()) else Err(())) == RemoveRuleOf(router.faults, old(router.Now()), r)
  {
    var locations := [Chain, Prerouting];
    ok := RemoveCopies(router, locations[0], r);
    if ok {
      ok := RemoveCopies(router, locations[1], r);
    }
  }

  /** Everything that disabling does before it looks at the state. */
  method Clean(router: Router, ip: Ip, platform: Option<Platform>, rethinkIp: Ip) returns (ok: bool)
    modifies router
    ensures Outcome(router.Now(), if ok then Ok(()) else Err(()))
            == CleanedOf(router.faults, old(router.Now()), RulesFor(ip, platform, rethinkIp))
  {
    ghost var f, rules := router.faults, RulesFor(ip, platform, rethinkIp);
    var connected := router.Connect();
    if !connected {
      return false;
    }
    var ports := Ports(platform);
    ghost var start := router.Now();
    assert rules[0..] == rules;
    for i := 0 to |ports|
      invariant RemoveRulesOf(f, router.Now(), rules[i..]) == RemoveRulesOf(f, start, rules)
    {
      var args := RuleFor(ip, ports[i], rethinkIp);
      assert args == rules[i] && rules[i..][1..] == rules[i + 1..];
      ok := RemoveRule(router, args);
      if !ok {
        return false;
      }
    }
    ok := ClearConntrack(router, ip, platform, rules);
  }

  method Disable(router: Router, ip: Ip, platform: Option<Platform>, rethinkIp: Ip) returns (state: Result<DnatState, ()>)
    modifies router
    ensures Outcome(router.Now(), state) == DisableOf(router.faults, old(router.Now()), RulesFor(ip, platform, rethinkIp))
    ensures Pruned(old(router.tables), router.tables, RulesFor(ip, platform, rethinkIp))
    ensures state.Ok? ==>
              var rules := RulesFor(ip, platform, rethinkIp);
              var checked := CleanedOf(router.faults, old(router.Now()), rules).wire;
              StateOf(router.tables, rules) == Off <==> !Denied(router.faults, checked.sent, checked.tables, rules)
    ensures FineDuring(router.faults, old(router.sent), router.sent) ==>
              var rules := RulesFor(ip, platform, rethinkIp);
              && router.tables == Disabled(old(router.tables), rules)
              && (state == Ok(Off) <==> FewCopies(old(router.tables), rules))
  {
    ghost var f, before, rules := router.faults, router.Now(), RulesFor(ip, platform, rethinkIp);
    DisablePrunes(f, before, rules);
    if DisableOf(f, before, rules).result.Ok? {
      DisableTells(f, before, rules);
    }
    if FineDuring(f, before.sent, DisableOf(f, before, rules).wire.sent) {
      DisableFine(f, before, rules);
    }
    var ok := Clean(router, ip, platform, rethinkIp);
    if !ok {
      return Err(());
    }
    state := DeviceStatus(router, RulesFor(ip, platform, rethinkIp));
    if state != Ok(Off) {
      state := Err(());
    }
  }
}
