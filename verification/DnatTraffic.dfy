/** What becomes of traffic. */
module DnatTraffic {
  // Of an appliance that is switched on or off, and of everybody else's.

  import opened Common
  import opened NatTables
  import opened RouterWire
  import opened DnatRules
  import opened DnatExchanges

  /** Enabling a device that is already enabled changes nothing. */
  lemma EnableTwice(t: Tables, rules: seq<Rule>)
    requires |rules| == 2
    ensures Enabled(Enabled(t, rules), rules) == Enabled(t, rules)
  {
    EnabledIsOn(t, rules);
    assert Jump in ChainEnsured(t).prerouting;
  }

  predicate CaughtBy(rules: seq<Rule>, src: Ip, dport: nat) {
    exists i :: 0 <= i < |rules| && Catches(rules[i], src, dport)
  }

  lemma {:induction false} ScanChainMisses(chain: seq<Rule>, src: Ip, dport: nat)
    requires !CaughtBy(chain, src, dport)
    ensures ScanChain(chain, src, dport) == Untouched
  {
    if chain != [] {
      assert forall i :: 0 <= i < |chain[1..]| ==> chain[1..][i] == chain[i + 1];
      ScanChainMisses(chain[1..], src, dport);
    }
  }

  lemma {:induction false} ScanSameChain(rules: seq<Rule>, chain: seq<Rule>, chain': seq<Rule>, src: Ip, dport: nat)
    requires ScanChain(chain, src, dport) == ScanChain(chain', src, dport)
    ensures Scan(rules, chain, src, dport) == Scan(rules, chain', src, dport)
  {
    if rules != [] {
      ScanSameChain(rules[1..], chain, chain', src, dport);
    }
  }

  /**
   * However enabling ends, connections it is not about go where they went before, except that a chain which was not
   * linked into PREROUTING comes into force when the jump is put there.
   */
  lemma OthersWhileEnabling(t: Tables, t': Tables, rules: seq<Rule>, n: nat, src: Ip, dport: nat)
    requires Grown(t, t', rules, n) && !CaughtBy(rules, src, dport)
    ensures Route(t', src, dport)
            == var before := ScanChain(RulesAt(t, Chain), src, dport);
               if t'.prerouting == t.prerouting || before == Untouched then Route(t, src, dport) else before
  {
    var chain, chain' := RulesAt(t, Chain), RulesAt(t', Chain);
    var more := chain'[|chain|..];
    assert chain' == chain + more;
    forall i | 0 <= i < |more|
      ensures !Catches(more[i], src, dport)
    {
      assert chain'[|chain| + i] in rules;
    }
    ScanChainMisses(more, src, dport);
    ScanChainAppend(chain, more, src, dport);
    ScanSameChain(t.prerouting, chain, chain', src, dport);
    if t'.prerouting != t.prerouting {
      assert t'.prerouting[1..] == t.prerouting;
    }
  }

  /** However disabling ends, connections it is not about go where they went before. */
  lemma OthersWhileDisabling(t: Tables, t': Tables, rules: seq<Rule>, src: Ip, dport: nat)
    requires Pruned(t, t', rules) && !CaughtBy(rules, src, dport) && Jump !in rules
    ensures Route(t', src, dport) == Route(t, src, dport)
  {
    var keep := NotOf(rules);
    forall r | !keep(r)
      ensures !Catches(r, src, dport)
    {
      var i :| 0 <= i < |rules| && rules[i] == r;
    }
    ScanFiltered(t.prerouting, RulesAt(t, Chain), keep, src, dport);
    ScanFiltered(t'.prerouting, RulesAt(t', Chain), keep, src, dport);
    assert Filter(keep, RulesAt(t', Prerouting)) == Filter(keep, RulesAt(t, Prerouting));
    assert Filter(keep, RulesAt(t', Chain)) == Filter(keep, RulesAt(t, Chain));
  }

  /** No rule but `r` catches the connection. */
  ghost predicate Uncontested(t: Tables, r: Rule, src: Ip, dport: nat) {
    Catches(r, src, dport) && forall at, s :: s in RulesAt(t, at) && Catches(s, src, dport) ==> s == r
  }

  lemma RouteFinds(t: Tables, r: Rule, src: Ip, dport: nat)
    requires Uncontested(t, r, src, dport)
    ensures Route(t, src, dport)
            == if r in t.prerouting || (Jump in t.prerouting && r in RulesAt(t, Chain)) then Sends(r) else Untouched
  {
    assert RulesAt(t, Prerouting) == t.prerouting;
    ScanFinds(t.prerouting, RulesAt(t, Chain), r, src, dport);
  }

  lemma EnabledMembers(t: Tables, rules: seq<Rule>, at: Location, s: Rule)
    requires |rules| == 2 && s in RulesAt(Enabled(t, rules), at)
    ensures s in RulesAt(t, at) || s == rules[0] || s == rules[1] || s == Jump
  {
  }

  /** An enabled device's uncontested connections reach the rethink server. */
  lemma EnabledForwards(t: Tables, ip: Ip, platform: Option<Platform>, rethinkIp: Ip, i: nat)
    requires i < 2
    requires Uncontested(t, RulesFor(ip, platform, rethinkIp)[i], ip, Ports(platform)[i].0)
    ensures Route(Enabled(t, RulesFor(ip, platform, rethinkIp)), ip, Ports(platform)[i].0)
            == Forwarded(rethinkIp, Ports(platform)[i].1)
  {
    var rules := RulesFor(ip, platform, rethinkIp);
    var r, dport := rules[i], Ports(platform)[i].0;
    EnabledIsOn(t, rules);
    forall at, s | s in RulesAt(Enabled(t, rules), at) && Catches(s, ip, dport)
      ensures s == r
    {
      EnabledMembers(t, rules, at, s);
    }
    RouteFinds(Enabled(t, rules), r, ip, dport);
  }

  /**
   * Whatever else went wrong, an enable that succeeds forwards the device's uncontested connections exactly when the rule
   * stood in PREROUTING before, or neither the check of the rule nor the jump was feigned.
   */
  lemma SuccessForwards(f: Faults, s: Wire, ip: Ip, platform: Option<Platform>, rethinkIp: Ip, i: nat)
    requires i < 2 && Uncontested(s.tables, RulesFor(ip, platform, rethinkIp)[i], ip, Ports(platform)[i].0)
    requires EnableOf(f, s, RulesFor(ip, platform, rethinkIp)).result.Ok?
    ensures var rules := RulesFor(ip, platform, rethinkIp);
            Route(EnableOf(f, s, rules).wire.tables, ip, Ports(platform)[i].0) == Forwarded(rethinkIp, Ports(platform)[i].1)
            <==> || rules[i] in s.tables.prerouting
                 || (!RuleFeignedAt(f, PlacedOf(f, s, rules).wire, rules, i) && !JumpFeigned(f, Connected(s)))
  {
    var rules := RulesFor(ip, platform, rethinkIp);
    var t' := EnableOf(f, s, rules).wire.tables;
    EnableTells(f, s, rules);
    EnableGrows(f, s, rules);
    forall at, r | r in RulesAt(t', at) && Catches(r, ip, Ports(platform)[i].0)
      ensures r == rules[i]
    {
      GrownMembers(s.tables, t', rules, 2, at, r);
    }
    RouteFinds(t', rules[i], ip, Ports(platform)[i].0);
    CheckedRule(f, PlacedOf(f, s, rules).wire, rules, i);
    assert rules[i] in t'.prerouting <==> rules[i] in s.tables.prerouting;
    assert RulesAt(t', Prerouting) == t'.prerouting;
  }

  // ---------------------------------------------------------------- in port numbers

  /** Nothing catches a device's connections to this port, except the rule that sends them to this server. */
  predicate Clear(t: Tables, ip: Ip, dport: nat, to: Ip, toPort: nat) {
    forall at, s :: s in RulesAt(t, at) && Catches(s, ip, dport) ==> s == Dnat(ip, dport, to, toPort)
  }

  /** If they were clear before, they go to this server afterwards. */
  predicate Reaches(t: Tables, t': Tables, ip: Ip, dport: nat, to: Ip, toPort: nat) {
    Clear(t, ip, dport, to, toPort) ==> Route(t', ip, dport) == Forwarded(to, toPort)
  }

  /** If they were clear before, nothing is done to them afterwards. */
  predicate LetAlone(t: Tables, t': Tables, ip: Ip, dport: nat, to: Ip, toPort: nat) {
    Clear(t, ip, dport, to, toPort) ==> Route(t', ip, dport) == Untouched
  }

  /** The connection goes where it went, or where the chain sends it that has come into force. */
  predicate AsLinked(t: Tables, t': Tables, src: Ip, dport: nat) {
    var before := ScanChain(RulesAt(t, Chain), src, dport);
    Route(t', src, dport) == if t'.prerouting == t.prerouting || before == Untouched then Route(t, src, dport) else before
  }

  /**
   * Enabling sends a ThinQ1 appliance's ports 46030 and 47878 to the same ports of the rethink server, and the ports 443 and
   * 8883 of any other to 4433 and 8883; no other port of the device, and nobody else, is affected by its rules.
   */
  lemma EnabledPorts(t: Tables, ip: Ip, platform: Option<Platform>, server: Ip)
    ensures var t' := Enabled(t, RulesFor(ip, platform, server));
            && (platform == Some(Thinq1) ==>
                  && Reaches(t, t', ip, 46030, server, 46030) && Reaches(t, t', ip, 47878, server, 47878)
                  && forall src, dport :: src != ip || dport !in {46030, 47878} ==> AsLinked(t, t', src, dport))
            && (platform != Some(Thinq1) ==>
                  && Reaches(t, t', ip, 443, server, 4433) && Reaches(t, t', ip, 8883, server, 8883)
                  && forall src, dport :: src != ip || dport !in {443, 8883} ==> AsLinked(t, t', src, dport))
  {
    var rules := RulesFor(ip, platform, server);
    EnabledReaches(t, ip, platform, server, 0);
    EnabledReaches(t, ip, platform, server, 1);
    EnabledGrows(t, rules);
    forall src, dport | src != ip || dport !in {Ports(platform)[0].0, Ports(platform)[1].0}
      ensures AsLinked(t, Enabled(t, rules), src, dport)
    {
      OthersWhileEnabling(t, Enabled(t, rules), rules, 2, src, dport);
    }
  }

  lemma EnabledReaches(t: Tables, ip: Ip, platform: Option<Platform>, server: Ip, i: nat)
    requires i < 2
    ensures Reaches(t, Enabled(t, RulesFor(ip, platform, server)), ip, Ports(platform)[i].0, server, Ports(platform)[i].1)
  {
    if Clear(t, ip, Ports(platform)[i].0, server, Ports(platform)[i].1) {
      assert Uncontested(t, RulesFor(ip, platform, server)[i], ip, Ports(platform)[i].0);
      EnabledForwards(t, ip, platform, server, i);
    }
  }

  lemma EnabledGrows(t: Tables, rules: seq<Rule>)
    requires |rules| == 2
    ensures Grown(t, Enabled(t, rules), rules, 2)
  {
  }

  /** The same of an enable that succeeds on any router: of each port on its own, and exactly when nothing was feigned for it. */
  lemma SuccessPorts(f: Faults, s: Wire, ip: Ip, platform: Option<Platform>, server: Ip)
    requires EnableOf(f, s, RulesFor(ip, platform, server)).result.Ok?
    ensures var rules := RulesFor(ip, platform, server);
            var t, t' := s.tables, EnableOf(f, s, rules).wire.tables;
            var first, second := Unfeigned(f, s, rules, 0), Unfeigned(f, s, rules, 1);
            && (platform == Some(Thinq1) ==>
                  && ReachesIff(t, t', ip, 46030, server, 46030, first) && ReachesIff(t, t', ip, 47878, server, 47878, second)
                  && forall src, dport :: src != ip || dport !in {46030, 47878} ==> AsLinked(t, t', src, dport))
            && (platform != Some(Thinq1) ==>
                  && ReachesIff(t, t', ip, 443, server, 4433, first) && ReachesIff(t, t', ip, 8883, server, 8883, second)
                  && forall src, dport :: src != ip || dport !in {443, 8883} ==> AsLinked(t, t', src, dport))
  {
    var rules := RulesFor(ip, platform, server);
    var t' := EnableOf(f, s, rules).wire.tables;
    SuccessReaches(f, s, ip, platform, server, 0);
    SuccessReaches(f, s, ip, platform, server, 1);
    EnableGrows(f, s, rules);
    forall src, dport | src != ip || dport !in {Ports(platform)[0].0, Ports(platform)[1].0}
      ensures AsLinked(s.tables, t', src, dport)
    {
      OthersWhileEnabling(s.tables, t', rules, 2, src, dport);
    }
  }

  /** Neither the last check of the rule nor the check of the jump was answered for something that is not there. */
  predicate Unfeigned(f: Faults, s: Wire, rules: seq<Rule>, i: nat)
    requires OneDevice(rules) && i < 2
  {
    !RuleFeignedAt(f, PlacedOf(f, s, rules).wire, rules, i) && !JumpFeigned(f, Connected(s))
  }

  predicate ReachesIff(t: Tables, t': Tables, ip: Ip, dport: nat, to: Ip, toPort: nat, unfeigned: bool) {
    Clear(t, ip, dport, to, toPort) ==>
      (Route(t', ip, dport) == Forwarded(to, toPort) <==> Dnat(ip, dport, to, toPort) in t.prerouting || unfeigned)
  }

  lemma SuccessReaches(f: Faults, s: Wire, ip: Ip, platform: Option<Platform>, server: Ip, i: nat)
    requires i < 2 && EnableOf(f, s, RulesFor(ip, platform, server)).result.Ok?
    ensures var rules := RulesFor(ip, platform, server);
            ReachesIff(s.tables, EnableOf(f, s, rules).wire.tables, ip, Ports(platform)[i].0, server, Ports(platform)[i].1,
                       Unfeigned(f, s, rules, i))
  {
    if Clear(s.tables, ip, Ports(platform)[i].0, server, Ports(platform)[i].1) {
      assert Uncontested(s.tables, RulesFor(ip, platform, server)[i], ip, Ports(platform)[i].0);
      SuccessForwards(f, s, ip, platform, server, i);
    }
  }

  /** Disabling leaves the same ports alone, if there were no more than ten copies of each rule in a chain. */
  lemma DisabledPorts(t: Tables, ip: Ip, platform: Option<Platform>, server: Ip)
    requires FewCopies(t, RulesFor(ip, platform, server))
    ensures var t' := Disabled(t, RulesFor(ip, platform, server));
            && (platform == Some(Thinq1) ==>
                  && LetAlone(t, t', ip, 46030, server, 46030) && LetAlone(t, t', ip, 47878, server, 47878)
                  && forall src, dport :: src != ip || dport !in {46030, 47878} ==> Route(t', src, dport) == Route(t, src, dport))
            && (platform != Some(Thinq1) ==>
                  && LetAlone(t, t', ip, 443, server, 4433) && LetAlone(t, t', ip, 8883, server, 8883)
                  && forall src, dport :: src != ip || dport !in {443, 8883} ==> Route(t', src, dport) == Route(t, src, dport))
  {
    var rules := RulesFor(ip, platform, server);
    DisabledLeaves(t, ip, platform, server, 0);
    DisabledLeaves(t, ip, platform, server, 1);
    DisabledPrunes(t, rules);
    forall src, dport | src != ip || dport !in {Ports(platform)[0].0, Ports(platform)[1].0}
      ensures Route(Disabled(t, rules), src, dport) == Route(t, src, dport)
    {
      OthersWhileDisabling(t, Disabled(t, rules), rules, src, dport);
    }
  }

  lemma {:induction false} ClearedPrunes(t: Tables, at: Location, r: Rule, n: nat, rules: seq<Rule>)
    requires r in rules
    ensures Pruned(t, Cleared(t, at, r, n), rules)
    decreases n
  {
    if n > 0 && r in RulesAt(t, at) {
      DeletedIsPruned(t, at, r, rules);
      ClearedPrunes(Applied(t, DeleteRule(at, r)), at, r, n - 1, rules);
    }
  }

  lemma DisabledPrunes(t: Tables, rules: seq<Rule>)
    requires |rules| == 2
    ensures Pruned(t, Disabled(t, rules), rules)
  {
    var one := Cleared(t, Chain, rules[0], MAX_COPIES);
    var two := Cleared(one, Prerouting, rules[0], MAX_COPIES);
    var three := Cleared(two, Chain, rules[1], MAX_COPIES);
    ClearedPrunes(t, Chain, rules[0], MAX_COPIES, rules);
    ClearedPrunes(one, Prerouting, rules[0], MAX_COPIES, rules);
    ClearedPrunes(two, Chain, rules[1], MAX_COPIES, rules);
    ClearedPrunes(three, Prerouting, rules[1], MAX_COPIES, rules);
  }

  lemma DisabledLeaves(t: Tables, ip: Ip, platform: Option<Platform>, server: Ip, i: nat)
    requires i < 2 && FewCopies(t, RulesFor(ip, platform, server))
    ensures LetAlone(t, Disabled(t, RulesFor(ip, platform, server)), ip, Ports(platform)[i].0, server, Ports(platform)[i].1)
  {
    if Clear(t, ip, Ports(platform)[i].0, server, Ports(platform)[i].1) {
      assert Uncontested(t, RulesFor(ip, platform, server)[i], ip, Ports(platform)[i].0);
      DisabledStops(t, ip, platform, server, i);
    }
  }

  /** When nothing goes wrong, the device's open connections to the same ports, and no others, are forgotten. */
  lemma PortsForgotten(f: Faults, s: Wire, ip: Ip, platform: Option<Platform>, server: Ip)
    ensures var on, ports := EnableOf(f, s, RulesFor(ip, platform, server)), DevicePorts(ip, platform);
            FineDuring(f, s.sent, on.wire.sent) ==> on.wire.tracked == s.tracked - ports
    ensures var off, ports := DisableOf(f, s, RulesFor(ip, platform, server)), DevicePorts(ip, platform);
            FineDuring(f, s.sent, off.wire.sent) && off.result.Ok? ==> off.wire.tracked == s.tracked - ports
  {
    EnableForgetsBoth(f, s, RulesFor(ip, platform, server));
    DisableForgetsBoth(f, s, RulesFor(ip, platform, server));
  }

  function DevicePorts(ip: Ip, platform: Option<Platform>): set<(Ip, nat)> {
    if platform == Some(Thinq1) then {(ip, 46030), (ip, 47878)} else {(ip, 443), (ip, 8883)}
  }

  /** Copies beyond ten stay: the literal bound on what disabling clears. */
  lemma CopiesLeft(t: Tables, ip: Ip, platform: Option<Platform>, server: Ip, at: Location, dport: nat, toPort: nat)
    requires (dport, toPort) in (if platform == Some(Thinq1) then {(46030, 46030), (47878, 47878)} else {(443, 4433), (8883, 8883)})
    ensures var r, n := Dnat(ip, dport, server, toPort), CopiesAt(t, at, Dnat(ip, dport, server, toPort));
            CopiesAt(Disabled(t, RulesFor(ip, platform, server)), at, r) == if n <= 10 then 0 else n - 10
  {
    DisabledState(t, RulesFor(ip, platform, server));
  }

  /** In the status on wire `s`, the check of rule `i` was feigned. */
  predicate RuleFeignedAt(f: Faults, s: Wire, rules: seq<Rule>, i: nat)
    requires |rules| == 2 && i < 2
  {
    RuleFeigned(f, if i == 0 then s.sent else SecondCheck(f, s.sent, s.tables, rules[0]), s.tables, rules[i])
  }

  lemma CheckedRule(f: Faults, s: Wire, rules: seq<Rule>, i: nat)
    requires |rules| == 2 && i < 2 && StatusOf(f, s, rules).result == Ok(On)
    ensures Has(s.tables, rules[i]) <==> !RuleFeignedAt(f, s, rules, i)
  {
    HasRuleTells(f, s, rules[0]);
    HasRuleTells(f, HasRuleOf(f, s, rules[0]).wire, rules[1]);
  }

  lemma GrownMembers(t: Tables, t': Tables, rules: seq<Rule>, n: nat, at: Location, r: Rule)
    requires Grown(t, t', rules, n) && r in RulesAt(t', at)
    ensures r in RulesAt(t, at) || r in rules || r == Jump
  {
  }

  /** A disable that succeeds, with no last check refused for a rule still there, leaves its uncontested connections alone. */
  lemma SuccessStops(f: Faults, s: Wire, ip: Ip, platform: Option<Platform>, rethinkIp: Ip, i: nat)
    requires i < 2 && Uncontested(s.tables, RulesFor(ip, platform, rethinkIp)[i], ip, Ports(platform)[i].0)
    requires DisableOf(f, s, RulesFor(ip, platform, rethinkIp)).result.Ok?
    requires var cleaned := CleanedOf(f, s, RulesFor(ip, platform, rethinkIp)).wire;
             !Denied(f, cleaned.sent, cleaned.tables, RulesFor(ip, platform, rethinkIp))
    ensures Route(DisableOf(f, s, RulesFor(ip, platform, rethinkIp)).wire.tables, ip, Ports(platform)[i].0) == Untouched
  {
    var rules := RulesFor(ip, platform, rethinkIp);
    var t' := DisableOf(f, s, rules).wire.tables;
    DisableTells(f, s, rules);
    DisablePrunes(f, s, rules);
    forall at, r | r in RulesAt(t', at) && Catches(r, ip, Ports(platform)[i].0)
      ensures r == rules[i]
    {
      CountMember(RulesAt(t', at), r);
      CountMember(RulesAt(s.tables, at), r);
      assert Count(RulesAt(t', at), r) <= Count(RulesAt(s.tables, at), r);
    }
    RouteFinds(t', rules[i], ip, Ports(platform)[i].0);
    assert RulesAt(t', Prerouting) == t'.prerouting;
  }

  /** A disabled device's uncontested connections are left alone. */
  lemma DisabledStops(t: Tables, ip: Ip, platform: Option<Platform>, rethinkIp: Ip, i: nat)
    requires i < 2
    requires Uncontested(t, RulesFor(ip, platform, rethinkIp)[i], ip, Ports(platform)[i].0)
    requires FewCopies(t, RulesFor(ip, platform, rethinkIp))
    ensures Route(Disabled(t, RulesFor(ip, platform, rethinkIp)), ip, Ports(platform)[i].0) == Untouched
  {
    var rules := RulesFor(ip, platform, rethinkIp);
    var r, dport := rules[i], Ports(platform)[i].0;
    var d := Disabled(t, rules);
    DisabledState(t, rules);
    GoneIff(d, rules[i]);
    forall at, s | s in RulesAt(d, at) && Catches(s, ip, dport)
      ensures s == r
    {
      ClearedBothCount(t, rules[0], at, s);
      ClearedBothCount(ClearedBoth(t, rules[0]), rules[1], at, s);
      CountMember(RulesAt(d, at), s);
      CountMember(RulesAt(t, at), s);
    }
    RouteFinds(d, r, ip, dport);
    assert RulesAt(d, Prerouting) == d.prerouting;
  }

  /**
   * The state `on` is not enough for an uncontested connection to be forwarded: with the rule in the chain only, it is
   * forwarded exactly when PREROUTING still jumps there, which the status never looks at.
   */
  lemma OnNeedsTheJump(t: Tables, rules: seq<Rule>, src: Ip, dport: nat)
    requires |rules| == 2 && StateOf(t, rules) == On && rules[0].Dnat? && Uncontested(t, rules[0], src, dport)
    ensures Route(t, src, dport) == Sends(rules[0]) <==> Jump in t.prerouting || rules[0] in t.prerouting
  {
    RouteFinds(t, rules[0], src, dport);
  }

  /** A firewall restart that keeps the chain but drops the jump leaves the state `on` and nothing forwarded. */
  lemma OnWithoutForwarding(ip: Ip, rethinkIp: Ip)
    ensures var rules := RulesFor(ip, None, rethinkIp);
            var t := Tables([], Some(rules));
            StateOf(t, rules) == On && Route(t, ip, 443) == Untouched
  {
  }
}
