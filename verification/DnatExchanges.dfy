/** The DNAT manager's commands and every answer to them. */
module DnatExchanges {
  // In the order of router/dnat-manager.ts.

  import opened Common
  import opened NatTables
  import opened RouterWire
  import opened DnatRules

  // ---------------------------------------------------------------- asking

  /** A lost answer is an error; a refused check counts as an absent rule. */
  function HasRuleOf(f: Faults, s: Wire, r: Rule): (out: Outcome<bool>)
    ensures out.wire.tables == s.tables && out.wire.tracked == s.tracked && s.sent < out.wire.sent
  {
    var first := CheckRule(Chain, r);
    var reply, asked := ReplyTo(f, s, first), After(f, s, first);
    if reply.Lost? then Outcome(asked, Err(()))
    else if reply.Zero? then Outcome(asked, Ok(true))
    else
      var second := CheckRule(Prerouting, r);
      var again := ReplyTo(f, asked, second);
      Outcome(After(f, asked, second), if again.Lost? then Err(()) else Ok(again.Zero?))
  }

  /** Both rules are asked about, whatever the answer to the first; which of them is asked first makes no difference. */
  function StatusOf(f: Faults, s: Wire, rules: seq<Rule>): (out: Outcome<DnatState>)
    requires |rules| == 2
    ensures out.wire.tables == s.tables && out.wire.tracked == s.tracked && s.sent < out.wire.sent
  {
    var a := HasRuleOf(f, s, rules[0]);
    var b := HasRuleOf(f, a.wire, rules[1]);
    Outcome(b.wire,
            if a.result.Err? || b.result.Err? then Err(())
            else if a.result.value && b.result.value then Ok(On)
            else if !a.result.value && !b.result.value then Ok(Off)
            else Ok(Partial))
  }

  /** Exchange `n` or the next refused to check for the rule in the chain where it was. */
  predicate RuleDenied(f: Faults, n: nat, t: Tables, r: Rule) {
    || (f(n).Refused? && r in RulesAt(t, Chain))
    || (f(n + 1).Refused? && r in RulesAt(t, Prerouting))
  }

  /** One of the four checks from exchange `n` on was refused although the rule was there. */
  predicate Denied(f: Faults, n: nat, t: Tables, rules: seq<Rule>)
    requires |rules| == 2
  {
    RuleDenied(f, n, t, rules[0]) || RuleDenied(f, n + 2, t, rules[1])
  }

  /** Exchange `n` or the next came without an exit status for a rule that is in neither chain. */
  predicate RuleFeigned(f: Faults, n: nat, t: Tables, r: Rule) { !Has(t, r) && (f(n).Blank? || f(n + 1).Blank?) }

  /** The exchange at which the second rule is asked about, when the first is from exchange `n` on. */
  function SecondCheck(f: Faults, n: nat, t: Tables, r: Rule): nat {
    if f(n).Blank? || (f(n).Fine? && r in RulesAt(t, Chain)) then n + 1 else n + 2
  }

  /** One of the checks from exchange `n` on came without an exit status for a rule that was not there. */
  predicate Feigned(f: Faults, n: nat, t: Tables, rules: seq<Rule>)
    requires |rules| == 2
  {
    RuleFeigned(f, n, t, rules[0]) || RuleFeigned(f, SecondCheck(f, n, t, rules[0]), t, rules[1])
  }

  lemma HasRuleTells(f: Faults, s: Wire, r: Rule)
    ensures var out := HasRuleOf(f, s, r);
            && (out.result == Ok(false) ==> out.wire.sent == s.sent + 2 && (Has(s.tables, r) <==> RuleDenied(f, s.sent, s.tables, r)))
            && (out.result == Ok(true) ==>
                  && out.wire.sent == SecondCheck(f, s.sent, s.tables, r)
                  && (Has(s.tables, r) <==> !RuleFeigned(f, s.sent, s.tables, r))
                  && (StatedDuring(f, s.sent, out.wire.sent) ==> Has(s.tables, r)))
            && (FineDuring(f, s.sent, out.wire.sent) ==> out.result == Ok(Has(s.tables, r)))
  {
    var asked := After(f, s, CheckRule(Chain, r));
    assert asked == s.(sent := s.sent + 1);
  }

  /**
   * The state `off` is right exactly when no check was refused for a rule that was there, the state `on` exactly when no
   * answer without an exit status stood for a rule that was not there; and without faults the state is that of the tables.
   */
  lemma StatusTells(f: Faults, s: Wire, rules: seq<Rule>)
    requires |rules| == 2
    ensures var out := StatusOf(f, s, rules);
            && (out.result == Ok(Off) ==>
                  out.wire.sent == s.sent + 4 && (StateOf(s.tables, rules) == Off <==> !Denied(f, s.sent, s.tables, rules)))
            && (out.result == Ok(On) ==> (StateOf(s.tables, rules) == On <==> !Feigned(f, s.sent, s.tables, rules)))
            && (FineDuring(f, s.sent, out.wire.sent) ==> out.result == Ok(StateOf(s.tables, rules)))
  {
    HasRuleTells(f, s, rules[0]);
    HasRuleTells(f, HasRuleOf(f, s, rules[0]).wire, rules[1]);
  }

  /** So the state `on` is right, in particular, when every answer came with an exit status. */
  lemma StatedIsTrue(f: Faults, s: Wire, rules: seq<Rule>)
    requires |rules| == 2 && StatusOf(f, s, rules).result == Ok(On)
    requires StatedDuring(f, s.sent, StatusOf(f, s, rules).wire.sent)
    ensures !Feigned(f, s.sent, s.tables, rules)
  {
    HasRuleTells(f, s, rules[0]);
    HasRuleTells(f, HasRuleOf(f, s, rules[0]).wire, rules[1]);
  }

  // ---------------------------------------------------------------- switching on

  function EnsureChainOf(f: Faults, s: Wire): (out: Outcome<()>)
    ensures s.sent < out.wire.sent && out.wire.tracked == s.tracked
  {
    var listed, one := ReplyTo(f, s, ListChain), After(f, s, ListChain);
    var created, two := if listed.Zero? then Zero else ReplyTo(f, one, NewChain), if listed.Zero? then one else After(f, one, NewChain);
    if listed.Lost? then Outcome(one, Err(()))
    else if !created.Zero? then Outcome(two, Err(()))
    else
      var check := CheckRule(Prerouting, Jump);
      var linked, three := ReplyTo(f, two, check), After(f, two, check);
      if linked.Lost? then Outcome(three, Err(()))
      else if linked.Zero? then Outcome(three, Ok(()))
      else Outcome(After(f, three, InsertJump), if ReplyTo(f, three, InsertJump).Zero? then Ok(()) else Err(()))
  }

  /** Each rule in turn is added to the chain unless it was found. */
  function PutRulesOf(f: Faults, s: Wire, rules: seq<Rule>): (out: Outcome<()>)
    ensures s.sent <= out.wire.sent && out.wire.tracked == s.tracked
    decreases |rules|
  {
    if rules == [] then Outcome(s, Ok(()))
    else
      var has := HasRuleOf(f, s, rules[0]);
      if has.result.Err? then Outcome(has.wire, Err(()))
      else if has.result.value then PutRulesOf(f, has.wire, rules[1..])
      else
        var put := AppendToChain(rules[0]);
        var next := After(f, has.wire, put);
        if ReplyTo(f, has.wire, put).Zero? then PutRulesOf(f, next, rules[1..]) else Outcome(next, Err(()))
  }

  /** The exit code of the command that forgets connections is not looked at. */
  function ForgetOf(f: Faults, s: Wire, rules: seq<Rule>): (out: Outcome<()>)
    requires forall r :: r in rules ==> r.Dnat?
    ensures out.wire.tables == s.tables && s.sent <= out.wire.sent
    ensures FineDuring(f, s.sent, out.wire.sent) ==> out.result.Ok?
    decreases |rules|
  {
    if rules == [] then Outcome(s, Ok(()))
    else
      var c := ForgetConnections(rules[0].src, rules[0].dport);
      if ReplyTo(f, s, c).Lost? then Outcome(After(f, s, c), Err(())) else ForgetOf(f, After(f, s, c), rules[1..])
  }

  /** The last step of both operations: the state must be the one aimed at. */
  function VerifiedOf(f: Faults, s: Wire, rules: seq<Rule>, aim: DnatState): (out: Outcome<DnatState>)
    requires |rules| == 2
    ensures out.wire.tables == s.tables && out.wire.tracked == s.tracked && s.sent < out.wire.sent
  {
    var status := StatusOf(f, s, rules);
    if status.result == Ok(aim) then status else Outcome(status.wire, Err(()))
  }

  predicate OneDevice(rules: seq<Rule>) {
    |rules| == 2 && (forall r :: r in rules ==> r.Dnat?) && rules[0] != rules[1]
  }

  /** All of `enable` up to its last status. */
  function PlacedOf(f: Faults, s: Wire, rules: seq<Rule>): (out: Outcome<()>)
    requires OneDevice(rules)
    ensures s.sent < out.wire.sent
  {
    var connected := s.(sent := s.sent + 1);
    if !f(s.sent).Fine? then Outcome(connected, Err(()))
    else
      var chain := EnsureChainOf(f, connected);
      if chain.result.Err? then chain
      else
        var put := PutRulesOf(f, chain.wire, rules);
        if put.result.Err? then put else ForgetOf(f, put.wire, rules)
  }

  function EnableOf(f: Faults, s: Wire, rules: seq<Rule>): (out: Outcome<DnatState>)
    requires OneDevice(rules)
    ensures s.sent < out.wire.sent
    ensures out.result.Ok? ==> out.result == Ok(On)
  {
    var placed := PlacedOf(f, s, rules);
    if placed.result.Err? then Outcome(placed.wire, Err(())) else VerifiedOf(f, placed.wire, rules, On)
  }

  lemma AppendGrows(f: Faults, s: Wire, r: Rule, t: Tables, rules: seq<Rule>, n: nat)
    requires Grown(t, s.tables, rules, n) && r in rules
    ensures Grown(t, After(f, s, AppendToChain(r)).tables, rules, n + 1)
  {
  }

  lemma {:induction false} PutRulesGrow(f: Faults, s: Wire, rest: seq<Rule>, t: Tables, rules: seq<Rule>, n: nat)
    requires Grown(t, s.tables, rules, n) && forall r :: r in rest ==> r in rules
    ensures Grown(t, PutRulesOf(f, s, rest).wire.tables, rules, n + |rest|)
    decreases |rest|
  {
    if rest != [] {
      var has := HasRuleOf(f, s, rest[0]);
      assert rest[0] in rules;
      AppendGrows(f, has.wire, rest[0], t, rules, n);
      PutRulesGrow(f, has.wire, rest[1..], t, rules, n);
      PutRulesGrow(f, After(f, has.wire, AppendToChain(rest[0])), rest[1..], t, rules, n + 1);
    }
  }

  lemma EnsureChainGrows(f: Faults, s: Wire, rules: seq<Rule>)
    ensures Grown(s.tables, EnsureChainOf(f, s).wire.tables, rules, 0)
  {
    var one := After(f, s, ListChain);
    assert one.tables == s.tables;
    var two := After(f, one, NewChain);
    assert two.tables.prerouting == s.tables.prerouting && RulesAt(two.tables, Chain) == RulesAt(s.tables, Chain);
  }

  /** At whatever exchange it fails, only a jump at the head and the device's own rules at the end are new. */
  lemma EnableGrows(f: Faults, s: Wire, rules: seq<Rule>)
    requires OneDevice(rules)
    ensures Grown(s.tables, EnableOf(f, s, rules).wire.tables, rules, 2)
  {
    var connected := s.(sent := s.sent + 1);
    EnsureChainGrows(f, connected, rules);
    PutRulesGrow(f, EnsureChainOf(f, connected).wire, rules, s.tables, rules, 0);
    assert PlacedOf(f, s, rules).wire.tables in {s.tables, EnsureChainOf(f, connected).wire.tables,
                                                 PutRulesOf(f, EnsureChainOf(f, connected).wire, rules).wire.tables};
  }

  lemma {:induction false} PutRulesKeepPrerouting(f: Faults, s: Wire, rules: seq<Rule>)
    ensures PutRulesOf(f, s, rules).wire.tables.prerouting == s.tables.prerouting
    decreases |rules|
  {
    if rules != [] {
      var has := HasRuleOf(f, s, rules[0]);
      PutRulesKeepPrerouting(f, has.wire, rules[1..]);
      PutRulesKeepPrerouting(f, After(f, has.wire, AppendToChain(rules[0])), rules[1..]);
    }
  }

  /** There was no jump, and it was taken to be there, or to be put there, on an answer without an exit status. */
  predicate JumpFeigned(f: Faults, s: Wire) {
    var one := After(f, s, ListChain);
    var two := if ReplyTo(f, s, ListChain).Zero? then one else After(f, one, NewChain);
    && Jump !in s.tables.prerouting
    && (|| f(two.sent).Blank?
        || f(two.sent + 1) == Blank(false)
        || (f(two.sent + 1) == Blank(true) && two.tables.chain.None?))
  }

  lemma EnsureChainTells(f: Faults, s: Wire)
    requires EnsureChainOf(f, s).result.Ok?
    ensures Jump in EnsureChainOf(f, s).wire.tables.prerouting <==> !JumpFeigned(f, s)
  {
    var one := After(f, s, ListChain);
    var two := if ReplyTo(f, s, ListChain).Zero? then one else After(f, one, NewChain);
    assert two.tables.prerouting == s.tables.prerouting;
    var three := After(f, two, CheckRule(Prerouting, Jump));
    assert three == two.(sent := two.sent + 1);
  }

  /** The exchanges of an enable start with the connection. */
  function Connected(s: Wire): Wire { s.(sent := s.sent + 1) }

  /**
   * After a successful enable both rules are in place exactly when its last checks were not feigned, and the chain is in
   * force exactly when its jump was not.
   */
  lemma EnableTells(f: Faults, s: Wire, rules: seq<Rule>)
    requires OneDevice(rules) && EnableOf(f, s, rules).result.Ok?
    ensures var placed := PlacedOf(f, s, rules).wire;
            StateOf(EnableOf(f, s, rules).wire.tables, rules) == On <==> !Feigned(f, placed.sent, placed.tables, rules)
    ensures Jump in EnableOf(f, s, rules).wire.tables.prerouting <==> !JumpFeigned(f, Connected(s))
  {
    StatusTells(f, PlacedOf(f, s, rules).wire, rules);
    PutRulesKeepPrerouting(f, EnsureChainOf(f, Connected(s)).wire, rules);
    EnsureChainTells(f, Connected(s));
  }

  lemma EnsureChainFine(f: Faults, s: Wire)
    requires FineDuring(f, s.sent, EnsureChainOf(f, s).wire.sent)
    ensures EnsureChainOf(f, s).result.Ok? && EnsureChainOf(f, s).wire.tables == ChainEnsured(s.tables)
  {
    var one := After(f, s, ListChain);
    assert f(s.sent).Fine? && one.sent == s.sent + 1;
    assert f(one.sent).Fine?;
  }

  function AddedAll(t: Tables, rules: seq<Rule>): Tables
    decreases |rules|
  {
    if rules == [] then t else AddedAll(Added(t, rules[0]), rules[1..])
  }

  lemma {:induction false} PutRulesFine(f: Faults, s: Wire, rules: seq<Rule>)
    requires s.tables.chain.Some? && FineDuring(f, s.sent, PutRulesOf(f, s, rules).wire.sent)
    ensures PutRulesOf(f, s, rules).result.Ok? && PutRulesOf(f, s, rules).wire.tables == AddedAll(s.tables, rules)
    decreases |rules|
  {
    if rules != [] {
      var has := HasRuleOf(f, s, rules[0]);
      var put := AppendToChain(rules[0]);
      HasRuleTells(f, s, rules[0]);
      if !Has(s.tables, rules[0]) {
        assert f(has.wire.sent).Fine?;
        PutRulesFine(f, After(f, has.wire, put), rules[1..]);
      } else {
        PutRulesFine(f, has.wire, rules[1..]);
      }
    }
  }

  lemma PlacedFine(f: Faults, s: Wire, rules: seq<Rule>)
    requires OneDevice(rules) && FineDuring(f, s.sent, PlacedOf(f, s, rules).wire.sent)
    ensures PlacedOf(f, s, rules).result.Ok? && PlacedOf(f, s, rules).wire.tables == AddedAll(ChainEnsured(s.tables), rules)
  {
    assert f(s.sent).Fine?;
    PlacedFineFrom(f, s.(sent := s.sent + 1), rules);
  }

  lemma PlacedFineFrom(f: Faults, s: Wire, rules: seq<Rule>)
    requires OneDevice(rules)
    requires var chain := EnsureChainOf(f, s);
             var put := PutRulesOf(f, chain.wire, rules);
             && FineDuring(f, s.sent, chain.wire.sent)
             && (chain.result.Ok? ==> FineDuring(f, s.sent, put.wire.sent))
             && (chain.result.Ok? && put.result.Ok? ==> FineDuring(f, s.sent, ForgetOf(f, put.wire, rules).wire.sent))
    ensures var chain := EnsureChainOf(f, s);
            var put := PutRulesOf(f, chain.wire, rules);
            && chain.result.Ok? && put.result.Ok? && ForgetOf(f, put.wire, rules).result.Ok?
            && put.wire.tables == AddedAll(ChainEnsured(s.tables), rules)
  {
    EnsureChainFine(f, s);
    PutRulesFine(f, EnsureChainOf(f, s).wire, rules);
  }

  lemma AddedAllIsEnabled(t: Tables, rules: seq<Rule>)
    requires |rules| == 2
    ensures AddedAll(ChainEnsured(t), rules) == Enabled(t, rules)
  {
    assert rules[1..] == [rules[1]];
    var once := Added(ChainEnsured(t), rules[0]);
    assert AddedAll(once, [rules[1]]) == AddedAll(Added(once, rules[1]), []);
  }

  /** When nothing goes wrong, exactly the missing rules are added and the state is on. */
  lemma EnableFine(f: Faults, s: Wire, rules: seq<Rule>)
    requires OneDevice(rules) && FineDuring(f, s.sent, EnableOf(f, s, rules).wire.sent)
    ensures EnableOf(f, s, rules).result.Ok? && EnableOf(f, s, rules).wire.tables == Enabled(s.tables, rules)
  {
    PlacedFine(f, s, rules);
    AddedAllIsEnabled(s.tables, rules);
    StatusTells(f, PlacedOf(f, s, rules).wire, rules);
    EnabledIsOn(s.tables, rules);
  }

  // ---------------------------------------------------------------- switching off

  /** Up to `n` copies of a rule are deleted from one chain. */
  function RemoveCopiesOf(f: Faults, s: Wire, at: Location, r: Rule, n: nat): (out: Outcome<()>)
    ensures s.sent <= out.wire.sent && out.wire.tracked == s.tracked
    decreases n, s, at, r
  {
    if n == 0 then Outcome(s, Ok(()))
    else
      var present, asked := ReplyTo(f, s, CheckRule(at, r)), After(f, s, CheckRule(at, r));
      if present.Lost? then Outcome(asked, Err(()))
      else if present.Nonzero? then Outcome(asked, Ok(()))
      else
        var next := After(f, asked, DeleteRule(at, r));
        if ReplyTo(f, asked, DeleteRule(at, r)).Zero? then RemoveCopiesOf(f, next, at, r, n - 1) else Outcome(next, Err(()))
  }

  function RemoveRuleOf(f: Faults, s: Wire, r: Rule): (out: Outcome<()>)
    ensures s.sent <= out.wire.sent && out.wire.tracked == s.tracked
  {
    var chain := RemoveCopiesOf(f, s, Chain, r, MAX_COPIES);
    if chain.result.Err? then chain else RemoveCopiesOf(f, chain.wire, Prerouting, r, MAX_COPIES)
  }

  function RemoveRulesOf(f: Faults, s: Wire, rules: seq<Rule>): (out: Outcome<()>)
    ensures s.sent <= out.wire.sent && out.wire.tracked == s.tracked
    decreases |rules|
  {
    if rules == [] then Outcome(s, Ok(()))
    else
      var removed := RemoveRuleOf(f, s, rules[0]);
      if removed.result.Err? then removed else RemoveRulesOf(f, removed.wire, rules[1..])
  }

  /** All of `disable` up to its last status. */
  function CleanedOf(f: Faults, s: Wire, rules: seq<Rule>): (out: Outcome<()>)
    requires OneDevice(rules)
    ensures s.sent < out.wire.sent
  {
    var connected := s.(sent := s.sent + 1);
    if !f(s.sent).Fine? then Outcome(connected, Err(()))
    else
      var removed := RemoveRulesOf(f, connected, rules);
      if removed.result.Err? then removed else ForgetOf(f, removed.wire, rules)
  }

  function DisableOf(f: Faults, s: Wire, rules: seq<Rule>): (out: Outcome<DnatState>)
    requires OneDevice(rules)
    ensures s.sent < out.wire.sent
    ensures out.result.Ok? ==> out.result == Ok(Off)
  {
    var cleaned := CleanedOf(f, s, rules);
    if cleaned.result.Err? then Outcome(cleaned.wire, Err(())) else VerifiedOf(f, cleaned.wire, rules, Off)
  }

  lemma PrunedTwice(t: Tables, u: Tables, v: Tables, rules: seq<Rule>)
    requires Pruned(t, u, rules) && Pruned(u, v, rules)
    ensures Pruned(t, v, rules)
  {
  }

  lemma DeletionPrunes(f: Faults, s: Wire, at: Location, r: Rule, rules: seq<Rule>)
    requires r in rules
    ensures Pruned(s.tables, After(f, s, DeleteRule(at, r)).tables, rules)
  {
    if r in RulesAt(s.tables, at) {
      DeletedIsPruned(s.tables, at, r, rules);
    }
  }

  lemma {:induction false} RemoveCopiesPrunes(f: Faults, s: Wire, at: Location, r: Rule, n: nat, rules: seq<Rule>)
    requires r in rules
    ensures Pruned(s.tables, RemoveCopiesOf(f, s, at, r, n).wire.tables, rules)
    decreases n
  {
    if n > 0 {
      var asked := After(f, s, CheckRule(at, r));
      var next := After(f, asked, DeleteRule(at, r));
      DeletionPrunes(f, asked, at, r, rules);
      RemoveCopiesPrunes(f, next, at, r, n - 1, rules);
      PrunedTwice(s.tables, next.tables, RemoveCopiesOf(f, next, at, r, n - 1).wire.tables, rules);
    }
  }

  lemma RemoveRulePrunes(f: Faults, s: Wire, r: Rule, rules: seq<Rule>)
    requires r in rules
    ensures Pruned(s.tables, RemoveRuleOf(f, s, r).wire.tables, rules)
  {
    var chain := RemoveCopiesOf(f, s, Chain, r, MAX_COPIES);
    RemoveCopiesPrunes(f, s, Chain, r, MAX_COPIES, rules);
    RemoveCopiesPrunes(f, chain.wire, Prerouting, r, MAX_COPIES, rules);
    if chain.result.Ok? {
      PrunedTwice(s.tables, chain.wire.tables, RemoveRuleOf(f, s, r).wire.tables, rules);
    }
  }

  lemma {:induction false} RemoveRulesPrune(f: Faults, s: Wire, rest: seq<Rule>, rules: seq<Rule>)
    requires forall r :: r in rest ==> r in rules
    ensures Pruned(s.tables, RemoveRulesOf(f, s, rest).wire.tables, rules)
    decreases |rest|
  {
    if rest != [] {
      var removed := RemoveRuleOf(f, s, rest[0]);
      RemoveRulePrunes(f, s, rest[0], rules);
      RemoveRulesPrune(f, removed.wire, rest[1..], rules);
      PrunedTwice(s.tables, removed.wire.tables, RemoveRulesOf(f, removed.wire, rest[1..]).wire.tables, rules);
    }
  }

  /** At whatever exchange it fails, all other rules stay in order. */
  lemma DisablePrunes(f: Faults, s: Wire, rules: seq<Rule>)
    requires OneDevice(rules)
    ensures Pruned(s.tables, CleanedOf(f, s, rules).wire.tables, rules)
    ensures Pruned(s.tables, DisableOf(f, s, rules).wire.tables, rules)
  {
    RemoveRulesPrune(f, s.(sent := s.sent + 1), rules, rules);
  }

  lemma {:induction false} RemoveCopiesFine(f: Faults, s: Wire, at: Location, r: Rule, n: nat)
    requires FineDuring(f, s.sent, RemoveCopiesOf(f, s, at, r, n).wire.sent)
    ensures RemoveCopiesOf(f, s, at, r, n).result.Ok?
    ensures RemoveCopiesOf(f, s, at, r, n).wire.tables == Cleared(s.tables, at, r, n)
    decreases n
  {
    if n > 0 {
      var asked := After(f, s, CheckRule(at, r));
      assert f(s.sent).Fine? && asked == s.(sent := s.sent + 1);
      if r in RulesAt(s.tables, at) {
        assert f(asked.sent).Fine?;
        RemoveCopiesFine(f, After(f, asked, DeleteRule(at, r)), at, r, n - 1);
      }
    }
  }

  lemma RemoveRuleFine(f: Faults, s: Wire, r: Rule)
    requires FineDuring(f, s.sent, RemoveRuleOf(f, s, r).wire.sent)
    ensures RemoveRuleOf(f, s, r).result.Ok? && RemoveRuleOf(f, s, r).wire.tables == ClearedBoth(s.tables, r)
  {
    RemoveCopiesFine(f, s, Chain, r, MAX_COPIES);
    RemoveCopiesFine(f, RemoveCopiesOf(f, s, Chain, r, MAX_COPIES).wire, Prerouting, r, MAX_COPIES);
  }

  function ClearedAll(t: Tables, rules: seq<Rule>): Tables
    decreases |rules|
  {
    if rules == [] then t else ClearedAll(ClearedBoth(t, rules[0]), rules[1..])
  }

  lemma {:induction false} RemoveRulesFine(f: Faults, s: Wire, rules: seq<Rule>)
    requires FineDuring(f, s.sent, RemoveRulesOf(f, s, rules).wire.sent)
    ensures RemoveRulesOf(f, s, rules).result.Ok? && RemoveRulesOf(f, s, rules).wire.tables == ClearedAll(s.tables, rules)
    decreases |rules|
  {
    if rules != [] {
      RemoveRuleFine(f, s, rules[0]);
      RemoveRulesFine(f, RemoveRuleOf(f, s, rules[0]).wire, rules[1..]);
    }
  }

  lemma ClearedAllIsDisabled(t: Tables, rules: seq<Rule>)
    requires |rules| == 2
    ensures ClearedAll(t, rules) == Disabled(t, rules)
  {
    assert rules[1..] == [rules[1]];
    var once := ClearedBoth(t, rules[0]);
    assert ClearedAll(once, [rules[1]]) == ClearedAll(ClearedBoth(once, rules[1]), []);
  }

  lemma CleanedFine(f: Faults, s: Wire, rules: seq<Rule>)
    requires OneDevice(rules) && FineDuring(f, s.sent, CleanedOf(f, s, rules).wire.sent)
    ensures CleanedOf(f, s, rules).result.Ok? && CleanedOf(f, s, rules).wire.tables == ClearedAll(s.tables, rules)
  {
    assert f(s.sent).Fine?;
    RemoveRulesFine(f, s.(sent := s.sent + 1), rules);
  }

  /** When nothing goes wrong, ten copies of each rule go from each chain, and that is a success when there were no more. */
  lemma DisableFine(f: Faults, s: Wire, rules: seq<Rule>)
    requires OneDevice(rules) && FineDuring(f, s.sent, DisableOf(f, s, rules).wire.sent)
    ensures DisableOf(f, s, rules).wire.tables == Disabled(s.tables, rules)
    ensures DisableOf(f, s, rules).result.Ok? <==> FewCopies(s.tables, rules)
  {
    CleanedFine(f, s, rules);
    ClearedAllIsDisabled(s.tables, rules);
    StatusTells(f, CleanedOf(f, s, rules).wire, rules);
    DisabledState(s.tables, rules);
  }

  /** A disable that reports `off` is right exactly when none of its last four checks was refused for a rule still there. */
  lemma DisableTells(f: Faults, s: Wire, rules: seq<Rule>)
    requires OneDevice(rules) && DisableOf(f, s, rules).result.Ok?
    ensures var cleaned := CleanedOf(f, s, rules).wire;
            StateOf(DisableOf(f, s, rules).wire.tables, rules) == Off <==> !Denied(f, cleaned.sent, cleaned.tables, rules)
  {
    StatusTells(f, CleanedOf(f, s, rules).wire, rules);
  }

  // ---------------------------------------------------------------- connections that are open already

  /** What the router still tracks after the two commands from exchange `n` on that make it forget these rules' connections. */
  function Forgetting(f: Faults, n: nat, tracked: set<(Ip, nat)>, rules: seq<Rule>): set<(Ip, nat)>
    requires OneDevice(rules)
  {
    set c | c in tracked && !(c == (rules[0].src, rules[0].dport) && TakesEffect(f(n)))
                         && !(c == (rules[1].src, rules[1].dport) && TakesEffect(f(n + 1)))
  }

  lemma ForgetTells(f: Faults, s: Wire, rules: seq<Rule>)
    requires OneDevice(rules) && ForgetOf(f, s, rules).result.Ok?
    ensures ForgetOf(f, s, rules).wire.tracked == Forgetting(f, s.sent, s.tracked, rules)
  {
    var c, d := ForgetConnections(rules[0].src, rules[0].dport), ForgetConnections(rules[1].src, rules[1].dport);
    var one := After(f, s, c);
    var two := After(f, one, d);
    assert rules[1..][1..] == [] && ForgetOf(f, one, rules[1..]).wire == ForgetOf(f, two, []).wire == two;
  }

  /**
   * An operation that succeeds makes the router forget the device's open connections to its two ports, as far as it carries
   * those commands out, and no others: the answers are not looked at.
   */
  lemma EnableForgets(f: Faults, s: Wire, rules: seq<Rule>)
    requires OneDevice(rules) && EnableOf(f, s, rules).result.Ok?
    ensures var put := PutRulesOf(f, EnsureChainOf(f, Connected(s)).wire, rules).wire;
            EnableOf(f, s, rules).wire.tracked == Forgetting(f, put.sent, s.tracked, rules)
  {
    ForgetTells(f, PutRulesOf(f, EnsureChainOf(f, Connected(s)).wire, rules).wire, rules);
  }

  lemma DisableForgets(f: Faults, s: Wire, rules: seq<Rule>)
    requires OneDevice(rules) && DisableOf(f, s, rules).result.Ok?
    ensures var removed := RemoveRulesOf(f, Connected(s), rules).wire;
            DisableOf(f, s, rules).wire.tracked == Forgetting(f, removed.sent, s.tracked, rules)
  {
    ForgetTells(f, RemoveRulesOf(f, Connected(s), rules).wire, rules);
  }

  function Openings(rules: seq<Rule>): set<(Ip, nat)>
    requires OneDevice(rules)
  {
    {(rules[0].src, rules[0].dport), (rules[1].src, rules[1].dport)}
  }

  lemma FineForgetting(f: Faults, n: nat, tracked: set<(Ip, nat)>, rules: seq<Rule>)
    requires OneDevice(rules) && f(n).Fine? && f(n + 1).Fine?
    ensures Forgetting(f, n, tracked, rules) == tracked - Openings(rules)
  {
  }

  lemma ForgetSends(f: Faults, s: Wire, rules: seq<Rule>)
    requires OneDevice(rules) && ForgetOf(f, s, rules).result.Ok?
    ensures ForgetOf(f, s, rules).wire.sent == s.sent + 2
  {
    var one := After(f, s, ForgetConnections(rules[0].src, rules[0].dport));
    assert rules[1..][1..] == [];
    assert ForgetOf(f, one, rules[1..]).wire.sent == one.sent + 1;
  }

  lemma EnableForgetsBoth(f: Faults, s: Wire, rules: seq<Rule>)
    requires OneDevice(rules)
    ensures var on := EnableOf(f, s, rules);
            FineDuring(f, s.sent, on.wire.sent) ==> on.wire.tracked == s.tracked - Openings(rules)
  {
    var put := PutRulesOf(f, EnsureChainOf(f, Connected(s)).wire, rules).wire;
    if FineDuring(f, s.sent, EnableOf(f, s, rules).wire.sent) {
      EnableFine(f, s, rules);
      EnableForgets(f, s, rules);
      ForgetSends(f, put, rules);
      FineForgetting(f, put.sent, s.tracked, rules);
    }
  }

  lemma DisableForgetsBoth(f: Faults, s: Wire, rules: seq<Rule>)
    requires OneDevice(rules)
    ensures var off := DisableOf(f, s, rules);
            FineDuring(f, s.sent, off.wire.sent) && off.result.Ok? ==> off.wire.tracked == s.tracked - Openings(rules)
  {
    var removed := RemoveRulesOf(f, Connected(s), rules).wire;
    if FineDuring(f, s.sent, DisableOf(f, s, rules).wire.sent) && DisableOf(f, s, rules).result.Ok? {
      DisableForgets(f, s, rules);
      ForgetSends(f, removed, rules);
      FineForgetting(f, removed.sent, s.tracked, rules);
    }
  }

  // ---------------------------------------------------------------- false answers

  function RefusesAfter(n: nat): Faults { (k: nat) => if k < n then Fine else Refused }

  function BlankAfter(n: nat): Faults { (k: nat) => if k < n then Fine else Blank(false) }

  lemma {:induction false} RefusedRemoval(f: Faults, s: Wire, rules: seq<Rule>)
    requires forall k: nat :: k >= s.sent ==> f(k) == Refused
    ensures RemoveRulesOf(f, s, rules).result.Ok? && RemoveRulesOf(f, s, rules).wire.tables == s.tables
    decreases |rules|
  {
    if rules != [] {
      var once := s.(sent := s.sent + 1);
      assert RemoveCopiesOf(f, s, Chain, rules[0], MAX_COPIES) == Outcome(once, Ok(()));
      RefusedRemoval(f, RemoveRuleOf(f, s, rules[0]).wire, rules[1..]);
    }
  }

  lemma {:induction false} RefusedForgetting(f: Faults, s: Wire, rules: seq<Rule>)
    requires forall k: nat :: k >= s.sent ==> f(k) == Refused
    requires forall r :: r in rules ==> r.Dnat?
    ensures ForgetOf(f, s, rules).result.Ok?
    decreases |rules|
  {
    if rules != [] {
      RefusedForgetting(f, s.(sent := s.sent + 1), rules[1..]);
    }
  }

  /** A router that lets the client in and then refuses every command is reported `off`, whatever its tables hold. */
  lemma DisableLies(t: Tables, tracked: set<(Ip, nat)>, rules: seq<Rule>)
    requires OneDevice(rules)
    ensures DisableOf(RefusesAfter(1), Wire(t, 0, tracked), rules).result == Ok(Off)
    ensures DisableOf(RefusesAfter(1), Wire(t, 0, tracked), rules).wire.tables == t
  {
    var f, s := RefusesAfter(1), Wire(t, 1, tracked);
    RefusedRemoval(f, s, rules);
    RefusedForgetting(f, RemoveRulesOf(f, s, rules).wire, rules);
  }

  /** Whatever its tables hold, a router is reported `on` when every channel closes without an exit status. */
  lemma EnableLies(t: Tables, tracked: set<(Ip, nat)>, rules: seq<Rule>)
    requires OneDevice(rules)
    ensures EnableOf(BlankAfter(1), Wire(t, 0, tracked), rules).result == Ok(On)
    ensures EnableOf(BlankAfter(1), Wire(t, 0, tracked), rules).wire.tables == t
  {
    var f, s := BlankAfter(1), Wire(t, 1, tracked);
    assert EnsureChainOf(f, s) == Outcome(Wire(t, 3, tracked), Ok(()));
    BlankPlacing(f, Wire(t, 3, tracked), rules);
    BlankForgetting(f, PutRulesOf(f, Wire(t, 3, tracked), rules).wire, rules);
  }

  lemma {:induction false} BlankPlacing(f: Faults, s: Wire, rules: seq<Rule>)
    requires forall k: nat :: k >= s.sent ==> f(k) == Blank(false)
    ensures PutRulesOf(f, s, rules).result.Ok? && PutRulesOf(f, s, rules).wire.tables == s.tables
    decreases |rules|
  {
    if rules != [] {
      BlankPlacing(f, s.(sent := s.sent + 1), rules[1..]);
    }
  }

  lemma {:induction false} BlankForgetting(f: Faults, s: Wire, rules: seq<Rule>)
    requires forall k: nat :: k >= s.sent ==> f(k) == Blank(false)
    requires forall r :: r in rules ==> r.Dnat?
    ensures ForgetOf(f, s, rules).result.Ok?
    decreases |rules|
  {
    if rules != [] {
      BlankForgetting(f, s.(sent := s.sent + 1), rules[1..]);
    }
  }
}
