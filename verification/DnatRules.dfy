/** What on and off come to. */
module DnatRules {
  // The rules of one appliance in the router's tables (router/dnat-manager.ts).

  import opened Common
  import opened NatTables

  datatype DnatState = On | Off | Partial

  function Ports(platform: Option<Platform>): seq<(nat, nat)> {
    if platform == Some(Thinq1) then [(46030, 46030), (47878, 47878)] else [(443, 4433), (8883, 8883)]
  }

  function RuleFor(ip: Ip, ports: (nat, nat), rethinkIp: Ip): Rule { Dnat(ip, ports.0, rethinkIp, ports.1) }

  function RulesFor(ip: Ip, platform: Option<Platform>, rethinkIp: Ip): (r: seq<Rule>)
    ensures |r| == 2 && r[0] != r[1] && Jump !in r
    ensures forall i :: 0 <= i < 2 ==> r[i].Dnat? && r[i].src == ip && r[i] == RuleFor(ip, Ports(platform)[i], rethinkIp)
  {
    [RuleFor(ip, Ports(platform)[0], rethinkIp), RuleFor(ip, Ports(platform)[1], rethinkIp)]
  }

  predicate Has(t: Tables, r: Rule) { r in RulesAt(t, Chain) || r in RulesAt(t, Prerouting) }

  function StateOf(t: Tables, rules: seq<Rule>): DnatState
    requires |rules| == 2
  {
    if Has(t, rules[0]) && Has(t, rules[1]) then On
    else if !Has(t, rules[0]) && !Has(t, rules[1]) then Off
    else Partial
  }

  // ---------------------------------------------------------------- what enabling does

  function ChainEnsured(t: Tables): Tables {
    Tables(
      if Jump in t.prerouting then t.prerouting else [Jump] + t.prerouting,
      if t.chain.Some? then t.chain else Some([]))
  }

  function Added(t: Tables, r: Rule): Tables {
    if Has(t, r) then t else WithRules(t, Chain, RulesAt(t, Chain) + [r])
  }

  function Enabled(t: Tables, rules: seq<Rule>): Tables
    requires |rules| == 2
  {
    Added(Added(ChainEnsured(t), rules[0]), rules[1])
  }

  /** At most a jump at the head of PREROUTING, and at most `n` of the device's own rules at the end of the chain. */
  ghost predicate Grown(t: Tables, t': Tables, rules: seq<Rule>, n: nat) {
    && (t'.prerouting == t.prerouting || t'.prerouting == [Jump] + t.prerouting)
    && (t.chain.Some? ==> t'.chain.Some?)
    && RulesAt(t, Chain) <= RulesAt(t', Chain)
    && |RulesAt(t', Chain)| <= |RulesAt(t, Chain)| + n
    && forall i :: |RulesAt(t, Chain)| <= i < |RulesAt(t', Chain)| ==> RulesAt(t', Chain)[i] in rules
  }

  lemma EnabledIsOn(t: Tables, rules: seq<Rule>)
    requires |rules| == 2
    ensures StateOf(Enabled(t, rules), rules) == On
  {
    var one := Added(ChainEnsured(t), rules[0]);
    assert Has(one, rules[0]);
    assert forall r :: Has(one, r) ==> Has(Added(one, rules[1]), r);
    assert Has(Added(one, rules[1]), rules[1]);
  }

  // ---------------------------------------------------------------- what disabling does

  const MAX_COPIES := 10

  /** Deletes up to `n` copies of a rule from one chain. */
  function Cleared(t: Tables, at: Location, r: Rule, n: nat): Tables
    decreases n
  {
    if n == 0 || r !in RulesAt(t, at) then t else Cleared(Applied(t, DeleteRule(at, r)), at, r, n - 1)
  }

  function ClearedBoth(t: Tables, r: Rule): Tables {
    Cleared(Cleared(t, Chain, r, MAX_COPIES), Prerouting, r, MAX_COPIES)
  }

  function Disabled(t: Tables, rules: seq<Rule>): Tables
    requires |rules| == 2
  {
    ClearedBoth(ClearedBoth(t, rules[0]), rules[1])
  }

  function NotOf(rules: seq<Rule>): Rule -> bool { r => r !in rules }

  /** Both chains keep all their other rules in order, and have no more of these than before. */
  ghost predicate Pruned(t: Tables, t': Tables, rules: seq<Rule>) {
    && t'.chain.Some? == t.chain.Some?
    && (forall at :: Filter(NotOf(rules), RulesAt(t', at)) == Filter(NotOf(rules), RulesAt(t, at)))
    && (forall at, r :: Count(RulesAt(t', at), r) <= Count(RulesAt(t, at), r))
  }

  lemma DeletedIsPruned(t: Tables, at: Location, r: Rule, rules: seq<Rule>)
    requires r in RulesAt(t, at) && r in rules
    ensures Pruned(t, Applied(t, DeleteRule(at, r)), rules)
  {
    var list, t' := RulesAt(t, at), Applied(t, DeleteRule(at, r));
    RemovedOthers(list, r, NotOf(rules));
    assert RulesAt(t', at) == RemoveFirst(list, r);
    assert forall other :: other != at ==> RulesAt(t', other) == RulesAt(t, other);
    RemovedCounts(list, r);
  }

  lemma RemovedCounts(list: seq<Rule>, r: Rule)
    requires r in list
    ensures forall s :: Count(RemoveFirst(list, r), s) <= Count(list, s)
  {
    forall s
      ensures Count(RemoveFirst(list, r), s) <= Count(list, s)
    {
      RemovedCount(list, r, s);
    }
  }

  predicate FewCopies(t: Tables, rules: seq<Rule>)
    requires |rules| == 2
  {
    forall at :: CopiesAt(t, at, rules[0]) <= MAX_COPIES && CopiesAt(t, at, rules[1]) <= MAX_COPIES
  }

  function CopiesAt(t: Tables, at: Location, r: Rule): nat { Count(RulesAt(t, at), r) }

  function Left(n: nat): nat { if n <= MAX_COPIES then 0 else n - MAX_COPIES }

  lemma DeletedCount(t: Tables, at: Location, r: Rule, where: Location, s: Rule)
    requires r in RulesAt(t, at)
    ensures CopiesAt(Applied(t, DeleteRule(at, r)), where, s) == CopiesAt(t, where, s) - if where == at && s == r then 1 else 0
  {
    var t' := Applied(t, DeleteRule(at, r));
    RemovedCount(RulesAt(t, at), r, s);
    assert RulesAt(t', at) == RemoveFirst(RulesAt(t, at), r);
    assert where != at ==> RulesAt(t', where) == RulesAt(t, where);
  }

  lemma {:induction false} ClearedCount(t: Tables, at: Location, r: Rule, n: nat, where: Location, s: Rule)
    ensures CopiesAt(Cleared(t, at, r, n), where, s)
            == var c := CopiesAt(t, where, s); if where == at && s == r then (if c <= n then 0 else c - n) else c
    decreases n
  {
    CountMember(RulesAt(t, at), r);
    if n > 0 && r in RulesAt(t, at) {
      DeletedCount(t, at, r, where, s);
      ClearedCount(Applied(t, DeleteRule(at, r)), at, r, n - 1, where, s);
    }
  }

  /** Ten copies of each rule go from each chain, so `off` is reached exactly when there were no more. */
  lemma DisabledState(t: Tables, rules: seq<Rule>)
    requires |rules| == 2 && rules[0] != rules[1]
    ensures forall at :: CopiesAt(Disabled(t, rules), at, rules[0]) == Left(CopiesAt(t, at, rules[0]))
                         && CopiesAt(Disabled(t, rules), at, rules[1]) == Left(CopiesAt(t, at, rules[1]))
    ensures StateOf(Disabled(t, rules), rules) == Off <==> FewCopies(t, rules)
  {
    var once := ClearedBoth(t, rules[0]);
    forall at
      ensures CopiesAt(Disabled(t, rules), at, rules[0]) == Left(CopiesAt(t, at, rules[0]))
      ensures CopiesAt(Disabled(t, rules), at, rules[1]) == Left(CopiesAt(t, at, rules[1]))
    {
      ClearedBothCount(t, rules[0], at, rules[0]);
      ClearedBothCount(t, rules[0], at, rules[1]);
      ClearedBothCount(once, rules[1], at, rules[0]);
      ClearedBothCount(once, rules[1], at, rules[1]);
    }
    OffWhenNoneLeft(t, Disabled(t, rules), rules);
  }

  lemma OffWhenNoneLeft(t: Tables, d: Tables, rules: seq<Rule>)
    requires |rules| == 2
    requires forall at :: CopiesAt(d, at, rules[0]) == Left(CopiesAt(t, at, rules[0]))
                          && CopiesAt(d, at, rules[1]) == Left(CopiesAt(t, at, rules[1]))
    ensures StateOf(d, rules) == Off <==> FewCopies(t, rules)
  {
    GoneIff(d, rules[0]);
    GoneIff(d, rules[1]);
  }

  lemma GoneIff(t: Tables, r: Rule)
    ensures !Has(t, r) <==> CopiesAt(t, Chain, r) == 0 && CopiesAt(t, Prerouting, r) == 0
  {
    CountMember(RulesAt(t, Chain), r);
    CountMember(RulesAt(t, Prerouting), r);
  }

  lemma ClearedBothCount(t: Tables, r: Rule, where: Location, s: Rule)
    ensures CopiesAt(ClearedBoth(t, r), where, s) == if s == r then Left(CopiesAt(t, where, s)) else CopiesAt(t, where, s)
  {
    ClearedCount(t, Chain, r, MAX_COPIES, where, s);
    ClearedCount(Cleared(t, Chain, r, MAX_COPIES), Prerouting, r, MAX_COPIES, where, s);
  }
}
