/**
 * The part of the router's nat table that the DNAT manager works on (router/dnat-manager.ts), the commands that change
 * it, what it does to a connection, and facts about lists of rules: how many copies there are of each, which of them are
 * left out by filtering, and who decides.
 */
module NatTables {
  import opened Common

  type Ip = string

  /** `Foreign` is any rule the program did not write; it takes the connections in `hits`. */
  datatype Rule =
    | Dnat(src: Ip, dport: nat, to: Ip, toPort: nat)
    | Jump
    | Foreign(tag: nat, hits: set<(Ip, nat)>)

  /** The PREROUTING chain, and the RETHINK_DNAT chain once it exists. */
  datatype Tables = Tables(prerouting: seq<Rule>, chain: Option<seq<Rule>>)

  datatype Location = Chain | Prerouting

  function RulesAt(t: Tables, at: Location): seq<Rule> {
    if at.Prerouting? then t.prerouting else if t.chain.Some? then t.chain.value else []
  }

  function WithRules(t: Tables, at: Location, rules: seq<Rule>): Tables {
    if at.Prerouting? then t.(prerouting := rules) else t.(chain := Some(rules))
  }

  datatype Command =
    | ListChain
    | NewChain
    | CheckRule(at: Location, rule: Rule)
    | AppendToChain(rule: Rule)
    | InsertJump
    | DeleteRule(at: Location, rule: Rule)
    | ForgetConnections(src: Ip, dport: nat)

  /** Whether the router carries the command out (exit code 0). */
  predicate Possible(t: Tables, c: Command) {
    match c
    case ListChain => t.chain.Some?
    case NewChain => t.chain.None?
    case CheckRule(at, rule) => rule in RulesAt(t, at)
    case AppendToChain(_) => t.chain.Some?
    case InsertJump => t.chain.Some?
    case DeleteRule(at, rule) => rule in RulesAt(t, at)
    case ForgetConnections(_, _) => true
  }

  function RemoveFirst(rules: seq<Rule>, r: Rule): seq<Rule> {
    if rules == [] then []
    else if rules[0] == r then rules[1..]
    else [rules[0]] + RemoveFirst(rules[1..], r)
  }

  function Applied(t: Tables, c: Command): Tables
    requires Possible(t, c)
  {
    match c
    case NewChain => t.(chain := Some([]))
    case AppendToChain(rule) => t.(chain := Some(t.chain.value + [rule]))
    case InsertJump => t.(prerouting := [Jump] + t.prerouting)
    case DeleteRule(at, rule) => WithRules(t, at, RemoveFirst(RulesAt(t, at), rule))
    case _ => t
  }

  function Count(rules: seq<Rule>, r: Rule): nat {
    if rules == [] then 0 else (if rules[0] == r then 1 else 0) + Count(rules[1..], r)
  }

  // ---------------------------------------------------------------- what happens to a connection

  datatype Verdict = Untouched | Forwarded(to: Ip, toPort: nat) | Taken(tag: nat)

  predicate Catches(r: Rule, src: Ip, dport: nat) {
    match r
    case Dnat(s, d, _, _) => s == src && d == dport
    case Jump => false
    case Foreign(_, hits) => (src, dport) in hits
  }

  function Sends(r: Rule): Verdict {
    match r
    case Dnat(_, _, to, toPort) => Forwarded(to, toPort)
    case Jump => Untouched
    case Foreign(tag, _) => Taken(tag)
  }

  /** The first rule that catches the connection decides; a jump asks the chain first. */
  function Scan(rules: seq<Rule>, chain: seq<Rule>, src: Ip, dport: nat): Verdict
    decreases |rules| + |chain|, |rules|
  {
    if rules == [] then Untouched
    else if Catches(rules[0], src, dport) then Sends(rules[0])
    else if rules[0].Jump? && ScanChain(chain, src, dport) != Untouched then ScanChain(chain, src, dport)
    else Scan(rules[1..], chain, src, dport)
  }

  function ScanChain(chain: seq<Rule>, src: Ip, dport: nat): Verdict {
    if chain == [] then Untouched
    else if Catches(chain[0], src, dport) then Sends(chain[0])
    else ScanChain(chain[1..], src, dport)
  }

  function Route(t: Tables, src: Ip, dport: nat): Verdict {
    Scan(t.prerouting, RulesAt(t, Chain), src, dport)
  }

  // ---------------------------------------------------------------- facts about rule lists

  lemma {:induction false} CountMember(rules: seq<Rule>, r: Rule)
    ensures r in rules <==> Count(rules, r) > 0
  {
    if rules != [] {
      CountMember(rules[1..], r);
    }
  }

  lemma {:induction false} RemovedCount(rules: seq<Rule>, r: Rule, s: Rule)
    requires r in rules
    ensures Count(RemoveFirst(rules, r), s) == Count(rules, s) - if r == s then 1 else 0
  {
    if rules[0] != r {
      RemovedCount(rules[1..], r, s);
      assert RemoveFirst(rules, r)[1..] == RemoveFirst(rules[1..], r);
    }
  }

  lemma {:induction false} RemovedOthers(rules: seq<Rule>, r: Rule, keep: Rule -> bool)
    requires !keep(r)
    ensures Filter(keep, RemoveFirst(rules, r)) == Filter(keep, rules)
  {
    if rules != [] && rules[0] != r {
      RemovedOthers(rules[1..], r, keep);
      assert RemoveFirst(rules, r)[1..] == RemoveFirst(rules[1..], r);
    }
  }

  /** Rules that do not catch a connection can be left out without changing what happens to it. */
  lemma {:induction false} ScanFiltered(rules: seq<Rule>, chain: seq<Rule>, keep: Rule -> bool, src: Ip, dport: nat)
    requires keep(Jump) && forall r :: !keep(r) ==> !Catches(r, src, dport)
    ensures Scan(rules, chain, src, dport) == Scan(Filter(keep, rules), Filter(keep, chain), src, dport)
  {
    ScanChainFiltered(chain, keep, src, dport);
    if rules != [] {
      ScanFiltered(rules[1..], chain, keep, src, dport);
      var rest := Filter(keep, rules[1..]);
      if keep(rules[0]) {
        assert Filter(keep, rules)[1..] == rest;
      } else {
        assert Filter(keep, rules) == rest;
      }
    }
  }

  lemma {:induction false} ScanChainFiltered(chain: seq<Rule>, keep: Rule -> bool, src: Ip, dport: nat)
    requires forall r :: !keep(r) ==> !Catches(r, src, dport)
    ensures ScanChain(chain, src, dport) == ScanChain(Filter(keep, chain), src, dport)
  {
    if chain != [] {
      ScanChainFiltered(chain[1..], keep, src, dport);
      var rest := Filter(keep, chain[1..]);
      if keep(chain[0]) {
        assert Filter(keep, chain)[1..] == rest;
      } else {
        assert Filter(keep, chain) == rest;
      }
    }
  }

  lemma {:induction false} ScanChainAppend(chain: seq<Rule>, more: seq<Rule>, src: Ip, dport: nat)
    ensures ScanChain(chain + more, src, dport)
            == if ScanChain(chain, src, dport) != Untouched then ScanChain(chain, src, dport) else ScanChain(more, src, dport)
  {
    if chain == [] {
      assert chain + more == more;
    } else {
      assert (chain + more)[1..] == chain[1..] + more;
      ScanChainAppend(chain[1..], more, src, dport);
    }
  }

  /** When only `r` catches a connection, whoever lists `r` sends the connection where `r` says. */
  lemma {:induction false} ScanChainFinds(chain: seq<Rule>, r: Rule, src: Ip, dport: nat)
    requires Catches(r, src, dport) && forall s :: s in chain && Catches(s, src, dport) ==> s == r
    ensures ScanChain(chain, src, dport) == if r in chain then Sends(r) else Untouched
  {
    if chain != [] {
      ScanChainFinds(chain[1..], r, src, dport);
    }
  }

  lemma {:induction false} ScanFinds(rules: seq<Rule>, chain: seq<Rule>, r: Rule, src: Ip, dport: nat)
    requires Catches(r, src, dport) && forall s :: (s in rules || s in chain) && Catches(s, src, dport) ==> s == r
    ensures Scan(rules, chain, src, dport) == if r in rules || (Jump in rules && r in chain) then Sends(r) else Untouched
  {
    ScanChainFinds(chain, r, src, dport);
    if rules != [] {
      ScanFinds(rules[1..], chain, r, src, dport);
    }
  }
}
