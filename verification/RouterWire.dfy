/** The SSH connection to the router (router/ssh-client.ts), with everything that may go wrong on it. */
module RouterWire {
  import opened Common
  import opened NatTables

  /** How a command ended: exit code 0, another exit code, or no answer at all. */
  datatype Reply = Zero | Nonzero | Lost

  /**
   * What befalls one exchange: nothing; a refusal of a command that may have been possible; a connection that breaks
   * before or after the command took effect; or a channel that closes without an exit status, done or not, which the
   * client takes for exit code 0 (ssh-client.ts:84, 124-128).
   */
  datatype Fault = Fine | Refused | Dropped | Late | Blank(done: bool)

  type Faults = nat -> Fault

  /**
   * The router's tables, how many exchanges there have been, which number picks the fault of the next, and the connections,
   * by device and port, that the router still treats as it did when they were opened.
   */
  datatype Wire = Wire(tables: Tables, sent: nat, tracked: set<(Ip, nat)>)

  /** What a sequence of exchanges leaves, and what it tells the caller. */
  datatype Outcome<T> = Outcome(wire: Wire, result: Result<T, ()>)

  function ReplyTo(f: Faults, s: Wire, c: Command): Reply {
    match f(s.sent)
    case Fine => if Possible(s.tables, c) then Zero else Nonzero
    case Refused => Nonzero
    case Blank(_) => Zero
    case _ => Lost
  }

  predicate TakesEffect(fault: Fault) { fault.Fine? || fault.Late? || fault == Blank(true) }

  function After(f: Faults, s: Wire, c: Command): (r: Wire)
    ensures r.sent == s.sent + 1
    ensures r.tables == s.tables || (Possible(s.tables, c) && r.tables == Applied(s.tables, c))
    ensures !c.ForgetConnections? ==> r.tracked == s.tracked
  {
    Wire(if TakesEffect(f(s.sent)) && Possible(s.tables, c) then Applied(s.tables, c) else s.tables, s.sent + 1,
         if TakesEffect(f(s.sent)) && c.ForgetConnections? then s.tracked - {(c.src, c.dport)} else s.tracked)
  }

  /** Nothing goes wrong in the exchanges from number `from` up to number `to`. */
  ghost predicate FineDuring(f: Faults, from: nat, to: nat) {
    forall n :: from <= n < to ==> f(n).Fine?
  }

  /** Every answer in those exchanges came with an exit status. */
  ghost predicate StatedDuring(f: Faults, from: nat, to: nat) {
    forall n :: from <= n < to ==> !f(n).Blank?
  }

  class Router {
    const faults: Faults
    var tables: Tables
    var sent: nat
    var tracked: set<(Ip, nat)>

    function Now(): Wire reads this { Wire(tables, sent, tracked) }

    constructor (tables: Tables, tracked: set<(Ip, nat)>, faults: Faults)
      ensures Now() == Wire(tables, 0, tracked) && this.faults == faults
    {
      this.tables, this.tracked, this.faults, sent := tables, tracked, faults, 0;
    }

    method Connect() returns (ok: bool)
      modifies this`sent
      ensures ok <==> faults(old(sent)).Fine?
      ensures sent == old(sent) + 1
    {
      ok := faults(sent).Fine?;
      sent := sent + 1;
    }

    method Exec(c: Command) returns (reply: Reply)
      modifies this
      ensures reply == ReplyTo(faults, old(Now()), c) && Now() == After(faults, old(Now()), c)
    {
      var fault := faults(sent);
      var possible := Possible(tables, c);
      sent := sent + 1;
      if possible && TakesEffect(fault) {
        tables := Applied(tables, c);
        if c.ForgetConnections? {
          tracked := tracked - {(c.src, c.dport)};
        }
      }
      if fault.Dropped? || fault.Late? {
        return Lost;
      }
      reply := if fault.Blank? || (fault.Fine? && possible) then Zero else Nonzero;
    }
  }
}
