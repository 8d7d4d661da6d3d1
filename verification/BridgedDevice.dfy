/** One appliance's connection to the vendor's cloud, and its reconnection (bridge/index.ts). */
module BridgedDevice {
  import opened Common

  /** `open` are the connections that were made and not destroyed; `listening` is to the appliance. */
  datatype State = State(
    connection: Option<nat>, timer: bool, destroyed: bool, connected: bool, failing: bool,
    open: set<nat>, next: nat, listening: bool)

  /** Making a connection may throw; sending it the last report may throw after it is made. */
  datatype Attempt = Refused | SendFails | Works

  const FRESH := State(None, false, false, false, false, {}, 0, false)

  // ---------------------------------------------------------------- what each step does

  function Destroyed(s: State): State {
    s.(destroyed := true, connected := false, timer := false, listening := false, connection := None,
       open := if s.connection.Some? then s.open - {s.connection.value} else s.open)
  }

  /** Telling the others of a change may end with this device destroyed. */
  function Told(s: State, destroys: bool): State { if destroys then Destroyed(s) else s }

  function Disconnected(s: State, destroys: bool): State {
    if s.connection.None? then s
    else
      var t := Told(s.(connection := None, connected := false, open := s.open - {s.connection.value}), destroys);
      if t.destroyed then t else t.(timer := true)
  }

  function Opened(s: State): State {
    s.(connection := Some(s.next), connected := false, open := s.open + {s.next}, next := s.next + 1)
  }

  function Reconnected(s: State, a: Attempt, destroys: bool): State {
    if s.destroyed || s.connection.Some? then s
    else
      match a
      case Works => Opened(s)
      case SendFails => Disconnected(Opened(s).(failing := true), destroys)
      case Refused => Told(s.(connected := false, failing := true, timer := true), destroys)
  }

  function Started(matches: bool, a: Attempt, destroys: bool): State {
    if matches then Reconnected(FRESH.(listening := true), a, destroys) else FRESH
  }

  /** A send to the cloud that throws. */
  function Thrown(s: State, destroys: bool): State { Disconnected(s.(failing := true), destroys) }

  class Device {
    const matches: bool
    var connection: Option<nat>
    var timer: bool
    var destroyed: bool
    var connected: bool
    var failing: bool
    var open: set<nat>
    var next: nat
    var listening: bool

    ghost function Now(): State
      reads this
    {
      State(connection, timer, destroyed, connected, failing, open, next, listening)
    }

    /** Nothing happens unless the platforms of the two sides match. */
    constructor (upstream: Platform, downstream: Platform, a: Attempt, destroys: bool)
      ensures matches == (upstream == downstream) && Now() == Started(matches, a, destroys)
    {
      matches := upstream == downstream;
      connection, timer, destroyed, connected, failing := None, false, false, false, false;
      open, next, listening := {}, 0, false;
      new;
      if upstream == downstream {
        listening := true;
        ReconnectNow(a, destroys);
      }
    }

    method ReconnectNow(a: Attempt, destroys: bool)
      modifies this
      ensures Now() == Reconnected(old(Now()), a, destroys)
    {
      var threw := Connect(a);
      if threw {
        failing := true;
        if connection.Some? {
          Disconnect(destroys);
        } else {
          timer := true;
          Changed(destroys);
        }
      }
    }

    method Connect(a: Attempt) returns (threw: bool)
      modifies this
      ensures var s := old(Now());
              if s.destroyed || s.connection.Some? then Now() == s && !threw
              else Now() == (if a == Refused then s.(connected := false) else Opened(s)) && (threw <==> a != Works)
    {
      if destroyed || connection.Some? { return false; }
      connected := false;
      if a == Refused { return true; }
      connection, open, next := Some(next), open + {next}, next + 1;
      threw := a == SendFails;
    }

    method Changed(destroys: bool)
      modifies this
      ensures Now() == Told(old(Now()), destroys)
    {
      if destroys { Destroy(); }
    }

    method Disconnect(destroys: bool)
      modifies this
      ensures Now() == Disconnected(old(Now()), destroys)
    {
      if connection.Some? {
        var was := connection.value;
        connection := None;
        connected := false;
        open := open - {was};
        Changed(destroys);
        if destroyed { return; }
        timer := true;
      }
    }

    method Destroy()
      modifies this
      ensures Now() == Destroyed(old(Now()))
    {
      destroyed := true;
      connected := false;
      if connection.Some? {
        open := open - {connection.value};
        connection := None;
      }
      listening := false;
      timer := false;
    }

    /** A packet of the appliance; sending it on may throw. */
    method Forward(throws: bool, destroys: bool)
      modifies this
      ensures Now() == if throws && old(connection).Some? then Thrown(old(Now()), destroys) else old(Now())
    {
      if connection.Some? && throws {
        failing := true;
        Disconnect(destroys);
      }
    }
  }

  // ---------------------------------------------------------------- runs

  /** What may happen; `id` is the connection that an event is from. `Hastens` is a reconnect that is asked for. */
  datatype Event =
    | Fires(a: Attempt)
    | Hastens(a: Attempt)
    | Comes(id: nat)
    | Errs(id: nat)
    | Closes(id: nat)
    | Packet(throws: bool)
    | ApplianceCloses
    | Stops

  function Step(s: State, e: Event, destroys: bool): State {
    match e
    case Fires(a) => if s.timer then Reconnected(s.(timer := false), a, destroys) else s
    case Hastens(a) => if s.listening then Reconnected(s, a, destroys) else s
    case Comes(id) =>
      if s.destroyed || s.connection != Some(id) then s else Told(s.(connected := true, failing := false), destroys)
    case Errs(id) =>
      if s.destroyed || s.connection != Some(id) then s else Told(s.(connected := false, failing := true), destroys)
    case Closes(id) => if s.connection == Some(id) then Disconnected(s, destroys) else s
    case Packet(throws) => if s.listening && throws && s.connection.Some? then Thrown(s, destroys) else s
    case ApplianceCloses => if s.listening then Destroyed(s) else s
    case Stops => Destroyed(s)
  }

  function Run(s: State, events: seq<(Event, bool)>): State
    decreases |events|
  {
    if events == [] then s else Run(Step(s, events[0].0, events[0].1), events[1..])
  }

  predicate Inv(s: State, matches: bool) {
    && s.open == (if s.connection.Some? then {s.connection.value} else {})
    && (s.connection.Some? ==> s.connection.value < s.next)
    && (s.connected ==> s.connection.Some?)
    && (s.destroyed || !matches ==> s.connection.None? && !s.timer && !s.listening)
    && (!s.destroyed && matches ==> s.listening && (s.connection.Some? || s.timer))
  }

  lemma StartKeepsInv(matches: bool, a: Attempt, destroys: bool)
    ensures Inv(Started(matches, a, destroys), matches)
  {
    var s := Opened(FRESH.(listening := true));
    assert s.open - {0} == {};
  }

  lemma StepKeepsInv(s: State, matches: bool, e: Event, destroys: bool)
    requires Inv(s, matches)
    ensures Inv(Step(s, e, destroys), matches)
  {
    if s.connection.Some? {
      assert s.open - {s.connection.value} == {};
    } else {
      assert Opened(s).open - {s.next} == {};
    }
  }

  /** The event is from the connection that is there. */
  predicate FromCurrent(s: State, id: nat) { !s.destroyed && s.connection == Some(id) }

  /** An attempt is made: when the timer fires or somebody asks for one, and nothing is connected. */
  predicate Attempts(s: State, e: Event) {
    !s.destroyed && s.connection.None? && ((e.Fires? && s.timer) || (e.Hastens? && s.listening))
  }

  /** The cloud counts as connected from the moment its connection comes up until it errs, is lost, or is given up. */
  lemma ConnectedIff(s: State, matches: bool, e: Event, destroys: bool)
    requires Inv(s, matches)
    ensures var t := Step(s, e, destroys);
            t.connected <==> t.connection.Some? && ((e.Comes? && FromCurrent(s, e.id)) || (s.connected && !(e.Errs? && FromCurrent(s, e.id))))
  {
  }

  /** Failing is an attempt that does not work, an error of the connection, or a packet that cannot be sent; coming up ends it. */
  lemma FailingIff(s: State, matches: bool, e: Event, destroys: bool)
    requires Inv(s, matches)
    ensures var t := Step(s, e, destroys);
            t.failing <==> && !(e.Comes? && FromCurrent(s, e.id))
                           && (|| s.failing || (Attempts(s, e) && e.a != Works) || (e.Errs? && FromCurrent(s, e.id))
                               || (e == Packet(true) && s.connection.Some?))
  {
  }

  /** An attempt that works connects anew; any other leaves a timer, unless telling of it destroys the device. */
  lemma AttemptDoes(s: State, e: Event, destroys: bool)
    requires Inv(s, true) && Attempts(s, e)
    ensures var t := Step(s, e, destroys);
            && (e.a == Works ==> t.connection == Some(s.next) && !t.destroyed && t.next == s.next + 1)
            && (e.a != Works ==> t.connection.None? && t.destroyed == destroys && t.timer == !destroys)
            && (e.a != Refused ==> t.next == s.next + 1) && (e.a == Refused ==> t.next == s.next)
  {
  }

  /** Every run with matching platforms: until it is destroyed there is a live connection or a pending timer, and no more. */
  lemma {:induction false} EveryRun(s: State, matches: bool, events: seq<(Event, bool)>)
    requires Inv(s, matches)
    ensures Inv(Run(s, events), matches)
    decreases |events|
  {
    if events != [] {
      StepKeepsInv(s, matches, events[0].0, events[0].1);
      EveryRun(Step(s, events[0].0, events[0].1), matches, events[1..]);
    }
  }

  predicate Both(s: State) { s.connection.Some? && s.timer }

  /** A reconnect is asked for, and works, while the timer is pending. */
  predicate Overtakes(s: State, e: Event) { e == Hastens(Works) && s.listening && s.connection.None? && s.timer }

  lemma BothIff(s: State, matches: bool, e: Event, destroys: bool)
    requires Inv(s, matches) && !Both(s)
    ensures Both(Step(s, e, destroys)) <==> Overtakes(s, e)
  {
  }

  /** At no point of a run there are both. */
  predicate NeverBoth(s: State, events: seq<(Event, bool)>)
    decreases |events|
  {
    !Both(s) && (events != [] ==> NeverBoth(Step(s, events[0].0, events[0].1), events[1..]))
  }

  predicate NeverOvertaken(s: State, events: seq<(Event, bool)>)
    decreases |events|
  {
    events != [] ==> !Overtakes(s, events[0].0) && NeverOvertaken(Step(s, events[0].0, events[0].1), events[1..])
  }

  /** A connection and a timer are never there together, exactly as long as no reconnect overtakes the timer. */
  lemma {:induction false} OneOrTheOther(s: State, matches: bool, events: seq<(Event, bool)>)
    requires Inv(s, matches) && !Both(s)
    ensures NeverBoth(s, events) <==> NeverOvertaken(s, events)
    decreases |events|
  {
    if events != [] {
      var t := Step(s, events[0].0, events[0].1);
      StepKeepsInv(s, matches, events[0].0, events[0].1);
      BothIff(s, matches, events[0].0, events[0].1);
      if !Both(t) {
        OneOrTheOther(t, matches, events[1..]);
      }
    }
  }

  /** The overtaken timer does no harm: when it fires it leaves the connection alone. */
  lemma OvertakenTimerIsHarmless(s: State, matches: bool, a: Attempt, destroys: bool)
    requires Inv(s, matches) && Both(s)
    ensures Step(s, Fires(a), destroys) == s.(timer := false)
  {
  }

  /** From the start, without overtaking, there is exactly one of the two until the device is destroyed. */
  lemma FromTheStart(matches: bool, a: Attempt, destroys: bool, events: seq<(Event, bool)>)
    requires NeverOvertaken(Started(matches, a, destroys), events)
    ensures var s := Run(Started(matches, a, destroys), events);
            && Inv(s, matches)
            && (matches && !s.destroyed ==> (s.connection.Some? && !s.timer && s.open == {s.connection.value})
                                            || (s.connection.None? && s.timer && s.open == {}))
  {
    StartKeepsInv(matches, a, destroys);
    EveryRun(Started(matches, a, destroys), matches, events);
    OneOrTheOther(Started(matches, a, destroys), matches, events);
    EndIsNotBoth(Started(matches, a, destroys), events);
  }

  lemma {:induction false} EndIsNotBoth(s: State, events: seq<(Event, bool)>)
    requires NeverBoth(s, events)
    ensures !Both(Run(s, events))
    decreases |events|
  {
    if events != [] {
      EndIsNotBoth(Step(s, events[0].0, events[0].1), events[1..]);
    }
  }

  /** Once destroyed, nothing brings a connection or a timer back. */
  lemma {:induction false} DestroyedForGood(s: State, matches: bool, events: seq<(Event, bool)>)
    requires Inv(s, matches) && s.destroyed
    ensures var t := Run(s, events); t.destroyed && t.connection.None? && !t.timer && t.open == {} && !t.connected
    decreases |events|
  {
    if events != [] {
      StepKeepsInv(s, matches, events[0].0, events[0].1);
      DestroyedForGood(Step(s, events[0].0, events[0].1), matches, events[1..]);
    }
  }

  /** Events of a connection that was replaced change nothing. */
  lemma {:induction false} ReplacedIsIgnored(s: State, matches: bool, id: nat, events: seq<(Event, bool)>, destroys: bool)
    requires Inv(s, matches) && id < s.next && s.connection != Some(id)
    ensures var t := Run(s, events);
            Step(t, Comes(id), destroys) == Step(t, Errs(id), destroys) == Step(t, Closes(id), destroys) == t
    decreases |events|
  {
    if events != [] {
      StepKeepsInv(s, matches, events[0].0, events[0].1);
      ReplacedIsIgnored(Step(s, events[0].0, events[0].1), matches, id, events[1..], destroys);
    }
  }

  /** A loss is made good by the next attempt that works. */
  lemma LossIsRepaired(s: State, id: nat)
    requires Inv(s, true) && !s.destroyed && s.connection == Some(id)
    ensures var t := Run(s, [(Closes(id), false), (Fires(Works), false)]);
            t.connection == Some(s.next) && t.connection != s.connection && t.open == {s.next} && !t.timer
  {
    var events := [(Closes(id), false), (Fires(Works), false)];
    var s1 := Step(s, Closes(id), false);
    assert s.open - {id} == {};
    assert events[1..][0] == (Fires(Works), false) && events[1..][1..] == [];
    assert Run(s, events) == Run(s1, events[1..]) == Run(Step(s1, Fires(Works), false), []);
  }
}
