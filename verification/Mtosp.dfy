/** The MTOSP framing of the appliance UART (util/mtosp.ts): one byte at a time, and whole messages. */
module Mtosp {
  import opened Common
  import opened Crc16

  function Header(length: nat): seq<byte> { [0xaa, (length / 256) % 256, length % 256] }

  function LengthOf(high: nat, low: nat): nat { 256 * high + low }

  function Trailer(crc: word): seq<byte> { [FirstByte(crc), SecondByte(crc), 0xbb] }

  /** Two length bytes are written whatever the length is. */
  function Format(payload: seq<byte>): seq<byte> {
    Header(|payload|) + payload + Trailer(Crc(Header(|payload|) + payload))
  }

  datatype Fault = InvalidHeader | InvalidChecksum | InvalidTrailer

  datatype Outcome = Quiet | Emit(payload: seq<byte>) | Fail(fault: Fault)

  type stage = s: int | 0 <= s <= 5

  datatype Machine = Machine(state: stage, prev: byte, total: nat, buf: seq<byte>)

  const FRESH := Machine(0, 0, 0, [])

  /** The payload between the three bytes before and the three after it. */
  function Inner(buf: seq<byte>): seq<byte> { if |buf| >= 6 then buf[3..|buf| - 3] else [] }

  /** One byte. A fault leaves the state where it was, with the byte in the buffer. */
  function Fed(m: Machine, b: byte): (Machine, Outcome) {
    var m1 := m.(buf := m.buf + [b]);
    var m2 := m1.(prev := b);
    match m.state
    case 0 => if b != 0xaa then (m1, Fail(InvalidHeader)) else (m2.(state := 1), Quiet)
    case 1 => (m2.(state := 2), Quiet)
    case 2 => (m2.(state := 3, total := LengthOf(m.prev, b)), Quiet)
    case 3 => (if m.total > 0 then m2.(total := m.total - 1) else m2.(state := 4), Quiet)
    case 4 => if Crc(m1.buf) != 0 then (m1, Fail(InvalidChecksum)) else (m2.(state := 5), Quiet)
    case _ => if b != 0xbb then (m1, Fail(InvalidTrailer)) else (m2.(state := 0, buf := []), Emit(Inner(m1.buf)))
  }

  class Splitter {
    var state: stage
    var prev: byte
    var total: nat
    var buf: seq<byte>

    ghost function State(): Machine
      reads this
    {
      Machine(state, prev, total, buf)
    }

    constructor ()
      ensures State() == FRESH
    {
      state, prev, total, buf := 0, 0, 0, [];
    }

    method Feed(b: byte) returns (r: Outcome)
      modifies this
      ensures (State(), r) == Fed(old(State()), b)
    {
      buf := buf + [b];
      r := Quiet;
      if state == 0 {
        if b != 0xaa { return Fail(InvalidHeader); }
        state := 1;
      } else if state == 1 {
        state := 2;
      } else if state == 2 {
        total := LengthOf(prev, b);
        state := 3;
      } else if state == 3 {
        if total > 0 {
          total := total - 1;
        } else {
          state := 4;
        }
      } else if state == 4 {
        var crc := Crc16.Crc16(buf);
        TableIsDivision(buf);
        if crc != 0 { return Fail(InvalidChecksum); }
        state := 5;
      } else {
        if b != 0xbb { return Fail(InvalidTrailer); }
        state := 0;
        r := Emit(Inner(buf));
        buf := [];
      }
      prev := b;
    }
  }

  // ---------------------------------------------------------------- runs

  datatype Transcript = Transcript(end: Machine, payloads: seq<seq<byte>>, fault: Option<Fault>)

  function After(r: Outcome, rest: Transcript): Transcript {
    if r.Emit? then rest.(payloads := [r.payload] + rest.payloads) else rest
  }

  /** Bytes one at a time, up to the first fault. */
  function Run(m: Machine, bs: seq<byte>): Transcript
    decreases |bs|
  {
    if bs == [] then Transcript(m, [], None)
    else
      var (m1, r) := Fed(m, bs[0]);
      if r.Fail? then Transcript(m1, [], Some(r.fault))
      else After(r, Run(m1, bs[1..]))
  }

  function Formats(payloads: seq<seq<byte>>): seq<byte> {
    if payloads == [] then [] else Format(payloads[0]) + Formats(payloads[1..])
  }

  predicate AtStart(m: Machine) { m.state == 0 && m.buf == [] }

  /** After a whole message. */
  const SENT := Machine(0, 0xbb, 0, [])

  predicate AllFit(payloads: seq<seq<byte>>) { forall p :: p in payloads ==> |p| < 0x1_0000 }

  lemma Quietly(m: Machine, b: byte, bs: seq<byte>)
    requires Fed(m, b).1 == Quiet
    ensures Run(m, [b] + bs) == Run(Fed(m, b).0, bs)
  {
    assert ([b] + bs)[1..] == bs;
  }

  function LastOf(prev: byte, bs: seq<byte>): byte { if bs == [] then prev else bs[|bs| - 1] }

  lemma {:induction false} PayloadRead(m: Machine, payload: seq<byte>, bs: seq<byte>)
    requires m.state == 3 && m.total == |payload|
    ensures Run(m, payload + bs) == Run(Machine(3, LastOf(m.prev, payload), 0, m.buf + payload), bs)
    decreases |payload|
  {
    if payload == [] {
      assert payload + bs == bs && m.buf + payload == m.buf;
    } else {
      var m1 := Fed(m, payload[0]).0;
      Quietly(m, payload[0], payload[1..] + bs);
      assert payload + bs == [payload[0]] + (payload[1..] + bs);
      PayloadRead(m1, payload[1..], bs);
      assert m1.buf + payload[1..] == m.buf + payload;
    }
  }

  lemma ThreeQuietly(m: Machine, a: byte, b: byte, c: byte, bs: seq<byte>)
    requires Fed(m, a).1 == Quiet && Fed(Fed(m, a).0, b).1 == Quiet && Fed(Fed(Fed(m, a).0, b).0, c).1 == Quiet
    ensures Run(m, [a, b, c] + bs) == Run(Fed(Fed(Fed(m, a).0, b).0, c).0, bs)
  {
    var m1 := Fed(m, a).0;
    var m2 := Fed(m1, b).0;
    Quietly(m, a, [b] + ([c] + bs));
    Quietly(m1, b, [c] + bs);
    Quietly(m2, c, bs);
    assert [a, b, c] + bs == [a] + ([b] + ([c] + bs));
  }

  lemma HeaderRead(m: Machine, length: nat, bs: seq<byte>)
    requires AtStart(m) && length < 0x1_0000
    ensures Run(m, Header(length) + bs) == Run(Machine(3, length % 256, length, Header(length)), bs)
  {
    var high, low := length / 256, length % 256;
    ThreeQuietly(m, 0xaa, high, low, bs);
    assert [] + [0xaa] + [high] + [low] == [0xaa, high, low];
    assert LengthOf(high, low) == length;
  }

  lemma TwoQuietly(m: Machine, a: byte, b: byte, bs: seq<byte>)
    requires Fed(m, a).1 == Quiet && Fed(Fed(m, a).0, b).1 == Quiet
    ensures Run(m, [a, b] + bs) == Run(Fed(Fed(m, a).0, b).0, bs)
  {
    Quietly(m, a, [b] + bs);
    Quietly(Fed(m, a).0, b, bs);
    assert [a, b] + bs == [a] + ([b] + bs);
  }

  lemma Emitting(m: Machine, b: byte, payload: seq<byte>, bs: seq<byte>)
    requires Fed(m, b) == (SENT, Emit(payload))
    ensures Run(m, [b] + bs) == After(Emit(payload), Run(SENT, bs))
  {
    assert ([b] + bs)[1..] == bs;
  }

  lemma LastTrailerByte(b: byte, body: seq<byte>)
    requires |body| >= 3
    ensures var t := Trailer(Crc(body));
            var (m1, r1) := Fed(Machine(3, b, 0, body), t[0]);
            var (m2, r2) := Fed(m1, t[1]);
            r1 == Quiet && r2 == Quiet && Fed(m2, t[2]) == (SENT, Emit(body[3..]))
  {
    var t := Trailer(Crc(body));
    SentResidue(body);
    assert body + [t[0]] + [t[1]] == body + [t[0], t[1]];
    assert Inner(body + [t[0], t[1]] + [t[2]]) == body[3..];
  }

  lemma TrailerRead(b: byte, body: seq<byte>, bs: seq<byte>)
    requires |body| >= 3
    ensures Run(Machine(3, b, 0, body), Trailer(Crc(body)) + bs) == After(Emit(body[3..]), Run(SENT, bs))
  {
    var t, m := Trailer(Crc(body)), Machine(3, b, 0, body);
    LastTrailerByte(b, body);
    TwoQuietly(m, t[0], t[1], [t[2]] + bs);
    Emitting(Fed(Fed(m, t[0]).0, t[1]).0, t[2], body[3..], bs);
    TwoAndOne(t, bs);
  }

  lemma TwoAndOne(t: seq<byte>, bs: seq<byte>)
    requires |t| == 3
    ensures t + bs == [t[0], t[1]] + ([t[2]] + bs)
  {
  }

  lemma FormatParts(h: seq<byte>, p: seq<byte>, t: seq<byte>, bs: seq<byte>)
    requires |h| == 3
    ensures h + p + t + bs == h + (p + (t + bs)) && (h + p)[3..] == p
  {
  }

  lemma FormatRead(m: Machine, payload: seq<byte>, bs: seq<byte>)
    requires AtStart(m) && |payload| < 0x1_0000
    ensures Run(m, Format(payload) + bs) == After(Emit(payload), Run(SENT, bs))
  {
    var h := Header(|payload|);
    var t := Trailer(Crc(h + payload));
    var m3 := Machine(3, |payload| % 256, |payload|, h);
    FormatParts(h, payload, t, bs);
    HeaderRead(m, |payload|, payload + (t + bs));
    PayloadRead(m3, payload, t + bs);
    TrailerRead(LastOf(m3.prev, payload), h + payload, bs);
  }

  predicate Recovers(t: Transcript, payloads: seq<seq<byte>>) {
    t.payloads == payloads && t.fault == None && AtStart(t.end)
  }

  /** What is formatted and sent, one message after another, comes out again, without a fault and with nothing left. */
  lemma {:induction false} RoundTrip(m: Machine, payloads: seq<seq<byte>>)
    requires AtStart(m) && AllFit(payloads)
    ensures Recovers(Run(m, Formats(payloads)), payloads)
    decreases |payloads|
  {
    if payloads != [] {
      var rest := payloads[1..];
      FormatRead(m, payloads[0], Formats(rest));
      RoundTrip(SENT, rest);
      assert payloads == [payloads[0]] + rest;
    }
  }

  // ---------------------------------------------------------------- and only that comes out

  function Length(buf: seq<byte>): nat
    requires |buf| >= 3
  {
    LengthOf(buf[1], buf[2])
  }

  /** What the buffer holds in each state that a run without faults reaches. */
  predicate Inv(m: Machine) {
    var n := |m.buf|;
    && (m.state == 0 <==> n == 0)
    && (m.state > 0 ==> m.buf[0] == 0xaa)
    && (m.state == 1 ==> n == 1)
    && (m.state == 2 ==> n == 2 && m.prev == m.buf[1])
    && (m.state >= 3 ==> n >= 3)
    && (m.state == 3 ==> n + m.total == 3 + Length(m.buf))
    && (m.state == 4 ==> n == 4 + Length(m.buf))
    && (m.state == 5 ==> n == 5 + Length(m.buf) && Crc(m.buf) == 0)
  }

  lemma FedKeepsInv(m: Machine, b: byte)
    requires Inv(m) && !Fed(m, b).1.Fail?
    ensures Inv(Fed(m, b).0)
  {
  }

  lemma HeaderIs(buf: seq<byte>, p: seq<byte>)
    requires |buf| >= 3 && buf[0] == 0xaa && |p| == Length(buf)
    ensures buf[..3] == Header(|p|) && |p| < 0x1_0000
  {
    assert |p| / 256 == buf[1] && |p| % 256 == buf[2];
  }

  lemma FormatIs(head: seq<byte>, p: seq<byte>, a: byte, b: byte)
    requires head == Header(|p|) && Crc(head + p + [a, b]) == 0
    ensures head + p + [a, b] + [0xbb] == Format(p)
  {
    Residue(head + p, a, b);
    assert head + p + [a, b] + [0xbb] == head + p + [a, b, 0xbb];
  }

  lemma Cut(buf: seq<byte>) returns (head: seq<byte>, p: seq<byte>, a: byte, b: byte)
    requires |buf| >= 5 && buf[0] == 0xaa && |buf| == 5 + Length(buf)
    ensures buf == head + p + [a, b] && head == Header(|p|) && p == buf[3..|buf| - 2]
  {
    var n := |buf|;
    head, p, a, b := buf[..3], buf[3..n - 2], buf[n - 2], buf[n - 1];
    HeaderIs(buf, p);
  }

  lemma WholeIsFormat(buf: seq<byte>)
    requires |buf| >= 5 && buf[0] == 0xaa && |buf| == 5 + Length(buf) && Crc(buf) == 0
    ensures buf + [0xbb] == Format(buf[3..|buf| - 2])
  {
    var head, p, a, b := Cut(buf);
    FormatIs(head, p, a, b);
  }

  lemma InnerIs(buf: seq<byte>, b: byte)
    requires |buf| >= 5
    ensures Inner(buf + [b]) == buf[3..|buf| - 2]
  {
  }

  /** A payload comes out only when the bytes since the last one are its format. */
  lemma EmissionIsFormat(m: Machine, b: byte)
    requires Inv(m) && Fed(m, b).1.Emit?
    ensures var p := Fed(m, b).1.payload; m.buf + [b] == Format(p) && |p| < 0x1_0000
    ensures AtStart(Fed(m, b).0)
  {
    InnerIs(m.buf, b);
    WholeIsFormat(m.buf);
    HeaderIs(m.buf, Inner(m.buf + [b]));
  }

  predicate Accounted(m: Machine, bs: seq<byte>, t: Transcript) {
    m.buf + bs == Formats(t.payloads) + t.end.buf && AllFit(t.payloads) && Inv(t.end)
  }

  /** Every run: without a fault, the bytes read are the formats of what came out and a message begun. */
  lemma {:induction false} EveryRun(m: Machine, bs: seq<byte>)
    requires Inv(m) && Run(m, bs).fault == None
    ensures Accounted(m, bs, Run(m, bs))
    decreases |bs|
  {
    if bs == [] {
      assert m.buf + bs == [] + m.buf;
    } else {
      FedKeepsInv(m, bs[0]);
      EveryRun(Fed(m, bs[0]).0, bs[1..]);
      EveryStep(m, bs[0], bs[1..], Run(Fed(m, bs[0]).0, bs[1..]));
      assert bs == [bs[0]] + bs[1..];
    }
  }

  lemma EveryStep(m: Machine, b: byte, bs: seq<byte>, t: Transcript)
    requires Inv(m) && !Fed(m, b).1.Fail? && Accounted(Fed(m, b).0, bs, t)
    ensures Accounted(m, [b] + bs, After(Fed(m, b).1, t))
  {
    assert m.buf + ([b] + bs) == m.buf + [b] + bs;
    var (m1, r) := Fed(m, b);
    if r.Emit? {
      EmissionIsFormat(m, b);
      OneMore(m1, r.payload, bs, t);
    }
  }

  lemma OneMore(m: Machine, p: seq<byte>, bs: seq<byte>, t: Transcript)
    requires AtStart(m) && |p| < 0x1_0000 && Accounted(m, bs, t)
    ensures Format(p) + bs == Formats([p] + t.payloads) + t.end.buf && AllFit([p] + t.payloads)
  {
    assert [] + bs == bs;
    assert ([p] + t.payloads)[1..] == t.payloads;
    assert Format(p) + (Formats(t.payloads) + t.end.buf) == Format(p) + Formats(t.payloads) + t.end.buf;
  }

  lemma {:induction false} EmittedFit(m: Machine, bs: seq<byte>)
    requires Inv(m)
    ensures AllFit(Run(m, bs).payloads)
    decreases |bs|
  {
    if bs != [] {
      var (m1, r) := Fed(m, bs[0]);
      if !r.Fail? {
        FedKeepsInv(m, bs[0]);
        EmittedFit(m1, bs[1..]);
        if r.Emit? {
          EmissionIsFormat(m, bs[0]);
        }
      }
    }
  }

  /** A message comes out whole exactly when its length fits the two bytes for it. */
  lemma ComesOut(m: Machine, payload: seq<byte>)
    requires AtStart(m)
    ensures Run(m, Format(payload)).payloads == [payload] <==> |payload| < 0x1_0000
  {
    var bs := Format(payload);
    EmittedFit(m, bs);
    assert payload in [payload];
    if |payload| < 0x1_0000 {
      SingleFormat(payload);
      RoundTrip(m, [payload]);
    }
  }

  lemma SingleFormat(payload: seq<byte>)
    ensures Formats([payload]) == Format(payload)
  {
    assert [payload][1..] == [] && Formats([]) == [];
    assert Formats([payload]) == Format(payload) + [];
  }

  // ---------------------------------------------------------------- the bytes of a message

  /**
   * A message byte by byte: 0xaa, the length with its high byte first, the payload, the remainder of all that by the CRC's
   * polynomial, high byte first as well, and 0xbb.
   */
  lemma FormatBytes(payload: seq<byte>)
    requires |payload| < 0x1_0000
    ensures var f, n := Format(payload), |payload|;
            && |f| == n + 6 && f[0] == 0xaa && Word(f[1], f[2]) == n && f[3..3 + n] == payload
            && Word(f[n + 3], f[n + 4]) == Remainder(f[..3 + n]) && f[n + 5] == 0xbb
  {
    var n, body := |payload|, Header(|payload|) + payload;
    TableIsDivision(body);
    HighAndLow(n);
    HighAndLow(Crc(body));
    MessageLayout(Header(n), payload, FirstByte(Crc(body)), SecondByte(Crc(body)));
  }

  function Word(high: byte, low: byte): nat { high as nat * 256 + low as nat }

  lemma HighAndLow(n: nat)
    requires n < 0x1_0000
    ensures ((n / 256) % 256) * 256 + n % 256 == n && n / 256 == (n / 256) % 256
  {
  }

  lemma MessageLayout(h: seq<byte>, payload: seq<byte>, a: byte, b: byte)
    requires |h| == 3
    ensures var f, n := h + payload + [a, b, 0xbb], |payload|;
            && |f| == n + 6 && f[0] == h[0] && f[1] == h[1] && f[2] == h[2] && f[3..3 + n] == payload
            && f[..3 + n] == h + payload && f[n + 3] == a && f[n + 4] == b && f[n + 5] == 0xbb
  {
  }
}
