/** Length-prefixed frames (util/length_prefixed_frame.ts), and streams of them cut into arbitrary chunks. */
module Frames {
  import opened Common

  const DEFAULT_LIMIT := 65536

  // ---------------------------------------------------------------- signed 32-bit lengths, big-endian

  function BigEndian(n: nat, k: nat): (s: seq<byte>)
    ensures |s| == k
    decreases k, n
  {
    if k == 0 then [] else BigEndian(n / 256, k - 1) + [n % 256]
  }

  function Number(s: seq<byte>): nat {
    if s == [] then 0 else 256 * Number(s[..|s| - 1]) + s[|s| - 1]
  }

  function Power(k: nat): nat { if k == 0 then 1 else 256 * Power(k - 1) }

  lemma {:induction false} NumberOf(n: nat, k: nat)
    requires n < Power(k)
    ensures Number(BigEndian(n, k)) == n
    decreases k, n
  {
    if k > 0 {
      NumberOf(n / 256, k - 1);
      assert BigEndian(n, k)[..k - 1] == BigEndian(n / 256, k - 1);
    }
  }

  lemma {:induction false} BytesOf(s: seq<byte>)
    ensures BigEndian(Number(s), |s|) == s && Number(s) < Power(|s|)
  {
    if s != [] {
      var n := |s| - 1;
      BytesOf(s[..n]);
      assert s == s[..n] + [s[n]];
    }
  }

  function ReadInt32(s: seq<byte>): int
    requires |s| >= 4
  {
    Signed(Number(s[..4]))
  }

  function Signed(n: nat): int { if n >= 0x8000_0000 then n - 0x1_0000_0000 else n }

  lemma FourBytes()
    ensures Power(4) == 0x1_0000_0000
  {
    assert Power(2) == 256 * Power(1);
  }

  lemma WrittenIsRead(n: nat, rest: seq<byte>)
    requires n < 0x8000_0000
    ensures ReadInt32(BigEndian(n, 4) + rest) == n
  {
    FourBytes();
    NumberOf(n, 4);
    assert (BigEndian(n, 4) + rest)[..4] == BigEndian(n, 4);
  }

  lemma ReadIsWritten(s: seq<byte>)
    requires |s| >= 4 && ReadInt32(s) >= 0
    ensures ReadInt32(s) < 0x8000_0000 && BigEndian(ReadInt32(s), 4) == s[..4]
  {
    FourBytes();
    BytesOf(s[..4]);
  }

  // ---------------------------------------------------------------- the splitter

  datatype Fault = Negative | Exceeded | CallbackThrew | Truncated

  /** `delivered` lists the calls of the callback so far, the call that threw included. */
  datatype State = State(accum: seq<byte>, failed: bool, delivered: seq<seq<byte>>)

  const FRESH := State([], false, [])

  /** The size limit, and whether the callback throws on its latest call, given all its calls. */
  datatype Options = Options(limit: int, throws: seq<seq<byte>> -> bool)

  function Failed(s: State): State { s.(accum := [], failed := true) }

  function Head(s: State): seq<byte>
    requires |s.accum| >= 4 && 0 <= ReadInt32(s.accum) <= |s.accum| - 4
  {
    s.accum[4..4 + ReadInt32(s.accum)]
  }

  /** The first frame is handed over. */
  function Popped(s: State): State
    requires |s.accum| >= 4 && 0 <= ReadInt32(s.accum) <= |s.accum| - 4
  {
    s.(accum := s.accum[4 + ReadInt32(s.accum)..], delivered := s.delivered + [Head(s)])
  }

  function Drained(o: Options, s: State): (State, Option<Fault>)
    decreases |s.accum|
  {
    if |s.accum| < 4 then (s, None)
    else
      var n := ReadInt32(s.accum);
      if n < 0 then (Failed(s), Some(Negative))
      else if n > o.limit then (Failed(s), Some(Exceeded))
      else if |s.accum| < 4 + n then (s, None)
      else if o.throws(Popped(s).delivered) then (Failed(Popped(s)), Some(CallbackThrew))
      else Drained(o, Popped(s))
  }

  function Fed(o: Options, s: State, buf: seq<byte>): (State, Option<Fault>) {
    if s.failed then (s, None) else Drained(o, s.(accum := s.accum + buf))
  }

  function Ended(s: State): (State, Option<Fault>) {
    if !s.failed && s.accum != [] then (Failed(s), Some(Truncated)) else (s, None)
  }

  class Splitter {
    const options: Options
    var accum: seq<byte>
    var failed: bool
    var delivered: seq<seq<byte>>

    ghost function Now(): State
      reads this
    {
      State(accum, failed, delivered)
    }

    constructor (limit: Option<int>, throws: seq<seq<byte>> -> bool)
      ensures options == Options(if limit.Some? then limit.value else DEFAULT_LIMIT, throws)
      ensures Now() == FRESH
    {
      options := Options(if limit.Some? then limit.value else DEFAULT_LIMIT, throws);
      accum, failed, delivered := [], false, [];
    }

    /** What is thrown, if anything. */
    method Split(buf: seq<byte>) returns (fault: Option<Fault>)
      modifies this
      ensures (Now(), fault) == Fed(options, old(Now()), buf)
    {
      if failed { return None; }
      accum := accum + buf;
      ghost var whole := Drained(options, Now());
      while |accum| >= 4
        invariant !failed && Drained(options, Now()) == whole
        decreases |accum|
      {
        var n := ReadInt32(accum);
        if n < 0 {
          accum, failed := [], true;
          return Some(Negative);
        }
        if n > options.limit {
          accum, failed := [], true;
          return Some(Exceeded);
        }
        if |accum| < 4 + n { return None; }
        delivered := delivered + [accum[4..4 + n]];
        accum := accum[4 + n..];
        if options.throws(delivered) {
          accum, failed := [], true;
          return Some(CallbackThrew);
        }
      }
      fault := None;
    }

    method End() returns (fault: Option<Fault>)
      modifies this
      ensures (Now(), fault) == Ended(old(Now()))
    {
      fault := None;
      if !failed && accum != [] {
        accum, failed := [], true;
        fault := Some(Truncated);
      }
    }
  }

  /** The bytes of a frame; a length of 2^31 or more cannot be written. */
  function Framed(input: seq<byte>): seq<byte>
    requires |input| < 0x8000_0000
  {
    BigEndian(|input|, 4) + input
  }

  method Make(input: seq<byte>) returns (output: Option<array<byte>>)
    ensures output.Some? <==> |input| < 0x8000_0000
    ensures output.Some? ==> fresh(output.value) && output.value[..] == Framed(input)
  {
    if |input| >= 0x8000_0000 { return None; }
    var buffer := new byte[4 + |input|];
    var header := BigEndian(|input|, 4);
    for i := 0 to 4
      invariant buffer[..i] == header[..i]
    {
      buffer[i] := header[i];
    }
    for i := 0 to |input|
      invariant buffer[..4 + i] == header + input[..i]
    {
      buffer[4 + i] := input[i];
    }
    assert input[..|input|] == input;
    return Some(buffer);
  }

  // ---------------------------------------------------------------- chunks

  function Raised(f: Option<Fault>): seq<Fault> { if f.Some? then [f.value] else [] }

  /** Chunks in turn, with everything that is thrown. */
  function FedAll(o: Options, s: State, chunks: seq<seq<byte>>): (State, seq<Fault>)
    decreases |chunks|
  {
    if chunks == [] then (s, [])
    else
      var (s1, f) := Fed(o, s, chunks[0]);
      var (s2, fs) := FedAll(o, s1, chunks[1..]);
      (s2, Raised(f) + fs)
  }

  /** The state holds no complete frame. */
  predicate Settled(o: Options, s: State) { Drained(o, s) == (s, None) }

  lemma {:induction false} DrainedSettles(o: Options, s: State)
    requires !s.failed
    ensures Drained(o, s).0.failed <==> Drained(o, s).1.Some?
    ensures !Drained(o, s).0.failed ==> Settled(o, Drained(o, s).0)
    decreases |s.accum|
  {
    if |s.accum| >= 4 {
      var n := ReadInt32(s.accum);
      if 0 <= n <= o.limit && |s.accum| >= 4 + n && !o.throws(Popped(s).delivered) {
        DrainedSettles(o, Popped(s));
      }
    }
  }

  /** What is behind the first frame makes no difference to it. */
  lemma PoppedMore(s: State, more: seq<byte>)
    requires |s.accum| >= 4
    ensures ReadInt32(s.accum + more) == ReadInt32(s.accum)
    ensures 0 <= ReadInt32(s.accum) <= |s.accum| - 4 ==>
              Popped(s.(accum := s.accum + more)) == Popped(s).(accum := Popped(s).accum + more)
  {
    var n, all := ReadInt32(s.accum), s.accum + more;
    assert all[..4] == s.accum[..4];
    if 0 <= n <= |s.accum| - 4 {
      SlicesMore(s.accum, more, 4 + n);
    }
  }

  lemma SlicesMore(a: seq<byte>, more: seq<byte>, n: nat)
    requires 4 <= n <= |a|
    ensures (a + more)[4..n] == a[4..n] && (a + more)[n..] == a[n..] + more
  {
  }

  /** More bytes may come before or after the frames at hand are handed over. */
  lemma {:induction false} DrainedMore(o: Options, s: State, more: seq<byte>)
    requires !s.failed
    ensures var (s1, f) := Drained(o, s);
            Drained(o, s.(accum := s.accum + more)) == if s1.failed then (s1, f) else Drained(o, s1.(accum := s1.accum + more))
    decreases |s.accum|
  {
    if |s.accum| >= 4 {
      var n := ReadInt32(s.accum);
      PoppedMore(s, more);
      if 0 <= n <= o.limit && |s.accum| >= 4 + n && !o.throws(Popped(s).delivered) {
        DrainedMore(o, Popped(s), more);
      }
    }
  }

  /** Two chunks in turn are one chunk. */
  lemma TwoChunks(o: Options, s: State, a: seq<byte>, b: seq<byte>)
    ensures var (s1, f1) := Fed(o, s, a);
            var (s2, f2) := Fed(o, s1, b);
            Fed(o, s, a + b).0 == s2 && Raised(Fed(o, s, a + b).1) == Raised(f1) + Raised(f2)
  {
    if !s.failed {
      assert s.accum + (a + b) == s.accum + a + b;
      DrainedMore(o, s.(accum := s.accum + a), b);
      DrainedSettles(o, s.(accum := s.accum + a));
    }
  }

  /** Feeding nothing changes nothing in a state that holds no complete frame. */
  lemma NoChunk(o: Options, s: State)
    requires Settled(o, s)
    ensures Fed(o, s, []) == (s, None)
  {
    assert s.(accum := s.accum + []) == s;
  }

  lemma FedSettles(o: Options, s: State, buf: seq<byte>)
    ensures Fed(o, s, buf).0.failed || Settled(o, Fed(o, s, buf).0)
  {
    if !s.failed {
      DrainedSettles(o, s.(accum := s.accum + buf));
    }
  }

  /** Chunk independence: any cutting of a byte stream hands over and throws what the whole does. */
  lemma {:induction false} ChunksAreOne(o: Options, s: State, chunks: seq<seq<byte>>)
    requires s.failed || Settled(o, s)
    ensures FedAll(o, s, chunks).0 == Fed(o, s, Flat(chunks)).0
    ensures FedAll(o, s, chunks).1 == Raised(Fed(o, s, Flat(chunks)).1)
    decreases |chunks|
  {
    if chunks == [] {
      if !s.failed {
        NoChunk(o, s);
      }
    } else {
      var s1 := Fed(o, s, chunks[0]).0;
      FedSettles(o, s, chunks[0]);
      ChunksAreOne(o, s1, chunks[1..]);
      TwoChunks(o, s, chunks[0], Flat(chunks[1..]));
    }
  }

  // ---------------------------------------------------------------- frames

  predicate AllBelow(payloads: seq<seq<byte>>, bound: int) {
    payloads == [] || (|payloads[0]| < bound && AllBelow(payloads[1..], bound))
  }

  predicate Fits(o: Options, payloads: seq<seq<byte>>) {
    AllBelow(payloads, 0x8000_0000) && AllBelow(payloads, o.limit + 1)
  }

  function Frames(payloads: seq<seq<byte>>): seq<byte>
    requires AllBelow(payloads, 0x8000_0000)
  {
    if payloads == [] then [] else Framed(payloads[0]) + Frames(payloads[1..])
  }

  ghost predicate Calm(o: Options) { forall calls :: !o.throws(calls) }

  lemma FrameHead(s: State, p: seq<byte>, rest: seq<byte>)
    requires |p| < 0x8000_0000 && s.accum == Framed(p) + rest
    ensures ReadInt32(s.accum) == |p| && Popped(s) == s.(accum := rest, delivered := s.delivered + [p])
  {
    WrittenIsRead(|p|, p + rest);
    assert s.accum == BigEndian(|p|, 4) + (p + rest);
    assert s.accum[4..4 + |p|] == p && s.accum[4 + |p|..] == rest;
  }

  /** The state after `payloads` were handed over, with `rest` left to read. */
  function Handed(s: State, payloads: seq<seq<byte>>, rest: seq<byte>): State {
    s.(accum := rest, delivered := s.delivered + payloads)
  }

  lemma HandedTwice(s: State, p: seq<byte>, more: seq<seq<byte>>, between: seq<byte>, rest: seq<byte>)
    ensures Handed(Handed(s, [p], between), more, rest) == Handed(s, [p] + more, rest)
  {
    assert s.delivered + [p] + more == s.delivered + ([p] + more);
  }

  lemma FrameRead(o: Options, s: State, p: seq<byte>, rest: seq<byte>)
    requires Calm(o) && |p| < 0x8000_0000 && |p| <= o.limit && s.accum == Framed(p) + rest
    ensures Drained(o, s) == Drained(o, Handed(s, [p], rest))
  {
    FrameHead(s, p, rest);
  }

  /** Frames made within the limit come out again, with whatever follows them left to read. */
  lemma {:induction false} FramesRead(o: Options, s: State, payloads: seq<seq<byte>>, rest: seq<byte>)
    requires Calm(o) && Fits(o, payloads)
    requires s.accum == Frames(payloads) + rest
    ensures Drained(o, s) == Drained(o, Handed(s, payloads, rest))
    decreases |payloads|
  {
    if payloads == [] {
      assert Handed(s, payloads, rest) == s;
    } else {
      var p, more := payloads[0], payloads[1..];
      Regroup(Framed(p), Frames(more), rest);
      FrameRead(o, s, p, Frames(more) + rest);
      FramesRead(o, Handed(s, [p], Frames(more) + rest), more, rest);
      HandedTwice(s, p, more, Frames(more) + rest, rest);
      assert payloads == [p] + more;
    }
  }

  lemma {:induction false} FramesAppend(a: seq<seq<byte>>, b: seq<seq<byte>>)
    requires AllBelow(a, 0x8000_0000) && AllBelow(b, 0x8000_0000)
    ensures AllBelow(a + b, 0x8000_0000) && Frames(a + b) == Frames(a) + Frames(b)
    decreases |a|
  {
    if a == [] {
      assert a + b == b;
    } else {
      assert (a + b)[1..] == a[1..] + b;
      FramesAppend(a[1..], b);
      Regroup(Framed(a[0]), Frames(a[1..]), Frames(b));
    }
  }

  lemma {:induction false} BelowAppend(a: seq<seq<byte>>, p: seq<byte>, bound: int)
    requires AllBelow(a, bound) && |p| < bound
    ensures AllBelow(a + [p], bound)
    decreases |a|
  {
    if a != [] {
      assert (a + [p])[1..] == a[1..] + [p];
      BelowAppend(a[1..], p, bound);
    }
  }

  lemma OneFrame(p: seq<byte>)
    requires |p| < 0x8000_0000
    ensures Frames([p]) == Framed(p)
  {
    assert Frames([p]) == Framed(p) + [];
  }

  lemma HeadBytes(s: State)
    requires |s.accum| >= 4 && 0 <= ReadInt32(s.accum) <= |s.accum| - 4
    ensures |Head(s)| < 0x8000_0000 && s.accum == Framed(Head(s)) + Popped(s).accum
  {
    ReadIsWritten(s.accum);
  }

  lemma OneMore(o: Options, s: State)
    requires Fits(o, s.delivered) && |s.accum| >= 4 && 0 <= ReadInt32(s.accum) <= |s.accum| - 4 && ReadInt32(s.accum) <= o.limit
    ensures Fits(o, Popped(s).delivered)
    ensures Frames(Popped(s).delivered) + Popped(s).accum == Frames(s.delivered) + s.accum
  {
    var p := Head(s);
    HeadBytes(s);
    OneFrame(p);
    FramesAppend(s.delivered, [p]);
    BelowAppend(s.delivered, p, o.limit + 1);
    Regroup(Frames(s.delivered), Framed(p), Popped(s).accum);
  }

  /** What has come out are the frames read, and the rest is still held: every run without a failure. */
  lemma {:induction false} Accounted(o: Options, s: State)
    requires !Drained(o, s).0.failed && Fits(o, s.delivered)
    ensures var t := Drained(o, s).0;
            Fits(o, t.delivered) && Frames(t.delivered) + t.accum == Frames(s.delivered) + s.accum
    decreases |s.accum|
  {
    if |s.accum| >= 4 && |s.accum| >= 4 + ReadInt32(s.accum) {
      OneMore(o, s);
      Accounted(o, Popped(s));
    }
  }

  predicate Recovers(t: State, payloads: seq<seq<byte>>) { !t.failed && t.delivered == payloads && t.accum == [] }

  /** Frames made one after another, in any chunks, come out as they were exactly when none is over the limit. */
  lemma RoundTrip(o: Options, payloads: seq<seq<byte>>, chunks: seq<seq<byte>>)
    requires Calm(o) && AllBelow(payloads, 0x8000_0000) && Flat(chunks) == Frames(payloads)
    ensures Recovers(FedAll(o, FRESH, chunks).0, payloads) <==> AllBelow(payloads, o.limit + 1)
  {
    ChunksAreOne(o, FRESH, chunks);
    var s := FRESH.(accum := [] + Flat(chunks));
    assert s.accum == Frames(payloads) + [];
    if AllBelow(payloads, o.limit + 1) {
      FramesRead(o, s, payloads, []);
      assert [] + payloads == payloads;
    }
    if !Drained(o, s).0.failed {
      Accounted(o, s);
    }
  }

  ghost predicate WholeFrames(o: Options, bs: seq<byte>) {
    exists payloads :: Fits(o, payloads) && bs == Frames(payloads)
  }

  /** Whole frames that do not make it fail leave nothing behind. */
  lemma {:induction false} WholeIsRead(o: Options, s: State, payloads: seq<seq<byte>>)
    requires Fits(o, payloads) && s.accum == Frames(payloads)
    requires !Drained(o, s).0.failed
    ensures Drained(o, s).0.accum == []
    decreases |payloads|
  {
    if payloads != [] {
      FrameHead(s, payloads[0], Frames(payloads[1..]));
      WholeIsRead(o, Popped(s), payloads[1..]);
    }
  }

  lemma NothingLeft(o: Options, bs: seq<byte>)
    requires !Drained(o, FRESH.(accum := bs)).0.failed
    ensures Drained(o, FRESH.(accum := bs)).0.accum == [] <==> WholeFrames(o, bs)
  {
    var s := FRESH.(accum := bs);
    Accounted(o, s);
    assert bs == Frames(FRESH.delivered) + bs;
    var t := Drained(o, s).0;
    if t.accum == [] {
      assert bs == Frames(t.delivered);
    }
    if WholeFrames(o, bs) {
      var payloads: seq<seq<byte>> :| Fits(o, payloads) && bs == Frames(payloads);
      WholeIsRead(o, s, payloads);
    }
  }

  /** `end` throws exactly when the machine has not failed and the stream was not made of whole frames. */
  lemma EndThrows(o: Options, chunks: seq<seq<byte>>)
    ensures var s := FedAll(o, FRESH, chunks).0;
            Ended(s).1.Some? <==> !s.failed && !WholeFrames(o, Flat(chunks))
  {
    ChunksAreOne(o, FRESH, chunks);
    assert [] + Flat(chunks) == Flat(chunks);
    if !FedAll(o, FRESH, chunks).0.failed {
      NothingLeft(o, Flat(chunks));
    }
  }

  // ---------------------------------------------------------------- the bytes of a frame

  /** The length is written in four bytes, the highest first, and the payload follows. */
  lemma FrameBytes(p: seq<byte>)
    requires |p| < 0x8000_0000
    ensures var f := Framed(p);
            && |f| == |p| + 4 && f[4..] == p
            && f[0] as nat * 0x100_0000 + f[1] as nat * 0x1_0000 + f[2] as nat * 0x100 + f[3] as nat == |p|
  {
    var n, head := |p|, BigEndian(|p|, 4);
    FourBytes();
    NumberOf(n, 4);
    FourDigits(head);
    assert Framed(p)[..4] == head;
  }

  lemma FourDigits(s: seq<byte>)
    requires |s| == 4
    ensures Number(s) == s[0] as nat * 0x100_0000 + s[1] as nat * 0x1_0000 + s[2] as nat * 0x100 + s[3] as nat
  {
    var three := s[..3];
    var two := three[..2];
    var one := two[..1];
    assert Number(one) == s[0] as nat by {
      assert one[..0] == [];
    }
    assert Number(two) == 256 * Number(one) + s[1] as nat;
    assert Number(three) == 256 * Number(two) + s[2] as nat;
  }
}
