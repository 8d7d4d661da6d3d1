/** Choosing where a connection goes from its first bytes (cloud/sni_router.ts). */
module SniRouter {
  import opened Common
  import opened ClientHello

  const MAX_HELLO := 8192

  datatype Choice = Splice(host: seq<byte>) | Stall(host: seq<byte>) | Local | Dropped

  /** The patterns, as the sets of names that they match. */
  datatype Patterns = Patterns(passThrough: seq<byte> -> bool, stall: seq<byte> -> bool)

  function Route(p: Patterns, host: seq<byte>): Choice {
    if p.passThrough(host) then Splice(host) else if p.stall(host) then Stall(host) else Local
  }

  /** An empty name counts as none. */
  predicate Named(bs: seq<byte>) { ServerName(bs).Some? && ServerName(bs).value != [] }

  datatype Preface = Preface(buffered: seq<byte>, choice: Option<Choice>)

  const FRESH := Preface([], None)

  function Judged(p: Patterns, buffered: seq<byte>): Option<Choice> {
    if Named(buffered) then Some(Route(p, ServerName(buffered).value))
    else if |buffered| >= MAX_HELLO then Some(Local)
    else None
  }

  /** One read. After the choice nothing is read here. */
  function Read(p: Patterns, s: Preface, chunk: seq<byte>): Preface {
    if s.choice.Some? then s else Preface(s.buffered + chunk, Judged(p, s.buffered + chunk))
  }

  function ReadAll(p: Patterns, s: Preface, chunks: seq<seq<byte>>): Preface
    decreases |chunks|
  {
    if chunks == [] then s else ReadAll(p, Read(p, s, chunks[0]), chunks[1..])
  }

  function Closed(s: Preface, choice: Choice): Preface { if s.choice.Some? then s else s.(choice := Some(choice)) }

  class Peek {
    const patterns: Patterns
    var buffered: seq<byte>
    var choice: Option<Choice>

    ghost function Now(): Preface
      reads this
    {
      Preface(buffered, choice)
    }

    constructor (patterns: Patterns)
      ensures this.patterns == patterns && Now() == FRESH
    {
      this.patterns := patterns;
      buffered, choice := [], None;
    }

    /** `available` are the chunks that the socket gives, one read each. */
    method OnReadable(available: seq<seq<byte>>)
      modifies this
      ensures Now() == ReadAll(patterns, old(Now()), available)
    {
      for i := 0 to |available|
        invariant ReadAll(patterns, Now(), available[i..]) == ReadAll(patterns, old(Now()), available)
      {
        assert available[i..][1..] == available[i + 1..];
        if choice.Some? {
          SettledStays(patterns, Now(), available[i..]);
          return;
        }
        buffered := buffered + available[i];
        var name := ReadServerName(buffered);
        if name.Some? && name.value != [] {
          if patterns.passThrough(name.value) {
            choice := Some(Splice(name.value));
          } else if patterns.stall(name.value) {
            choice := Some(Stall(name.value));
          } else {
            choice := Some(Local);
          }
        } else if |buffered| >= MAX_HELLO {
          choice := Some(Local);
        }
      }
    }

    method OnEnd()
      modifies this
      ensures Now() == Closed(old(Now()), Local)
    {
      if choice.None? { choice := Some(Local); }
    }

    /** The timer, or an early error. */
    method OnFailure()
      modifies this
      ensures Now() == Closed(old(Now()), Dropped)
    {
      if choice.None? { choice := Some(Dropped); }
    }
  }

  // ---------------------------------------------------------------- whatever the chunks

  lemma {:induction false} SettledStays(p: Patterns, s: Preface, chunks: seq<seq<byte>>)
    requires s.choice.Some?
    ensures ReadAll(p, s, chunks) == s
    decreases |chunks|
  {
    if chunks != [] {
      SettledStays(p, s, chunks[1..]);
    }
  }

  /** A stream cut into chunks, and then its end. */
  function Final(p: Patterns, chunks: seq<seq<byte>>): Choice { Closed(ReadAll(p, FRESH, chunks), Local).choice.value }

  predicate Waiting(s: Preface) { s.choice.None? && !Named(s.buffered) && |s.buffered| < MAX_HELLO }

  lemma NamedStays(bs: seq<byte>, more: seq<byte>)
    requires Named(bs)
    ensures Named(bs + more) && ServerName(bs + more) == ServerName(bs)
  {
    Stable(bs, more);
  }

  /** What is named later was not named otherwise before. */
  lemma NamedEarlier(bs: seq<byte>, n: nat)
    requires n <= |bs| && Named(bs[..n])
    ensures Named(bs) && ServerName(bs) == ServerName(bs[..n])
  {
    NamedStays(bs[..n], bs[n..]);
    assert bs[..n] + bs[n..] == bs;
  }

  /** The bytes that are read before the router gives up, at the least. */
  function Start(bs: seq<byte>): seq<byte> { if |bs| <= MAX_HELLO then bs else bs[..MAX_HELLO] }

  function NameOf(bs: seq<byte>): seq<byte> { if Named(bs) then ServerName(bs).value else [] }

  /** A name in time is found, and without one the connection is not routed by name. */
  predicate Fitting(p: Patterns, bs: seq<byte>, c: Choice) {
    (Named(Start(bs)) ==> c == Route(p, NameOf(bs))) && (!Named(bs) ==> c == Local)
  }

  lemma JudgedFits(p: Patterns, bs: seq<byte>, n: nat)
    requires n <= |bs| && Judged(p, bs[..n]).Some?
    ensures Fitting(p, bs, Judged(p, bs[..n]).value)
  {
    if Named(bs[..n]) {
      NamedEarlier(bs, n);
    } else if Named(Start(bs)) {
      assert bs[..n][..MAX_HELLO] == Start(bs);
      NamedEarlier(bs[..n], MAX_HELLO);
    }
  }

  lemma {:induction false} FinalIs(p: Patterns, s: Preface, chunks: seq<seq<byte>>)
    requires Waiting(s)
    ensures Fitting(p, s.buffered + Flat(chunks), Closed(ReadAll(p, s, chunks), Local).choice.value)
    decreases |chunks|
  {
    var bs := s.buffered + Flat(chunks);
    if chunks == [] {
      assert bs == s.buffered;
    } else {
      var t := Read(p, s, chunks[0]);
      Regroup(s.buffered, chunks[0], Flat(chunks[1..]));
      assert t.buffered == bs[..|t.buffered|];
      if t.choice.Some? {
        JudgedFits(p, bs, |t.buffered|);
        SettledStays(p, t, chunks[1..]);
      } else {
        FinalIs(p, t, chunks[1..]);
      }
    }
  }

  ghost predicate ChunksDoNotMatter(p: Patterns, bs: seq<byte>) {
    forall a, b :: Flat(a) == bs && Flat(b) == bs ==> Final(p, a) == Final(p, b)
  }

  /** The name comes in time, or not at all, or makes no difference. */
  predicate Timely(p: Patterns, bs: seq<byte>) {
    Named(bs) ==> Named(Start(bs)) || Route(p, NameOf(bs)) == Local
  }

  lemma FromStart(p: Patterns, chunks: seq<seq<byte>>)
    ensures Fitting(p, Flat(chunks), Final(p, chunks))
  {
    NothingNamed();
    assert [] + Flat(chunks) == Flat(chunks);
    FinalIs(p, FRESH, chunks);
  }

  lemma NothingNamed()
    ensures !Named([])
  {
  }

  /** Every byte stream with a name within the first 8192 bytes is routed by that name, however it is cut. */
  lemma RoutedByName(p: Patterns, chunks: seq<seq<byte>>)
    requires Named(Start(Flat(chunks)))
    ensures Named(Flat(chunks)) && Final(p, chunks) == Route(p, NameOf(Flat(chunks)))
  {
    FromStart(p, chunks);
    if |Flat(chunks)| > MAX_HELLO {
      NamedEarlier(Flat(chunks), MAX_HELLO);
    }
  }

  /** That is: it is passed through if its name is listed for that, else stalled if listed for that, and else handled here. */
  lemma RoutedAs(p: Patterns, chunks: seq<seq<byte>>, name: seq<byte>)
    requires var bs := Flat(chunks); name != [] && ServerName(if |bs| <= 8192 then bs else bs[..8192]) == Some(name)
    ensures Final(p, chunks) == Splice(name) <==> p.passThrough(name)
    ensures Final(p, chunks) == Stall(name) <==> !p.passThrough(name) && p.stall(name)
    ensures Final(p, chunks) == Local <==> !p.passThrough(name) && !p.stall(name)
  {
    RoutedByName(p, chunks);
    if |Flat(chunks)| > MAX_HELLO {
      NamedEarlier(Flat(chunks), MAX_HELLO);
    }
  }

  lemma OneChunk(p: Patterns, bs: seq<byte>)
    requires Judged(p, bs).Some?
    ensures Flat([bs]) == bs && Final(p, [bs]) == Judged(p, bs).value
  {
    assert [] + bs == bs && bs + [] == bs;
    assert ReadAll(p, FRESH, [bs]) == ReadAll(p, Read(p, FRESH, bs), []);
  }

  lemma TwoChunks(p: Patterns, a: seq<byte>, b: seq<byte>)
    requires Judged(p, a).Some?
    ensures Flat([a, b]) == a + b && Final(p, [a, b]) == Judged(p, a).value
  {
    var chunks := [a, b];
    assert [] + a == a && chunks[1..] == [b];
    assert Flat([b]) == b + [];
    SettledStays(p, Read(p, FRESH, a), [b]);
  }

  lemma Cut(p: Patterns, bs: seq<byte>)
    requires Named(bs) && !Named(Start(bs))
    ensures Flat([bs]) == bs && Final(p, [bs]) == Route(p, NameOf(bs))
    ensures Flat([Start(bs), bs[MAX_HELLO..]]) == bs && Final(p, [Start(bs), bs[MAX_HELLO..]]) == Local
  {
    OneChunk(p, bs);
    TwoChunks(p, Start(bs), bs[MAX_HELLO..]);
  }

  /** Whatever is chosen, it is by the name of the whole stream or local. */
  lemma {:induction false} OneOfTwo(p: Patterns, s: Preface, chunks: seq<seq<byte>>)
    requires Waiting(s)
    ensures var c := Closed(ReadAll(p, s, chunks), Local).choice.value;
            c == Local || (Named(s.buffered + Flat(chunks)) && c == Route(p, NameOf(s.buffered + Flat(chunks))))
    decreases |chunks|
  {
    var bs := s.buffered + Flat(chunks);
    if chunks != [] {
      var t := Read(p, s, chunks[0]);
      Regroup(s.buffered, chunks[0], Flat(chunks[1..]));
      assert t.buffered == bs[..|t.buffered|];
      if t.choice.Some? {
        SettledStays(p, t, chunks[1..]);
        if Named(t.buffered) {
          NamedEarlier(bs, |t.buffered|);
        }
      } else {
        OneOfTwo(p, t, chunks[1..]);
      }
    }
  }

  lemma LateIsLocal(p: Patterns, chunks: seq<seq<byte>>)
    requires Route(p, NameOf(Flat(chunks))) == Local
    ensures Final(p, chunks) == Local
  {
    NothingNamed();
    assert [] + Flat(chunks) == Flat(chunks);
    OneOfTwo(p, FRESH, chunks);
  }

  /** The cutting of a byte stream into chunks makes no difference exactly when its name is timely. */
  lemma ChunkIndependence(p: Patterns, bs: seq<byte>)
    ensures ChunksDoNotMatter(p, bs) <==> Timely(p, bs)
  {
    if Timely(p, bs) {
      forall a, b | Flat(a) == bs && Flat(b) == bs
        ensures Final(p, a) == Final(p, b)
      {
        if Named(bs) && !Named(Start(bs)) {
          LateIsLocal(p, a);
          LateIsLocal(p, b);
        } else {
          FromStart(p, a);
          FromStart(p, b);
        }
      }
    } else {
      Cut(p, bs);
    }
  }

  function Padding(n: nat): (s: seq<byte>)
    ensures |s| == n
  {
    seq(n, _ => 0)
  }

  /** A name behind 9000 bytes of padding. */
  function LateHello(name: seq<byte>): Hello {
    Hello([0x16, 3, 1, 0x23, 0x80, 1] + Padding(37), [], [], [], [Extension(21, Padding(9000))], name, [])
  }

  lemma LateIsWellFormed(name: seq<byte>)
    requires |name| < 1000
    ensures WellFormed(LateHello(name)) && |Lead(LateHello(name))| == 47 && |Bytes(LateHello(name))| > MAX_HELLO
  {
    var e, s := Extension(21, Padding(9000)), ServerNameExtension(name);
    assert |ExtensionBytes(e)| == 9004 && |ExtensionBytes(s)| == 9 + |name|;
    assert ExtensionsBytes([e]) == ExtensionBytes(e) + ExtensionsBytes([]);
    assert |Extensions(LateHello(name))| == 9013 + |name|;
  }

  lemma PaddingFields(m: Hello, h: seq<byte>, at: nat, e: Extension)
    requires WellFormed(m) && m.before == [e] && Stands(h, at, Extensions(m))
    ensures |h| >= at + 4 && At16(h, at) == e.kind && At16(h, at + 2) == |e.body|
  {
    var rest := ExtensionBytes(ServerNameExtension(m.name)) + ExtensionsBytes(m.after);
    assert m.before[0] == e;
    Parts(h, at, ExtensionsBytes(m.before), rest);
    Parts(h, at, ExtensionBytes(e), ExtensionsBytes(m.before[1..]));
    ExtensionFields(h, at, e);
  }

  lemma PrefixUnnamed(h: seq<byte>, n: nat)
    requires 53 <= n <= |h| && ExtensionsAt(h[..n]) == Some(47) && At16(h, 49) != 0 && 53 + At16(h, 51) > n
    ensures !Named(h[..n])
  {
    var p := h[..n];
    assert At16(p, 49) == At16(h, 49) && At16(p, 51) == At16(h, 51);
    var end := ExtensionsEnd(p, 47);
    assert Scan(p, 53 + At16(p, 51), end) == None;
  }

  lemma LateParts(m: Hello, bs: seq<byte>)
    requires WellFormed(m) && bs == Bytes(m) && |Lead(m)| == 47 && |m.before| == 1 && |bs| > MAX_HELLO
    ensures At16(bs, 49) == m.before[0].kind && At16(bs, 51) == |m.before[0].body|
    ensures ExtensionsAt(Start(bs)) == Some(47)
  {
    StandsIs(bs, 0, bs);
    Parts(bs, 0, Lead(m) + Word(|Extensions(m)|), Extensions(m));
    PaddingFields(m, bs, 49, m.before[0]);
    StandsIs(Start(bs), 0, Lead(m));
    assert Start(bs)[..47] == Lead(m);
    LeadRead(m, Start(bs));
  }

  /** Such a stream: its name is there, and after 8192 bytes it is not there yet. */
  lemma LateNames(name: seq<byte>)
    requires 0 < |name| < 1000
    ensures WellFormed(LateHello(name))
    ensures var bs := Bytes(LateHello(name)); Named(bs) && NameOf(bs) == Ascii(name) && !Named(Start(bs))
  {
    LateIsWellFormed(name);
    var m := LateHello(name);
    var bs := Bytes(m);
    StandsIs(bs, 0, bs);
    WellFormedNameIsRead(m, bs);
    LateParts(m, bs);
    PrefixUnnamed(bs, MAX_HELLO);
  }

  /** With a name that is not handled locally, the chunks of that stream do matter. */
  lemma ChunksCanMatter(p: Patterns, name: seq<byte>)
    requires 0 < |name| < 1000 && Route(p, Ascii(name)) != Local
    ensures WellFormed(LateHello(name)) && !ChunksDoNotMatter(p, Bytes(LateHello(name)))
  {
    LateNames(name);
    ChunkIndependence(p, Bytes(LateHello(name)));
  }
}
