/**
 * The server name of a TLS ClientHello (cloud/sni_router.ts), read from the bytes at hand: names of well-formed
 * messages are found, and once found do not change.
 */
module ClientHello {
  import opened Common

  function At16(h: seq<byte>, at: nat): nat
    requires at + 2 <= |h|
  {
    Pair(h[at], h[at + 1])
  }

  function Pair(a: nat, b: nat): nat { 256 * a + b }

  /** Decoding as ASCII drops the highest bit. */
  function Ascii(s: seq<byte>): (r: seq<byte>)
    ensures |r| == |s|
  {
    seq(|s|, i requires 0 <= i < |s| => s[i] % 128)
  }

  /** Where the length of the extensions stands. Reading past the end of the buffer gives nothing. */
  function ExtensionsAt(h: seq<byte>): Option<nat> {
    if |h| < 47 || h[0] != 0x16 || h[5] != 0x01 then None
    else
      var suites := 44 + h[43] as nat;
      if suites + 2 > |h| then None
      else
        var methods := suites + 2 + At16(h, suites);
        if methods >= |h| then None
        else
          var at := methods + 1 + h[methods] as nat;
          if at + 2 > |h| then None else Some(at)
  }

  function ExtensionsEnd(h: seq<byte>, at: nat): (end: nat)
    requires at + 2 <= |h|
    ensures end <= |h|
  {
    if At16(h, at) + at + 2 < |h| then At16(h, at) + at + 2 else |h|
  }

  /** The name in the first server name extension from `at` on. */
  function Scan(h: seq<byte>, at: nat, end: nat): Option<seq<byte>>
    requires end <= |h|
    decreases |h| - at
  {
    if at + 4 > end then None
    else
      var body := at + 4;
      if At16(h, at) == 0 && body + 5 <= end then
        if h[body + 2] != 0 || body + 5 + At16(h, body + 3) > end then None
        else Some(Ascii(h[body + 5..body + 5 + At16(h, body + 3)]))
      else Scan(h, body + At16(h, at + 2), end)
  }

  function ServerName(h: seq<byte>): Option<seq<byte>> {
    var at := ExtensionsAt(h);
    if at.None? then None else Scan(h, at.value + 2, ExtensionsEnd(h, at.value))
  }

  method ReadExtensions(h: seq<byte>, start: nat, end: nat) returns (name: Option<seq<byte>>)
    requires end <= |h|
    ensures name == Scan(h, start, end)
  {
    var at := start;
    while at + 4 <= end
      invariant Scan(h, start, end) == Scan(h, at, end)
      decreases |h| - at
    {
      var kind, length := At16(h, at), At16(h, at + 2);
      var body := at + 4;
      if kind == 0 && body + 5 <= end {
        var first, nameLength := body + 5, At16(h, body + 3);
        if h[body + 2] != 0 || first + nameLength > end { return None; }
        return Some(Ascii(h[first..first + nameLength]));
      }
      at := body + length;
    }
    return None;
  }

  method ReadServerName(h: seq<byte>) returns (name: Option<seq<byte>>)
    ensures name == ServerName(h)
  {
    if |h| < 47 || h[0] != 0x16 || h[5] != 0x01 { return None; }
    var at: nat := 44 + h[43] as nat;
    if at + 2 > |h| { return None; }
    at := at + 2 + At16(h, at);
    if at >= |h| { return None; }
    at := at + 1 + h[at] as nat;
    if at + 2 > |h| { return None; }
    name := ReadExtensions(h, at + 2, ExtensionsEnd(h, at));
  }

  // ---------------------------------------------------------------- stability

  lemma SameStart(h: seq<byte>, more: seq<byte>)
    requires ExtensionsAt(h).Some?
    ensures ExtensionsAt(h + more) == ExtensionsAt(h)
    ensures ExtensionsEnd(h, ExtensionsAt(h).value) <= ExtensionsEnd(h + more, ExtensionsAt(h).value)
  {
  }

  lemma {:induction false} SameScan(h: seq<byte>, more: seq<byte>, at: nat, end: nat, later: nat)
    requires end <= |h| && end <= later <= |h + more| && Scan(h, at, end).Some?
    ensures Scan(h + more, at, later) == Scan(h, at, end)
    decreases |h| - at
  {
    var body := at + 4;
    if At16(h, at) == 0 && body + 5 <= end {
      var n := At16(h, body + 3);
      assert (h + more)[body + 5..body + 5 + n] == h[body + 5..body + 5 + n];
    } else {
      SameScan(h, more, body + At16(h, at + 2), end, later);
    }
  }

  /** Once there is a name, more bytes do not change it. */
  lemma Stable(h: seq<byte>, more: seq<byte>)
    requires ServerName(h).Some?
    ensures ServerName(h + more) == ServerName(h)
  {
    var at := ExtensionsAt(h).value;
    SameStart(h, more);
    SameScan(h, more, at + 2, ExtensionsEnd(h, at), ExtensionsEnd(h + more, at));
  }

  // ---------------------------------------------------------------- well-formed messages (section 7.4.1.2 of RFC 5246)

  datatype Extension = Extension(kind: nat, body: seq<byte>)

  /** What comes before the session id is the record header, the handshake header, the version and the random bytes. */
  datatype Hello = Hello(
    head: seq<byte>, session: seq<byte>, suites: seq<byte>, compression: seq<byte>,
    before: seq<Extension>, name: seq<byte>, after: seq<Extension>)

  function Word(n: nat): seq<byte>
    requires n < 0x1_0000
  {
    [n / 256, n % 256]
  }

  predicate Fits(e: Extension) { e.kind < 0x1_0000 && |e.body| < 0x1_0000 }

  function ExtensionBytes(e: Extension): seq<byte>
    requires Fits(e)
  {
    Word(e.kind) + Word(|e.body|) + e.body
  }

  predicate AllFit(es: seq<Extension>) { es == [] || (Fits(es[0]) && AllFit(es[1..])) }

  function ExtensionsBytes(es: seq<Extension>): seq<byte>
    requires AllFit(es)
  {
    if es == [] then [] else ExtensionBytes(es[0]) + ExtensionsBytes(es[1..])
  }

  /** One host name in a server name list (section 3 of RFC 6066). */
  function ServerNameExtension(name: seq<byte>): Extension
    requires |name| < 0xfff0
  {
    Extension(0, Word(|name| + 3) + [0] + Word(|name|) + name)
  }

  predicate NoServerName(es: seq<Extension>) { es == [] || (es[0].kind != 0 && NoServerName(es[1..])) }

  predicate WellFormed(m: Hello) {
    && |m.head| == 43 && m.head[0] == 0x16 && m.head[5] == 0x01
    && |m.session| < 256 && |m.suites| < 0x1_0000 && |m.compression| < 256 && |m.name| < 0xfff0
    && AllFit(m.before) && AllFit(m.after) && NoServerName(m.before)
    && |Extensions(m)| < 0x1_0000
  }

  function Extensions(m: Hello): seq<byte>
    requires |m.name| < 0xfff0 && AllFit(m.before) && AllFit(m.after)
  {
    ExtensionsBytes(m.before) + (ExtensionBytes(ServerNameExtension(m.name)) + ExtensionsBytes(m.after))
  }

  /** Everything before the extensions themselves. */
  function Lead(m: Hello): seq<byte>
    requires WellFormed(m)
  {
    m.head + [|m.session|] + m.session + (Word(|m.suites|) + m.suites) + ([|m.compression|] + m.compression)
  }

  function Bytes(m: Hello): seq<byte>
    requires WellFormed(m)
  {
    Lead(m) + Word(|Extensions(m)|) + Extensions(m)
  }

  /** `part` stands at place `at` of `h`. */
  predicate Stands(h: seq<byte>, at: nat, part: seq<byte>)
    decreases |part|
  {
    if part == [] then at <= |h|
    else
      && at < |h|
      && h[at] == part[0]
      && Stands(h, at + 1, part[1..])
  }

  lemma {:induction false} StandsIs(h: seq<byte>, at: nat, part: seq<byte>)
    ensures Stands(h, at, part) <==> at + |part| <= |h| && h[at..at + |part|] == part
    decreases |part|
  {
    if part != [] {
      StandsIs(h, at + 1, part[1..]);
      if at + |part| <= |h| {
        assert h[at..at + |part|] == [h[at]] + h[at + 1..at + |part|];
        assert part == [part[0]] + part[1..];
      }
    }
  }

  lemma Parts(h: seq<byte>, at: nat, a: seq<byte>, b: seq<byte>)
    requires Stands(h, at, a + b)
    ensures Stands(h, at, a) && Stands(h, at + |a|, b) && at + |a| + |b| <= |h|
  {
    StandsIs(h, at, a + b);
    var both := h[at..at + |a| + |b|];
    assert both[..|a|] == a && both[|a|..] == b;
    StandsIs(h, at, a);
    StandsIs(h, at + |a|, b);
  }

  lemma WordRead(h: seq<byte>, at: nat, n: nat)
    requires n < 0x1_0000 && Stands(h, at, Word(n))
    ensures at + 2 <= |h| && At16(h, at) == n
  {
    assert Word(n)[1..][0] == n % 256;
  }

  lemma ByteRead(h: seq<byte>, at: nat, b: byte)
    requires Stands(h, at, [b])
    ensures at < |h| && h[at] == b
  {
  }

  lemma ExtensionFields(h: seq<byte>, at: nat, e: Extension)
    requires Fits(e) && Stands(h, at, ExtensionBytes(e))
    ensures at + 4 + |e.body| <= |h| && At16(h, at) == e.kind && At16(h, at + 2) == |e.body| && Stands(h, at + 4, e.body)
  {
    Parts(h, at, Word(e.kind) + Word(|e.body|), e.body);
    Parts(h, at, Word(e.kind), Word(|e.body|));
    WordRead(h, at, e.kind);
    WordRead(h, at + 2, |e.body|);
  }

  lemma ExtensionSkipped(h: seq<byte>, at: nat, e: Extension, end: nat)
    requires Fits(e) && e.kind != 0 && Stands(h, at, ExtensionBytes(e)) && at + |ExtensionBytes(e)| <= end <= |h|
    ensures Scan(h, at, end) == Scan(h, at + |ExtensionBytes(e)|, end)
  {
    ExtensionFields(h, at, e);
  }

  lemma {:induction false} ExtensionsSkipped(h: seq<byte>, at: nat, es: seq<Extension>, end: nat)
    requires AllFit(es) && NoServerName(es) && Stands(h, at, ExtensionsBytes(es)) && at + |ExtensionsBytes(es)| <= end <= |h|
    ensures Scan(h, at, end) == Scan(h, at + |ExtensionsBytes(es)|, end)
    decreases |es|
  {
    if es != [] {
      Parts(h, at, ExtensionBytes(es[0]), ExtensionsBytes(es[1..]));
      ExtensionSkipped(h, at, es[0], end);
      ExtensionsSkipped(h, at + |ExtensionBytes(es[0])|, es[1..], end);
    }
  }

  lemma NameList(h: seq<byte>, at: nat, length: nat, kind: byte, n: nat, name: seq<byte>)
    requires length < 0x1_0000 && n < 0x1_0000 && Stands(h, at, Word(length) + [kind] + Word(n) + name)
    ensures at + 5 + |name| <= |h| && h[at + 2] == kind && At16(h, at + 3) == n && h[at + 5..at + 5 + |name|] == name
  {
    Parts(h, at, Word(length) + [kind] + Word(n), name);
    StandsIs(h, at + 5, name);
    Parts(h, at, Word(length) + [kind], Word(n));
    WordRead(h, at + 3, n);
    Parts(h, at, Word(length), [kind]);
    ByteRead(h, at + 2, kind);
  }

  lemma NameScanned(h: seq<byte>, at: nat, name: seq<byte>, end: nat)
    requires at + 9 + |name| <= end <= |h| && At16(h, at) == 0 && h[at + 6] == 0 && At16(h, at + 7) == |name|
    requires h[at + 9..at + 9 + |name|] == name
    ensures Scan(h, at, end) == Some(Ascii(name))
  {
  }

  lemma NameRead(h: seq<byte>, at: nat, name: seq<byte>, end: nat)
    requires |name| < 0xfff0 && Stands(h, at, ExtensionBytes(ServerNameExtension(name)))
    requires at + 9 + |name| <= end <= |h|
    ensures Scan(h, at, end) == Some(Ascii(name))
  {
    ExtensionFields(h, at, ServerNameExtension(name));
    NameList(h, at + 4, |name| + 3, 0, |name|, name);
    NameScanned(h, at, name, end);
  }

  lemma HeadRead(h: seq<byte>, head: seq<byte>, session: seq<byte>, rest: seq<byte>)
    requires |head| == 43 && |session| < 256 && Stands(h, 0, head + [|session|] + session + rest)
    ensures |h| >= 44 && h[0] == head[0] && h[5] == head[5] && h[43] == |session| && Stands(h, 44 + |session|, rest)
  {
    Parts(h, 0, head + [|session|] + session, rest);
    Parts(h, 0, head + [|session|], session);
    Parts(h, 0, head, [|session|]);
    ByteRead(h, 43, |session|);
    StandsIs(h, 0, head);
    assert h[0..43][0] == h[0] && h[0..43][5] == h[5];
  }

  lemma ListsStand(h: seq<byte>, at: nat, a: seq<byte>, suites: seq<byte>, c: seq<byte>, compression: seq<byte>)
    requires Stands(h, at, a + suites + (c + compression))
    ensures Stands(h, at, a) && Stands(h, at + |a| + |suites|, c)
  {
    Parts(h, at, a + suites, c + compression);
    Parts(h, at, a, suites);
    Parts(h, at + |a + suites|, c, compression);
  }

  lemma LengthsRead(h: seq<byte>, session: nat, suites: nat, compression: nat)
    requires |h| >= 47 + session + suites + 1 + compression + 1 && h[0] == 0x16 && h[5] == 0x01 && h[43] as nat == session
    requires At16(h, 44 + session) == suites && h[46 + session + suites] as nat == compression
    ensures ExtensionsAt(h) == Some(47 + session + suites + compression)
  {
  }

  lemma LeadRead(m: Hello, h: seq<byte>)
    requires WellFormed(m) && Stands(h, 0, Lead(m)) && |h| >= |Lead(m)| + 2
    ensures ExtensionsAt(h) == Some(|Lead(m)|)
  {
    var a := m.head + [|m.session|] + m.session;
    var w, c := Word(|m.suites|), [|m.compression|];
    Regroup(a, w + m.suites, c + m.compression);
    HeadRead(h, m.head, m.session, w + m.suites + (c + m.compression));
    ListsStand(h, |a|, w, m.suites, c, m.compression);
    WordRead(h, |a|, |m.suites|);
    ByteRead(h, |a| + 2 + |m.suites|, |m.compression|);
    LengthsRead(h, |m.session|, |m.suites|, |m.compression|);
  }

  lemma NameSize(name: seq<byte>)
    requires |name| < 0xfff0
    ensures |ExtensionBytes(ServerNameExtension(name))| == 9 + |name|
  {
  }

  lemma SkippedThenFound(h: seq<byte>, at: nat, before: seq<Extension>, end: nat, name: Option<seq<byte>>)
    requires AllFit(before) && NoServerName(before) && Stands(h, at, ExtensionsBytes(before))
    requires at + |ExtensionsBytes(before)| <= end <= |h| && Scan(h, at + |ExtensionsBytes(before)|, end) == name
    ensures Scan(h, at, end) == name
  {
    ExtensionsSkipped(h, at, before, end);
  }

  lemma ExtensionsRead(m: Hello, h: seq<byte>, at: nat, end: nat)
    requires WellFormed(m) && Stands(h, at, Extensions(m)) && end == at + |Extensions(m)| <= |h|
    ensures Scan(h, at, end) == Some(Ascii(m.name))
  {
    var before, sni, after := ExtensionsBytes(m.before), ExtensionBytes(ServerNameExtension(m.name)), ExtensionsBytes(m.after);
    NameSize(m.name);
    Parts(h, at, before, sni + after);
    Parts(h, at + |before|, sni, after);
    NameRead(h, at + |before|, m.name, end);
    SkippedThenFound(h, at, m.before, end, Some(Ascii(m.name)));
  }

  lemma FrontParts(h: seq<byte>, front: seq<byte>, a: seq<byte>, b: seq<byte>)
    requires front == a + b && Stands(h, 0, front)
    ensures Stands(h, 0, a) && Stands(h, |a|, b)
  {
    Parts(h, 0, a, b);
  }

  lemma BackPart(h: seq<byte>, front: seq<byte>, c: seq<byte>)
    requires Stands(h, 0, front + c)
    ensures Stands(h, 0, front) && Stands(h, |front|, c) && |front| + |c| <= |h|
  {
    Parts(h, 0, front, c);
  }

  lemma NameBehindLead(h: seq<byte>, at: nat, n: nat, name: Option<seq<byte>>)
    requires ExtensionsAt(h) == Some(at) && at + 2 + n <= |h| && At16(h, at) == n && Scan(h, at + 2, at + 2 + n) == name
    ensures ServerName(h) == name
  {
  }

  /** A well-formed ClientHello gives its host name, whatever follows it. */
  lemma WellFormedNameIsRead(m: Hello, h: seq<byte>)
    requires WellFormed(m) && Stands(h, 0, Bytes(m))
    ensures ServerName(h) == Some(Ascii(m.name))
  {
    var at, n := |Lead(m)|, |Extensions(m)|;
    var front := Lead(m) + Word(n);
    BackPart(h, front, Extensions(m));
    FrontParts(h, front, Lead(m), Word(n));
    LeadRead(m, h);
    WordRead(h, at, n);
    ExtensionsRead(m, h, at + 2, at + 2 + n);
    NameBehindLead(h, at, n, Some(Ascii(m.name)));
  }

  // ---------------------------------------------------------------- and nothing else is read

  /** Where the extensions begin in a handshake record that holds a ClientHello, by the lengths of the three lists before. */
  predicate Leads(h: seq<byte>, session: nat, suites: nat, compression: nat) {
    && |h| >= 47 && h[0] == 0x16 && h[5] == 0x01 && h[43] as nat == session
    && 46 + session <= |h| && At16(h, 44 + session) == suites
    && 46 + session + suites < |h| && h[46 + session + suites] as nat == compression
    && 49 + session + suites + compression <= |h|
  }

  ghost predicate ExtensionsBegin(h: seq<byte>, at: nat) {
    exists session: nat, suites: nat, compression: nat ::
      Leads(h, session, suites, compression) && at == 47 + session + suites + compression
  }

  lemma LeadsIff(h: seq<byte>, at: nat)
    ensures ExtensionsAt(h) == Some(at) <==> ExtensionsBegin(h, at)
  {
    if ExtensionsAt(h) == Some(at) {
      var session: nat := h[43];
      var suites := At16(h, 44 + session);
      var compression: nat := h[46 + session + suites];
      assert Leads(h, session, suites, compression);
    }
  }

  /** A server name extension that is at hand up to the length of its first name. */
  predicate IsName(h: seq<byte>, at: nat, end: nat)
    requires end <= |h|
  {
    at + 9 <= end && At16(h, at) == 0
  }

  /** From one extension to the next, none of them a server name; the last place is that of one. */
  predicate Trail(h: seq<byte>, places: seq<nat>, end: nat)
    requires end <= |h|
  {
    && places != [] && IsName(h, places[|places| - 1], end)
    && forall i :: 0 <= i < |places| - 1 ==>
         places[i] + 4 <= end && !IsName(h, places[i], end) && places[i + 1] == places[i] + 4 + At16(h, places[i] + 2)
  }

  /** The first name there is a host name that is at hand. */
  predicate HoldsName(h: seq<byte>, at: nat, end: nat, name: seq<byte>)
    requires end <= |h|
  {
    IsName(h, at, end) && h[at + 6] == 0 && at + 9 + At16(h, at + 7) <= end && name == Ascii(h[at + 9..at + 9 + At16(h, at + 7)])
  }

  ghost predicate NameOnTrail(h: seq<byte>, at: nat, end: nat, name: seq<byte>)
    requires end <= |h|
  {
    exists places :: Trail(h, places, end) && places[0] == at && HoldsName(h, places[|places| - 1], end, name)
  }

  lemma {:induction false} ScanIff(h: seq<byte>, at: nat, end: nat, name: seq<byte>)
    requires end <= |h|
    ensures Scan(h, at, end) == Some(name) <==> NameOnTrail(h, at, end, name)
    decreases |h| - at
  {
    if at + 4 > end {
      NoTrail(h, at, end);
    } else if IsName(h, at, end) {
      OneOnTrail(h, at, end, name);
    } else {
      ScanIff(h, at + 4 + At16(h, at + 2), end, name);
      NextOnTrail(h, at, end, name);
    }
  }

  lemma NoTrail(h: seq<byte>, at: nat, end: nat)
    requires end <= |h| && at + 4 > end
    ensures forall places :: Trail(h, places, end) ==> places[0] != at
  {
  }

  lemma OneOnTrail(h: seq<byte>, at: nat, end: nat, name: seq<byte>)
    requires end <= |h| && IsName(h, at, end)
    ensures NameOnTrail(h, at, end, name) <==> HoldsName(h, at, end, name)
  {
    if HoldsName(h, at, end, name) {
      assert Trail(h, [at], end) && [at][0] == at;
    }
    if places :| Trail(h, places, end) && places[0] == at && HoldsName(h, places[|places| - 1], end, name) {
      assert |places| == 1;
    }
  }

  lemma NextOnTrail(h: seq<byte>, at: nat, end: nat, name: seq<byte>)
    requires at + 4 <= end <= |h| && !IsName(h, at, end)
    ensures NameOnTrail(h, at, end, name) <==> NameOnTrail(h, at + 4 + At16(h, at + 2), end, name)
  {
    var next := at + 4 + At16(h, at + 2);
    if NameOnTrail(h, at, end, name) {
      var places :| Trail(h, places, end) && places[0] == at && HoldsName(h, places[|places| - 1], end, name);
      NextOnSame(h, at, end, name, places);
    }
    if NameOnTrail(h, next, end, name) {
      var places :| Trail(h, places, end) && places[0] == next && HoldsName(h, places[|places| - 1], end, name);
      TrailGrows(h, at, places, end);
      assert ([at] + places)[0] == at;
    }
  }

  lemma NextOnSame(h: seq<byte>, at: nat, end: nat, name: seq<byte>, places: seq<nat>)
    requires at + 4 <= end <= |h| && !IsName(h, at, end)
    requires Trail(h, places, end) && places[0] == at && HoldsName(h, places[|places| - 1], end, name)
    ensures NameOnTrail(h, at + 4 + At16(h, at + 2), end, name)
  {
    assert |places| > 1;
    TrailShrinks(h, places, end);
    assert places[1..][0] == at + 4 + At16(h, at + 2);
  }

  lemma TrailShrinks(h: seq<byte>, places: seq<nat>, end: nat)
    requires end <= |h| && Trail(h, places, end) && |places| > 1
    ensures Trail(h, places[1..], end) && places[1..][|places| - 2] == places[|places| - 1]
  {
    var rest := places[1..];
    forall i | 0 <= i < |rest| - 1
      ensures rest[i] + 4 <= end && !IsName(h, rest[i], end) && rest[i + 1] == rest[i] + 4 + At16(h, rest[i] + 2)
    {
      assert rest[i] == places[i + 1] && rest[i + 1] == places[i + 2];
    }
  }

  lemma TrailGrows(h: seq<byte>, at: nat, places: seq<nat>, end: nat)
    requires at + 4 <= end <= |h| && !IsName(h, at, end) && Trail(h, places, end) && places[0] == at + 4 + At16(h, at + 2)
    ensures Trail(h, [at] + places, end) && ([at] + places)[|places|] == places[|places| - 1]
  {
    var all := [at] + places;
    forall i | 0 <= i < |all| - 1
      ensures all[i] + 4 <= end && !IsName(h, all[i], end) && all[i + 1] == all[i] + 4 + At16(h, all[i] + 2)
    {
      assert all[i + 1] == places[i];
      assert i > 0 ==> all[i] == places[i - 1];
    }
  }

  /**
   * A name is read exactly when it stands in the first server name extension of a ClientHello in a handshake record, within
   * the length that the extensions announce and the bytes at hand.
   */
  lemma NameReadIff(h: seq<byte>, name: seq<byte>)
    ensures ServerName(h) == Some(name) <==> exists at: nat :: ExtensionsBegin(h, at) && NameBehind(h, at, name)
  {
    var found := ExtensionsAt(h);
    if found.Some? {
      LeadsIff(h, found.value);
      ScanIff(h, found.value + 2, ExtensionsEnd(h, found.value), name);
    }
    forall at: nat | ExtensionsBegin(h, at)
      ensures found == Some(at)
    {
      LeadsIff(h, at);
    }
  }

  ghost predicate NameBehind(h: seq<byte>, at: nat, name: seq<byte>) {
    && at + 2 <= |h|
    && var announced := at + 2 + At16(h, at);
       NameOnTrail(h, at + 2, if announced < |h| then announced else |h|, name)
  }
}
