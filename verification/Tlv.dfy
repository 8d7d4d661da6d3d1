/** Type-length-value elements (util/tlv.ts). */
module Tlv {
  import opened Common

  /** `l` is what parsing found; building ignores it. */
  datatype Element = Element(t: nat, l: nat, v: nat)

  // ---------------------------------------------------------------- one element

  function Type(a: byte, b: byte): nat {
    var high: nat := a;
    4 * high + b / 64
  }

  function ExtraBytes(b: byte): (l: nat)
    ensures l <= 3
  {
    (b / 16) % 4
  }

  function BigEndian(s: seq<byte>): nat { if s == [] then 0 else 256 * BigEndian(s[..|s| - 1]) + s[|s| - 1] }

  /** A short value sits in the second byte; a longer one in the bytes that follow. */
  function ValueIn(bs: seq<byte>): nat
    requires |bs| >= 2 && |bs| == 2 + ExtraBytes(bs[1])
  {
    if |bs| == 2 then bs[1] % 16 else BigEndian(bs[2..])
  }

  predicate Whole(bs: seq<byte>) { |bs| >= 2 && |bs| >= 2 + ExtraBytes(bs[1]) }

  function Size(bs: seq<byte>): (n: nat)
    requires Whole(bs)
    ensures 2 <= n <= 5 && n <= |bs|
  {
    2 + ExtraBytes(bs[1])
  }

  function First(bs: seq<byte>): Element
    requires Whole(bs)
  {
    Element(Type(bs[0], bs[1]), ExtraBytes(bs[1]), ValueIn(bs[..Size(bs)]))
  }

  /** An element that the end of the buffer cuts short is dropped. */
  function Parse(bs: seq<byte>): seq<Element> {
    if Whole(bs) then [First(bs)] + Parse(bs[Size(bs)..]) else []
  }

  /** How many bytes a value needs beside the first two. */
  function Width(v: nat): nat { if v < 0x10 then 0 else if v < 0x100 then 1 else if v < 0x1_0000 then 2 else 3 }

  function Tail(v: nat): (s: seq<byte>)
    ensures |s| == Width(v)
  {
    if v < 0x10 then []
    else if v < 0x100 then [v]
    else if v < 0x1_0000 then [(v / 256) % 256, v % 256]
    else [(v / 0x1_0000) % 256, (v / 256) % 256, v % 256]
  }

  /** Ten bits of the type and twenty-four of the value are written. */
  function Built(t: nat, v: nat): seq<byte> {
    [(t / 4) % 256, (t % 4) * 64 + Width(v) * 16 + if v < 0x10 then v else 0] + Tail(v)
  }

  function Build(elements: seq<Element>): seq<byte> {
    if elements == [] then [] else Built(elements[0].t, elements[0].v) + Build(elements[1..])
  }

  // ---------------------------------------------------------------- the loops

  method ReadValue(bytes: seq<byte>) returns (v: nat)
    ensures v == BigEndian(bytes)
  {
    v := 0;
    for j := 0 to |bytes|
      invariant v == BigEndian(bytes[..j])
    {
      assert bytes[..j + 1][..j] == bytes[..j];
      v := 256 * v + bytes[j];
    }
    assert bytes[..|bytes|] == bytes;
  }

  lemma ParsedFirst(buf: seq<byte>, i: nat, l: nat, v: nat)
    requires i + 2 <= |buf| && l == ExtraBytes(buf[i + 1]) && i + 2 + l <= |buf|
    requires v == if l > 0 then BigEndian(buf[i + 2..i + 2 + l]) else buf[i + 1] % 16
    ensures Parse(buf[i..]) == [Element(Type(buf[i], buf[i + 1]), l, v)] + Parse(buf[i + 2 + l..])
  {
    var rest := buf[i..];
    assert rest[..2 + l][2..] == buf[i + 2..i + 2 + l];
    assert rest[2 + l..] == buf[i + 2 + l..];
  }

  method ReadElement(buf: seq<byte>, i: nat) returns (el: Element, next: nat)
    requires i + 2 <= |buf| && i + 2 + ExtraBytes(buf[i + 1]) <= |buf|
    ensures i + 2 <= next <= |buf|
    ensures Parse(buf[i..]) == [el] + Parse(buf[next..])
  {
    var l := ExtraBytes(buf[i + 1]);
    var v: nat := buf[i + 1] % 16;
    if l > 0 {
      v := ReadValue(buf[i + 2..i + 2 + l]);
    }
    ParsedFirst(buf, i, l, v);
    el, next := Element(Type(buf[i], buf[i + 1]), l, v), i + 2 + l;
  }

  lemma CutShort(buf: seq<byte>, i: nat, out: seq<Element>)
    requires i <= |buf| && (i + 2 > |buf| || i + 2 + ExtraBytes(buf[i + 1]) > |buf|)
    ensures out + Parse(buf[i..]) == out
  {
    assert out + [] == out;
  }

  method ParseBuffer(buf: seq<byte>) returns (out: seq<Element>)
    ensures out == Parse(buf)
  {
    out := [];
    var i := 0;
    assert buf[0..] == buf;
    while i < |buf|
      invariant 0 <= i <= |buf| && out + Parse(buf[i..]) == Parse(buf)
    {
      if i + 2 > |buf| || i + 2 + ExtraBytes(buf[i + 1]) > |buf| {
        CutShort(buf, i, out);
        return;
      }
      var el, next := ReadElement(buf, i);
      Regroup(out, [el], Parse(buf[next..]));
      out := out + [el];
      i := next;
    }
    CutShort(buf, i, out);
  }

  method Push(out: seq<byte>, el: Element) returns (pushed: seq<byte>)
    ensures pushed == out + Built(el.t, el.v)
  {
    var tl := (el.t % 4) * 64;
    pushed := out + [(el.t / 4) % 256];
    if el.v < 0x10 {
      pushed := pushed + [tl + el.v];
    } else if el.v < 0x100 {
      pushed := pushed + [tl + 0x10];
      pushed := pushed + [el.v];
    } else if el.v < 0x1_0000 {
      pushed := pushed + [tl + 0x20];
      pushed := pushed + [(el.v / 256) % 256];
      pushed := pushed + [el.v % 256];
    } else {
      pushed := pushed + [tl + 0x30];
      pushed := pushed + [(el.v / 0x1_0000) % 256];
      pushed := pushed + [(el.v / 256) % 256];
      pushed := pushed + [el.v % 256];
    }
  }

  method BuildElements(elements: seq<Element>) returns (out: seq<byte>)
    ensures out == Build(elements)
  {
    out := [];
    for i := 0 to |elements|
      invariant out + Build(elements[i..]) == Build(elements)
    {
      assert elements[i..][1..] == elements[i + 1..];
      Regroup(out, Built(elements[i].t, elements[i].v), Build(elements[i + 1..]));
      out := Push(out, elements[i]);
    }
  }

  // ---------------------------------------------------------------- round trips

  /** What is left of an element once it is written. */
  function Normal(e: Element): Element { Element(e.t % 1024, Width(e.v), e.v % 0x100_0000) }

  function Normals(elements: seq<Element>): seq<Element> {
    if elements == [] then [] else [Normal(elements[0])] + Normals(elements[1..])
  }

  lemma SecondByteOf(t: nat, v: nat)
    ensures var b := (t % 4) * 64 + Width(v) * 16 + if v < 0x10 then v else 0;
            b / 64 == t % 4 && (b / 16) % 4 == Width(v) && b < 256
  {
    var low := Width(v) * 16 + if v < 0x10 then v else 0;
    var b := (t % 4) * 64 + low;
    assert low < 64 && b / 16 == (t % 4) * 4 + Width(v);
  }

  lemma BuiltHead(t: nat, v: nat, rest: seq<byte>)
    ensures var bs := Built(t, v) + rest;
            && Whole(bs) && Size(bs) == 2 + Width(v) && Type(bs[0], bs[1]) == t % 1024
            && bs[..Size(bs)] == Built(t, v) && bs[Size(bs)..] == rest
  {
    SecondByteOf(t, v);
    TenBits(t);
  }

  lemma TenBits(t: nat)
    ensures t % 1024 == 4 * ((t / 4) % 256) + t % 4
  {
    var q := t / 4;
    assert q == 256 * (q / 256) + q % 256;
  }

  lemma BigEndianOf(a: byte, b: byte, c: byte)
    ensures BigEndian([a]) == a && BigEndian([a, b]) as int == 256 * (a as int) + b
    ensures BigEndian([a, b, c]) as int == 256 * (256 * (a as int) + b) + c
  {
    assert [a, b, c][..2] == [a, b] && [a, b][..1] == [a] && [a][..0] == [];
    assert BigEndian([a]) == 256 * BigEndian([a][..0]) + a;
  }

  lemma TailValue(v: nat)
    requires v >= 0x10
    ensures BigEndian(Tail(v)) == v % 0x100_0000
  {
    var a, b, c := (v / 0x1_0000) % 256, (v / 256) % 256, v % 256;
    BigEndianOf(a, b, c);
    BigEndianOf(b, c, 0);
    BigEndianOf(c, 0, 0);
    if v >= 0x1_0000 {
      ThreeBytes(v);
    }
  }

  lemma ThreeBytes(v: nat)
    ensures 256 * (256 * ((v / 0x1_0000) % 256) + (v / 256) % 256) + v % 256 == v % 0x100_0000
  {
    var q, r := v / 256, v % 256;
    assert v == 256 * q + r && v / 0x1_0000 == q / 256;
    TwoBytes(q);
    UpByte(q, r);
  }

  lemma TwoBytes(q: nat)
    ensures q % 0x1_0000 == 256 * ((q / 256) % 256) + q % 256
  {
    var h, l := q / 256, q % 256;
    assert q == 256 * h + l && h == 256 * (h / 256) + h % 256;
    LowWord(h / 256, 256 * (h % 256) + l);
    assert q == 0x1_0000 * (h / 256) + (256 * (h % 256) + l);
  }

  lemma LowWord(k: nat, r: nat)
    requires r < 0x1_0000
    ensures (0x1_0000 * k + r) % 0x1_0000 == r
  {
  }

  lemma UpByte(q: nat, r: nat)
    requires r < 256
    ensures (256 * q + r) % 0x100_0000 == 256 * (q % 0x1_0000) + r
  {
    assert q == 0x1_0000 * (q / 0x1_0000) + q % 0x1_0000;
  }

  lemma BuiltValue(t: nat, v: nat)
    requires |Built(t, v)| == 2 + ExtraBytes(Built(t, v)[1])
    ensures ValueIn(Built(t, v)) == v % 0x100_0000
  {
    var b := Built(t, v);
    if v >= 0x10 {
      TailValue(v);
      assert b[2..] == Tail(v);
    } else {
      assert b[1] == 16 * (4 * (t % 4)) + v;
    }
  }

  lemma BuiltIsFirst(e: Element, rest: seq<byte>)
    ensures var bs := Built(e.t, e.v) + rest;
            Whole(bs) && First(bs) == Normal(e) && bs[Size(bs)..] == rest
  {
    BuiltHead(e.t, e.v, rest);
    BuiltValue(e.t, e.v);
  }

  /** Parsing what was built gives each element back, with ten bits of its type and twenty-four of its value. */
  lemma {:induction false} ParseBuild(elements: seq<Element>)
    ensures Parse(Build(elements)) == Normals(elements)
  {
    if elements != [] {
      BuiltIsFirst(elements[0], Build(elements[1..]));
      ParseBuild(elements[1..]);
    }
  }

  predicate Agree(a: seq<Element>, b: seq<Element>) {
    |a| == |b| && (a == [] || (a[0].t == b[0].t && a[0].v == b[0].v && Agree(a[1..], b[1..])))
  }

  predicate Fit(elements: seq<Element>) {
    elements == [] || (elements[0].t < 1024 && elements[0].v < 0x100_0000 && Fit(elements[1..]))
  }

  lemma {:induction false} NormalsAgree(elements: seq<Element>)
    ensures |Normals(elements)| == |elements|
    ensures Agree(Normals(elements), elements) <==> Fit(elements)
  {
    if elements != [] {
      NormalsAgree(elements[1..]);
      assert Normals(elements)[1..] == Normals(elements[1..]);
    }
  }

  /** Types and values survive exactly when each fits its bits. */
  lemma RoundTrip(elements: seq<Element>)
    ensures Agree(Parse(Build(elements)), elements) <==> Fit(elements)
  {
    ParseBuild(elements);
    NormalsAgree(elements);
  }

  /** No more value bytes than the value needs, and nothing beside the length in the bits that they replace. */
  predicate Minimal(bs: seq<byte>)
    requires Whole(bs)
  {
    First(bs).l == Width(First(bs).v) && (First(bs).l == 0 || bs[1] % 16 == 0)
  }

  /** Bytes that are whole minimal elements. */
  predicate Canonical(bs: seq<byte>) {
    bs == [] || (Whole(bs) && Minimal(bs) && Canonical(bs[Size(bs)..]))
  }

  lemma BytesOfValue(s: seq<byte>)
    requires 1 <= |s| <= 3 && |s| == Width(BigEndian(s))
    ensures Tail(BigEndian(s)) == s
  {
    if |s| == 1 {
      assert s == [s[0]];
      BigEndianOf(s[0], 0, 0);
    } else if |s| == 2 {
      assert s == [s[0], s[1]];
      BigEndianOf(s[0], s[1], 0);
      UpperBytes(0, s[0], s[1]);
    } else {
      assert s == [s[0], s[1], s[2]];
      BigEndianOf(s[0], s[1], s[2]);
      UpperBytes(s[0], s[1], s[2]);
    }
  }

  lemma UpperBytes(a: byte, b: byte, c: byte)
    ensures var v := 256 * (256 * (a as int) + b) + c;
            (v / 0x1_0000) % 256 == a && (v / 256) % 256 == b && v % 256 == c
  {
    var high := 256 * (a as int) + b;
    var v := 256 * high + c;
    assert v / 256 == high && high / 256 == a && high % 256 == b;
    assert v / 0x1_0000 == high / 256;
  }

  lemma SecondByte(b: byte)
    ensures b == (b / 64) * 64 + ((b / 16) % 4) * 16 + b % 16
  {
    assert b / 64 == (b / 16) / 4;
  }

  lemma RebuiltHead(bs: seq<byte>)
    requires Whole(bs)
    ensures var e := First(bs);
            Built(e.t, e.v)[0] == bs[0] && (Built(e.t, e.v)[1] == bs[1] <==> Minimal(bs))
  {
    var e := First(bs);
    var a, b := bs[0], bs[1];
    var low := Width(e.v) * 16 + if e.v < 0x10 then e.v else 0;
    SecondByte(b);
    assert e.t / 4 == a && e.t % 4 == b / 64;
    assert Built(e.t, e.v)[1] == (b / 64) * 64 + low;
    assert e.l == 0 ==> e.v == b % 16;
    if low == e.l * 16 + b % 16 {
      assert low / 16 == Width(e.v) == e.l;
    }
  }

  /** Writing an element again gives its bytes exactly when they were minimal. */
  lemma RebuiltFirst(bs: seq<byte>)
    requires Whole(bs)
    ensures var e := First(bs);
            Built(e.t, e.v)[..2] == bs[..2] <==> Minimal(bs)
    ensures var e := First(bs);
            Minimal(bs) ==> Built(e.t, e.v) == bs[..Size(bs)]
  {
    var e := First(bs);
    RebuiltHead(bs);
    if Minimal(bs) && e.l > 0 {
      BytesOfValue(bs[..Size(bs)][2..]);
      assert bs[..Size(bs)] == bs[..2] + bs[..Size(bs)][2..];
    }
  }

  lemma {:induction false} CanonicalRebuilds(bs: seq<byte>)
    requires Canonical(bs)
    ensures Build(Parse(bs)) == bs
  {
    if bs != [] {
      RebuiltFirst(bs);
      CanonicalRebuilds(bs[Size(bs)..]);
    }
  }

  lemma {:induction false} RebuiltIsCanonical(bs: seq<byte>)
    requires Build(Parse(bs)) == bs
    ensures Canonical(bs)
  {
    if bs != [] {
      var e, rest := First(bs), bs[Size(bs)..];
      RebuiltFirst(bs);
      var built := Built(e.t, e.v);
      assert bs == built + Build(Parse(rest));
      assert bs[..2] == built[..2];
      assert Build(Parse(rest)) == rest;
      RebuiltIsCanonical(rest);
    }
  }

  /** Building what was parsed gives the bytes back exactly when they were canonical. */
  lemma BuildParse(bs: seq<byte>)
    ensures Build(Parse(bs)) == bs <==> Canonical(bs)
  {
    if Canonical(bs) {
      CanonicalRebuilds(bs);
    }
    if Build(Parse(bs)) == bs {
      RebuiltIsCanonical(bs);
    }
  }

  /** The three low bytes, which are all that is written of a value, need as many bytes as the value. */
  predicate KeepsWidth(v: nat) { v < 0x100_0000 || v % 0x100_0000 >= 0x1_0000 }

  /** The second byte: two bits of the type, the width, and a value that fits beside them. */
  lemma BareSecondByte(t: nat, v: nat)
    ensures Width(v) > 0 ==> Built(t, v)[1] % 16 == 0
  {
    assert Width(v) > 0 ==> Built(t, v)[1] == 16 * (4 * (t % 4) + Width(v));
  }

  lemma WidthKept(v: nat)
    ensures Width(v % 0x100_0000) == Width(v) <==> KeepsWidth(v)
  {
  }

  lemma BuiltIsMinimal(e: Element, rest: seq<byte>)
    ensures var bs := Built(e.t, e.v) + rest;
            Whole(bs) && (Minimal(bs) <==> KeepsWidth(e.v)) && bs[Size(bs)..] == rest
  {
    BuiltIsFirst(e, rest);
    BareSecondByte(e.t, e.v);
    WidthKept(e.v);
    var bs := Built(e.t, e.v) + rest;
    assert bs[1] == Built(e.t, e.v)[1] && First(bs).l == Width(e.v) && First(bs).v == e.v % 0x100_0000;
  }

  predicate KeepWidths(elements: seq<Element>) {
    elements == [] || (KeepsWidth(elements[0].v) && KeepWidths(elements[1..]))
  }

  /** What is built is canonical, unless a value of over three bytes loses so much that fewer bytes would do for the rest. */
  lemma {:induction false} BuildIsCanonical(elements: seq<Element>)
    ensures Canonical(Build(elements)) <==> KeepWidths(elements)
  {
    if elements != [] {
      BuiltIsMinimal(elements[0], Build(elements[1..]));
      BuildIsCanonical(elements[1..]);
    }
  }

  // ---------------------------------------------------------------- the bits of an element

  /**
   * Ten bits of type, two for the number of value bytes, and then the value: below 16 in the four bits that are left, and
   * otherwise in as few whole bytes as it needs, the highest first.
   */
  lemma ElementBits(t: nat, v: nat)
    requires t < 1024 && v < 0x100_0000
    ensures var e := Built(t, v);
            && 2 <= |e| <= 5 && e[0] as nat * 4 + e[1] as nat / 64 == t && (e[1] / 16) % 4 == |e| - 2
            && (|e| == 2 <==> v < 0x10) && (|e| == 3 <==> 0x10 <= v < 0x100) && (|e| == 4 <==> 0x100 <= v < 0x1_0000)
            && (|e| == 2 ==> e[1] % 16 == v)
            && (|e| == 3 ==> e[2] == v)
            && (|e| == 4 ==> e[2] as nat * 0x100 + e[3] as nat == v)
            && (|e| == 5 ==> e[2] as nat * 0x1_0000 + e[3] as nat * 0x100 + e[4] as nat == v)
  {
    SecondByteOf(t, v);
    if v >= 0x1_0000 {
      ThreeBytes(v);
    } else if v < 0x10 {
      assert (t % 4) * 64 + v == 16 * (4 * (t % 4)) + v;
    }
  }
}
