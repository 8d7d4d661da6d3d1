/** Appliance packets. */
module PacketCodec {
  // util/packet-codec.ts and cloud/devices/aabb_device.ts.

  import opened Common
  import opened Crc16
  import Tlv

  datatype Direction = FromDevice | ToDevice

  /** The framing knobs of a TLV packet; each has a default. */
  datatype TlvInput = TlvInput(
    direction: Direction, tlv: seq<Tlv.Element>,
    a: Option<byte>, s: Option<byte>, byte5: Option<byte>, byte6: Option<byte>, byte7: Option<byte>)

  datatype Frame = Frame(kind: byte, byte5: byte, byte6: byte, byte7: byte, len: byte)

  datatype Decoded =
    | DecodedTlv(direction: Direction, crcOk: bool, tlv: seq<Tlv.Element>, frame: Frame, a: Option<byte>, s: Option<byte>)
    | DecodedPush(pushCrcOk: bool, payload: seq<byte>, variant: byte, marker: byte, sequence: byte, signature: seq<byte>)
    | DecodedAabb(checksumOk: bool, length: byte, body: seq<byte>)
    | LengthOverrun
    | Unrecognized

  // ---------------------------------------------------------------- the AABB checksum

  function Sum(bs: seq<byte>): nat { if bs == [] then 0 else Sum(bs[..|bs| - 1]) + bs[|bs| - 1] }

  /** The sum modulo 256, exclusive or 0x55. */
  function Checksum(bs: seq<byte>): byte {
    XorIsByte(Sum(bs) % 256, 0x55);
    MaskedXor(Sum(bs) % 256, 0x55, 8)
  }

  method AabbChecksum(bs: seq<byte>) returns (checksum: byte)
    ensures checksum == Checksum(bs)
  {
    var sum: nat := 0;
    for i := 0 to |bs|
      invariant sum == Sum(bs[..i])
    {
      assert bs[..i + 1][..i] == bs[..i];
      sum := sum + bs[i];
    }
    assert bs[..|bs|] == bs;
    XorIsByte(sum % 256, 0x55);
    checksum := MaskedXor(sum % 256, 0x55, 8);
  }

  // ---------------------------------------------------------------- encoding

  function Head(body: seq<byte>): seq<byte> { [0xaa, (|body| + 4) % 256] }

  function EncodeAabb(body: seq<byte>): seq<byte> { Head(body) + body + [Checksum(Head(body) + body), 0xbb] }

  function Kind(d: Direction): byte { if d == FromDevice then 0x87 else 0x65 }

  function Prefix(input: TlvInput): (p: seq<byte>)
    ensures |p| == 2
  {
    if input.direction == FromDevice then [0, 0] else [Or(input.a, 0), Or(input.s, 0)]
  }

  function FrameOf(input: TlvInput, len: byte): Frame {
    if input.direction == FromDevice then
      Frame(0x87, Or(input.byte5, 2), Or(input.byte6, 4), Or(input.byte7, 0), len)
    else
      Frame(0x65, Or(input.byte5, 2), Or(input.byte6, 2), Or(input.byte7, 1), len)
  }

  function UartHead(f: Frame): seq<byte> { [4, 0, 0, 0, f.kind, f.byte5, f.byte6, f.byte7, f.len] }

  /** What the CRC covers. */
  function Uart(input: TlvInput): seq<byte>
    requires |Tlv.Build(input.tlv)| < 256
  {
    var bytes := Tlv.Build(input.tlv);
    UartHead(FrameOf(input, |bytes|)) + bytes
  }

  /** More than 255 bytes of TLV are refused. */
  function EncodeTlv(input: TlvInput): Option<seq<byte>> {
    if |Tlv.Build(input.tlv)| > 255 then None
    else
      var uart := Uart(input);
      Some(Prefix(input) + uart + [FirstByte(Crc(uart)), SecondByte(Crc(uart))])
  }

  // ---------------------------------------------------------------- decoding

  predicate LooksAabb(buf: seq<byte>) { |buf| >= 5 && buf[0] == 0xaa && buf[|buf| - 1] == 0xbb }

  predicate LooksPush(buf: seq<byte>) {
    && |buf| >= 18 && buf[2] == 0x04 && buf[3] == 0 && buf[4] == 0 && buf[5] == 0
    && buf[6] == 0xa8 && (buf[7] == 0x66 || buf[7] == 0x67)
  }

  predicate LooksTlv(buf: seq<byte>) {
    |buf| >= 13 && buf[2] == 0x04 && (buf[6] == 0x87 || buf[6] == 0xa7 || buf[6] == 0x65)
  }

  function DecodePush(buf: seq<byte>): Decoded
    requires LooksPush(buf)
  {
    var payload := buf[8..|buf| - 2];
    DecodedPush(Crc(buf[2..]) == 0, payload, buf[7], payload[0], payload[7], payload[1..6])
  }

  function DecodeTlv(buf: seq<byte>): Decoded
    requires LooksTlv(buf)
  {
    var fromDevice := buf[6] != 0x65;
    var len: nat := buf[10];
    if 11 + len + 2 > |buf| then LengthOverrun
    else
      DecodedTlv(
        if fromDevice then FromDevice else ToDevice, Crc(buf[2..]) == 0, Tlv.Parse(buf[11..11 + len]),
        Frame(buf[6], buf[7], buf[8], buf[9], buf[10]),
        if fromDevice then None else Some(buf[0]), if fromDevice then None else Some(buf[1]))
  }

  function Decode(buf: seq<byte>): Decoded {
    if LooksAabb(buf) then
      DecodedAabb(buf[|buf| - 2] == Checksum(buf[..|buf| - 2]), buf[1], buf[2..|buf| - 2])
    else if LooksPush(buf) then DecodePush(buf)
    else if LooksTlv(buf) then DecodeTlv(buf)
    else Unrecognized
  }

  // ---------------------------------------------------------------- TLV packets

  /** What an encoded packet should decode to. */
  function Intended(input: TlvInput): Decoded
    requires |Tlv.Build(input.tlv)| < 256
  {
    DecodedTlv(
      input.direction, true, Tlv.Normals(input.tlv), FrameOf(input, |Tlv.Build(input.tlv)|),
      if input.direction == FromDevice then None else Some(Or(input.a, 0)),
      if input.direction == FromDevice then None else Some(Or(input.s, 0)))
  }

  lemma EncodedLayout(prefix: seq<byte>, f: Frame, bytes: seq<byte>, a: byte, b: byte)
    requires |prefix| == 2 && |bytes| == f.len as int
    ensures var buf := prefix + (UartHead(f) + bytes) + [a, b];
            && |buf| == 13 + |bytes| && buf[0] == prefix[0] && buf[1] == prefix[1] && buf[2] == 4 && buf[6] == f.kind
            && Frame(buf[6], buf[7], buf[8], buf[9], buf[10]) == f && buf[11..11 + |bytes|] == bytes
            && buf[|buf| - 1] == b && buf[2..] == UartHead(f) + bytes + [a, b]
  {
  }

  /** Encoding and decoding: every field comes back, unless the bytes happen to look like an AABB packet. */
  lemma RoundTrip(input: TlvInput)
    requires EncodeTlv(input).Some?
    ensures var buf := EncodeTlv(input).value;
            Decode(buf) == Intended(input)
            <==> !(input.direction == ToDevice && Or(input.a, 0) == 0xaa && SecondByte(Crc(Uart(input))) == 0xbb)
  {
    var uart, bytes, buf := Uart(input), Tlv.Build(input.tlv), EncodeTlv(input).value;
    var f := FrameOf(input, |bytes|);
    EncodedLayout(Prefix(input), f, bytes, FirstByte(Crc(uart)), SecondByte(Crc(uart)));
    SentResidue(uart);
    Tlv.ParseBuild(input.tlv);
    assert LooksAabb(buf) <==> buf[0] == 0xaa && buf[|buf| - 1] == 0xbb;
    assert !LooksPush(buf) && LooksTlv(buf);
    assert DecodeTlv(buf) == Intended(input);
  }

  /** A packet byte by byte, with the defaults of its direction. */
  predicate LaidOut(buf: seq<byte>, input: TlvInput, bytes: seq<byte>) {
    var down := input.direction == ToDevice;
    && |buf| == 13 + |bytes|
    && buf[0] == (if down && input.a.Some? then input.a.value else 0)
    && buf[1] == (if down && input.s.Some? then input.s.value else 0)
    && buf[2..6] == [4, 0, 0, 0]
    && buf[6] == (if down then 0x65 else 0x87)
    && buf[7] == (if input.byte5.Some? then input.byte5.value else 2)
    && buf[8] == (if input.byte6.Some? then input.byte6.value else if down then 2 else 4)
    && buf[9] == (if input.byte7.Some? then input.byte7.value else if down then 1 else 0)
    && buf[10] == |bytes| && buf[11..11 + |bytes|] == bytes
  }

  /** The CRC at the end of a packet is the remainder of what comes between it and the first two bytes. */
  predicate Sealed(buf: seq<byte>)
    requires |buf| >= 4
  {
    BigEndian(buf[|buf| - 2], buf[|buf| - 1]) == Remainder(buf[2..|buf| - 2])
  }

  function BigEndian(high: byte, low: byte): nat { high as nat * 256 + low as nat }

  lemma HighAndLow(a: byte, b: byte, c: word)
    ensures BigEndian(a, b) == c <==> a == FirstByte(c) && b == SecondByte(c)
  {
  }

  lemma EncodedBytes(input: TlvInput)
    requires |Tlv.Build(input.tlv)| <= 255
    ensures EncodeTlv(input).Some? && LaidOut(EncodeTlv(input).value, input, Tlv.Build(input.tlv))
    ensures Sealed(EncodeTlv(input).value)
  {
    var bytes, uart := Tlv.Build(input.tlv), Uart(input);
    Layout(Prefix(input), FrameOf(input, |bytes|), bytes, FirstByte(Crc(uart)), SecondByte(Crc(uart)));
    TableIsDivision(uart);
    HighAndLow(FirstByte(Crc(uart)), SecondByte(Crc(uart)), Crc(uart));
  }

  lemma Layout(prefix: seq<byte>, f: Frame, bytes: seq<byte>, a: byte, b: byte)
    requires |prefix| == 2
    ensures var buf := prefix + (UartHead(f) + bytes) + [a, b];
            && |buf| == 13 + |bytes| && buf[0] == prefix[0] && buf[1] == prefix[1]
            && buf[2..6] == [4, 0, 0, 0] && Frame(buf[6], buf[7], buf[8], buf[9], buf[10]) == f
            && buf[11..11 + |bytes|] == bytes && buf[2..|buf| - 2] == UartHead(f) + bytes
            && buf[|buf| - 2] == a && buf[|buf| - 1] == b
  {
  }

  // ---------------------------------------------------------------- the CRC of a packet

  /** What decoding says of the CRC, for the packets that have one. */
  function CrcGood(d: Decoded): Option<bool> {
    match d
    case DecodedTlv(_, ok, _, _, _, _) => Some(ok)
    case DecodedPush(ok, _, _, _, _, _) => Some(ok)
    case _ => None
  }

  lemma CrcGoodIs(buf: seq<byte>)
    requires CrcGood(Decode(buf)).Some?
    ensures |buf| >= 13 && CrcGood(Decode(buf)).value == (Crc(buf[2..]) == 0)
  {
  }

  /** The CRC is good exactly when the last two bytes are the remainder of what comes between them and the first two. */
  lemma CrcGoodIff(buf: seq<byte>)
    requires CrcGood(Decode(buf)).Some?
    ensures |buf| >= 13 && (CrcGood(Decode(buf)).value <==> Sealed(buf))
  {
    var n := |buf|;
    CrcGoodIs(buf);
    var covered := buf[2..n - 2];
    assert buf[2..] == covered + [buf[n - 2], buf[n - 1]];
    Residue(covered, buf[n - 2], buf[n - 1]);
    TableIsDivision(covered);
    HighAndLow(buf[n - 2], buf[n - 1], Crc(covered));
  }

  /**
   * Of a packet that has been damaged within two adjacent bytes, from its third byte on, and is still read as one with a CRC,
   * the CRC is bad.
   */
  lemma DamageCaught(good: seq<byte>, bad: seq<byte>, i: nat)
    requires CrcGood(Decode(good)) == Some(true) && CrcGood(Decode(bad)).Some?
    requires |bad| == |good| && bad != good && 2 <= i && i + 1 < |good|
    requires forall j :: 0 <= j < |good| && j != i && j != i + 1 ==> bad[j] == good[j]
    ensures CrcGood(Decode(bad)) == Some(false)
  {
    CrcGoodIs(good);
    CrcGoodIs(bad);
    CoveredDiffers(good, bad, i);
  }

  lemma CoveredDiffers(good: seq<byte>, bad: seq<byte>, i: nat)
    requires |bad| == |good| && bad != good && 2 <= i && i + 1 < |good|
    requires forall j :: 0 <= j < |good| && j != i && j != i + 1 ==> bad[j] == good[j]
    ensures Crc(good[2..]) != Crc(bad[2..])
  {
    assert good == good[..2] + good[2..] && bad == bad[..2] + bad[2..] && bad[..2] == good[..2];
    AdjacentBytesDiffer(good[2..], bad[2..], i - 2);
  }

  /** So whatever has been encoded, and is damaged like that behind its first two bytes, does not decode with a good CRC. */
  lemma EncodedDamageCaught(input: TlvInput, bad: seq<byte>, i: nat)
    requires EncodeTlv(input).Some?
    requires var buf := EncodeTlv(input).value;
             && |bad| == |buf| && bad != buf && 2 <= i && i + 1 < |buf|
             && forall j :: 0 <= j < |buf| && j != i && j != i + 1 ==> bad[j] == buf[j]
    ensures CrcGood(Decode(bad)) != Some(true)
  {
    var buf, uart := EncodeTlv(input).value, Uart(input);
    SentResidue(uart);
    PrefixGone(Prefix(input), uart, [FirstByte(Crc(uart)), SecondByte(Crc(uart))]);
    CoveredDiffers(buf, bad, i);
    if CrcGood(Decode(bad)).Some? {
      CrcGoodIs(bad);
    }
  }

  lemma PrefixGone(prefix: seq<byte>, uart: seq<byte>, crc: seq<byte>)
    requires |prefix| == 2
    ensures (prefix + uart + crc)[2..] == uart + crc
  {
  }

  /** What a push puts before its payload, and what its CRC covers. */
  function PushHead(variant: byte): seq<byte> { [4, 0, 0, 0, 0xa8, variant] }

  /** A push as an appliance sends it. */
  function PushOf(prefix: seq<byte>, variant: byte, payload: seq<byte>): seq<byte> {
    var crc := Crc(PushHead(variant) + payload);
    prefix + (PushHead(variant) + payload) + [FirstByte(crc), SecondByte(crc)]
  }

  lemma PushLayout(prefix: seq<byte>, variant: byte, payload: seq<byte>, a: byte, b: byte)
    requires |prefix| == 2 && |payload| >= 8 && variant in {0x66, 0x67}
    ensures var buf := prefix + (PushHead(variant) + payload) + [a, b];
            && LooksPush(buf) && buf[0] == prefix[0] && buf[7] == variant && buf[|buf| - 1] == b
            && buf[8..|buf| - 2] == payload && buf[2..] == PushHead(variant) + payload + [a, b]
  {
  }

  /** Every push of either variant is decoded whole, unless it looks like an AABB packet. */
  lemma PushDecoded(prefix: seq<byte>, variant: byte, payload: seq<byte>)
    requires |prefix| == 2 && |payload| >= 8 && variant in {0x66, 0x67}
    ensures var buf := PushOf(prefix, variant, payload);
            Decode(buf) == DecodedPush(true, payload, variant, payload[0], payload[7], payload[1..6])
            <==> !(prefix[0] == 0xaa && SecondByte(Crc(PushHead(variant) + payload)) == 0xbb)
  {
    var crc := Crc(PushHead(variant) + payload);
    PushLayout(prefix, variant, payload, FirstByte(crc), SecondByte(crc));
    SentResidue(PushHead(variant) + payload);
  }

  // ---------------------------------------------------------------- an input that does not come back

  /** The last byte is the low byte of the entry that is looked up. */
  lemma LowByte(c: word, v: byte)
    ensures SecondByte(Update(c, v)) == SecondByte(TableEntry(TableIndex(c, v)))
  {
    var t, u := TableEntry(TableIndex(c, v)), Update(c, v);
    var high, low := Digits(c % 256, 8), Digits(t % 256, 8);
    WordUpDigits(c);
    WordDigits(t);
    DigitsOfValue(Xors(Digits(c * 256, 16), Digits(t, 16)));
    WordDigits(u);
    XorsZeros(low);
    assert Xors(high + Zeros(8), Digits(t / 256, 8) + low)[8..] == Xors(Zeros(8), low);
    assert (Digits(u / 256, 8) + Digits(u % 256, 8))[8..] == Digits(u % 256, 8);
    ByteOfDigits(u % 256);
    ByteOfDigits(t % 256);
  }

  /** The byte that looks entry `i` up next. */
  function ByteFor(c: word, i: byte): byte {
    XorIsByte(c / 256, i);
    MaskedXor(c / 256, i, 8)
  }

  lemma LooksUp(c: word, i: byte)
    ensures TableIndex(c, ByteFor(c, i)) == i
  {
    var x, y := Digits(c / 256, 8), Digits(i, 8);
    DigitsOfValue(Xors(x, y));
    assert Xors(x, Xors(x, y)) == y;
    ByteOfDigits(i);
  }

  /** A packet to a device, with four bytes of TLV, up to its last value byte. */
  function Opening(b5: byte, b6: byte, b7: byte): seq<byte> { UartHead(Frame(0x65, b5, b6, b7, 4)) + [0, 0x20, 1] }

  function Chosen(b5: byte, b6: byte, b7: byte): byte { ByteFor(Crc(Opening(b5, b6, b7)), 0xd6) }

  /** One element, whose value ends with the byte that makes the CRC end with 0xbb. */
  function Confusing(s: byte, b5: byte, b6: byte, b7: byte): TlvInput {
    TlvInput(ToDevice, [Tlv.Element(0, 0, LongValue(Chosen(b5, b6, b7)))], Some(0xaa), Some(s), Some(b5), Some(b6), Some(b7))
  }

  function LongValue(low: nat): nat { 256 + low }

  lemma ConfusingBytes(low: byte, e: Tlv.Element)
    requires e == Tlv.Element(0, 0, LongValue(low))
    ensures Tlv.Build([e]) == [0, 0x20, 1, low]
  {
    assert Tlv.Built(0, LongValue(low)) == [0, 0x20, 1, low];
    assert Tlv.Build([e]) == Tlv.Built(0, LongValue(low)) + [];
  }

  lemma OneByte(bs: seq<byte>, b: byte)
    ensures Crc(bs + [b]) == Update(Crc(bs), b)
  {
    CrcAppend(0, bs, [b]);
    assert CrcFrom(Crc(bs), [b]) == CrcFrom(Update(Crc(bs), b), []);
  }

  lemma EndsWithMark(c: word)
    ensures SecondByte(Update(c, ByteFor(c, 0xd6))) == 0xbb
  {
    LooksUp(c, 0xd6);
    LowByte(c, ByteFor(c, 0xd6));
  }

  /** With any framing there is an input, valid in every field, whose packet is taken for an AABB packet. */
  lemma TakenForAabb(s: byte, b5: byte, b6: byte, b7: byte)
    ensures var input := Confusing(s, b5, b6, b7);
            Tlv.Fit(input.tlv) && EncodeTlv(input).Some? && Decode(EncodeTlv(input).value).DecodedAabb?
  {
    var input, opening, last := Confusing(s, b5, b6, b7), Opening(b5, b6, b7), Chosen(b5, b6, b7);
    ConfusingBytes(last, input.tlv[0]);
    assert input.tlv == [input.tlv[0]];
    var uart := Uart(input);
    assert uart == opening + [last];
    OneByte(opening, last);
    EndsWithMark(Crc(opening));
    EncodedLayout(Prefix(input), FrameOf(input, 4), Tlv.Build(input.tlv), FirstByte(Crc(uart)), SecondByte(Crc(uart)));
  }

  // ---------------------------------------------------------------- AABB packets

  /** A device writes the checksum and the end mark over two zeros, in place. */
  method Send(inner: seq<byte>) returns (packet: array<byte>)
    ensures fresh(packet) && packet[..] == EncodeAabb(inner)
  {
    var n := |inner|;
    packet := new byte[n + 4](_ => 0);
    packet[0], packet[1] := 0xaa, (n + 4) % 256;
    for i := 0 to n
      invariant packet[..2 + i] == Head(inner) + inner[..i] && packet[n + 2] == 0 == packet[n + 3]
    {
      packet[2 + i] := inner[i];
    }
    assert inner[..n] == inner;
    var sum := SumOf(packet);
    ghost var counted := packet[..];
    assert counted == (Head(inner) + inner) + [0, 0];
    ZerosAddNothing(Head(inner) + inner);
    XorIsByte(sum % 256, 0x55);
    packet[n + 2] := MaskedXor(sum % 256, 0x55, 8);
    packet[n + 3] := 0xbb;
    assert packet[..n + 2] == Head(inner) + inner;
    assert packet[..] == packet[..n + 2] + [packet[n + 2], packet[n + 3]];
  }

  method SumOf(packet: array<byte>) returns (sum: nat)
    ensures sum == Sum(packet[..])
  {
    sum := 0;
    for i := 0 to packet.Length
      invariant sum == Sum(packet[..i])
    {
      assert packet[..i + 1][..i] == packet[..i];
      sum := sum + packet[i];
    }
    assert packet[..packet.Length] == packet[..];
  }

  lemma ZerosAddNothing(bs: seq<byte>)
    ensures Sum(bs + [0, 0]) == Sum(bs)
  {
    assert (bs + [0, 0])[..|bs| + 1] == bs + [0] && (bs + [0])[..|bs|] == bs;
  }

  /** What a device hands on of the packets it gets; it does not look at the checksum. */
  function Envelope(buf: seq<byte>): Option<seq<byte>> {
    if |buf| >= 4 && buf[0] == 0xaa && buf[|buf| - 1] == 0xbb then Some(buf[2..|buf| - 2]) else None
  }

  lemma AabbLayout(body: seq<byte>)
    ensures var buf := EncodeAabb(body);
            && |buf| == |body| + 4 && buf[0] == 0xaa && buf[|buf| - 1] == 0xbb && buf[1] == (|body| + 4) % 256
            && buf[2..|buf| - 2] == body && buf[..|buf| - 2] == Head(body) + body
            && buf[|buf| - 2] == Checksum(Head(body) + body)
  {
  }

  /** What is sent is handed on whole by a device, and decoded whole unless the body is empty. */
  lemma AabbRoundTrip(body: seq<byte>)
    ensures Envelope(EncodeAabb(body)) == Some(body)
    ensures Decode(EncodeAabb(body)) == DecodedAabb(true, (|body| + 4) % 256, body) <==> body != []
  {
    AabbLayout(body);
    assert !LooksTlv(EncodeAabb([])) by {
      AabbLayout([]);
    }
  }

  lemma {:induction false} SumUpdate(bs: seq<byte>, i: nat, x: byte)
    requires i < |bs|
    ensures Sum(bs[i := x]) == Sum(bs) - bs[i] + x
  {
    var n := |bs| - 1;
    if i < n {
      SumUpdate(bs[..n], i, x);
      assert bs[i := x][..n] == bs[..n][i := x];
    } else {
      assert bs[i := x][..n] == bs[..n];
    }
  }

  /** The sum's low byte with every second digit turned over, from the lowest on. */
  predicate IsChecksum(c: byte, sum: nat) { Digits(c, 8) == Turned(Digits(sum % 256, 8)) }

  function Turned(d: seq<bool>): seq<bool>
    requires |d| == 8
  {
    [d[0], !d[1], d[2], !d[3], d[4], !d[5], d[6], !d[7]]
  }

  lemma TurnedIs(d: seq<bool>)
    requires |d| == 8
    ensures Xors(d, [false, true, false, true, false, true, false, true]) == Turned(d)
  {
  }

  lemma MaskDigits()
    ensures Digits(0x55, 8) == [false, true, false, true, false, true, false, true]
  {
    TwiceDigits(0x2a, 7);
    TwiceDigits(0x15, 6);
    TwiceDigits(0x0a, 5);
    TwiceDigits(5, 4);
    TwiceDigits(2, 3);
    assert Digits(2, 3) == [false, true, false];
  }

  lemma ChecksumIs(bs: seq<byte>, c: byte)
    ensures c == Checksum(bs) <==> IsChecksum(c, Sum(bs))
  {
    var d := Digits(Sum(bs) % 256, 8);
    MaskDigits();
    TurnedIs(d);
    DigitsOfValue(Turned(d));
    ByteOfDigits(c);
  }

  /** Decoding compares the last byte but one with the checksum of all the bytes before it. */
  lemma ChecksumGoodIff(buf: seq<byte>)
    requires Decode(buf).DecodedAabb?
    ensures |buf| >= 5 && (Decode(buf).checksumOk <==> IsChecksum(buf[|buf| - 2], Sum(buf[..|buf| - 2])))
  {
    ChecksumIs(buf[..|buf| - 2], buf[|buf| - 2]);
  }

  lemma ChecksumInjective(a: seq<byte>, b: seq<byte>)
    requires Checksum(a) == Checksum(b)
    ensures Sum(a) % 256 == Sum(b) % 256
  {
    var x, y, m := Digits(Sum(a) % 256, 8), Digits(Sum(b) % 256, 8), Digits(0x55, 8);
    DigitsOfValue(Xors(x, m));
    DigitsOfValue(Xors(y, m));
    XorsCancel(x, m);
    XorsCancel(y, m);
    ByteOfDigits(Sum(a) % 256);
    ByteOfDigits(Sum(b) % 256);
  }

  lemma XorsCancel(x: seq<bool>, m: seq<bool>)
    requires |x| == |m|
    ensures Xors(Xors(x, m), m) == x
  {
  }

  /** Changing one byte of the body makes the checksum fail. */
  lemma OneByteCaught(body: seq<byte>, i: nat, x: byte)
    requires i < |body| && x != body[i]
    ensures Decode(EncodeAabb(body)[2 + i := x]) == DecodedAabb(false, (|body| + 4) % 256, body[i := x])
  {
    var covered, buf := Head(body) + body, EncodeAabb(body)[2 + i := x];
    ChangedLayout(body, i, x);
    ChecksumDiffers(covered, 2 + i, x);
    assert LooksAabb(buf);
  }

  lemma ChangedLayout(body: seq<byte>, i: nat, x: byte)
    requires i < |body|
    ensures var buf, covered := EncodeAabb(body)[2 + i := x], Head(body) + body;
            && |buf| == |body| + 4 && buf[0] == 0xaa && buf[|buf| - 1] == 0xbb && buf[1] == (|body| + 4) % 256
            && buf[..|buf| - 2] == covered[2 + i := x] && buf[2..|buf| - 2] == body[i := x]
            && buf[|buf| - 2] == Checksum(covered)
  {
    AabbLayout(body);
  }

  lemma ChecksumDiffers(bs: seq<byte>, i: nat, x: byte)
    requires i < |bs| && x != bs[i]
    ensures Checksum(bs) != Checksum(bs[i := x])
  {
    SumUpdate(bs, i, x);
    if Checksum(bs) == Checksum(bs[i := x]) {
      ChecksumInjective(bs, bs[i := x]);
      OffByLess(Sum(bs), bs[i], x);
    }
  }

  lemma OffByLess(s: int, a: byte, b: byte)
    requires a != b
    ensures s % 256 != (s - a + b) % 256
  {
  }
}
