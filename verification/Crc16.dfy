/**
 * The table-driven CRC (util/crc16.ts) against long division of polynomials over two elements: they agree on every
 * byte string, and what division is known to detect is therefore detected: short bursts of errors, for example.
 */
module Crc16 {
  import opened Common

  /** Sixteen bits, as a number. */
  type word = x: int | 0 <= x < 0x1_0000

  // ---------------------------------------------------------------- the table, in rows of sixteen

  function Row0(v: nat): word {
    if v < 8 then
      if v == 0 then 0x0000 else if v == 1 then 0x1021 else if v == 2 then 0x2042 else if v == 3 then 0x3063
      else if v == 4 then 0x4084 else if v == 5 then 0x50a5 else if v == 6 then 0x60c6 else 0x70e7
    else
      if v == 8 then 0x8108 else if v == 9 then 0x9129 else if v == 10 then 0xa14a else if v == 11 then 0xb16b
      else if v == 12 then 0xc18c else if v == 13 then 0xd1ad else if v == 14 then 0xe1ce else 0xf1ef
  }

  function Row1(v: nat): word {
    if v < 24 then
      if v == 16 then 0x1231 else if v == 17 then 0x0210 else if v == 18 then 0x3273 else if v == 19 then 0x2252
      else if v == 20 then 0x52b5 else if v == 21 then 0x4294 else if v == 22 then 0x72f7 else 0x62d6
    else
      if v == 24 then 0x9339 else if v == 25 then 0x8318 else if v == 26 then 0xb37b else if v == 27 then 0xa35a
      else if v == 28 then 0xd3bd else if v == 29 then 0xc39c else if v == 30 then 0xf3ff else 0xe3de
  }

  function Row2(v: nat): word {
    if v < 40 then
      if v == 32 then 0x2462 else if v == 33 then 0x3443 else if v == 34 then 0x0420 else if v == 35 then 0x1401
      else if v == 36 then 0x64e6 else if v == 37 then 0x74c7 else if v == 38 then 0x44a4 else 0x5485
    else
      if v == 40 then 0xa56a else if v == 41 then 0xb54b else if v == 42 then 0x8528 else if v == 43 then 0x9509
      else if v == 44 then 0xe5ee else if v == 45 then 0xf5cf else if v == 46 then 0xc5ac else 0xd58d
  }

  function Row3(v: nat): word {
    if v < 56 then
      if v == 48 then 0x3653 else if v == 49 then 0x2672 else if v == 50 then 0x1611 else if v == 51 then 0x0630
      else if v == 52 then 0x76d7 else if v == 53 then 0x66f6 else if v == 54 then 0x5695 else 0x46b4
    else
      if v == 56 then 0xb75b else if v == 57 then 0xa77a else if v == 58 then 0x9719 else if v == 59 then 0x8738
      else if v == 60 then 0xf7df else if v == 61 then 0xe7fe else if v == 62 then 0xd79d else 0xc7bc
  }

  function Row4(v: nat): word {
    if v < 72 then
      if v == 64 then 0x48c4 else if v == 65 then 0x58e5 else if v == 66 then 0x6886 else if v == 67 then 0x78a7
      else if v == 68 then 0x0840 else if v == 69 then 0x1861 else if v == 70 then 0x2802 else 0x3823
    else
      if v == 72 then 0xc9cc else if v == 73 then 0xd9ed else if v == 74 then 0xe98e else if v == 75 then 0xf9af
      else if v == 76 then 0x8948 else if v == 77 then 0x9969 else if v == 78 then 0xa90a else 0xb92b
  }

  function Row5(v: nat): word {
    if v < 88 then
      if v == 80 then 0x5af5 else if v == 81 then 0x4ad4 else if v == 82 then 0x7ab7 else if v == 83 then 0x6a96
      else if v == 84 then 0x1a71 else if v == 85 then 0x0a50 else if v == 86 then 0x3a33 else 0x2a12
    else
      if v == 88 then 0xdbfd else if v == 89 then 0xcbdc else if v == 90 then 0xfbbf else if v == 91 then 0xeb9e
      else if v == 92 then 0x9b79 else if v == 93 then 0x8b58 else if v == 94 then 0xbb3b else 0xab1a
  }

  function Row6(v: nat): word {
    if v < 104 then
      if v == 96 then 0x6ca6 else if v == 97 then 0x7c87 else if v == 98 then 0x4ce4 else if v == 99 then 0x5cc5
      else if v == 100 then 0x2c22 else if v == 101 then 0x3c03 else if v == 102 then 0x0c60 else 0x1c41
    else
      if v == 104 then 0xedae else if v == 105 then 0xfd8f else if v == 106 then 0xcdec else if v == 107 then 0xddcd
      else if v == 108 then 0xad2a else if v == 109 then 0xbd0b else if v == 110 then 0x8d68 else 0x9d49
  }

  function Row7(v: nat): word {
    if v < 120 then
      if v == 112 then 0x7e97 else if v == 113 then 0x6eb6 else if v == 114 then 0x5ed5 else if v == 115 then 0x4ef4
      else if v == 116 then 0x3e13 else if v == 117 then 0x2e32 else if v == 118 then 0x1e51 else 0x0e70
    else
      if v == 120 then 0xff9f else if v == 121 then 0xefbe else if v == 122 then 0xdfdd else if v == 123 then 0xcffc
      else if v == 124 then 0xbf1b else if v == 125 then 0xaf3a else if v == 126 then 0x9f59 else 0x8f78
  }

  function Row8(v: nat): word {
    if v < 136 then
      if v == 128 then 0x9188 else if v == 129 then 0x81a9 else if v == 130 then 0xb1ca else if v == 131 then 0xa1eb
      else if v == 132 then 0xd10c else if v == 133 then 0xc12d else if v == 134 then 0xf14e else 0xe16f
    else
      if v == 136 then 0x1080 else if v == 137 then 0x00a1 else if v == 138 then 0x30c2 else if v == 139 then 0x20e3
      else if v == 140 then 0x5004 else if v == 141 then 0x4025 else if v == 142 then 0x7046 else 0x6067
  }

  function Row9(v: nat): word {
    if v < 152 then
      if v == 144 then 0x83b9 else if v == 145 then 0x9398 else if v == 146 then 0xa3fb else if v == 147 then 0xb3da
      else if v == 148 then 0xc33d else if v == 149 then 0xd31c else if v == 150 then 0xe37f else 0xf35e
    else
      if v == 152 then 0x02b1 else if v == 153 then 0x1290 else if v == 154 then 0x22f3 else if v == 155 then 0x32d2
      else if v == 156 then 0x4235 else if v == 157 then 0x5214 else if v == 158 then 0x6277 else 0x7256
  }

  function RowA(v: nat): word {
    if v < 168 then
      if v == 160 then 0xb5ea else if v == 161 then 0xa5cb else if v == 162 then 0x95a8 else if v == 163 then 0x8589
      else if v == 164 then 0xf56e else if v == 165 then 0xe54f else if v == 166 then 0xd52c else 0xc50d
    else
      if v == 168 then 0x34e2 else if v == 169 then 0x24c3 else if v == 170 then 0x14a0 else if v == 171 then 0x0481
      else if v == 172 then 0x7466 else if v == 173 then 0x6447 else if v == 174 then 0x5424 else 0x4405
  }

  function RowB(v: nat): word {
    if v < 184 then
      if v == 176 then 0xa7db else if v == 177 then 0xb7fa else if v == 178 then 0x8799 else if v == 179 then 0x97b8
      else if v == 180 then 0xe75f else if v == 181 then 0xf77e else if v == 182 then 0xc71d else 0xd73c
    else
      if v == 184 then 0x26d3 else if v == 185 then 0x36f2 else if v == 186 then 0x0691 else if v == 187 then 0x16b0
      else if v == 188 then 0x6657 else if v == 189 then 0x7676 else if v == 190 then 0x4615 else 0x5634
  }

  function RowC(v: nat): word {
    if v < 200 then
      if v == 192 then 0xd94c else if v == 193 then 0xc96d else if v == 194 then 0xf90e else if v == 195 then 0xe92f
      else if v == 196 then 0x99c8 else if v == 197 then 0x89e9 else if v == 198 then 0xb98a else 0xa9ab
    else
      if v == 200 then 0x5844 else if v == 201 then 0x4865 else if v == 202 then 0x7806 else if v == 203 then 0x6827
      else if v == 204 then 0x18c0 else if v == 205 then 0x08e1 else if v == 206 then 0x3882 else 0x28a3
  }

  function RowD(v: nat): word {
    if v < 216 then
      if v == 208 then 0xcb7d else if v == 209 then 0xdb5c else if v == 210 then 0xeb3f else if v == 211 then 0xfb1e
      else if v == 212 then 0x8bf9 else if v == 213 then 0x9bd8 else if v == 214 then 0xabbb else 0xbb9a
    else
      if v == 216 then 0x4a75 else if v == 217 then 0x5a54 else if v == 218 then 0x6a37 else if v == 219 then 0x7a16
      else if v == 220 then 0x0af1 else if v == 221 then 0x1ad0 else if v == 222 then 0x2ab3 else 0x3a92
  }

  function RowE(v: nat): word {
    if v < 232 then
      if v == 224 then 0xfd2e else if v == 225 then 0xed0f else if v == 226 then 0xdd6c else if v == 227 then 0xcd4d
      else if v == 228 then 0xbdaa else if v == 229 then 0xad8b else if v == 230 then 0x9de8 else 0x8dc9
    else
      if v == 232 then 0x7c26 else if v == 233 then 0x6c07 else if v == 234 then 0x5c64 else if v == 235 then 0x4c45
      else if v == 236 then 0x3ca2 else if v == 237 then 0x2c83 else if v == 238 then 0x1ce0 else 0x0cc1
  }

  function RowF(v: nat): word {
    if v < 248 then
      if v == 240 then 0xef1f else if v == 241 then 0xff3e else if v == 242 then 0xcf5d else if v == 243 then 0xdf7c
      else if v == 244 then 0xaf9b else if v == 245 then 0xbfba else if v == 246 then 0x8fd9 else 0x9ff8
    else
      if v == 248 then 0x6e17 else if v == 249 then 0x7e36 else if v == 250 then 0x4e55 else if v == 251 then 0x5e74
      else if v == 252 then 0x2e93 else if v == 253 then 0x3eb2 else if v == 254 then 0x0ed1 else 0x1ef0
  }

  function TableEntry(v: byte): word {
    if v < 128 then
      if v < 64 then
        if v < 32 then
          if v < 16 then Row0(v) else Row1(v)
        else
          if v < 48 then Row2(v) else Row3(v)
      else
        if v < 96 then
          if v < 80 then Row4(v) else Row5(v)
        else
          if v < 112 then Row6(v) else Row7(v)
    else
      if v < 192 then
        if v < 160 then
          if v < 144 then Row8(v) else Row9(v)
        else
          if v < 176 then RowA(v) else RowB(v)
      else
        if v < 224 then
          if v < 208 then RowC(v) else RowD(v)
        else
          if v < 240 then RowE(v) else RowF(v)
  }

  // ---------------------------------------------------------------- binary digits

  /** The lowest `n` binary digits of `x`, highest first. */
  function Digits(x: nat, n: nat): (bits: seq<bool>)
    ensures |bits| == n
    decreases n, x
  {
    if n == 0 then [] else Digits(x / 2, n - 1) + [x % 2 == 1]
  }

  function Value(bits: seq<bool>): nat {
    if bits == [] then 0 else 2 * Value(bits[..|bits| - 1]) + if bits[|bits| - 1] then 1 else 0
  }

  /** Exclusive or, digit by digit: addition of polynomials. */
  function Xors(x: seq<bool>, y: seq<bool>): (z: seq<bool>)
    requires |x| == |y|
    ensures |z| == |x|
    ensures forall i :: 0 <= i < |x| ==> z[i] == (x[i] != y[i])
  {
    seq(|x|, i requires 0 <= i < |x| => x[i] != y[i])
  }

  /** The lowest `n` digits of the exclusive or of two numbers. */
  function MaskedXor(a: nat, b: nat, n: nat): nat { Value(Xors(Digits(a, n), Digits(b, n))) }

  // ---------------------------------------------------------------- the algorithm

  function TableIndex(crc: word, v: byte): byte {
    XorIsByte(crc / 256, v);
    MaskedXor(crc / 256, v, 8)
  }

  function Update(crc: word, v: byte): word {
    XorIsWord(crc * 256, TableEntry(TableIndex(crc, v)));
    MaskedXor(crc * 256, TableEntry(TableIndex(crc, v)), 16)
  }

  function CrcFrom(crc: word, bs: seq<byte>): word
    decreases |bs|
  {
    if bs == [] then crc else CrcFrom(Update(crc, bs[0]), bs[1..])
  }

  function Crc(bs: seq<byte>): word { CrcFrom(0, bs) }

  method Crc16(arr: seq<byte>) returns (crc: word)
    ensures crc == Remainder(arr)
  {
    crc := 0;
    for i := 0 to |arr|
      invariant CrcFrom(crc, arr[i..]) == Crc(arr)
    {
      assert arr[i..][1..] == arr[i + 1..];
      crc := Update(crc, arr[i]);
    }
    TableIsDivision(arr);
  }

  // ---------------------------------------------------------------- numbers and their digits

  /** `x`, `k` places up. */
  function Up(x: nat, k: nat): nat { if k == 0 then x else 2 * Up(x, k - 1) }

  lemma UpIs(x: nat)
    ensures Up(x, 0) == x && Up(x, 5) == 32 * x && Up(x, 8) == 256 * x && Up(x, 12) == 4096 * x
    ensures Up(x, 15) == 0x8000 * x && Up(x, 16) == 0x1_0000 * x
  {
    assert Up(x, 4) == 2 * Up(x, 3) && Up(x, 3) == 2 * Up(x, 2);
    assert Up(x, 8) == 2 * Up(x, 7) && Up(x, 7) == 2 * Up(x, 6) && Up(x, 6) == 2 * Up(x, 5);
    assert Up(x, 12) == 2 * Up(x, 11) && Up(x, 11) == 2 * Up(x, 10) && Up(x, 10) == 2 * Up(x, 9);
    assert Up(x, 16) == 2 * Up(x, 15) && Up(x, 15) == 2 * Up(x, 14) && Up(x, 14) == 2 * Up(x, 13);
  }

  /** The digits of a number are those above place `k` and then those below it. */
  lemma {:induction false} DigitsBlocks(hi: nat, lo: nat, m: nat, k: nat)
    requires lo < Up(1, k)
    ensures Digits(Up(hi, k) + lo, m + k) == Digits(hi, m) + Digits(lo, k)
    decreases k
  {
    if k > 0 {
      DigitsBlocks(hi, lo / 2, m, k - 1);
      assert (Up(hi, k) + lo) / 2 == Up(hi, k - 1) + lo / 2;
    }
  }

  lemma {:induction false} ValueBelow(bits: seq<bool>)
    ensures Value(bits) < Up(1, |bits|)
  {
    if bits != [] {
      ValueBelow(bits[..|bits| - 1]);
    }
  }

  lemma {:induction false} DigitsOfValue(bits: seq<bool>)
    ensures Digits(Value(bits), |bits|) == bits
  {
    if bits != [] {
      var n := |bits| - 1;
      DigitsOfValue(bits[..n]);
      assert bits == bits[..n] + [bits[n]];
    }
  }

  lemma {:induction false} ValueOfDigits(x: nat, n: nat)
    requires x < Up(1, n)
    ensures Value(Digits(x, n)) == x
    decreases n
  {
    if n > 0 {
      ValueOfDigits(x / 2, n - 1);
      assert Digits(x, n)[..n - 1] == Digits(x / 2, n - 1);
    }
  }

  lemma XorIsByte(a: nat, b: nat)
    ensures MaskedXor(a, b, 8) < 256
  {
    ValueBelow(Xors(Digits(a, 8), Digits(b, 8)));
    UpIs(1);
  }

  lemma XorIsWord(a: nat, b: nat)
    ensures MaskedXor(a, b, 16) < 0x1_0000
  {
    ValueBelow(Xors(Digits(a, 16), Digits(b, 16)));
    UpIs(1);
  }

  // ---------------------------------------------------------------- long division by x^16 + x^12 + x^5 + 1

  /** A remainder: sixteen digits, highest first. */
  type register = r: seq<bool> | |r| == 16 witness DIVISOR

  /** The divisor, below its highest term. */
  const DIVISOR: seq<bool> :=
    [false, false, false, true, false, false, false, false, false, false, true, false, false, false, false, true]

  function Zeros(n: nat): (z: seq<bool>)
    ensures |z| == n && forall i :: 0 <= i < n ==> !z[i]
  {
    seq(n, _ => false)
  }

  /** One place up, less the divisor when the degree reaches sixteen. */
  function Shift(r: register): register { Xors(r[1..] + [false], if r[0] then DIVISOR else Zeros(16)) }

  /** One step of long division: one place up, and the next digit of the dividend brought down. */
  function DivStep(r: register, bit: bool): register { Xors(Shift(r), Zeros(15) + [bit]) }

  function Divide(r: register, bits: seq<bool>): register
    decreases |bits|
  {
    if bits == [] then r else Divide(DivStep(r, bits[0]), bits[1..])
  }

  function MessageBits(bs: seq<byte>): seq<bool> {
    if bs == [] then [] else Digits(bs[0], 8) + MessageBits(bs[1..])
  }

  /** What is left of the message, followed by sixteen zeros. */
  function Remainder(bs: seq<byte>): nat { Value(Divide(Zeros(16), MessageBits(bs) + Zeros(16))) }

  lemma {:induction false} DivideAppend(r: register, a: seq<bool>, b: seq<bool>)
    ensures Divide(r, a + b) == Divide(Divide(r, a), b)
    decreases |a|
  {
    if a == [] {
      assert a + b == b;
    } else {
      assert (a + b)[1..] == a[1..] + b;
      DivideAppend(DivStep(r, a[0]), a[1..], b);
    }
  }

  // ---------------------------------------------------------------- division is linear

  lemma XorPairs(a: seq<bool>, x: seq<bool>, b: seq<bool>, y: seq<bool>)
    requires |a| == |x| == |b| == |y|
    ensures Xors(Xors(a, x), Xors(b, y)) == Xors(Xors(a, b), Xors(x, y))
  {
  }

  lemma ShiftLinear(a: register, b: register)
    ensures Xors(Shift(a), Shift(b)) == Shift(Xors(a, b))
  {
    var c := Xors(a, b);
    var g, h := if a[0] then DIVISOR else Zeros(16), if b[0] then DIVISOR else Zeros(16);
    XorPairs(a[1..] + [false], g, b[1..] + [false], h);
    assert Xors(a[1..] + [false], b[1..] + [false]) == c[1..] + [false];
    assert Xors(g, h) == if c[0] then DIVISOR else Zeros(16);
  }

  lemma StepLinear(a: register, b: register, x: bool, y: bool)
    ensures Xors(DivStep(a, x), DivStep(b, y)) == DivStep(Xors(a, b), x != y)
  {
    XorPairs(Shift(a), Zeros(15) + [x], Shift(b), Zeros(15) + [y]);
    ShiftLinear(a, b);
    assert Xors(Zeros(15) + [x], Zeros(15) + [y]) == Zeros(15) + [x != y];
  }

  lemma {:induction false} DivideLinear(r: register, s: register, x: seq<bool>, y: seq<bool>)
    requires |x| == |y|
    ensures Xors(Divide(r, x), Divide(s, y)) == Divide(Xors(r, s), Xors(x, y))
    decreases |x|
  {
    if x != [] {
      StepLinear(r, s, x[0], y[0]);
      assert Xors(x, y)[1..] == Xors(x[1..], y[1..]);
      DivideLinear(DivStep(r, x[0]), DivStep(s, y[0]), x[1..], y[1..]);
    }
  }

  /** The register, `n` places up. */
  function Shifts(r: register, n: nat): register
    decreases n, r
  {
    if n == 0 then r else Shifts(Shift(r), n - 1)
  }

  lemma {:induction false} ShiftsAdd(r: register, m: nat, n: nat)
    ensures Shifts(r, m + n) == Shifts(Shifts(r, m), n)
    decreases m
  {
    if m > 0 {
      ShiftsAdd(Shift(r), m - 1, n);
    }
  }

  lemma {:induction false} ShiftsLinear(a: register, b: register, n: nat)
    ensures Xors(Shifts(a, n), Shifts(b, n)) == Shifts(Xors(a, b), n)
    decreases n
  {
    if n > 0 {
      ShiftLinear(a, b);
      ShiftsLinear(Shift(a), Shift(b), n - 1);
    }
  }

  lemma ZeroStep(r: register)
    ensures DivStep(r, false) == Shift(r)
  {
  }

  lemma {:induction false} DivideZeros(r: register, n: nat)
    ensures Divide(r, Zeros(n)) == Shifts(r, n)
    decreases n
  {
    if n > 0 {
      var zeros := Zeros(n);
      ZeroStep(r);
      assert zeros[0] == false && zeros[1..] == Zeros(n - 1);
      assert Divide(r, zeros) == Divide(Shift(r), zeros[1..]);
      DivideZeros(Shift(r), n - 1);
    }
  }

  function Padded(p: seq<bool>): register
    requires |p| <= 16
  {
    Zeros(16 - |p|) + p
  }

  /** Nothing is taken away while the digits stay below the sixteenth place. */
  lemma {:induction false} SmallDividend(p: seq<bool>, d: seq<bool>)
    requires |p| + |d| <= 16
    ensures Divide(Padded(p), d) == Padded(p + d)
    decreases |d|
  {
    if d == [] {
      assert p + d == p;
    } else {
      var q := p + [d[0]];
      MoveOver(p, d);
      SmallStep(p, d[0]);
      SmallDividend(q, d[1..]);
    }
  }

  lemma MoveOver(p: seq<bool>, d: seq<bool>)
    requires d != []
    ensures p + d == p + [d[0]] + d[1..]
  {
  }

  lemma SmallStep(p: seq<bool>, bit: bool)
    requires |p| < 16
    ensures DivStep(Padded(p), bit) == Padded(p + [bit])
  {
    var r := Padded(p);
    assert !r[0];
    assert Shift(r) == Zeros(15 - |p|) + p + [false];
  }

  lemma {:induction false} SmallShifts(r: register, n: nat)
    requires n <= 16 && r[..n] == Zeros(n)
    ensures Shifts(r, n) == r[n..] + Zeros(n)
    decreases n
  {
    if n > 0 {
      assert !r[..n][0];
      var s := r[1..] + [false];
      assert Shift(r) == s;
      assert s[..n - 1] == r[..n][1..];
      SmallShifts(s, n - 1);
      assert s[n - 1..] + Zeros(n - 1) == r[n..] + Zeros(n);
    }
  }

  // ---------------------------------------------------------------- the table is eight steps of division

  /** `y` is `x` with the digits of the divisor flipped. */
  predicate Reduced(x: nat, y: nat) {
    var d0 := if x % 2 == 0 then 1 else -1;
    var d5 := if (x / 32) % 2 == 0 then 32 else -32;
    var d12 := if (x / 4096) % 2 == 0 then 4096 else -4096;
    y == x + d0 + d5 + d12
  }

  /** `u` is one step of division after `t`. */
  predicate Doubled(t: nat, u: nat) { if t < 0x8000 then u == 2 * t else Reduced(2 * t - 0x1_0000, u) }

  /** The entries at `2 * v` and `2 * v + 1`, from the one at `v`. */
  predicate Doubles(v: nat)
    requires v < 128
  {
    Doubled(TableEntry(v), TableEntry(2 * v)) && Reduced(TableEntry(2 * v), TableEntry(2 * v + 1))
  }

  lemma {:induction false} DigitsZero(n: nat)
    ensures Digits(0, n) == Zeros(n)
  {
    if n > 0 {
      DigitsZero(n - 1);
    }
  }

  lemma TopDigit(top: bool, low: nat)
    requires low < 0x8000
    ensures Digits(if top then 0x8000 + low else low, 16) == [top] + Digits(low, 15)
  {
    var hi := if top then 1 else 0;
    UpIs(1);
    UpIs(hi);
    DigitsBlocks(hi, low, 1, 15);
    assert Digits(hi, 1) == [] + [top];
  }

  lemma TwiceDigits(x: nat, n: nat)
    ensures Digits(2 * x, n + 1) == Digits(x, n) + [false] && Digits(2 * x + 1, n + 1) == Digits(x, n) + [true]
  {
    var even, odd := 2 * x, 2 * x + 1;
    assert even / 2 == x && even % 2 == 0;
    assert Digits(even, n + 1) == Digits(x, n) + [false];
    assert odd / 2 == x && odd % 2 == 1;
  }

  lemma ShiftIs(r: register, top: bool, rest: seq<bool>)
    requires |rest| == 15 && r == [top] + rest
    ensures Shift(r) == if top then Xors(rest + [false], DIVISOR) else rest + [false]
  {
    assert r[1..] == rest;
    assert Xors(rest + [false], Zeros(16)) == rest + [false];
  }

  lemma UpPlain(low: nat)
    requires low < 0x8000
    ensures Digits(2 * low, 16) == Shift([false] + Digits(low, 15))
  {
    TwiceDigits(low, 15);
    ShiftIs([false] + Digits(low, 15), false, Digits(low, 15));
  }

  lemma UpReduced(low: nat, u: nat)
    requires low < 0x8000 && Reduced(2 * low, u)
    ensures Digits(u, 16) == Shift([true] + Digits(low, 15))
  {
    TwiceDigits(low, 15);
    ReducedDigits(2 * low, u);
    ShiftIs([true] + Digits(low, 15), true, Digits(low, 15));
  }

  lemma DoubledIsShift(t: word, u: nat)
    requires Doubled(t, u)
    ensures Digits(u, 16) == Shift(Digits(t, 16))
  {
    if t >= 0x8000 {
      TopDigit(true, t - 0x8000);
      UpReduced(t - 0x8000, u);
    } else {
      TopDigit(false, t);
      UpPlain(t);
    }
  }

  /** A byte in the upper half of the register. */
  function Upper(v: byte): register { Digits(v, 8) + Zeros(8) }

  const LOWEST: register := Zeros(7) + [true] + Zeros(8)

  lemma UpperTwice(u: nat)
    requires u < 128
    ensures Upper(2 * u) == Shift(Upper(u))
    ensures Upper(2 * u + 1) == Xors(Upper(2 * u), LOWEST)
  {
    var d := Digits(u, 7);
    UpperTop(u);
    TwiceDigits(u, 7);
    ShiftIs(Upper(u), false, d + Zeros(8));
    LowestAdded(d);
  }

  lemma LowestAdded(d: seq<bool>)
    requires |d| == 7
    ensures d + Zeros(8) + [false] == d + [false] + Zeros(8)
    ensures Xors(d + [false] + Zeros(8), LOWEST) == d + [true] + Zeros(8)
  {
  }

  lemma UpperTop(u: nat)
    requires u < 128
    ensures Digits(u, 8) == [false] + Digits(u, 7)
  {
    UpIs(1);
    assert Up(1, 8) == 2 * Up(1, 7);
    DigitsBlocks(0, u, 1, 7);
    UpIs(0);
    assert Up(0, 8) == 2 * Up(0, 7);
    assert Digits(0, 1) == [] + [false];
  }

  lemma LowestShifted()
    ensures Shifts(LOWEST, 8) == DIVISOR
  {
    var e := LOWEST;
    assert e[..7] == Zeros(7);
    SmallShifts(e, 7);
    ShiftsAdd(e, 7, 1);
    var f := e[7..] + Zeros(7);
    assert f[0] && f[1..] + [false] == Zeros(16);
    assert Shifts(f, 1) == Shifts(Shift(f), 0);
  }

  lemma ShiftUp(lo: seq<bool>)
    requires |lo| == 8
    ensures Shifts(Zeros(8) + lo, 8) == lo + Zeros(8)
  {
    var r := Zeros(8) + lo;
    assert r[..8] == Zeros(8) && r[8..] == lo;
    SmallShifts(r, 8);
  }

  lemma ShiftsCommute(r: register, n: nat)
    ensures Shifts(Shift(r), n) == Shift(Shifts(r, n))
  {
    ShiftsAdd(r, n, 1);
    ShiftsAdd(r, 1, n);
    assert Shifts(r, 1) == Shifts(Shift(r), 0);
    var s := Shifts(r, n);
    assert Shifts(s, 1) == Shifts(Shift(s), 0);
  }

  predicate EntryIs(v: byte) { Digits(TableEntry(v), 16) == Shifts(Upper(v), 8) }

  lemma FirstEntry()
    ensures EntryIs(0)
  {
    DigitsZero(16);
    DigitsZero(8);
    assert Upper(0) == Zeros(16);
    ShiftUp(Zeros(8));
  }

  lemma EvenEntry(u: nat, v: nat)
    requires u < 128 && v == 2 * u && EntryIs(u)
    ensures EntryIs(v)
  {
    TableDoubles(u);
    DoubledIsShift(TableEntry(u), TableEntry(v));
    UpperTwice(u);
    ShiftsCommute(Upper(u), 8);
  }

  lemma OddEntry(u: nat, v: nat)
    requires u < 128 && v == 2 * u + 1 && EntryIs(2 * u)
    ensures EntryIs(v)
  {
    TableDoubles(u);
    ReducedDigits(TableEntry(2 * u), TableEntry(v));
    UpperTwice(u);
    LowestShifted();
    ShiftsLinear(Upper(2 * u), LOWEST, 8);
  }

  /** Every entry of the table is what eight steps of division leave of its index. */
  lemma {:induction false} TableEntryIs(v: byte)
    ensures EntryIs(v)
    decreases v
  {
    if v == 0 {
      FirstEntry();
    } else if v % 2 == 0 {
      TableEntryIs(v / 2);
      EvenEntry(v / 2, v);
    } else {
      TableEntryIs(2 * (v / 2));
      OddEntry(v / 2, v);
    }
  }

  // ---------------------------------------------------------------- the main theorem

  lemma WordDigits(c: word)
    ensures Digits(c, 16) == Digits(c / 256, 8) + Digits(c % 256, 8)
  {
    UpIs(1);
    UpIs(c / 256);
    DigitsBlocks(c / 256, c % 256, 8, 8);
  }

  lemma WordUpDigits(c: word)
    ensures Digits(c * 256, 16) == Digits(c % 256, 8) + Zeros(8)
  {
    UpIs(1);
    UpIs(c);
    UpIs(c / 256);
    LowDigits(c / 256, c % 256);
    DigitsBlocks(c, 0, 8, 8);
    DigitsZero(8);
  }

  lemma LowDigits(hi: nat, lo: byte)
    ensures Digits(256 * hi + lo, 8) == Digits(lo, 8)
  {
    UpIs(1);
    UpIs(hi);
    DigitsBlocks(hi, lo, 0, 8);
    assert Digits(hi, 0) == [];
  }

  lemma XorHalves(hi: seq<bool>, lo: seq<bool>, v: seq<bool>)
    requires |hi| == |lo| == |v| == 8
    ensures Xors(Zeros(8) + lo, Xors(hi, v) + Zeros(8)) == Xors(hi + lo, v + Zeros(8))
  {
  }

  /** One byte of the algorithm adds the byte at the top of the register and shifts eight places. */
  lemma UpdateIs(c: word, v: byte)
    ensures Digits(Update(c, v), 16) == Shifts(Xors(Digits(c, 16), Upper(v)), 8)
  {
    var i := TableIndex(c, v);
    var hi, lo, d := Digits(c / 256, 8), Digits(c % 256, 8), Digits(v, 8);
    WordDigits(c);
    WordUpDigits(c);
    DigitsOfValue(Xors(hi, d));
    TableEntryIs(i);
    DigitsOfValue(Xors(Digits(c * 256, 16), Digits(TableEntry(i), 16)));
    ShiftUp(lo);
    ShiftsLinear(Zeros(8) + lo, Xors(hi, d) + Zeros(8), 8);
    XorHalves(hi, lo, d);
  }

  lemma XorsZeros(r: seq<bool>)
    ensures Xors(r, Zeros(|r|)) == r && Xors(Zeros(|r|), r) == r
  {
  }

  lemma DivideByte(r: register, v: byte)
    ensures Divide(r, Digits(v, 8)) == Xors(Shifts(r, 8), Zeros(8) + Digits(v, 8))
  {
    var d := Digits(v, 8);
    XorsZeros(r);
    XorsZeros(d);
    DivideLinear(r, Zeros(16), Zeros(8), d);
    DivideZeros(r, 8);
    FromNothing(d);
  }

  lemma ShiftTwice(r: register, v: byte)
    ensures Shifts(Xors(Shifts(r, 8), Zeros(8) + Digits(v, 8)), 16) == Xors(Shifts(r, 24), Shifts(Upper(v), 8))
  {
    var low := Zeros(8) + Digits(v, 8);
    ShiftsLinear(Shifts(r, 8), low, 16);
    ShiftsAdd(r, 8, 16);
    ShiftsAdd(low, 8, 8);
    ShiftUp(Digits(v, 8));
  }

  /** A byte more for the table is a byte more of the dividend, with sixteen zeros still to come. */
  lemma ByteStep(r: register, c: word, v: byte)
    requires Digits(c, 16) == Shifts(r, 16)
    ensures Digits(Update(c, v), 16) == Shifts(Divide(r, Digits(v, 8)), 16)
  {
    UpdateIs(c, v);
    ShiftsLinear(Shifts(r, 16), Upper(v), 8);
    ShiftsAdd(r, 16, 8);
    DivideByte(r, v);
    ShiftTwice(r, v);
  }

  lemma {:induction false} FoldIsDivision(r: register, c: word, bs: seq<byte>)
    requires Digits(c, 16) == Shifts(r, 16)
    ensures Digits(CrcFrom(c, bs), 16) == Shifts(Divide(r, MessageBits(bs)), 16)
    decreases |bs|
  {
    if bs != [] {
      ByteStep(r, c, bs[0]);
      DivideAppend(r, Digits(bs[0], 8), MessageBits(bs[1..]));
      FoldIsDivision(Divide(r, Digits(bs[0], 8)), Update(c, bs[0]), bs[1..]);
    }
  }

  lemma WordIs(c: word)
    ensures Value(Digits(c, 16)) == c
  {
    UpIs(1);
    ValueOfDigits(c, 16);
  }

  /** The table's CRC is the remainder of long division, for every byte string. */
  lemma TableIsDivision(bs: seq<byte>)
    ensures Crc(bs) == Remainder(bs)
  {
    DigitsZero(16);
    DivideZeros(Zeros(16), 16);
    FromNothing(Zeros(16));
    assert Padded(Zeros(16)) == Zeros(16);
    FoldIsDivision(Zeros(16), 0, bs);
    var r := Divide(Zeros(16), MessageBits(bs));
    DivideZeros(r, 16);
    DivideAppend(Zeros(16), MessageBits(bs), Zeros(16));
    WordIs(Crc(bs));
  }

  // ---------------------------------------------------------------- what the CRC tells apart

  lemma ShiftKernel(r: register)
    requires Shift(r) == Zeros(16)
    ensures r == Zeros(16)
  {
    var up := r[1..] + [false];
    var g := if r[0] then DIVISOR else Zeros(16);
    assert !Xors(up, g)[15];
    assert forall i :: 0 < i < 16 ==> r[i] == up[i - 1];
    assert forall i :: 0 <= i < 16 ==> !Xors(up, g)[i];
  }

  lemma {:induction false} ShiftsKernel(r: register, n: nat)
    requires Shifts(r, n) == Zeros(16)
    ensures r == Zeros(16)
    decreases n
  {
    if n > 0 {
      ShiftsKernel(Shift(r), n - 1);
      ShiftKernel(r);
    }
  }

  lemma {:induction false} LeadingZeros(n: nat, d: seq<bool>)
    ensures Divide(Zeros(16), Zeros(n) + d) == Divide(Zeros(16), d)
    decreases n
  {
    if n == 0 {
      assert Zeros(0) + d == d;
    } else {
      assert (Zeros(n) + d)[1..] == Zeros(n - 1) + d;
      assert Padded([]) == Zeros(16) && Padded([] + [false]) == Zeros(16);
      SmallStep([], false);
      LeadingZeros(n - 1, d);
    }
  }

  lemma XorsSame(x: seq<bool>, y: seq<bool>)
    requires |x| == |y| && Xors(x, y) == Zeros(|x|)
    ensures x == y
  {
    assert forall i :: 0 <= i < |x| ==> !Xors(x, y)[i];
  }

  lemma FromNothing(d: seq<bool>)
    requires |d| <= 16
    ensures Divide(Zeros(16), d) == Padded(d)
  {
    SmallDividend([], d);
    assert Padded([]) == Zeros(16) && [] + d == d;
  }

  lemma PaddedZero(d: seq<bool>)
    requires |d| <= 16 && Padded(d) == Zeros(16)
    ensures d == Zeros(|d|)
  {
    assert forall i :: 0 <= i < |d| ==> d[i] == Padded(d)[16 - |d| + i];
  }

  /** Sixteen digits or fewer come out as they went in: they leave nothing only when all are zero. */
  lemma ShortDividend(d: seq<bool>)
    requires |d| <= 16 && Divide(Zeros(16), d) == Zeros(16)
    ensures d == Zeros(|d|)
  {
    FromNothing(d);
    PaddedZero(d);
  }

  lemma XorMiddle(u: seq<bool>, x: seq<bool>, y: seq<bool>, w: seq<bool>)
    requires |x| == |y|
    ensures Xors(u + x + w, u + y + w) == Zeros(|u|) + (Xors(x, y) + Zeros(|w|))
  {
  }

  /** Up to sixteen digits, with zeros before and after them. */
  lemma LoneBurst(n: nat, d: seq<bool>, m: nat)
    requires |d| <= 16 && Divide(Zeros(16), Zeros(n) + (d + Zeros(m))) == Zeros(16)
    ensures d == Zeros(|d|)
  {
    LeadingZeros(n, d + Zeros(m));
    DivideAppend(Zeros(16), d, Zeros(m));
    DivideZeros(Divide(Zeros(16), d), m);
    ShiftsKernel(Divide(Zeros(16), d), m);
    ShortDividend(d);
  }

  /** Bursts: dividends that differ only within sixteen neighbouring digits leave different remainders. */
  lemma BurstsDiffer(u: seq<bool>, x: seq<bool>, y: seq<bool>, w: seq<bool>)
    requires |x| == |y| <= 16
    requires Divide(Zeros(16), u + x + w) == Divide(Zeros(16), u + y + w)
    ensures x == y
  {
    var zero := Zeros(16);
    DivideLinear(zero, zero, u + x + w, u + y + w);
    XorMiddle(u, x, y, w);
    XorsZeros(zero);
    SameGone(Divide(zero, u + x + w));
    LoneBurst(|u|, Xors(x, y), |w|);
    XorsSame(x, y);
  }

  lemma SameGone(r: register)
    ensures Xors(r, r) == Zeros(16)
  {
  }

  lemma {:induction false} MessageAppend(a: seq<byte>, b: seq<byte>)
    ensures MessageBits(a + b) == MessageBits(a) + MessageBits(b)
  {
    if a == [] {
      assert a + b == b;
    } else {
      assert (a + b)[1..] == a[1..] + b;
      MessageAppend(a[1..], b);
    }
  }

  lemma ByteOfDigits(a: byte)
    ensures Value(Digits(a, 8)) == a
  {
    UpIs(1);
    ValueOfDigits(a, 8);
  }

  lemma PairBits(a: byte, b: byte)
    ensures MessageBits([a, b]) == Digits(a, 8) + Digits(b, 8)
  {
    assert [a, b][1..] == [b] && [b][1..] == [];
    assert MessageBits([b]) == Digits(b, 8) + [];
  }

  lemma PairOfBits(a: byte, b: byte, c: byte, d: byte)
    requires MessageBits([a, b]) == MessageBits([c, d])
    ensures a == c && b == d
  {
    PairBits(a, b);
    PairBits(c, d);
    var x := MessageBits([a, b]);
    assert Digits(a, 8) == x[..8] == Digits(c, 8) && Digits(b, 8) == x[8..] == Digits(d, 8);
    ByteOfDigits(a);
    ByteOfDigits(b);
    ByteOfDigits(c);
    ByteOfDigits(d);
  }

  lemma DividendOfPair(u: seq<byte>, a: byte, b: byte, w: seq<byte>)
    ensures MessageBits(u + [a, b] + w) + Zeros(16) == MessageBits(u) + MessageBits([a, b]) + (MessageBits(w) + Zeros(16))
  {
    MessageAppend(u + [a, b], w);
    MessageAppend(u, [a, b]);
  }

  lemma RemainderDigits(bs: seq<byte>)
    ensures Divide(Zeros(16), MessageBits(bs) + Zeros(16)) == Digits(Crc(bs), 16)
  {
    TableIsDivision(bs);
    DigitsOfValue(Divide(Zeros(16), MessageBits(bs) + Zeros(16)));
  }

  lemma PairsDiffer(u: seq<byte>, a: byte, b: byte, c: byte, d: byte, w: seq<byte>)
    requires Crc(u + [a, b] + w) == Crc(u + [c, d] + w)
    ensures a == c && b == d
  {
    RemainderDigits(u + [a, b] + w);
    RemainderDigits(u + [c, d] + w);
    DividendOfPair(u, a, b, w);
    DividendOfPair(u, c, d, w);
    PairBits(a, b);
    PairBits(c, d);
    BurstsDiffer(MessageBits(u), MessageBits([a, b]), MessageBits([c, d]), MessageBits(w) + Zeros(16));
    PairOfBits(a, b, c, d);
  }

  /** Two strings of one length that differ only within two adjacent bytes have different CRCs. */
  lemma AdjacentBytesDiffer(s: seq<byte>, t: seq<byte>, i: nat)
    requires |s| == |t| && i + 1 < |s| && s != t
    requires forall j :: 0 <= j < |s| && j != i && j != i + 1 ==> s[j] == t[j]
    ensures Crc(s) != Crc(t)
  {
    var u, w := s[..i], s[i + 2..];
    assert s == u + [s[i], s[i + 1]] + w;
    assert t == u + [t[i], t[i + 1]] + w;
    if Crc(s) == Crc(t) {
      PairsDiffer(u, s[i], s[i + 1], t[i], t[i + 1], w);
    }
  }

  // ---------------------------------------------------------------- the residue

  /** The register, high byte first. */
  function FirstByte(c: word): byte { c / 256 }

  function SecondByte(c: word): byte { c % 256 }

  lemma {:induction false} CrcAppend(c: word, a: seq<byte>, b: seq<byte>)
    ensures CrcFrom(c, a + b) == CrcFrom(CrcFrom(c, a), b)
    decreases |a|
  {
    if a == [] {
      assert a + b == b;
    } else {
      assert (a + b)[1..] == a[1..] + b;
      CrcAppend(Update(c, a[0]), a[1..], b);
    }
  }

  /** The byte that is at the top of the register leaves the byte below it in its place. */
  lemma TopSentBack(c: word, v: byte, low: seq<bool>)
    requires |low| == 8 && Digits(c, 16) == Digits(v, 8) + low
    ensures Digits(Update(c, v), 16) == low + Zeros(8)
  {
    UpdateIs(c, v);
    assert Xors(Digits(v, 8) + low, Upper(v)) == Zeros(8) + low;
    ShiftUp(low);
  }

  lemma SentBack(c: word)
    ensures Update(Update(c, FirstByte(c)), SecondByte(c)) == 0
  {
    var low := Digits(c % 256, 8);
    WordDigits(c);
    TopSentBack(c, FirstByte(c), low);
    var c1 := Update(c, FirstByte(c));
    TopSentBack(c1, SecondByte(c), Zeros(8));
    assert Zeros(8) + Zeros(8) == Zeros(16);
    DigitsZero(16);
    WordIs(Update(c1, SecondByte(c)));
    WordIs(0);
  }

  lemma TwoBytes(c: word, a: byte, b: byte)
    ensures CrcFrom(c, [a, b]) == Update(Update(c, a), b)
  {
    var rest := [a, b][1..];
    assert rest == [b] && rest[1..] == [];
    assert CrcFrom(c, [a, b]) == CrcFrom(Update(c, a), rest);
  }

  lemma SentResidue(bs: seq<byte>)
    ensures Crc(bs + [FirstByte(Crc(bs)), SecondByte(Crc(bs))]) == 0
  {
    var c := Crc(bs);
    CrcAppend(0, bs, [FirstByte(c), SecondByte(c)]);
    TwoBytes(c, FirstByte(c), SecondByte(c));
    SentBack(c);
  }

  /** Two bytes after a string make its CRC zero exactly when they are the string's CRC, high byte first. */
  lemma Residue(bs: seq<byte>, a: byte, b: byte)
    ensures Crc(bs + [a, b]) == 0 <==> a == FirstByte(Crc(bs)) && b == SecondByte(Crc(bs))
  {
    var first, second := FirstByte(Crc(bs)), SecondByte(Crc(bs));
    SentResidue(bs);
    if Crc(bs + [a, b]) == 0 {
      assert bs + [a, b] + [] == bs + [a, b] && bs + [first, second] + [] == bs + [first, second];
      PairsDiffer(bs, a, b, first, second, []);
    }
  }

  // ---------------------------------------------------------------- the table, entry by entry

  lemma Row0Doubles(v: nat)
    requires 0 <= v < 8
    ensures Doubled(Row0(v), Row0(2 * v)) && Reduced(Row0(2 * v), Row0(2 * v + 1))
  {
  }

  lemma Row1Doubles(v: nat)
    requires 8 <= v < 16
    ensures Doubled(Row0(v), Row1(2 * v)) && Reduced(Row1(2 * v), Row1(2 * v + 1))
  {
  }

  lemma Row2Doubles(v: nat)
    requires 16 <= v < 24
    ensures Doubled(Row1(v), Row2(2 * v)) && Reduced(Row2(2 * v), Row2(2 * v + 1))
  {
  }

  lemma Row3Doubles(v: nat)
    requires 24 <= v < 32
    ensures Doubled(Row1(v), Row3(2 * v)) && Reduced(Row3(2 * v), Row3(2 * v + 1))
  {
  }

  lemma Row4Doubles(v: nat)
    requires 32 <= v < 40
    ensures Doubled(Row2(v), Row4(2 * v)) && Reduced(Row4(2 * v), Row4(2 * v + 1))
  {
  }

  lemma Row5Doubles(v: nat)
    requires 40 <= v < 48
    ensures Doubled(Row2(v), Row5(2 * v)) && Reduced(Row5(2 * v), Row5(2 * v + 1))
  {
  }

  lemma Row6Doubles(v: nat)
    requires 48 <= v < 56
    ensures Doubled(Row3(v), Row6(2 * v)) && Reduced(Row6(2 * v), Row6(2 * v + 1))
  {
  }

  lemma Row7Doubles(v: nat)
    requires 56 <= v < 64
    ensures Doubled(Row3(v), Row7(2 * v)) && Reduced(Row7(2 * v), Row7(2 * v + 1))
  {
  }

  lemma Row8Doubles(v: nat)
    requires 64 <= v < 72
    ensures Doubled(Row4(v), Row8(2 * v)) && Reduced(Row8(2 * v), Row8(2 * v + 1))
  {
  }

  lemma Row9Doubles(v: nat)
    requires 72 <= v < 80
    ensures Doubled(Row4(v), Row9(2 * v)) && Reduced(Row9(2 * v), Row9(2 * v + 1))
  {
  }

  lemma RowADoubles(v: nat)
    requires 80 <= v < 88
    ensures Doubled(Row5(v), RowA(2 * v)) && Reduced(RowA(2 * v), RowA(2 * v + 1))
  {
  }

  lemma RowBDoubles(v: nat)
    requires 88 <= v < 96
    ensures Doubled(Row5(v), RowB(2 * v)) && Reduced(RowB(2 * v), RowB(2 * v + 1))
  {
  }

  lemma RowCDoubles(v: nat)
    requires 96 <= v < 104
    ensures Doubled(Row6(v), RowC(2 * v)) && Reduced(RowC(2 * v), RowC(2 * v + 1))
  {
  }

  lemma RowDDoubles(v: nat)
    requires 104 <= v < 112
    ensures Doubled(Row6(v), RowD(2 * v)) && Reduced(RowD(2 * v), RowD(2 * v + 1))
  {
  }

  lemma RowEDoubles(v: nat)
    requires 112 <= v < 120
    ensures Doubled(Row7(v), RowE(2 * v)) && Reduced(RowE(2 * v), RowE(2 * v + 1))
  {
  }

  lemma RowFDoubles(v: nat)
    requires 120 <= v < 128
    ensures Doubled(Row7(v), RowF(2 * v)) && Reduced(RowF(2 * v), RowF(2 * v + 1))
  {
  }

  lemma TableDoubles(v: nat)
    requires v < 128
    ensures Doubles(v)
  {
    if v < 8 {
      Row0Doubles(v);
    } else if v < 16 {
      Row1Doubles(v);
    } else if v < 24 {
      Row2Doubles(v);
    } else if v < 32 {
      Row3Doubles(v);
    } else if v < 40 {
      Row4Doubles(v);
    } else if v < 48 {
      Row5Doubles(v);
    } else if v < 56 {
      Row6Doubles(v);
    } else if v < 64 {
      Row7Doubles(v);
    } else if v < 72 {
      Row8Doubles(v);
    } else if v < 80 {
      Row9Doubles(v);
    } else if v < 88 {
      RowADoubles(v);
    } else if v < 96 {
      RowBDoubles(v);
    } else if v < 104 {
      RowCDoubles(v);
    } else if v < 112 {
      RowDDoubles(v);
    } else if v < 120 {
      RowEDoubles(v);
    } else {
      RowFDoubles(v);
    }
  }

  /** The digits of `2^k`. */
  function Unit(k: nat): register
    requires k < 16
  {
    Zeros(15 - k) + [true] + Zeros(k)
  }

  function Turned(x: nat): nat { if x % 2 == 0 then x + 1 else x - 1 }

  predicate LastTurned(a: seq<bool>, b: seq<bool>) {
    |a| == |b| && a != [] && b == a[|a| - 1 := !a[|a| - 1]]
  }

  lemma TurnedDigits(x: nat, n: nat)
    requires n > 0
    ensures LastTurned(Digits(x, n), Digits(Turned(x), n))
  {
    assert Turned(x) / 2 == x / 2;
  }

  lemma UnitTurns(a: seq<bool>, b: seq<bool>, c: seq<bool>, k: nat)
    requires k < 16 && |a| == 16 - k && LastTurned(a, b) && |c| == k
    ensures b + c == Xors(a + c, Unit(k))
  {
  }

  /** `x` and `y` agree but for the digit at place `k`. */
  predicate Blocks(x: nat, y: nat, hi: nat, lo: nat, k: nat) {
    lo < Up(1, k) && x == Up(hi, k) + lo && y == Up(Turned(hi), k) + lo
  }

  lemma DigitsAt(x: nat, hi: nat, lo: nat, k: nat)
    requires k < 16 && lo < Up(1, k) && x == Up(hi, k) + lo
    ensures Digits(x, 16) == Digits(hi, 16 - k) + Digits(lo, k)
  {
    DigitsBlocks(hi, lo, 16 - k, k);
  }

  lemma TurnDigit(x: nat, y: nat, hi: nat, lo: nat, k: nat)
    requires k < 16 && Blocks(x, y, hi, lo, k)
    ensures Digits(y, 16) == Xors(Digits(x, 16), Unit(k))
  {
    var hi2 := Turned(hi);
    DigitsAt(x, hi, lo, k);
    DigitsAt(y, hi2, lo, k);
    TurnedDigits(hi, 16 - k);
    UnitTurns(Digits(hi, 16 - k), Digits(hi2, 16 - k), Digits(lo, k), k);
  }

  lemma Turn5(x: nat) returns (y: nat)
    ensures Blocks(x, y, x / 32, x % 32, 5)
    ensures y == x + if (x / 32) % 2 == 0 then 32 else -32
  {
    y := 32 * Turned(x / 32) + x % 32;
    UpIs(1);
    UpIs(x / 32);
    UpIs(Turned(x / 32));
  }

  lemma Turn12(x: nat) returns (y: nat)
    ensures Blocks(x, y, x / 4096, x % 4096, 12)
    ensures y == x + if (x / 4096) % 2 == 0 then 4096 else -4096
  {
    y := 4096 * Turned(x / 4096) + x % 4096;
    UpIs(1);
    UpIs(x / 4096);
    UpIs(Turned(x / 4096));
  }

  lemma XorsAssociative(x: seq<bool>, y: seq<bool>, z: seq<bool>)
    requires |x| == |y| == |z|
    ensures Xors(Xors(x, y), z) == Xors(x, Xors(y, z))
  {
  }

  lemma DivisorIs(x: register)
    ensures Xors(Xors(Xors(x, Unit(12)), Unit(5)), Unit(0)) == Xors(x, DIVISOR)
  {
    XorsAssociative(x, Unit(12), Unit(5));
    XorsAssociative(x, Xors(Unit(12), Unit(5)), Unit(0));
    assert Xors(Xors(Unit(12), Unit(5)), Unit(0)) == DIVISOR;
  }

  lemma SameLower(x: nat, x12: nat)
    requires x12 as int == x + 4096 || x12 as int == x - 4096
    ensures (x12 / 32) % 2 == (x / 32) % 2 && x12 % 2 == x % 2
  {
    if x12 > x {
      EvenApart(x, 2048);
      assert x12 / 32 == x / 32 + 128;
      EvenApart(x / 32, 64);
    } else {
      EvenApart(x12, 2048);
      assert x / 32 == x12 / 32 + 128;
      EvenApart(x12 / 32, 64);
    }
  }

  lemma EvenApart(q: nat, k: nat)
    ensures (q + 2 * k) % 2 == q % 2
  {
  }

  lemma LastTurn(x: nat, y: nat, x12: nat, x5: nat)
    requires Reduced(x, y)
    requires x12 == x + if (x / 4096) % 2 == 0 then 4096 else -4096
    requires x5 == x12 + if (x12 / 32) % 2 == 0 then 32 else -32
    ensures y == Turned(x5)
  {
    SameLower(x, x12);
    assert x5 % 2 == x12 % 2;
  }

  lemma Turns(x: nat, y: nat) returns (x12: nat, x5: nat)
    requires Reduced(x, y)
    ensures Blocks(x, x12, x / 4096, x % 4096, 12) && Blocks(x12, x5, x12 / 32, x12 % 32, 5) && Blocks(x5, y, x5, 0, 0)
  {
    x12 := Turn12(x);
    x5 := Turn5(x12);
    LastTurn(x, y, x12, x5);
  }

  lemma ReducedDigits(x: nat, y: nat)
    requires Reduced(x, y)
    ensures Digits(y, 16) == Xors(Digits(x, 16), DIVISOR)
  {
    var x12, x5 := Turns(x, y);
    TurnDigit(x, x12, x / 4096, x % 4096, 12);
    TurnDigit(x12, x5, x12 / 32, x12 % 32, 5);
    TurnDigit(x5, y, x5, 0, 0);
    DivisorIs(Digits(x, 16));
  }
}
