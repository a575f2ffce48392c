// CRC-32 as the boot image tool computes it: a table of 256 remainders and a
// loop that takes eight bytes at a time, against division of polynomials.
module Crc32 {
  import opened Bytes

  const POLY: bv32 := 0xEDB88320
  const ONES: bv32 := 0xFFFFFFFF

  // -------------------------------------------------- arithmetic on words

  function Xor(a: bv32, b: bv32): bv32 { a ^ b }
  function Half(c: bv32): bv32 { c >> 1 }
  function Shift8(c: bv32): bv32 { c >> 8 }
  function Low(c: bv32): bv32 { c & 0xFF }
  function High(c: bv32): bv32 { c & 0xFFFFFF00 }
  predicate Odd(c: bv32) { c & 1 == 1 }

  lemma XorComm(a: bv32, b: bv32)
    ensures Xor(a, b) == Xor(b, a)
  {
  }

  lemma XorAssoc(a: bv32, b: bv32, c: bv32)
    ensures Xor(Xor(a, b), c) == Xor(a, Xor(b, c))
  {
  }

  lemma XorTwice(a: bv32, b: bv32)
    ensures Xor(a, Xor(a, b)) == b
  {
  }

  lemma HalfXor(x: bv32, y: bv32)
    ensures Half(Xor(x, y)) == Xor(Half(x), Half(y)) && (Odd(Xor(x, y)) <==> Odd(x) != Odd(y))
  {
    assert (x ^ y) & 1 == (x & 1) ^ (y & 1);
    assert x & 1 == 0 || x & 1 == 1;
    assert y & 1 == 0 || y & 1 == 1;
  }

  lemma LowHigh(x: bv32)
    ensures x == Xor(Low(x), High(x))
  {
  }

  /** One step of the shift register: the bit shifted out decides. */
  function BitStep(c: bv32): bv32 { if Odd(c) then Xor(POLY, Half(c)) else Half(c) }

  function Steps(c: bv32, k: nat): bv32
    decreases k
  {
    if k == 0 then c else Steps(BitStep(c), k - 1)
  }

  // ------------------------------------------------------------- the table

  /** The terms of the polynomial, but for the highest. */
  const EXPONENTS := [0, 1, 2, 4, 5, 7, 8, 10, 11, 12, 16, 22, 23, 26]

  function Term(e: int): bv32
    requires 0 <= e <= 31
  {
    1 << (31 - e)
  }

  function PolyOf(n: nat): bv32
    requires n <= |EXPONENTS|
  {
    if n == 0 then 0 else PolyOf(n - 1) | Term(EXPONENTS[n - 1])
  }

  /** make_crc_table builds the exclusive-or pattern from the exponents. */
  method MakePoly() returns (poly: bv32)
    ensures poly == POLY
  {
    hide Term;
    poly := 0;
    for n := 0 to |EXPONENTS|
      invariant poly == PolyOf(n)
    {
      poly := poly | Term(EXPONENTS[n]);
    }
    PolyTerms();
  }

  lemma PolyFour()
    ensures PolyOf(4) == 0xE8000000
  {
    assert PolyOf(1) == 0x80000000 by { assert EXPONENTS[0] == 0; }
    assert PolyOf(2) == 0xC0000000 by { assert EXPONENTS[1] == 1; }
    assert PolyOf(3) == 0xE0000000 by { assert EXPONENTS[2] == 2; }
    assert PolyOf(4) == 0xE8000000 by { assert EXPONENTS[3] == 4; }
  }

  lemma PolySeven()
    ensures PolyOf(7) == 0xED800000
  {
    PolyFour();
    assert PolyOf(5) == 0xEC000000 by { assert EXPONENTS[4] == 5; }
    assert PolyOf(6) == 0xED000000 by { assert EXPONENTS[5] == 7; }
    assert PolyOf(7) == 0xED800000 by { assert EXPONENTS[6] == 8; }
  }

  lemma PolyEleven()
    ensures PolyOf(11) == 0xEDB88000
  {
    PolySeven();
    assert PolyOf(8) == 0xEDA00000 by { assert EXPONENTS[7] == 10; }
    assert PolyOf(9) == 0xEDB00000 by { assert EXPONENTS[8] == 11; }
    assert PolyOf(10) == 0xEDB80000 by { assert EXPONENTS[9] == 12; }
    assert PolyOf(11) == 0xEDB88000 by { assert EXPONENTS[10] == 16; }
  }

  lemma PolyTerms()
    ensures PolyOf(14) == POLY
  {
    PolyEleven();
    assert PolyOf(12) == 0xEDB88200 by { assert EXPONENTS[11] == 22; }
    assert PolyOf(13) == 0xEDB88300 by { assert EXPONENTS[12] == 23; }
    assert PolyOf(14) == 0xEDB88320 by { assert EXPONENTS[13] == 26; }
  }

  function Entry(n: int): bv32
    requires 0 <= n < 256
  {
    Steps(n as bv32, 8)
  }

  ghost predicate TableOK(table: seq<bv32>) {
    |table| == 256 && forall n :: 0 <= n < 256 ==> table[n] == Entry(n)
  }

  method TableEntry(n: int) returns (c: bv32)
    requires 0 <= n < 256
    ensures c == Entry(n)
  {
    c := n as bv32;
    for k := 0 to 8
      invariant Steps(c, 8 - k) == Entry(n)
    {
      c := if Odd(c) then Xor(POLY, Half(c)) else Half(c);
    }
  }

  method MakeCrcTable() returns (table: array<bv32>)
    ensures fresh(table) && TableOK(table[..])
  {
    hide Entry;
    table := new bv32[256](_ => 0);
    for n := 0 to 256
      invariant table.Length == 256 && forall i :: 0 <= i < n ==> table[i] == Entry(i)
    {
      table[n] := TableEntry(n);
    }
  }

  // -------------------------------------------------- eight steps at once

  lemma Linear(x: bv32, y: bv32)
    ensures BitStep(Xor(x, y)) == Xor(BitStep(x), BitStep(y))
  {
    hide Xor, Half, Odd;
    HalfXor(x, y);
    var a, b := Half(x), Half(y);
    XorAssoc(POLY, a, b);
    XorAssoc(a, POLY, b);
    XorComm(a, POLY);
    XorAssoc(POLY, a, Xor(POLY, b));
    XorAssoc(a, POLY, b);
    XorTwice(POLY, Xor(a, b));
  }

  lemma {:induction false} StepsLinear(x: bv32, y: bv32, k: nat)
    ensures Steps(Xor(x, y), k) == Xor(Steps(x, k), Steps(y, k))
    decreases k
  {
    hide BitStep, Xor;
    if k > 0 {
      Linear(x, y);
      StepsLinear(BitStep(x), BitStep(y), k - 1);
    }
  }

  /** The upper 24 bits are only shifted. */
  lemma HighSteps(x: bv32)
    ensures Steps(High(x), 8) == Shift8(x)
  {
    assert BitStep(x & 0xFFFFFF00) == (x & 0xFFFFFF00) >> 1;
    assert BitStep((x & 0xFFFFFF00) >> 1) == (x & 0xFFFFFF00) >> 2;
    assert BitStep((x & 0xFFFFFF00) >> 2) == (x & 0xFFFFFF00) >> 3;
    assert BitStep((x & 0xFFFFFF00) >> 3) == (x & 0xFFFFFF00) >> 4;
    assert BitStep((x & 0xFFFFFF00) >> 4) == (x & 0xFFFFFF00) >> 5;
    assert BitStep((x & 0xFFFFFF00) >> 5) == (x & 0xFFFFFF00) >> 6;
    assert BitStep((x & 0xFFFFFF00) >> 6) == (x & 0xFFFFFF00) >> 7;
    assert BitStep((x & 0xFFFFFF00) >> 7) == x >> 8;
  }

  /** Eight steps at once, through the table. */
  lemma EightSteps(x: bv32)
    ensures Steps(x, 8) == Xor(Steps(Low(x), 8), Shift8(x))
  {
    hide Steps, Xor, Low, High, Shift8;
    LowHigh(x);
    StepsLinear(Low(x), High(x), 8);
    HighSteps(x);
  }

  // ------------------------------------------------------------- crc32

  /** The register after a byte: eight steps with the byte added to it. */
  function TakeByte(c: bv32, b: byte): bv32 { Steps(Xor(c, b as bv32), 8) }

  function TakeBytes(c: bv32, s: seq<byte>): bv32
    decreases |s|
  {
    if s == [] then c else TakeBytes(TakeByte(c, s[0]), s[1..])
  }

  function Crc(c: bv32, s: seq<byte>): bv32 { Xor(TakeBytes(Xor(c, ONES), s), ONES) }

  lemma ByteOut(c: bv32, b: byte)
    ensures Shift8(Xor(c, b as bv32)) == Shift8(c)
  {
    var y := b as bv32;
    assert y <= 0xFF;
    assert (c ^ y) >> 8 == c >> 8;
  }

  /** DO1 */
  method Do1(table: array<bv32>, crc: bv32, b: byte) returns (r: bv32)
    requires TableOK(table[..])
    ensures r == TakeByte(crc, b)
  {
    hide Steps, Xor, Shift8;
    var x := Xor(crc, b as bv32);
    EightSteps(x);
    ByteOut(crc, b);
    LowIndex(x);
    var n := Low(x) as int;
    assert table[..][n] == Entry(n);
    r := Xor(table[n], Shift8(crc));
  }

  lemma LowIndex(x: bv32)
    ensures Low(x) as int < 256 && (Low(x) as int) as bv32 == Low(x)
  {
    assert x & 0xFF <= 0xFF;
  }

  lemma {:induction false} BytesConcat(c: bv32, s: seq<byte>, t: seq<byte>)
    ensures TakeBytes(c, s + t) == TakeBytes(TakeBytes(c, s), t)
    decreases |s|
  {
    hide TakeByte;
    if s == [] {
      assert s + t == t;
    } else {
      assert (s + t)[1..] == s[1..] + t && (s + t)[0] == s[0];
      BytesConcat(TakeByte(c, s[0]), s[1..], t);
    }
  }

  lemma OneMore(c: bv32, s: seq<byte>, i: int)
    requires 0 <= i < |s|
    ensures TakeBytes(c, s[..i + 1]) == TakeByte(TakeBytes(c, s[..i]), s[i])
  {
    hide TakeByte;
    assert s[..i + 1] == s[..i] + [s[i]];
    BytesConcat(c, s[..i], [s[i]]);
    var d := TakeBytes(c, s[..i]);
    assert [s[i]][1..] == [];
    assert TakeBytes(d, [s[i]]) == TakeBytes(TakeByte(d, s[i]), []);
  }

  /** The next n bytes, one DO1 after the other. */
  method DoN(table: array<bv32>, crc: bv32, buf: seq<byte>, from: int, n: int, ghost c0: bv32) returns (r: bv32)
    requires TableOK(table[..]) && 0 <= from && 0 <= n && from + n <= |buf| && crc == TakeBytes(c0, buf[..from])
    ensures r == TakeBytes(c0, buf[..from + n])
  {
    hide TakeBytes, TakeByte, TableOK;
    r := crc;
    for i := 0 to n
      invariant r == TakeBytes(c0, buf[..from + i])
    {
      OneMore(c0, buf, from + i);
      r := Do1(table, r, buf[from + i]);
    }
  }

  /** crc32: eight bytes at a time, then the rest. */
  method CalcCrc32(table: array<bv32>, crc: bv32, buf: seq<byte>) returns (r: bv32)
    requires TableOK(table[..])
    ensures r == Crc(crc, buf)
  {
    hide TakeBytes, Xor, TableOK;
    ghost var c0 := Xor(crc, ONES);
    r := Xor(crc, ONES);
    var at, len := 0, |buf|;
    NoBytes(c0, buf);
    while len >= 8
      invariant 0 <= at && 0 <= len && at + len == |buf| && r == TakeBytes(c0, buf[..at])
    {
      r := DoN(table, r, buf, at, 8, c0);
      at, len := at + 8, len - 8;
    }
    if len != 0 {
      r := DoN(table, r, buf, at, len, c0);
    }
    assert buf[..|buf|] == buf;
    r := Xor(r, ONES);
  }

  lemma NoBytes(c: bv32, s: seq<byte>)
    ensures TakeBytes(c, s[..0]) == c
  {
  }

  /** A checksum may be continued where another one stopped. */
  lemma Continues(c: bv32, a: seq<byte>, b: seq<byte>)
    ensures Crc(Crc(c, a), b) == Crc(c, a + b)
  {
    hide Xor, TakeBytes;
    var d := TakeBytes(Xor(c, ONES), a);
    XorComm(d, ONES);
    XorComm(ONES, Xor(ONES, d));
    XorTwice(ONES, d);
    BytesConcat(Xor(c, ONES), a, b);
  }
}
