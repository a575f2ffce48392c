// What the shift register computes: the remainder of a division of polynomials
// over GF(2), written as sequences of coefficients, highest power first.
module CrcPolynomial {
  import opened Bytes
  import opened Crc32

  // ------------------------------------------------------- long division

  function XorBits(a: seq<bool>, b: seq<bool>): (r: seq<bool>)
    requires |a| == |b|
    ensures |r| == |a| && forall i :: 0 <= i < |a| ==> r[i] == (a[i] != b[i])
  {
    seq(|a|, i requires 0 <= i < |a| => a[i] != b[i])
  }

  /** b added to the highest coefficients of a. */
  function AddTop(a: seq<bool>, b: seq<bool>): (r: seq<bool>)
    requires |b| <= |a|
    ensures |r| == |a|
  {
    XorBits(a[..|b|], b) + a[|b|..]
  }

  /** The divisor without its highest term, from the exponents in the source. */
  function Divisor(): (d: seq<bool>)
    ensures |d| == 32
  {
    seq(32, i requires 0 <= i < 32 => (31 - i) in EXPONENTS)
  }

  /** The remainder of p on division by x^32 plus the divisor. */
  function Rem(p: seq<bool>): (r: seq<bool>)
    requires |p| >= 32
    ensures |r| == 32
    decreases |p|
  {
    if |p| == 32 then p
    else if p[0] then Rem(AddTop(p[1..], Divisor())) else Rem(p[1..])
  }

  function Zeros(n: nat): (r: seq<bool>)
    ensures |r| == n
  {
    seq(n, _ => false)
  }

  // ---------------------------------------------- the law of the division

  /** The divisor with its highest term, or nothing. */
  function Multiple(q: bool): (r: seq<bool>)
    ensures |r| == 33
  {
    if q then [true] + Divisor() else Zeros(33)
  }

  /** The product of q and the divisor. */
  function Times(q: seq<bool>): (r: seq<bool>)
    ensures |r| == |q| + 32
    decreases |q|
  {
    if q == [] then Zeros(32) else AddTop([false] + Times(q[1..]), Multiple(q[0]))
  }

  /** p as it is once the term of its highest coefficient has been taken off. */
  function Reduced(p: seq<bool>): (r: seq<bool>)
    requires |p| > 32
    ensures |r| == |p| - 1
  {
    if p[0] then AddTop(p[1..], Divisor()) else p[1..]
  }

  function Quot(p: seq<bool>): (q: seq<bool>)
    requires |p| >= 32
    ensures |q| == |p| - 32
    decreases |p|
  {
    if |p| == 32 then [] else [p[0]] + Quot(Reduced(p))
  }

  /** r, of degree below 32, added to p. */
  function Plus(p: seq<bool>, r: seq<bool>): (s: seq<bool>)
    requires |r| == 32 <= |p|
    ensures |s| == |p|
  {
    XorBits(p, Zeros(|p| - 32) + r)
  }

  lemma PlusTimes(q: seq<bool>, r: seq<bool>)
    requires q != [] && |r| == 32
    ensures Plus(Times(q), r) == AddTop([false] + Plus(Times(q[1..]), r), Multiple(q[0]))
  {
    hide Divisor, Multiple;
    var t, m := Times(q[1..]), Multiple(q[0]);
    var a, b := Plus(Times(q), r), AddTop([false] + Plus(t, r), m);
    hide AddTop, Plus, Times;
    TimesIs(q);
    forall i | 0 <= i < |a| ensures a[i] == b[i] { PlusTimesAt(t, m, r, i); }
  }

  lemma TimesIs(q: seq<bool>)
    requires q != []
    ensures Times(q) == AddTop([false] + Times(q[1..]), Multiple(q[0]))
  {
  }

  lemma PlusTimesAt(t: seq<bool>, m: seq<bool>, r: seq<bool>, i: int)
    requires |t| >= 32 == |r| && |m| == 33 && 0 <= i <= |t|
    ensures Plus(AddTop([false] + t, m), r)[i] == AddTop([false] + Plus(t, r), m)[i]
  {
    hide AddTop, Plus;
    AddTopAt([false] + t, m, i);
    AddTopAt([false] + Plus(t, r), m, i);
    PlusAt(AddTop([false] + t, m), r, i);
    if i > 0 { PlusAt(t, r, i - 1); }
  }

  lemma AddTopAt(a: seq<bool>, b: seq<bool>, i: int)
    requires |b| <= |a| && 0 <= i < |a|
    ensures AddTop(a, b)[i] == (a[i] != (i < |b| && b[i]))
  {
  }

  lemma PlusAt(p: seq<bool>, r: seq<bool>, i: int)
    requires |r| == 32 <= |p| && 0 <= i < |p|
    ensures Plus(p, r)[i] == (p[i] != (i >= |p| - 32 && r[i - (|p| - 32)]))
  {
  }

  /** Adding the multiple back gives p. */
  lemma Restored(p: seq<bool>)
    requires |p| > 32
    ensures AddTop([false] + Reduced(p), Multiple(p[0])) == p
  {
    hide Divisor;
    var m := Multiple(p[0]);
    var b := AddTop([false] + Reduced(p), m);
    forall i | 0 <= i < |p| ensures b[i] == p[i] {
      AddTopAt([false] + Reduced(p), m, i);
      if i > 0 && p[0] { AddTopAt(p[1..], Divisor(), i - 1); }
    }
  }

  /** p is the quotient times the divisor, plus the remainder. */
  lemma {:induction false} DivisionLaw(p: seq<bool>)
    requires |p| >= 32
    ensures Plus(Times(Quot(p)), Rem(p)) == p
    decreases |p|
  {
    hide Times, Plus, Multiple, AddTop;
    if |p| == 32 {
      PlusNothing(p);
    } else {
      DivisionLaw(Reduced(p));
      PlusTimes(Quot(p), Rem(p));
      assert Quot(p)[0] == p[0] && Quot(p)[1..] == Quot(Reduced(p));
      Restored(p);
    }
  }

  lemma PlusNothing(p: seq<bool>)
    requires |p| == 32
    ensures Plus(Times([]), p) == p
  {
    forall i | 0 <= i < 32 ensures Plus(Times([]), p)[i] == p[i] { PlusAt(Times([]), p, i); }
  }

  /** And there is no other way to write p like this. */
  lemma {:induction false} DivisionUnique(q: seq<bool>, r: seq<bool>)
    requires |r| == 32
    ensures var p := Plus(Times(q), r); Quot(p) == q && Rem(p) == r
    decreases |q|
  {
    hide Times, Plus, Multiple, AddTop;
    if q == [] {
      PlusNothing(r);
    } else {
      var p, p1 := Plus(Times(q), r), Plus(Times(q[1..]), r);
      DivisionUnique(q[1..], r);
      PlusTimes(q, r);
      Cancelled(p1, q[0]);
    }
  }

  /** Taking the highest term off again. */
  lemma Cancelled(p1: seq<bool>, d: bool)
    requires |p1| >= 32
    ensures var p := AddTop([false] + p1, Multiple(d)); p[0] == d && Reduced(p) == p1
  {
    hide Divisor;
    var p := AddTop([false] + p1, Multiple(d));
    AddTopAt([false] + p1, Multiple(d), 0);
    forall i | 0 <= i < |p1| ensures Reduced(p)[i] == p1[i] {
      AddTopAt([false] + p1, Multiple(d), i + 1);
      if d { AddTopAt(p[1..], Divisor(), i); }
    }
  }

  // -------------------------------------------------- the shift register

  /** The register, as coefficients, takes in one bit of the message. */
  function RegStep(R: seq<bool>, d: bool): (r: seq<bool>)
    requires |R| == 32
    ensures |r| == 32
  {
    var shifted := R[1..] + [false];
    if R[0] != d then XorBits(shifted, Divisor()) else shifted
  }

  function RegSteps(R: seq<bool>, D: seq<bool>): (r: seq<bool>)
    requires |R| == 32
    ensures |r| == 32
    decreases |D|
  {
    if D == [] then R else RegSteps(RegStep(R, D[0]), D[1..])
  }

  /** The message times x^32, with the register added at its top. */
  function Mix(R: seq<bool>, D: seq<bool>): (r: seq<bool>)
    requires |R| == 32
    ensures |r| == |D| + 32
  {
    AddTop(D + Zeros(32), R)
  }

  /** One step of the register is one step of the division. */
  lemma MixStep(R: seq<bool>, D: seq<bool>)
    requires |R| == 32 && D != []
    ensures Rem(Mix(R, D)) == Rem(Mix(RegStep(R, D[0]), D[1..]))
  {
    hide Divisor, Rem;
    var p, lead := Mix(R, D), R[0] != D[0];
    var q := Mix(RegStep(R, D[0]), D[1..]);
    assert p[0] == lead;
    forall i | 0 <= i < |q| ensures q[i] == (if lead then AddTop(p[1..], Divisor()) else p[1..])[i] {
      MixAt(R, D, i + 1);
      MixAt(RegStep(R, D[0]), D[1..], i);
    }
    assert q == if lead then AddTop(p[1..], Divisor()) else p[1..];
    RemStep(p);
  }

  lemma RemStep(p: seq<bool>)
    requires |p| > 32
    ensures Rem(p) == if p[0] then Rem(AddTop(p[1..], Divisor())) else Rem(p[1..])
  {
  }

  lemma MixAt(R: seq<bool>, D: seq<bool>, i: int)
    requires |R| == 32 && 0 <= i < |D| + 32
    ensures Mix(R, D)[i] == ((i < |D| && D[i]) != (i < 32 && R[i]))
  {
  }

  lemma {:induction false} RegisterDivides(R: seq<bool>, D: seq<bool>)
    requires |R| == 32
    ensures RegSteps(R, D) == Rem(Mix(R, D))
    decreases |D|
  {
    hide Mix, Rem, RegStep;
    if D == [] {
      MixNone(R);
    } else {
      MixStep(R, D);
      RegisterDivides(RegStep(R, D[0]), D[1..]);
    }
  }

  lemma MixNone(R: seq<bool>)
    requires |R| == 32
    ensures Rem(Mix(R, [])) == R
  {
    forall i | 0 <= i < 32 ensures Mix(R, [])[i] == R[i] { MixAt(R, [], i); }
    assert Mix(R, []) == R;
  }

  // ---------------------------------------------------------- words as bits

  /** The k lowest bits of c, lowest first: the highest power first. */
  function BitsOf(c: bv32, k: nat): (r: seq<bool>)
    ensures |r| == k
    decreases k
  {
    if k == 0 then [] else [Odd(c)] + BitsOf(Half(c), k - 1)
  }

  function Bits(c: bv32): seq<bool> { BitsOf(c, 32) }

  lemma {:induction false} BitsXor(a: bv32, b: bv32, k: nat)
    ensures BitsOf(Xor(a, b), k) == XorBits(BitsOf(a, k), BitsOf(b, k))
    decreases k
  {
    hide Xor, Odd, Half;
    if k > 0 {
      HalfXor(a, b);
      BitsXor(Half(a), Half(b), k - 1);
    }
  }

  function Halves(c: bv32, k: nat): bv32
    decreases k
  {
    if k == 0 then c else Halves(Half(c), k - 1)
  }

  lemma {:induction false} BitsMore(c: bv32, k: nat)
    ensures BitsOf(c, k + 1) == BitsOf(c, k) + [Odd(Halves(c, k))]
    decreases k
  {
    hide Odd, Half;
    if k > 0 { BitsMore(Half(c), k - 1); }
  }

  lemma {:induction false} HalvesMore(c: bv32, j: nat, k: nat)
    ensures Halves(Halves(c, j), k) == Halves(c, j + k)
    decreases j
  {
    hide Half;
    if j > 0 { HalvesMore(Half(c), j - 1, k); }
  }

  lemma HalvesEight(c: bv32)
    ensures Halves(c, 8) == Shift8(c)
  {
    assert Halves(c, 8) == Half(Half(Half(Half(Half(Half(Half(Half(c))))))));
  }

  lemma AllOut(c: bv32)
    ensures Shift8(Shift8(Shift8(Shift8(c)))) == 0
  {
  }

  lemma HalvesAll(c: bv32)
    ensures Halves(c, 32) == 0
  {
    hide Halves, Shift8;
    HalvesEight(c);
    HalvesEight(Shift8(c));
    HalvesEight(Shift8(Shift8(c)));
    HalvesEight(Shift8(Shift8(Shift8(c))));
    HalvesMore(c, 8, 8);
    HalvesMore(c, 16, 8);
    HalvesMore(c, 24, 8);
    AllOut(c);
  }

  lemma BitsHalf(c: bv32)
    ensures Bits(Half(c)) == Bits(c)[1..] + [false]
  {
    hide Half, Halves, Odd, BitsOf;
    BitsMore(c, 32);
    HalvesAll(c);
    ZeroEven();
    BitsCons(c, 33);
    Overlap(BitsOf(c, 32), false, Odd(c), BitsOf(Half(c), 32));
  }

  lemma ZeroEven()
    ensures !Odd(0)
  {
  }

  lemma Overlap(l: seq<bool>, x: bool, y: bool, r: seq<bool>)
    requires l != [] && l + [x] == [y] + r
    ensures r == l[1..] + [x]
  {
    assert ([y] + r)[1..] == r;
    assert (l + [x])[1..] == l[1..] + [x];
  }

  lemma BitsNone(c: bv32)
    ensures BitsOf(c, 0) == []
  {
  }

  lemma {:induction false} BitsSplit(c: bv32, j: nat, k: nat)
    ensures BitsOf(c, j + k) == BitsOf(c, j) + BitsOf(Halves(c, j), k)
    decreases j
  {
    hide Odd, Half, BitsOf;
    if j == 0 {
      BitsNone(c);
      assert BitsOf(c, k) == [] + BitsOf(c, k);
    } else {
      BitsSplit(Half(c), j - 1, k);
      BitsCons(c, j + k);
      BitsCons(c, j);
      assert [Odd(c)] + (BitsOf(Half(c), j - 1) + BitsOf(Halves(c, j), k)) == [Odd(c)] + BitsOf(Half(c), j - 1) + BitsOf(Halves(c, j), k);
    }
  }

  lemma BitsCons(c: bv32, k: nat)
    requires k > 0
    ensures BitsOf(c, k) == [Odd(c)] + BitsOf(Half(c), k - 1)
  {
  }

  /** A word is four times eight bits. */
  lemma FourBytes(c: bv32)
    ensures var c1, c2, c3 := Shift8(c), Shift8(Shift8(c)), Shift8(Shift8(Shift8(c)));
            Bits(c) == BitsOf(c, 8) + (BitsOf(c1, 8) + (BitsOf(c2, 8) + BitsOf(c3, 8)))
  {
    hide BitsOf, Halves, Shift8;
    var c1, c2 := Shift8(c), Shift8(Shift8(c));
    HalvesEight(c);
    HalvesEight(c1);
    HalvesEight(c2);
    BitsSplit(c, 8, 24);
    BitsSplit(c1, 8, 16);
    BitsSplit(c2, 8, 8);
  }

  function PolyBits(): (r: seq<bool>)
    ensures |r| == 32
  {
    [false, false, false, false, false, true, false, false] + (
    [true, true, false, false, false, false, false, true] + (
    [false, false, false, true, true, true, false, true] +
    [true, false, true, true, false, true, true, true]))
  }

  lemma PolyIs()
    ensures Bits(0xEDB88320) == PolyBits()
  {
    hide BitsOf, Shift8;
    FourBytes(0xEDB88320);
    PolyByte0();
    PolyByte1();
    PolyByte2();
    PolyByte3();
  }

  lemma PolyByte0()
    ensures BitsOf(0xEDB88320, 8) == [false, false, false, false, false, true, false, false] && Shift8(0xEDB88320) == 0x00EDB883
  {
    assert BitsOf(0xEDB88320, 8) == [false] + BitsOf(0x76DC4190, 7);
    assert BitsOf(0x76DC4190, 7) == [false] + BitsOf(0x3B6E20C8, 6);
    assert BitsOf(0x3B6E20C8, 6) == [false] + BitsOf(0x1DB71064, 5);
    assert BitsOf(0x1DB71064, 5) == [false] + BitsOf(0x0EDB8832, 4);
    assert BitsOf(0x0EDB8832, 4) == [false] + BitsOf(0x076DC419, 3);
    assert BitsOf(0x076DC419, 3) == [true] + BitsOf(0x03B6E20C, 2);
    assert BitsOf(0x03B6E20C, 2) == [false] + BitsOf(0x01DB7106, 1);
    assert BitsOf(0x01DB7106, 1) == [false] + BitsOf(0x00EDB883, 0);
  }

  lemma PolyByte1()
    ensures BitsOf(0x00EDB883, 8) == [true, true, false, false, false, false, false, true] && Shift8(0x00EDB883) == 0x0000EDB8
  {
    assert BitsOf(0x00EDB883, 8) == [true] + BitsOf(0x0076DC41, 7);
    assert BitsOf(0x0076DC41, 7) == [true] + BitsOf(0x003B6E20, 6);
    assert BitsOf(0x003B6E20, 6) == [false] + BitsOf(0x001DB710, 5);
    assert BitsOf(0x001DB710, 5) == [false] + BitsOf(0x000EDB88, 4);
    assert BitsOf(0x000EDB88, 4) == [false] + BitsOf(0x00076DC4, 3);
    assert BitsOf(0x00076DC4, 3) == [false] + BitsOf(0x0003B6E2, 2);
    assert BitsOf(0x0003B6E2, 2) == [false] + BitsOf(0x0001DB71, 1);
    assert BitsOf(0x0001DB71, 1) == [true] + BitsOf(0x0000EDB8, 0);
  }

  lemma PolyByte2()
    ensures BitsOf(0x0000EDB8, 8) == [false, false, false, true, true, true, false, true] && Shift8(0x0000EDB8) == 0x000000ED
  {
    assert BitsOf(0x0000EDB8, 8) == [false] + BitsOf(0x000076DC, 7);
    assert BitsOf(0x000076DC, 7) == [false] + BitsOf(0x00003B6E, 6);
    assert BitsOf(0x00003B6E, 6) == [false] + BitsOf(0x00001DB7, 5);
    assert BitsOf(0x00001DB7, 5) == [true] + BitsOf(0x00000EDB, 4);
    assert BitsOf(0x00000EDB, 4) == [true] + BitsOf(0x0000076D, 3);
    assert BitsOf(0x0000076D, 3) == [true] + BitsOf(0x000003B6, 2);
    assert BitsOf(0x000003B6, 2) == [false] + BitsOf(0x000001DB, 1);
    assert BitsOf(0x000001DB, 1) == [true] + BitsOf(0x000000ED, 0);
  }

  lemma PolyByte3()
    ensures BitsOf(0x000000ED, 8) == [true, false, true, true, false, true, true, true] && Shift8(0x000000ED) == 0x00000000
  {
    assert BitsOf(0x000000ED, 8) == [true] + BitsOf(0x00000076, 7);
    assert BitsOf(0x00000076, 7) == [false] + BitsOf(0x0000003B, 6);
    assert BitsOf(0x0000003B, 6) == [true] + BitsOf(0x0000001D, 5);
    assert BitsOf(0x0000001D, 5) == [true] + BitsOf(0x0000000E, 4);
    assert BitsOf(0x0000000E, 4) == [false] + BitsOf(0x00000007, 3);
    assert BitsOf(0x00000007, 3) == [true] + BitsOf(0x00000003, 2);
    assert BitsOf(0x00000003, 2) == [true] + BitsOf(0x00000001, 1);
    assert BitsOf(0x00000001, 1) == [true] + BitsOf(0x00000000, 0);
  }

  function OnesBits(): (r: seq<bool>)
    ensures |r| == 32
  {
    [true, true, true, true, true, true, true, true] + (
    [true, true, true, true, true, true, true, true] + (
    [true, true, true, true, true, true, true, true] +
    [true, true, true, true, true, true, true, true]))
  }

  lemma OnesIs()
    ensures Bits(0xFFFFFFFF) == OnesBits()
  {
    hide BitsOf, Shift8;
    FourBytes(0xFFFFFFFF);
    OnesByte0();
    OnesByte1();
    OnesByte2();
    OnesByte3();
  }

  lemma OnesByte0()
    ensures BitsOf(0xFFFFFFFF, 8) == [true, true, true, true, true, true, true, true] && Shift8(0xFFFFFFFF) == 0x00FFFFFF
  {
    assert BitsOf(0xFFFFFFFF, 8) == [true] + BitsOf(0x7FFFFFFF, 7);
    assert BitsOf(0x7FFFFFFF, 7) == [true] + BitsOf(0x3FFFFFFF, 6);
    assert BitsOf(0x3FFFFFFF, 6) == [true] + BitsOf(0x1FFFFFFF, 5);
    assert BitsOf(0x1FFFFFFF, 5) == [true] + BitsOf(0x0FFFFFFF, 4);
    assert BitsOf(0x0FFFFFFF, 4) == [true] + BitsOf(0x07FFFFFF, 3);
    assert BitsOf(0x07FFFFFF, 3) == [true] + BitsOf(0x03FFFFFF, 2);
    assert BitsOf(0x03FFFFFF, 2) == [true] + BitsOf(0x01FFFFFF, 1);
    assert BitsOf(0x01FFFFFF, 1) == [true] + BitsOf(0x00FFFFFF, 0);
  }

  lemma OnesByte1()
    ensures BitsOf(0x00FFFFFF, 8) == [true, true, true, true, true, true, true, true] && Shift8(0x00FFFFFF) == 0x0000FFFF
  {
    assert BitsOf(0x00FFFFFF, 8) == [true] + BitsOf(0x007FFFFF, 7);
    assert BitsOf(0x007FFFFF, 7) == [true] + BitsOf(0x003FFFFF, 6);
    assert BitsOf(0x003FFFFF, 6) == [true] + BitsOf(0x001FFFFF, 5);
    assert BitsOf(0x001FFFFF, 5) == [true] + BitsOf(0x000FFFFF, 4);
    assert BitsOf(0x000FFFFF, 4) == [true] + BitsOf(0x0007FFFF, 3);
    assert BitsOf(0x0007FFFF, 3) == [true] + BitsOf(0x0003FFFF, 2);
    assert BitsOf(0x0003FFFF, 2) == [true] + BitsOf(0x0001FFFF, 1);
    assert BitsOf(0x0001FFFF, 1) == [true] + BitsOf(0x0000FFFF, 0);
  }

  lemma OnesByte2()
    ensures BitsOf(0x0000FFFF, 8) == [true, true, true, true, true, true, true, true] && Shift8(0x0000FFFF) == 0x000000FF
  {
    assert BitsOf(0x0000FFFF, 8) == [true] + BitsOf(0x00007FFF, 7);
    assert BitsOf(0x00007FFF, 7) == [true] + BitsOf(0x00003FFF, 6);
    assert BitsOf(0x00003FFF, 6) == [true] + BitsOf(0x00001FFF, 5);
    assert BitsOf(0x00001FFF, 5) == [true] + BitsOf(0x00000FFF, 4);
    assert BitsOf(0x00000FFF, 4) == [true] + BitsOf(0x000007FF, 3);
    assert BitsOf(0x000007FF, 3) == [true] + BitsOf(0x000003FF, 2);
    assert BitsOf(0x000003FF, 2) == [true] + BitsOf(0x000001FF, 1);
    assert BitsOf(0x000001FF, 1) == [true] + BitsOf(0x000000FF, 0);
  }

  lemma OnesByte3()
    ensures BitsOf(0x000000FF, 8) == [true, true, true, true, true, true, true, true] && Shift8(0x000000FF) == 0x00000000
  {
    assert BitsOf(0x000000FF, 8) == [true] + BitsOf(0x0000007F, 7);
    assert BitsOf(0x0000007F, 7) == [true] + BitsOf(0x0000003F, 6);
    assert BitsOf(0x0000003F, 6) == [true] + BitsOf(0x0000001F, 5);
    assert BitsOf(0x0000001F, 5) == [true] + BitsOf(0x0000000F, 4);
    assert BitsOf(0x0000000F, 4) == [true] + BitsOf(0x00000007, 3);
    assert BitsOf(0x00000007, 3) == [true] + BitsOf(0x00000003, 2);
    assert BitsOf(0x00000003, 2) == [true] + BitsOf(0x00000001, 1);
    assert BitsOf(0x00000001, 1) == [true] + BitsOf(0x00000000, 0);
  }

  /** The exclusive-or pattern is the divisor. */
  lemma PolyDivides()
    ensures Bits(POLY) == Divisor()
  {
    hide BitsOf;
    PolyIs();
    forall i | 0 <= i < 32 ensures PolyBits()[i] == Divisor()[i] { PolyAt(i); }
  }

  lemma PolyAt(i: int)
    requires 0 <= i < 32
    ensures |PolyBits()| == 32 && PolyBits()[i] == ((31 - i) in EXPONENTS)
  {
  }

  // ------------------------------------------------- the register in words

  function TakeBit(c: bv32, d: bool): bv32 { if Odd(c) != d then Xor(POLY, Half(c)) else Half(c) }

  lemma BitsStep(c: bv32, d: bool)
    ensures Bits(TakeBit(c, d)) == RegStep(Bits(c), d)
  {
    hide Xor, Half, Odd, Divisor, BitsOf, XorBits;
    BitsHalf(c);
    PolyDivides();
    BitsXor(POLY, Half(c), 32);
    BitsFirst(c);
    XorBitsComm(Divisor(), Bits(Half(c)));
  }

  lemma BitsFirst(c: bv32)
    ensures |Bits(c)| == 32 && Bits(c)[0] == Odd(c)
  {
    hide Odd, Half;
  }

  lemma XorBitsComm(a: seq<bool>, b: seq<bool>)
    requires |a| == |b|
    ensures XorBits(a, b) == XorBits(b, a)
  {
  }

  function TakeBits(c: bv32, D: seq<bool>): bv32
    decreases |D|
  {
    if D == [] then c else TakeBits(TakeBit(c, D[0]), D[1..])
  }

  lemma {:induction false} BitsSteps(c: bv32, D: seq<bool>)
    ensures Bits(TakeBits(c, D)) == RegSteps(Bits(c), D)
    decreases |D|
  {
    hide Bits, TakeBit, RegStep;
    BitsLen(c);
    if D != [] {
      BitsStep(c, D[0]);
      BitsSteps(TakeBit(c, D[0]), D[1..]);
    }
  }

  lemma BitsLen(c: bv32)
    ensures |Bits(c)| == 32
  {
  }

  /** Adding a byte and stepping is stepping with the bits of the byte. */
  lemma StepWith(c: bv32, y: bv32)
    ensures BitStep(Xor(c, y)) == Xor(TakeBit(c, Odd(y)), Half(y))
  {
    hide Xor, Half, Odd;
    HalfXor(c, y);
    XorAssoc(POLY, Half(c), Half(y));
  }

  lemma {:induction false} StepsWith(c: bv32, y: bv32, k: nat)
    ensures Steps(Xor(c, y), k) == Xor(TakeBits(c, BitsOf(y, k)), Halves(y, k))
    decreases k
  {
    hide Xor, Half, Odd, TakeBit, BitStep;
    if k > 0 {
      StepWith(c, y);
      StepsWith(TakeBit(c, Odd(y)), Half(y), k - 1);
      assert BitsOf(y, k)[0] == Odd(y) && BitsOf(y, k)[1..] == BitsOf(Half(y), k - 1);
    }
  }

  function ByteBits(b: byte): seq<bool> { BitsOf(b as bv32, 8) }

  lemma ByteGone(b: byte)
    ensures Shift8(b as bv32) == 0
  {
    var y := b as bv32;
    assert y <= 0xFF;
  }

  lemma XorNone(a: bv32)
    ensures Xor(a, 0) == a
  {
  }

  lemma ByteIsBits(c: bv32, b: byte)
    ensures TakeByte(c, b) == TakeBits(c, ByteBits(b))
  {
    hide Xor, Steps, TakeBits, BitsOf, Halves, Shift8;
    StepsWith(c, b as bv32, 8);
    HalvesEight(b as bv32);
    ByteGone(b);
    XorNone(TakeBits(c, ByteBits(b)));
  }

  function MsgBits(s: seq<byte>): seq<bool>
    decreases |s|
  {
    if s == [] then [] else ByteBits(s[0]) + MsgBits(s[1..])
  }

  lemma {:induction false} BitsConcat(c: bv32, D: seq<bool>, F: seq<bool>)
    ensures TakeBits(c, D + F) == TakeBits(TakeBits(c, D), F)
    decreases |D|
  {
    hide TakeBit;
    if D == [] {
      assert D + F == F;
    } else {
      assert (D + F)[1..] == D[1..] + F && (D + F)[0] == D[0];
      BitsConcat(TakeBit(c, D[0]), D[1..], F);
    }
  }

  lemma {:induction false} BytesAreBits(c: bv32, s: seq<byte>)
    ensures TakeBytes(c, s) == TakeBits(c, MsgBits(s))
    decreases |s|
  {
    hide TakeByte, TakeBit, ByteBits;
    if s != [] {
      ByteIsBits(c, s[0]);
      BytesAreBits(TakeByte(c, s[0]), s[1..]);
      BitsConcat(c, ByteBits(s[0]), MsgBits(s[1..]));
    }
  }

  function Flip(a: seq<bool>): (r: seq<bool>)
    ensures |r| == |a| && forall i :: 0 <= i < |a| ==> r[i] == !a[i]
  {
    seq(|a|, i requires 0 <= i < |a| => !a[i])
  }

  lemma BitsFlip(c: bv32)
    ensures Bits(Xor(c, ONES)) == Flip(Bits(c))
  {
    hide BitsOf;
    BitsXor(c, ONES, 32);
    OnesIs();
    OnesAll();
  }

  lemma OnesAll()
    ensures |OnesBits()| == 32 && forall i :: 0 <= i < 32 ==> OnesBits()[i]
  {
  }

  /** crc32 is the remainder of the message times x^32, with the first 32
      coefficients and the result complemented. */
  lemma CrcIsRemainder(c: bv32, s: seq<byte>)
    ensures |Bits(c)| == 32 && Bits(Crc(c, s)) == Flip(Rem(Mix(Flip(Bits(c)), MsgBits(s))))
  {
    hide Bits, TakeBytes, TakeBits, RegSteps, Rem, Mix, MsgBits, Xor;
    BitsLen(c);
    BitsFlip(c);
    var r := Xor(c, ONES);
    BitsLen(r);
    BytesAreBits(r, s);
    BitsSteps(r, MsgBits(s));
    RegisterDivides(Bits(r), MsgBits(s));
    BitsFlip(TakeBytes(r, s));
  }
}
