// The IPv4 header checksum: a sum of ten 16-bit words with a single carry fold,
// against the ones-complement sum of section 3.1 of RFC 791.
module IpChecksum {
  import opened Bytes

  const HDR := 20
  const CKSUM := 10

  /** Word i of the header, in network byte order. */
  function Word(h: seq<byte>, i: int): (w: int)
    requires |h| == HDR && 0 <= i < 10
    ensures 0 <= w <= 0xFFFF
  {
    (h[2 * i] as int) * 256 + h[2 * i + 1] as int
  }

  function Sum(h: seq<byte>, n: nat): (s: int)
    requires |h| == HDR && n <= 10
    ensures 0 <= s <= n * 0xFFFF
  {
    if n == 0 then 0 else Sum(h, n - 1) + Word(h, n - 1)
  }

  /** What ipcksum makes of the sum: the carry is added once, then complemented. */
  function Fold(s: int): (c: int)
    requires 0 <= s <= 10 * 0xFFFF
    ensures 0 <= c < 0xFFFF
  {
    var c := 0xFFFF - (s + s / 0x1_0000) % 0x1_0000;
    if c == 0xFFFF then 0 else c
  }

  method IpCksum(h: seq<byte>) returns (c: int)
    requires |h| == HDR
    ensures c == Fold(Sum(h, 10))
  {
    hide Word;
    var cksum := 0;
    for i := 0 to 10
      invariant cksum == Sum(h, i)
    {
      cksum := (cksum + Word(h, i)) % 0x1_0000_0000;
    }
    cksum := cksum + cksum / 0x1_0000;
    cksum := 0xFFFF - cksum % 0x1_0000;
    if cksum == 0xFFFF { cksum := 0; }
    return cksum;
  }

  // ------------------------------------------------ the sum of RFC 791

  /** The ones-complement sum of two words: a carry goes around. */
  function Around(a: int, b: int): (s: int)
    requires 0 <= a <= 0xFFFF && 0 <= b <= 0xFFFF
    ensures 0 <= s <= 0xFFFF
  {
    if a + b > 0xFFFF then a + b - 0xFFFF else a + b
  }

  function OnesSum(h: seq<byte>, n: nat): (s: int)
    requires |h| == HDR && n <= 10
    ensures 0 <= s <= 0xFFFF
  {
    if n == 0 then 0 else Around(OnesSum(h, n - 1), Word(h, n - 1))
  }

  /** It is the sum modulo 65535, with zero only for nothing but zeros. */
  lemma {:induction false} OnesIsMod(h: seq<byte>, n: nat)
    requires |h| == HDR && n <= 10
    ensures OnesSum(h, n) % 0xFFFF == Sum(h, n) % 0xFFFF && (OnesSum(h, n) == 0 <==> Sum(h, n) == 0)
  {
    hide Word;
    if n > 0 {
      OnesIsMod(h, n - 1);
      ModAdd(OnesSum(h, n - 1), Sum(h, n - 1), Word(h, n - 1));
    }
  }

  lemma ModAdd(a: int, s: int, w: int)
    requires 0 <= a <= 0xFFFF && 0 <= w <= 0xFFFF && 0 <= s && a % 0xFFFF == s % 0xFFFF && (a == 0 <==> s == 0)
    ensures Around(a, w) % 0xFFFF == (s + w) % 0xFFFF && (Around(a, w) == 0 <==> s + w == 0)
  {
  }

  /** The header is correct under RFC 791: its words add up to all ones. */
  ghost predicate Correct(h: seq<byte>)
    requires |h| == HDR
  {
    OnesSum(h, 10) == 0xFFFF
  }

  /** ipcksum returns zero exactly for correct headers, for one of zeros only,
      and for those whose single carry fold overflows to zero. */
  lemma Accepts(h: seq<byte>)
    requires |h| == HDR
    ensures Fold(Sum(h, 10)) == 0 <==>
            Correct(h) || Sum(h, 10) == 0 || Sum(h, 10) % 0x1_0000 + Sum(h, 10) / 0x1_0000 == 0x1_0000
  {
    hide Sum, OnesSum;
    OnesIsMod(h, 10);
    FoldZero(Sum(h, 10), OnesSum(h, 10));
  }

  lemma FoldZero(s: int, o: int)
    requires 0 <= s <= 10 * 0xFFFF && 0 <= o <= 0xFFFF && o % 0xFFFF == s % 0xFFFF && (o == 0 <==> s == 0)
    ensures Fold(s) == 0 <==> o == 0xFFFF || s == 0 || s % 0x1_0000 + s / 0x1_0000 == 0x1_0000
  {
    hide Fold;
    var hi, lo := s / 0x1_0000, s % 0x1_0000;
    FoldIs(s, hi, lo);
    assert s == hi * 0xFFFF + (hi + lo);
  }

  /** Every header that is correct under RFC 791 is accepted. */
  lemma CorrectAccepted(h: seq<byte>)
    requires |h| == HDR && Correct(h)
    ensures Fold(Sum(h, 10)) == 0
  {
    Accepts(h);
  }

  // ---------------------------------------------------- storing the checksum

  function WithCksum(h: seq<byte>, c: int): (r: seq<byte>)
    requires |h| == HDR && 0 <= c <= 0xFFFF
    ensures |r| == HDR
  {
    h[CKSUM := c / 256][CKSUM + 1 := c % 256]
  }

  /** ip_out: the checksum field is zeroed, computed and stored. */
  method StoreCksum(h: array<byte>)
    requires h.Length == HDR
    modifies h
    ensures h[..] == WithCksum(old(h[..]), Fold(Sum(WithCksum(old(h[..]), 0), 10)))
  {
    hide Sum, Fold;
    h[CKSUM] := 0;
    h[CKSUM + 1] := 0;
    assert h[..] == WithCksum(old(h[..]), 0);
    var c := IpCksum(h[..]);
    h[CKSUM] := c / 256;
    h[CKSUM + 1] := c % 256;
  }

  lemma SumWith(h: seq<byte>, c: int)
    requires |h| == HDR && 0 <= c <= 0xFFFF
    ensures Sum(WithCksum(h, c), 10) == Sum(WithCksum(h, 0), 10) + c
  {
    SumBelow(h, c, 5);
    SumAbove(h, c, 10);
  }

  lemma {:induction false} SumBelow(h: seq<byte>, c: int, n: nat)
    requires |h| == HDR && 0 <= c <= 0xFFFF && n <= 5
    ensures Sum(WithCksum(h, c), n) == Sum(WithCksum(h, 0), n)
  {
    if n > 0 { SumBelow(h, c, n - 1); }
  }

  lemma {:induction false} SumAbove(h: seq<byte>, c: int, n: nat)
    requires |h| == HDR && 0 <= c <= 0xFFFF && 6 <= n <= 10
    ensures Sum(WithCksum(h, c), n) == Sum(WithCksum(h, 0), n) + c
    decreases n
  {
    if n == 6 {
      SumBelow(h, c, 5);
      assert Word(WithCksum(h, c), 5) == c;
    } else {
      SumAbove(h, c, n - 1);
    }
  }

  lemma FoldIs(s: int, hi: int, lo: int)
    requires 0 <= s <= 10 * 0xFFFF && s == hi * 0x1_0000 + lo && 0 <= lo < 0x1_0000
    ensures Fold(s) == if hi + lo == 0 || hi + lo == 0x1_0000 then 0
                       else if hi + lo < 0x1_0000 then 0xFFFF - (hi + lo) else 0x1_FFFF - (hi + lo)
  {
    assert s / 0x1_0000 == hi;
    assert 0 <= hi <= 9;
    assert (s + hi) % 0x1_0000 == if hi + lo < 0x1_0000 then hi + lo else hi + lo - 0x1_0000;
  }

  lemma FoldTwice(s: int)
    requires 0 <= s <= 9 * 0xFFFF
    ensures Fold(s + Fold(s)) == 0
  {
    hide Fold;
    var hi, lo := s / 0x1_0000, s % 0x1_0000;
    FoldIs(s, hi, lo);
    if hi + lo == 0 || hi + lo == 0x1_0000 {
    } else if hi + lo < 0x1_0000 {
      FoldIs(s + Fold(s), hi, 0xFFFF - hi);
    } else {
      FoldIs(s + Fold(s), hi + 1, 0xFFFF - hi);
    }
  }

  lemma NineWords(h: seq<byte>)
    requires |h| == HDR
    ensures Sum(WithCksum(h, 0), 10) <= 9 * 0xFFFF
  {
    var z := WithCksum(h, 0);
    assert Word(z, 5) == 0;
    assert Sum(z, 6) == Sum(z, 5);
    assert Sum(z, 7) <= 6 * 0xFFFF;
    assert Sum(z, 8) <= 7 * 0xFFFF;
    assert Sum(z, 9) <= 8 * 0xFFFF;
  }

  /** Whatever the header, what ip_out stores makes ip_in accept it. */
  lemma StoredIsAccepted(h: seq<byte>)
    requires |h| == HDR
    ensures Fold(Sum(WithCksum(h, Fold(Sum(WithCksum(h, 0), 10))), 10)) == 0
  {
    hide Sum, Fold, WithCksum;
    NineWords(h);
    var s := Sum(WithCksum(h, 0), 10);
    SumWith(h, Fold(s));
    FoldTwice(s);
  }

  /** A header that is accepted although its sum is one too large. */
  lemma AcceptsIncorrect()
    ensures var h: seq<byte> := [0xFF, 0xFF, 0xFF, 0xFF, 0, 1, 0, 0, 0, 0, 0, 0, 0, 0, 0, 0, 0, 0, 0, 0];
            Fold(Sum(h, 10)) == 0 && !Correct(h)
  {
    hide Fold;
    var h: seq<byte> := [0xFF, 0xFF, 0xFF, 0xFF, 0, 1, 0, 0, 0, 0, 0, 0, 0, 0, 0, 0, 0, 0, 0, 0];
    assert Word(h, 0) == 0xFFFF && Word(h, 1) == 0xFFFF && Word(h, 2) == 1 && Word(h, 3) == 0 && Word(h, 4) == 0;
    assert Word(h, 5) == 0 && Word(h, 6) == 0 && Word(h, 7) == 0 && Word(h, 8) == 0 && Word(h, 9) == 0;
    hide Word;
    assert Sum(h, 3) == 0x1_FFFF;
    assert Sum(h, 6) == 0x1_FFFF;
    assert Sum(h, 10) == 0x1_FFFF;
    OnesIsMod(h, 10);
    FoldIs(0x1_FFFF, 1, 0xFFFF);
  }
}
