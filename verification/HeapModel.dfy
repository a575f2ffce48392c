// The heap on plain values: the free list as a sequence of blocks, what each
// call does to it, and why it is determined by the set of free bytes alone.
module HeapModel {

  const M32 := 0x1_0000_0000

  datatype Blk = Blk(addr: int, len: int)

  function End(b: Blk): int { b.addr + b.len }

  /** roundmb, on 32-bit unsigned numbers. */
  function Round(n: int): (r: int)
    requires 0 <= n < M32
    ensures 0 <= r < M32 && r % 8 == 0
  {
    (n + 7) % M32 / 8 * 8
  }

  /** Rounding covers the request exactly when it does not wrap around. */
  lemma RoundCovers(n: int)
    requires 0 <= n < M32
    ensures n <= Round(n) < n + 8 <==> n <= 0xFFFF_FFF8
    ensures n > 0xFFFF_FFF8 ==> Round(n) == 0
    ensures 0 < n <= 0xFFFF_FFF8 ==> Round(n) > 0
  {
    if n <= 0xFFFF_FFF8 {
      assert (n + 7) % M32 == n + 7;
    } else {
      assert (n + 7) % M32 == n + 7 - M32;
    }
  }

  // -------------------------------------------------------- the free list

  ghost predicate Fine(b: Blk) { b.len > 0 && b.addr % 8 == 0 && b.len % 8 == 0 }

  /** Address-ordered, disjoint and maximally coalesced, within [lo, hi). */
  ghost predicate Canon(bs: seq<Blk>, lo: int, hi: int) {
    && (forall i :: 0 <= i < |bs| ==> Fine(bs[i]) && lo <= bs[i].addr && End(bs[i]) <= hi)
    && (forall i, j :: 0 <= i < j < |bs| ==> End(bs[i]) < bs[j].addr)
  }

  predicate Holds(b: Blk, x: int) { b.addr <= x < End(b) }

  ghost predicate IsFree(bs: seq<Blk>, x: int) { exists i :: 0 <= i < |bs| && Holds(bs[i], x) }

  function Total(bs: seq<Blk>): int {
    if bs == [] then 0 else bs[0].len + Total(bs[1..])
  }

  /** Blocks j to k - 1 replaced by b. */
  function Splice(bs: seq<Blk>, j: int, k: int, b: Blk): seq<Blk>
    requires 0 <= j <= k <= |bs|
  {
    bs[..j] + [b] + bs[k..]
  }

  function Cut(bs: seq<Blk>, i: int): seq<Blk>
    requires 0 <= i < |bs|
  {
    bs[..i] + bs[i + 1..]
  }

  lemma SpliceAt(bs: seq<Blk>, j: int, k: int, b: Blk)
    requires 0 <= j <= k <= |bs|
    ensures |Splice(bs, j, k, b)| == |bs| - (k - j) + 1
    ensures forall m :: 0 <= m < |Splice(bs, j, k, b)| ==>
              Splice(bs, j, k, b)[m] == if m < j then bs[m] else if m == j then b else bs[m - 1 + (k - j)]
  {
  }

  lemma SpliceCanon(bs: seq<Blk>, j: int, k: int, b: Blk, lo: int, hi: int)
    requires Canon(bs, lo, hi) && 0 <= j <= k <= |bs| && Fine(b) && lo <= b.addr && End(b) <= hi
    requires (j > 0 ==> End(bs[j - 1]) < b.addr) && (k < |bs| ==> End(b) < bs[k].addr)
    ensures Canon(Splice(bs, j, k, b), lo, hi)
  {
    hide Fine;
    SpliceAt(bs, j, k, b);
    BeforeAfter(bs, j, k, b, lo, hi);
  }

  lemma BeforeAfter(bs: seq<Blk>, j: int, k: int, b: Blk, lo: int, hi: int)
    requires Canon(bs, lo, hi) && 0 <= j <= k <= |bs|
    requires (j > 0 ==> End(bs[j - 1]) < b.addr) && (k < |bs| ==> End(b) < bs[k].addr)
    ensures forall m :: 0 <= m < j ==> End(bs[m]) < b.addr
    ensures forall m :: k <= m < |bs| ==> End(b) < bs[m].addr
  {
    forall m | 0 <= m < j ensures End(bs[m]) < b.addr {
      if m < j - 1 { assert End(bs[m]) < bs[j - 1].addr; }
    }
    forall m | k <= m < |bs| ensures End(b) < bs[m].addr {
      if m > k { assert End(bs[k]) < bs[m].addr; }
    }
  }

  lemma CutCanon(bs: seq<Blk>, i: int, lo: int, hi: int)
    requires Canon(bs, lo, hi) && 0 <= i < |bs|
    ensures Canon(Cut(bs, i), lo, hi)
  {
    hide Fine;
    var r := Cut(bs, i);
    assert forall m :: 0 <= m < |r| ==> r[m] == if m < i then bs[m] else bs[m + 1];
  }

  // ---------------------------------------------------- sets of free bytes

  ghost predicate FreeIn(bs: seq<Blk>, j: int, k: int, x: int)
    requires 0 <= j <= k <= |bs|
  {
    exists i :: j <= i < k && Holds(bs[i], x)
  }

  lemma SpliceFree(bs: seq<Blk>, j: int, k: int, b: Blk, x: int)
    requires 0 <= j <= k <= |bs|
    ensures IsFree(Splice(bs, j, k, b), x) <==> FreeIn(bs, 0, j, x) || Holds(b, x) || FreeIn(bs, k, |bs|, x)
  {
    hide Holds, Splice;
    var r := Splice(bs, j, k, b);
    SpliceParts(bs, j, k, b);
    if IsFree(r, x) {
      var m :| 0 <= m < |r| && Holds(r[m], x);
      if m < j { assert Holds(bs[m], x); } else if m > j { assert Holds(bs[m - 1 + (k - j)], x); }
    }
    if FreeIn(bs, 0, j, x) {
      var i :| 0 <= i < j && Holds(bs[i], x);
      assert Holds(r[i], x);
    }
    if FreeIn(bs, k, |bs|, x) {
      var i :| k <= i < |bs| && Holds(bs[i], x);
      assert Holds(r[i + 1 - (k - j)], x);
    }
    if Holds(b, x) { assert Holds(r[j], x); }
  }

  lemma SpliceParts(bs: seq<Blk>, j: int, k: int, b: Blk)
    requires 0 <= j <= k <= |bs|
    ensures |Splice(bs, j, k, b)| == |bs| - (k - j) + 1 && Splice(bs, j, k, b)[j] == b
    ensures forall m :: 0 <= m < j ==> Splice(bs, j, k, b)[m] == bs[m]
    ensures forall m :: j < m <= |bs| - (k - j) ==> Splice(bs, j, k, b)[m] == bs[m - 1 + (k - j)]
    ensures forall i :: k <= i < |bs| ==> Splice(bs, j, k, b)[i + 1 - (k - j)] == bs[i]
  {
  }

  lemma CutFree(bs: seq<Blk>, i: int, x: int)
    requires 0 <= i < |bs|
    ensures IsFree(Cut(bs, i), x) <==> FreeIn(bs, 0, i, x) || FreeIn(bs, i + 1, |bs|, x)
  {
    hide Holds;
    var r := Cut(bs, i);
    assert forall m :: 0 <= m < |r| ==> r[m] == if m < i then bs[m] else bs[m + 1];
    if FreeIn(bs, 0, i, x) {
      var m :| 0 <= m < i && Holds(bs[m], x);
      assert Holds(r[m], x);
    }
    if FreeIn(bs, i + 1, |bs|, x) {
      var m :| i + 1 <= m < |bs| && Holds(bs[m], x);
      assert Holds(r[m - 1], x);
    }
  }

  lemma FreeSplit(bs: seq<Blk>, j: int, k: int, x: int)
    requires 0 <= j <= k <= |bs|
    ensures IsFree(bs, x) <==> FreeIn(bs, 0, j, x) || FreeIn(bs, j, k, x) || FreeIn(bs, k, |bs|, x)
  {
    hide Holds;
  }

  /** Blocks before and after b hold no byte of b. */
  lemma Elsewhere(bs: seq<Blk>, j: int, k: int, b: Blk, x: int)
    requires 0 <= j <= k <= |bs| && Holds(b, x)
    requires (forall m :: 0 <= m < j ==> End(bs[m]) <= b.addr) && (forall m :: k <= m < |bs| ==> End(b) <= bs[m].addr)
    ensures !FreeIn(bs, 0, j, x) && !FreeIn(bs, k, |bs|, x)
  {
  }

  // ------------------------------------------- determined by the free bytes

  lemma {:induction false} CanonTail(bs: seq<Blk>, lo: int, hi: int)
    requires Canon(bs, lo, hi) && bs != []
    ensures Canon(bs[1..], End(bs[0]) + 1, hi) && End(bs[0]) + 1 > lo
  {
    assert forall i :: 0 <= i < |bs[1..]| ==> bs[1..][i] == bs[i + 1];
  }

  lemma TailFree(bs: seq<Blk>, x: int)
    requires bs != []
    ensures IsFree(bs, x) <==> Holds(bs[0], x) || IsFree(bs[1..], x)
  {
    hide Holds;
    assert forall i :: 0 <= i < |bs[1..]| ==> bs[1..][i] == bs[i + 1];
    if IsFree(bs[1..], x) {
      var i :| 0 <= i < |bs[1..]| && Holds(bs[1..][i], x);
      assert Holds(bs[i + 1], x);
    }
  }

  lemma NothingBelow(bs: seq<Blk>, lo: int, hi: int, x: int)
    requires Canon(bs, lo, hi) && x < lo
    ensures !IsFree(bs, x)
  {
  }

  /** The first block is the first run of free bytes. */
  lemma HeadRun(bs: seq<Blk>, lo: int, hi: int)
    requires Canon(bs, lo, hi) && bs != []
    ensures forall x :: x < bs[0].addr || x == End(bs[0]) ==> !IsFree(bs, x)
    ensures forall x :: bs[0].addr <= x < End(bs[0]) ==> IsFree(bs, x)
  {
    forall x | bs[0].addr <= x < End(bs[0]) ensures IsFree(bs, x) { assert Holds(bs[0], x); }
  }

  lemma SameHead(bs: seq<Blk>, bs': seq<Blk>, lo: int, hi: int)
    requires Canon(bs, lo, hi) && Canon(bs', lo, hi) && bs != [] && bs' != []
    requires forall x :: IsFree(bs, x) <==> IsFree(bs', x)
    ensures bs[0] == bs'[0]
  {
    hide Canon, IsFree;
    HeadRun(bs, lo, hi);
    HeadRun(bs', lo, hi);
    HeadFine(bs, lo, hi);
    HeadFine(bs', lo, hi);
    var a, a' := bs[0], bs'[0];
    assert IsFree(bs, a.addr) && IsFree(bs', a'.addr);
    assert a.addr == a'.addr;
    assert !IsFree(bs, End(a)) && !IsFree(bs', End(a'));
    assert End(a) == End(a');
  }

  lemma HeadFine(bs: seq<Blk>, lo: int, hi: int)
    requires Canon(bs, lo, hi) && bs != []
    ensures bs[0].len > 0
  {
  }

  /** The set of free bytes determines the free list. */
  lemma {:induction false} CanonUnique(bs: seq<Blk>, bs': seq<Blk>, lo: int, hi: int)
    requires Canon(bs, lo, hi) && Canon(bs', lo, hi)
    requires forall x :: IsFree(bs, x) <==> IsFree(bs', x)
    ensures bs == bs'
    decreases |bs|
  {
    hide Canon, IsFree;
    if bs == [] || bs' == [] {
      SameEmpty(bs, bs', lo, hi);
    } else {
      SameHead(bs, bs', lo, hi);
      CanonTail(bs, lo, hi);
      CanonTail(bs', lo, hi);
      var e := End(bs[0]);
      forall x ensures IsFree(bs[1..], x) <==> IsFree(bs'[1..], x) {
        TailFree(bs, x);
        TailFree(bs', x);
        if x < e + 1 {
          NothingBelow(bs[1..], e + 1, hi, x);
          NothingBelow(bs'[1..], e + 1, hi, x);
        }
      }
      CanonUnique(bs[1..], bs'[1..], e + 1, hi);
      assert bs == [bs[0]] + bs[1..];
      assert bs' == [bs'[0]] + bs'[1..];
    }
  }

  lemma SameEmpty(bs: seq<Blk>, bs': seq<Blk>, lo: int, hi: int)
    requires Canon(bs, lo, hi) && Canon(bs', lo, hi) && (bs == [] || bs' == [])
    requires forall x :: IsFree(bs, x) <==> IsFree(bs', x)
    ensures bs == bs'
  {
    hide IsFree, Canon;
    SomeFree(bs, lo, hi);
    SomeFree(bs', lo, hi);
  }

  lemma SomeFree(bs: seq<Blk>, lo: int, hi: int)
    requires Canon(bs, lo, hi)
    ensures bs != [] <==> exists x :: IsFree(bs, x)
  {
    if bs != [] {
      assert Holds(bs[0], bs[0].addr);
      assert IsFree(bs, bs[0].addr);
    }
  }

  // ----------------------------------------------------------- total length

  lemma {:induction false} TotalConcat(a: seq<Blk>, b: seq<Blk>)
    ensures Total(a + b) == Total(a) + Total(b)
    decreases |a|
  {
    if a == [] {
      assert a + b == b;
    } else {
      assert (a + b)[1..] == a[1..] + b;
      TotalConcat(a[1..], b);
    }
  }

  lemma TotalSplice(bs: seq<Blk>, j: int, k: int, b: Blk)
    requires 0 <= j <= k <= |bs|
    ensures Total(Splice(bs, j, k, b)) == Total(bs) - Total(bs[j..k]) + b.len
  {
    hide Total;
    var x, y, z := bs[..j], bs[j..k], bs[k..];
    TotalConcat(x + [b], z);
    TotalConcat(x, [b]);
    TotalOne(b);
    TotalConcat(x + y, z);
    TotalConcat(x, y);
    assert bs == x + y + z;
  }

  lemma TotalOne(b: Blk)
    ensures Total([b]) == b.len
  {
  }

  lemma TotalCut(bs: seq<Blk>, i: int)
    requires 0 <= i < |bs|
    ensures Total(Cut(bs, i)) == Total(bs) - bs[i].len
  {
    TotalConcat(bs[..i], bs[i + 1..]);
    TotalConcat(bs[..i], bs[i..]);
    assert bs == bs[..i] + bs[i..];
    assert bs[i..][1..] == bs[i + 1..];
  }

  // ---------------------------------------------------------------- getmem

  /** The first block of at least n bytes, or |bs|. */
  function FirstFit(bs: seq<Blk>, n: int): (i: nat)
    ensures i <= |bs| && (forall j :: 0 <= j < i ==> bs[j].len < n) && (i < |bs| ==> bs[i].len >= n)
  {
    if bs == [] || bs[0].len >= n then 0 else 1 + FirstFit(bs[1..], n)
  }

  /** n bytes taken from the bottom of block i. */
  function TakeLow(bs: seq<Blk>, i: int, n: int): seq<Blk>
    requires 0 <= i < |bs|
  {
    if bs[i].len == n then Cut(bs, i) else Splice(bs, i, i + 1, Blk(bs[i].addr + n, bs[i].len - n))
  }

  /** n bytes taken from the top of block i. */
  function TakeHigh(bs: seq<Blk>, i: int, n: int): seq<Blk>
    requires 0 <= i < |bs|
  {
    if bs[i].len == n then Cut(bs, i) else Splice(bs, i, i + 1, Blk(bs[i].addr, bs[i].len - n))
  }

  /** The region a with n bytes has left the free list bs, which is now bs'. */
  ghost predicate Took(bs: seq<Blk>, bs': seq<Blk>, lo: int, hi: int, a: int, n: int) {
    && Canon(bs', lo, hi) && lo <= a && a + n <= hi && a % 8 == 0 && n % 8 == 0
    && (forall x :: a <= x < a + n ==> IsFree(bs, x))
    && (forall x :: IsFree(bs', x) <==> IsFree(bs, x) && !(a <= x < a + n))
    && Total(bs') == Total(bs) - n
  }

  /** n bytes at address a inside block i leave; rest is what stays of the block. */
  lemma TakeWhole(bs: seq<Blk>, i: int, lo: int, hi: int)
    requires Canon(bs, lo, hi) && 0 <= i < |bs|
    ensures Took(bs, Cut(bs, i), lo, hi, bs[i].addr, bs[i].len)
  {
    hide Cut, IsFree, FreeIn;
    CutCanon(bs, i, lo, hi);
    TotalCut(bs, i);
    var b := bs[i];
    forall x ensures IsFree(Cut(bs, i), x) <==> IsFree(bs, x) && !Holds(b, x) {
      CutFree(bs, i, x);
      FreeSplit(bs, i, i + 1, x);
      OneBlock(bs, i, x);
      if Holds(b, x) { Elsewhere(bs, i, i + 1, b, x); }
    }
    forall x | Holds(b, x) ensures IsFree(bs, x) {
      FreeSplit(bs, i, i + 1, x);
      OneBlock(bs, i, x);
    }
  }

  lemma OneBlock(bs: seq<Blk>, i: int, x: int)
    requires 0 <= i < |bs|
    ensures FreeIn(bs, i, i + 1, x) <==> Holds(bs[i], x)
  {
    hide Holds;
  }

  lemma RestFine(b: Blk, n: int, rest: Blk, a: int)
    requires Fine(b) && 0 < n < b.len && n % 8 == 0 && rest.len == b.len - n
    requires (a == b.addr && rest.addr == a + n) || (rest.addr == b.addr && a == End(rest))
    ensures Fine(rest) && a % 8 == 0
  {
  }

  /** Block i gives up the n bytes at a. */
  ghost predicate PartOf(b: Blk, n: int, rest: Blk, a: int) {
    && 0 < n < b.len && rest.len == b.len - n
    && ((a == b.addr && rest.addr == a + n) || (rest.addr == b.addr && a == End(rest)))
  }

  lemma TakePartFree(bs: seq<Blk>, i: int, n: int, rest: Blk, a: int, lo: int, hi: int, x: int)
    requires Canon(bs, lo, hi) && 0 <= i < |bs| && PartOf(bs[i], n, rest, a)
    ensures a <= x < a + n ==> IsFree(bs, x)
    ensures IsFree(Splice(bs, i, i + 1, rest), x) <==> IsFree(bs, x) && !(a <= x < a + n)
  {
    hide Splice, IsFree, FreeIn, Fine;
    SpliceFree(bs, i, i + 1, rest, x);
    FreeSplit(bs, i, i + 1, x);
    OneBlock(bs, i, x);
    if Holds(bs[i], x) { Elsewhere(bs, i, i + 1, bs[i], x); }
  }

  lemma TakePart(bs: seq<Blk>, i: int, n: int, rest: Blk, a: int, lo: int, hi: int)
    requires Canon(bs, lo, hi) && 0 <= i < |bs| && n % 8 == 0 && PartOf(bs[i], n, rest, a)
    ensures Took(bs, Splice(bs, i, i + 1, rest), lo, hi, a, n)
  {
    hide Splice, IsFree, Fine;
    var b := bs[i];
    assert Fine(b) && End(b) <= hi;
    RestFine(b, n, rest, a);
    SpliceCanon(bs, i, i + 1, rest, lo, hi);
    TotalSplice(bs, i, i + 1, rest);
    assert bs[i..i + 1] == [b];
    TotalOne(b);
    var bs' := Splice(bs, i, i + 1, rest);
    forall x ensures (a <= x < a + n ==> IsFree(bs, x)) && (IsFree(bs', x) <==> IsFree(bs, x) && !(a <= x < a + n)) {
      TakePartFree(bs, i, n, rest, a, lo, hi, x);
    }
    hide Canon;
  }

  /** getmem and getstk take exactly n bytes that were free. */
  lemma TakeLowTook(bs: seq<Blk>, i: int, n: int, lo: int, hi: int)
    requires Canon(bs, lo, hi) && 0 <= i < |bs| && 0 < n <= bs[i].len && n % 8 == 0
    ensures Took(bs, TakeLow(bs, i, n), lo, hi, bs[i].addr, n)
  {
    hide Took, Canon;
    if bs[i].len == n {
      TakeWhole(bs, i, lo, hi);
    } else {
      TakePart(bs, i, n, Blk(bs[i].addr + n, bs[i].len - n), bs[i].addr, lo, hi);
    }
  }

  lemma TakeHighTook(bs: seq<Blk>, i: int, n: int, lo: int, hi: int)
    requires Canon(bs, lo, hi) && 0 <= i < |bs| && 0 < n <= bs[i].len && n % 8 == 0
    ensures Took(bs, TakeHigh(bs, i, n), lo, hi, End(bs[i]) - n, n)
  {
    hide Took, Canon;
    if bs[i].len == n {
      TakeWhole(bs, i, lo, hi);
    } else {
      TakePart(bs, i, n, Blk(bs[i].addr, bs[i].len - n), End(bs[i]) - n, lo, hi);
    }
  }

  /** The last block of at least n bytes, or -1. */
  function LastFit(bs: seq<Blk>, n: int): (i: int)
    ensures -1 <= i < |bs| && (forall j :: i < j < |bs| ==> bs[j].len < n) && (i >= 0 ==> bs[i].len >= n)
  {
    if bs == [] then -1 else
      var l := |bs| - 1;
      if bs[l].len >= n then l else LastFit(bs[..l], n)
  }

  // --------------------------------------------------------------- freemem

  /** How many blocks start below a. */
  function Below(bs: seq<Blk>, a: int): (i: nat)
    ensures i <= |bs| && (forall j :: 0 <= j < i ==> bs[j].addr < a) && (i < |bs| ==> bs[i].addr >= a)
  {
    if bs == [] || bs[0].addr >= a then 0 else 1 + Below(bs[1..], a)
  }

  /** The overlap test of freemem. */
  predicate Clashes(bs: seq<Blk>, i: int, a: int, n: int)
    requires 0 <= i <= |bs|
  {
    (i > 0 && a < End(bs[i - 1])) || (i < |bs| && a + n > bs[i].addr)
  }

  /** It looks at two blocks, and that is enough. */
  lemma ClashIffOverlap(bs: seq<Blk>, lo: int, hi: int, a: int, n: int)
    requires Canon(bs, lo, hi) && n > 0
    ensures Clashes(bs, Below(bs, a), a, n) <==> exists x :: a <= x < a + n && IsFree(bs, x)
  {
    var i := Below(bs, a);
    if i > 0 && a < End(bs[i - 1]) {
      assert Holds(bs[i - 1], a);
      assert IsFree(bs, a);
    } else if i < |bs| && a + n > bs[i].addr {
      assert Holds(bs[i], bs[i].addr);
      assert IsFree(bs, bs[i].addr);
    } else {
      forall x | a <= x < a + n ensures !IsFree(bs, x) { NoClash(bs, lo, hi, i, a, n, x); }
    }
  }

  lemma NoClash(bs: seq<Blk>, lo: int, hi: int, i: int, a: int, n: int, x: int)
    requires Canon(bs, lo, hi) && 0 <= i <= |bs| && !Clashes(bs, i, a, n) && a <= x < a + n
    ensures !IsFree(bs, x)
  {
    forall m | 0 <= m < |bs| ensures !Holds(bs[m], x) {
      if m < i - 1 {
        assert End(bs[m]) < bs[i - 1].addr;
      } else if m > i {
        assert End(bs[i]) < bs[m].addr;
      }
    }
  }

  predicate JoinsLeft(bs: seq<Blk>, i: int, a: int)
    requires 0 <= i <= |bs|
  {
    i > 0 && End(bs[i - 1]) == a
  }

  predicate JoinsRight(bs: seq<Blk>, i: int, a: int, n: int)
    requires 0 <= i <= |bs|
  {
    i < |bs| && a + n == bs[i].addr
  }

  /** The free list after [a, a + n) has been added between blocks i - 1 and i. */
  function Freed(bs: seq<Blk>, i: int, a: int, n: int): seq<Blk>
    requires 0 <= i <= |bs|
  {
    var left, right := JoinsLeft(bs, i, a), JoinsRight(bs, i, a, n);
    var start := if left then bs[i - 1].addr else a;
    var end := if right then End(bs[i]) else a + n;
    Splice(bs, if left then i - 1 else i, if right then i + 1 else i, Blk(start, end - start))
  }

  /** The region a with n bytes has joined the free list bs, which is now bs'. */
  ghost predicate Gave(bs: seq<Blk>, bs': seq<Blk>, lo: int, hi: int, a: int, n: int) {
    && Canon(bs', lo, hi)
    && (forall x :: IsFree(bs', x) <==> IsFree(bs, x) || a <= x < a + n)
    && Total(bs') == Total(bs) + n
  }

  lemma FreedGave(bs: seq<Blk>, lo: int, hi: int, a: int, n: int)
    requires Canon(bs, lo, hi) && lo <= a && a + n <= hi && a % 8 == 0 && n % 8 == 0 && n > 0
    requires !Clashes(bs, Below(bs, a), a, n)
    ensures Gave(bs, Freed(bs, Below(bs, a), a, n), lo, hi, a, n)
  {
    hide Canon, IsFree, Splice;
    var i := Below(bs, a);
    var left, right := JoinsLeft(bs, i, a), JoinsRight(bs, i, a, n);
    var j, k := if left then i - 1 else i, if right then i + 1 else i;
    var start := if left then bs[i - 1].addr else a;
    var end := if right then End(bs[i]) else a + n;
    var b := Blk(start, end - start);
    FreedCanon(bs, lo, hi, i, a, n, j, k, b);
    Lengths(bs, lo, hi);
    forall x ensures IsFree(Splice(bs, j, k, b), x) <==> IsFree(bs, x) || a <= x < a + n {
      SpliceFree(bs, j, k, b, x);
      FreeSplit(bs, j, k, x);
      Swallowed(bs, i, j, k, a, n, b, x);
    }
    FreedTotal(bs, i, j, k, a, n, b);
  }

  lemma Lengths(bs: seq<Blk>, lo: int, hi: int)
    requires Canon(bs, lo, hi)
    ensures forall i :: 0 <= i < |bs| ==> bs[i].len > 0
  {
  }

  ghost predicate Joined(bs: seq<Blk>, i: int, j: int, k: int, a: int, n: int, b: Blk) {
    && 0 <= j <= i <= k <= |bs| && i - 1 <= j && k <= i + 1
    && (j == i - 1 <==> i > 0 && End(bs[i - 1]) == a) && (k == i + 1 <==> i < |bs| && a + n == bs[i].addr)
    && b.addr == (if j < i then bs[j].addr else a) && End(b) == if k > i then End(bs[i]) else a + n
  }

  /** End(b) - b.addr is a multiple of 8 if both ends are. */
  lemma FineIf(b: Blk, start: int, end: int)
    requires b.addr == start && End(b) == end && start < end && start % 8 == 0 && end % 8 == 0
    ensures Fine(b)
  {
  }

  lemma FineEnds(b: Blk)
    requires Fine(b)
    ensures b.addr % 8 == 0 && End(b) % 8 == 0 && b.addr < End(b)
  {
  }

  lemma FreedCanon(bs: seq<Blk>, lo: int, hi: int, i: int, a: int, n: int, j: int, k: int, b: Blk)
    requires Canon(bs, lo, hi) && lo <= a && a + n <= hi && a % 8 == 0 && n % 8 == 0 && n > 0
    requires 0 <= i <= |bs| && !Clashes(bs, i, a, n) && Joined(bs, i, j, k, a, n, b)
    ensures Canon(Splice(bs, j, k, b), lo, hi)
  {
    hide Splice, Fine;
    assert j > 0 ==> Fine(bs[j - 1]) && (j < i ==> End(bs[j - 1]) < bs[j].addr);
    assert j < i ==> Fine(bs[j]);
    assert k > i ==> Fine(bs[i]);
    assert k < |bs| && k > i ==> End(bs[i]) < bs[k].addr;
    if j < i { FineEnds(bs[j]); }
    if k > i { FineEnds(bs[i]); }
    FineIf(b, b.addr, End(b));
    SpliceCanon(bs, j, k, b, lo, hi);
  }

  /** The new block holds the freed region and the blocks it joins, no more. */
  lemma Swallowed(bs: seq<Blk>, i: int, j: int, k: int, a: int, n: int, b: Blk, x: int)
    requires 0 <= i <= |bs| && Joined(bs, i, j, k, a, n, b) && n > 0
    requires !Clashes(bs, i, a, n) && (j < i ==> bs[j].len > 0) && (k > i ==> bs[i].len > 0)
    ensures Holds(b, x) <==> FreeIn(bs, j, k, x) || a <= x < a + n
  {
    assert j < i ==> (Holds(bs[j], x) <==> bs[j].addr <= x < a);
    assert k > i ==> (Holds(bs[i], x) <==> a + n <= x < End(bs[i]));
    if Holds(b, x) && !(a <= x < a + n) {
      if x < a { assert Holds(bs[j], x); } else { assert Holds(bs[i], x); }
    }
  }

  lemma FreedTotal(bs: seq<Blk>, i: int, j: int, k: int, a: int, n: int, b: Blk)
    requires 0 <= i <= |bs| && Joined(bs, i, j, k, a, n, b)
    ensures Total(Splice(bs, j, k, b)) == Total(bs) + n
  {
    TotalSplice(bs, j, k, b);
    TotalConcat(bs[j..i], bs[i..k]);
    assert bs[j..i] + bs[i..k] == bs[j..k];
    if j < i { assert bs[j..i] == [bs[j]]; TotalOne(bs[j]); } else { assert bs[j..i] == []; }
    if k > i { assert bs[i..k] == [bs[i]]; TotalOne(bs[i]); } else { assert bs[i..k] == []; }
  }

  // --------------------------------------------------------- taking it back

  /** What is taken and then freed leaves no trace. */
  lemma TakeFree(bs: seq<Blk>, bs': seq<Blk>, lo: int, hi: int, a: int, n: int)
    requires Canon(bs, lo, hi) && Took(bs, bs', lo, hi, a, n) && n > 0
    ensures !Clashes(bs', Below(bs', a), a, n) && Freed(bs', Below(bs', a), a, n) == bs
  {
    hide Canon, IsFree, Freed, Below, Clashes;
    ClashIffOverlap(bs', lo, hi, a, n);
    FreedGave(bs', lo, hi, a, n);
    CanonUnique(Freed(bs', Below(bs', a), a, n), bs, lo, hi);
  }
}
