// The allocator as the kernel runs it: block headers in memory, linked through
// their mnext fields, walked and relinked in place.
module Heap {
  import opened HeapModel
  import HeapRuns

  const NULL := 0

  /** Where memlist stands in for a block header; apart from all heap addresses. */
  const MEMLIST := -8

  const SYSERR := 0xFFFF_FFFF

  datatype Memblk = Memblk(mnext: int, mlength: int)

  // ------------------------------------------------ the list in memory

  /** Header i on the way from memlist, and the address of the block behind it. */
  function Node(bs: seq<Blk>, i: int): int
    requires 0 <= i <= |bs|
  {
    if i == 0 then MEMLIST else bs[i - 1].addr
  }

  function Next(bs: seq<Blk>, i: int): int
    requires 0 <= i <= |bs|
  {
    if i == |bs| then NULL else bs[i].addr
  }

  ghost predicate HeaderAt(mem: map<int, Memblk>, bs: seq<Blk>, i: int)
    requires 0 <= i <= |bs|
  {
    && Node(bs, i) in mem && mem[Node(bs, i)].mnext == Next(bs, i)
    && (i > 0 ==> mem[Node(bs, i)].mlength == bs[i - 1].len)
  }

  ghost predicate Linked(mem: map<int, Memblk>, bs: seq<Blk>) {
    forall i :: 0 <= i <= |bs| ==> HeaderAt(mem, bs, i)
  }

  ghost predicate Ascending(bs: seq<Blk>) {
    && (forall i :: 0 <= i < |bs| ==> bs[i].addr > 0)
    && (forall i, j :: 0 <= i < j < |bs| ==> bs[i].addr < bs[j].addr)
  }

  lemma CanonAscends(bs: seq<Blk>, lo: int, hi: int)
    requires Canon(bs, lo, hi) && lo > 0
    ensures Ascending(bs)
  {
  }

  /** The writes that put b in place of blocks j to k - 1. */
  ghost predicate Wrote(mem: map<int, Memblk>, mem': map<int, Memblk>, bs: seq<Blk>, j: int, k: int, b: Blk)
    requires 0 <= j <= k <= |bs|
  {
    && b.addr in mem' && mem'[b.addr] == Memblk(Next(bs, k), b.len)
    && Node(bs, j) in mem' && mem'[Node(bs, j)].mnext == b.addr
    && (j > 0 ==> Node(bs, j) in mem && mem'[Node(bs, j)].mlength == mem[Node(bs, j)].mlength)
    && (forall x :: x in mem && x != b.addr && x != Node(bs, j) && x != MEMLIST ==> x in mem' && mem'[x] == mem[x])
    && (j > 0 ==> MEMLIST in mem && MEMLIST in mem' && mem'[MEMLIST].mnext == mem[MEMLIST].mnext)
  }

  lemma NodeSplice(bs: seq<Blk>, j: int, k: int, b: Blk, m: int)
    requires 0 <= j <= k <= |bs| && 0 <= m <= |bs| - (k - j) + 1
    ensures var r, m' := Splice(bs, j, k, b), m - 1 + (k - j);
            && m <= |r|
            && Node(r, m) == (if m <= j then Node(bs, m) else if m == j + 1 then b.addr else Node(bs, m'))
            && Next(r, m) == if m < j then Next(bs, m) else if m == j then b.addr else Next(bs, m')
  {
    SpliceAt(bs, j, k, b);
  }

  /** A header that the splice leaves in the list is where it was. */
  lemma OldNode(bs: seq<Blk>, j: int, k: int, b: Blk, m: int)
    requires Ascending(bs) && 0 <= j <= k <= |bs| && Ascending(Splice(bs, j, k, b)) && 0 < m <= |bs| && (m < j || m > k)
    ensures Node(bs, m) != b.addr && Node(bs, m) != Node(bs, j) && Node(bs, m) != MEMLIST
  {
    var r := Splice(bs, j, k, b);
    assert r[j] == b;
    assert r[if m < j then m - 1 else m - (k - j)] == bs[m - 1];
  }

  lemma SpliceHeader(mem: map<int, Memblk>, mem': map<int, Memblk>, bs: seq<Blk>, j: int, k: int, b: Blk, m: int)
    requires Linked(mem, bs) && Ascending(bs) && 0 <= j <= k <= |bs| && Ascending(Splice(bs, j, k, b))
    requires Wrote(mem, mem', bs, j, k, b) && 0 <= m <= |bs| - (k - j) + 1 == |Splice(bs, j, k, b)|
    ensures HeaderAt(mem', Splice(bs, j, k, b), m)
  {
    hide Ascending;
    NodeSplice(bs, j, k, b, m);
    SpliceAt(bs, j, k, b);
    if m <= j {
      Header(mem, bs, m);
      if 0 < m < j { OldNode(bs, j, k, b, m); }
    } else if m > j + 1 {
      Header(mem, bs, m - 1 + (k - j));
      OldNode(bs, j, k, b, m - 1 + (k - j));
    }
  }

  lemma LinkSplice(mem: map<int, Memblk>, mem': map<int, Memblk>, bs: seq<Blk>, j: int, k: int, b: Blk)
    requires Linked(mem, bs) && Ascending(bs) && 0 <= j <= k <= |bs| && Ascending(Splice(bs, j, k, b))
    requires Wrote(mem, mem', bs, j, k, b)
    ensures Linked(mem', Splice(bs, j, k, b))
  {
    hide Ascending, HeaderAt, Wrote;
    SpliceAt(bs, j, k, b);
    var r := Splice(bs, j, k, b);
    forall m | 0 <= m <= |r| ensures HeaderAt(mem', r, m) { SpliceHeader(mem, mem', bs, j, k, b, m); }
  }

  lemma LinkCut(mem: map<int, Memblk>, mem': map<int, Memblk>, bs: seq<Blk>, i: int)
    requires Linked(mem, bs) && Ascending(bs) && 0 <= i < |bs|
    requires Node(bs, i) in mem && mem' == mem[Node(bs, i) := mem[Node(bs, i)].(mnext := Next(bs, i + 1))]
    ensures Linked(mem', Cut(bs, i))
  {
    var r := Cut(bs, i);
    assert forall m :: 0 <= m < |r| ==> r[m] == if m < i then bs[m] else bs[m + 1];
    hide Cut;
    forall m | 0 <= m <= |r| ensures HeaderAt(mem', r, m) {
      if m <= i { assert HeaderAt(mem, bs, m); } else { assert HeaderAt(mem, bs, m + 1); }
    }
  }

  /** The length kept in memlist is no part of the list. */
  lemma LinkTotal(mem: map<int, Memblk>, bs: seq<Blk>, n: int)
    requires Linked(mem, bs) && Ascending(bs) && MEMLIST in mem
    ensures Linked(mem[MEMLIST := mem[MEMLIST].(mlength := n)], bs)
  {
    var mem' := mem[MEMLIST := mem[MEMLIST].(mlength := n)];
    forall i | 0 <= i <= |bs| ensures HeaderAt(mem', bs, i) { assert HeaderAt(mem, bs, i); }
  }

  lemma Header(mem: map<int, Memblk>, bs: seq<Blk>, i: int)
    requires Linked(mem, bs) && 0 <= i <= |bs|
    ensures HeaderAt(mem, bs, i)
  {
  }

  // ----------------------------------------------------- 32-bit arithmetic

  /** memlist.mlength, which starts at zero: the change in free bytes, modulo 2^32. */
  function Change(bs: seq<Blk>, lo: int, hi: int): int { (Total(bs) - (hi - lo)) % M32 }

  lemma ChangeBy(x: int, n: int)
    ensures (x % M32 + n) % M32 == (x + n) % M32
  {
  }

  class Memory {
    const minheap: int
    const maxheap: int
    var mem: map<int, Memblk>
    ghost var blocks: seq<Blk>

    ghost predicate Valid()
      reads this
    {
      && 0 < minheap < maxheap < M32 && minheap % 8 == 0 && maxheap % 8 == 0
      && Canon(blocks, minheap, maxheap) && Linked(mem, blocks) && MEMLIST in mem
      && mem[MEMLIST].mlength == Change(blocks, minheap, maxheap)
    }

    /** meminit */
    constructor (lo: int, hi: int)
      requires 0 < lo < hi < M32 && lo % 8 == 0 && hi % 8 == 0
      ensures Valid() && minheap == lo && maxheap == hi && blocks == [Blk(lo, hi - lo)]
    {
      minheap, maxheap := lo, hi;
      mem := map[MEMLIST := Memblk(lo, 0), lo := Memblk(NULL, hi - lo)];
      blocks := [Blk(lo, hi - lo)];
      TotalOne(Blk(lo, hi - lo));
    }

    method SetNext(p: int, next: int)
      requires p in mem
      modifies this`mem
      ensures mem == old(mem)[p := old(mem)[p].(mnext := next)]
    {
      mem := mem[p := mem[p].(mnext := next)];
    }

    method SetLength(p: int, len: int)
      requires p in mem
      modifies this`mem
      ensures mem == old(mem)[p := old(mem)[p].(mlength := len)]
    {
      mem := mem[p := mem[p].(mlength := len)];
    }

    /** Takes block i out of the list and n bytes off the total. */
    method Unlink(prev: int, curr: int, n: int, ghost i: int)
      requires Valid() && 0 <= i < |blocks| && n == blocks[i].len && prev == Node(blocks, i) && curr == blocks[i].addr
      modifies this
      ensures Valid() && blocks == old(Cut(blocks, i))
    {
      hide Canon, Total;
      ghost var bs, m := blocks, mem;
      CanonAscends(bs, minheap, maxheap);
      Header(mem, bs, i);
      Header(mem, bs, i + 1);
      SetNext(prev, mem[curr].mnext);
      LinkCut(m, mem, bs, i);
      CutCanon(bs, i, minheap, maxheap);
      CanonAscends(Cut(bs, i), minheap, maxheap);
      TotalCut(bs, i);
      blocks := Cut(bs, i);
      Account(-n);
    }

    /** memlist.mlength += n */
    method Account(n: int)
      requires 0 < minheap < maxheap < M32 && minheap % 8 == 0 && maxheap % 8 == 0
      requires Canon(blocks, minheap, maxheap) && Linked(mem, blocks) && MEMLIST in mem
      requires mem[MEMLIST].mlength == (Total(blocks) - n - (maxheap - minheap)) % M32
      modifies this`mem
      ensures Valid()
    {
      hide Canon, Linked;
      CanonAscends(blocks, minheap, maxheap);
      LinkTotal(mem, blocks, (mem[MEMLIST].mlength + n) % M32);
      ChangeBy(Total(blocks) - n - (maxheap - minheap), n);
      SetLength(MEMLIST, (mem[MEMLIST].mlength + n) % M32);
    }

    /** getmem: the lowest address of a region, or SYSERR. */
    method GetMem(nbytes: int) returns (a: int)
      requires Valid() && 0 <= nbytes < M32
      modifies this
      ensures Valid()
      ensures var bs, n := old(blocks), Round(nbytes);
              var i := FirstFit(bs, n);
              if nbytes == 0 || i == |bs| then a == SYSERR && blocks == bs
              else a == bs[i].addr && blocks == TakeLow(bs, i, n)
    {
      hide Canon, Total, FirstFit, Round, TakeLow, Splice, Cut;
      if nbytes == 0 {
        return SYSERR;
      }
      var n := Round(nbytes);
      ghost var bs, i := blocks, 0;
      Header(mem, bs, 0);
      CanonAscends(bs, minheap, maxheap);
      var prev, curr := MEMLIST, mem[MEMLIST].mnext;
      while curr != NULL
        invariant 0 <= i <= |bs| && prev == Node(bs, i) && curr == Next(bs, i) && Valid() && blocks == bs
        invariant forall j :: 0 <= j < i ==> bs[j].len < n
        decreases |bs| - i
      {
        Header(mem, bs, i + 1);
        if mem[curr].mlength == n {
          FitIs(bs, n, i);
          TakeLowIs(bs, i, n);
          Unlink(prev, curr, n, i);
          return curr;
        } else if mem[curr].mlength > n {
          FitIs(bs, n, i);
          TakeLowIs(bs, i, n);
          Split(prev, curr, n, i);
          return curr;
        }
        prev := curr;
        curr := mem[curr].mnext;
        i := i + 1;
      }
      return SYSERR;
    }

    /** The rest of block i stays, with its header n bytes further up. */
    method Split(prev: int, curr: int, n: int, ghost i: int)
      requires Valid() && 0 <= i < |blocks| && 0 <= n < blocks[i].len && n % 8 == 0
      requires prev == Node(blocks, i) && curr == blocks[i].addr
      modifies this
      ensures Valid() && blocks == old(Splice(blocks, i, i + 1, Blk(blocks[i].addr + n, blocks[i].len - n)))
    {
      hide Total, Splice;
      ghost var bs, m := blocks, mem;
      ghost var rest := Blk(bs[i].addr + n, bs[i].len - n);
      CanonAscends(bs, minheap, maxheap);
      Header(mem, bs, i);
      Header(mem, bs, i + 1);
      StillFine(bs[i], n);
      SplitCanon(bs, minheap, maxheap, i, rest);
      CanonAscends(Splice(bs, i, i + 1, rest), minheap, maxheap);
      var leftover := curr + n;
      var next, len := mem[curr].mnext, mem[curr].mlength;
      SetNext(prev, leftover);
      mem := mem[leftover := Memblk(next, len - n)];
      LinkSplice(m, mem, bs, i, i + 1, rest);
      ReplaceTotal(bs, i, rest);
      blocks := Splice(bs, i, i + 1, rest);
      Account(-n);
    }

    /** getstk: the highest word address of a region, or SYSERR. */
    method GetStk(nbytes: int) returns (a: int)
      requires Valid() && 0 <= nbytes < M32
      modifies this
      ensures Valid()
      ensures var bs, n := old(blocks), Round(nbytes);
              var i := LastFit(bs, n);
              if nbytes == 0 || i < 0 then a == SYSERR && blocks == bs
              else a == End(bs[i]) - 4 && blocks == TakeHigh(bs, i, n)
    {
      hide Canon, Total, Linked, LastFit, Round;
      if nbytes == 0 {
        return SYSERR;
      }
      var n := Round(nbytes);
      var fits, fitsprev; ghost var f;
      fits, fitsprev, f := FindLast(n);
      if fits == NULL {
        return SYSERR;
      }
      Header(mem, blocks, f + 1);
      var len := mem[fits].mlength;
      if n == len {
        Unlink(fitsprev, fits, n, f);
      } else {
        Shrink(fits, n, f);
        fits := fits + (len - n);
      }
      return fits + n - 4;
    }

    /** The scan of getstk: the last block that fits and the one before it. */
    method FindLast(n: int) returns (fits: int, fitsprev: int, ghost f: int)
      requires Valid()
      ensures f == LastFit(blocks, n)
      ensures if f < 0 then fits == NULL else fits == blocks[f].addr && fitsprev == Node(blocks, f) && fits > 0
    {
      hide Canon, Total;
      ghost var bs, i := blocks, 0;
      Header(mem, bs, 0);
      CanonAscends(bs, minheap, maxheap);
      var prev, curr := MEMLIST, mem[MEMLIST].mnext;
      fits, fitsprev, f := NULL, NULL, -1;
      while curr != NULL
        invariant 0 <= i <= |bs| && prev == Node(bs, i) && curr == Next(bs, i)
        invariant -1 <= f < i && (f >= 0 ==> bs[f].len >= n) && forall j :: f < j < i ==> bs[j].len < n
        invariant if f < 0 then fits == NULL else fits == bs[f].addr && fitsprev == Node(bs, f)
        decreases |bs| - i
      {
        Header(mem, bs, i + 1);
        if mem[curr].mlength >= n {
          fits, fitsprev, f := curr, prev, i;
        }
        prev := curr;
        curr := mem[curr].mnext;
        i := i + 1;
      }
      LastIs(bs, n, f);
    }

    /** The rest of block i stays where it is, n bytes shorter. */
    method Shrink(curr: int, n: int, ghost i: int)
      requires Valid() && 0 <= i < |blocks| && 0 <= n < blocks[i].len && n % 8 == 0 && curr == blocks[i].addr
      modifies this
      ensures Valid() && blocks == old(Splice(blocks, i, i + 1, Blk(blocks[i].addr, blocks[i].len - n)))
    {
      hide Total, Splice;
      ghost var bs, m := blocks, mem;
      ghost var rest := Blk(bs[i].addr, bs[i].len - n);
      CanonAscends(bs, minheap, maxheap);
      Header(mem, bs, i);
      Header(mem, bs, i + 1);
      StillFine(bs[i], n);
      SplitCanon(bs, minheap, maxheap, i, rest);
      CanonAscends(Splice(bs, i, i + 1, rest), minheap, maxheap);
      SetLength(curr, mem[curr].mlength - n);
      LinkSplice(m, mem, bs, i, i + 1, rest);
      ReplaceTotal(bs, i, rest);
      blocks := Splice(bs, i, i + 1, rest);
      Account(-n);
    }

    /** The walk of freemem to the first block at or above a. */
    method FindPlace(a: int) returns (prev: int, next: int, ghost i: int)
      requires Valid()
      ensures 0 <= i <= |blocks| && i == Below(blocks, a) && prev == Node(blocks, i) && next == Next(blocks, i)
    {
      hide Canon, Total;
      ghost var bs := blocks;
      Header(mem, bs, 0);
      CanonAscends(bs, minheap, maxheap);
      prev, next, i := MEMLIST, mem[MEMLIST].mnext, 0;
      while next != NULL && next < a
        invariant 0 <= i <= |bs| && prev == Node(bs, i) && next == Next(bs, i) && forall j :: 0 <= j < i ==> bs[j].addr < a
        decreases |bs| - i
      {
        Header(mem, bs, i + 1);
        prev := next;
        next := mem[next].mnext;
        i := i + 1;
      }
      PlaceIs(bs, a, i);
    }

    /** freemem: false for an address outside the heap, for no bytes at all and
        for a region that overlaps free memory.  Other regions that callers free
        lie in the heap, aligned as getmem and getstk hand them out. */
    method FreeMem(blkaddr: int, nbytes: int) returns (ok: bool)
      requires Valid() && 0 <= nbytes < M32 && 0 <= blkaddr < M32
      requires nbytes != 0 && minheap <= blkaddr <= maxheap ==>
                 && 0 < Round(nbytes) && blkaddr + Round(nbytes) <= M32
                 && (Clashes(blocks, Below(blocks, blkaddr), blkaddr, Round(nbytes))
                     || (blkaddr % 8 == 0 && blkaddr + Round(nbytes) <= maxheap))
      modifies this
      ensures Valid()
      ensures ok <==> nbytes != 0 && minheap <= blkaddr <= maxheap
                      && forall x :: blkaddr <= x < blkaddr + Round(nbytes) ==> !IsFree(old(blocks), x)
      ensures blocks == if ok then old(Freed(blocks, Below(blocks, blkaddr), blkaddr, Round(nbytes))) else old(blocks)
    {
      hide Canon, Total, IsFree, Freed, Below;
      if nbytes == 0 || blkaddr < minheap || blkaddr > maxheap {
        return false;
      }
      var n := Round(nbytes);
      var prev, next; ghost var i;
      prev, next, i := FindPlace(blkaddr);
      ghost var bs := blocks;
      Header(mem, bs, i);
      CanonAscends(bs, minheap, maxheap);
      ClashIffOverlap(bs, minheap, maxheap, blkaddr, n);
      var top := if prev == MEMLIST then NULL else prev + mem[prev].mlength;
      if (prev != MEMLIST && blkaddr < top) || (next != NULL && blkaddr + n > next) {
        return false;
      }
      FreedGave(bs, minheap, maxheap, blkaddr, n);
      if top == blkaddr {
        JoinPrev(prev, blkaddr, n, i);
        JoinNext(prev, next, blkaddr, n, i, i - 1, bs);
      } else {
        LinkNew(prev, next, blkaddr, n, i);
        JoinNext(blkaddr, next, blkaddr, n, i, i, bs);
      }
      return true;
    }

    /** Linked but perhaps not yet coalesced; the total is not yet adjusted. */
    ghost predicate Half(bs: seq<Blk>)
      reads this
    {
      && 0 < minheap < maxheap < M32 && minheap % 8 == 0 && maxheap % 8 == 0
      && Ascending(blocks) && Linked(mem, blocks) && MEMLIST in mem
      && mem[MEMLIST].mlength == Change(bs, minheap, maxheap)
    }

    method JoinPrev(prev: int, a: int, n: int, ghost i: int)
      requires Valid() && 0 < i <= |blocks| && prev == blocks[i - 1].addr && End(blocks[i - 1]) == a && n > 0
      modifies this
      ensures Half(old(blocks)) && blocks == old(Splice(blocks, i - 1, i, Blk(prev, blocks[i - 1].len + n)))
    {
      hide Total, Splice, Canon;
      ghost var bs, m := blocks, mem;
      CanonAscends(bs, minheap, maxheap);
      Header(mem, bs, i - 1);
      Header(mem, bs, i);
      ghost var b := Blk(prev, bs[i - 1].len + n);
      SameAscends(bs, i - 1, b);
      SetLength(prev, mem[prev].mlength + n);
      LinkSplice(m, mem, bs, i - 1, i, b);
      blocks := Splice(bs, i - 1, i, b);
    }

    method LinkNew(prev: int, next: int, a: int, n: int, ghost i: int)
      requires Valid() && 0 <= i <= |blocks| && prev == Node(blocks, i) && next == Next(blocks, i) && n > 0 && minheap <= a
      requires (i > 0 ==> blocks[i - 1].addr < a) && (i < |blocks| ==> a < blocks[i].addr)
      modifies this
      ensures Half(old(blocks)) && blocks == old(Splice(blocks, i, i, Blk(a, n)))
    {
      hide Total, Splice, Canon;
      ghost var bs, m := blocks, mem;
      CanonAscends(bs, minheap, maxheap);
      Header(mem, bs, i);
      NewAscends(bs, i, Blk(a, n));
      mem := mem[a := Memblk(next, n)];
      SetNext(prev, a);
      LinkSplice(m, mem, bs, i, i, Blk(a, n));
      blocks := Splice(bs, i, i, Blk(a, n));
    }

    /** The end of freemem: the new block, at position p, joins the next one if
        they touch, and the total is adjusted. */
    method JoinNext(block: int, next: int, ghost a: int, n: int, ghost i: int, ghost p: int, ghost bs: seq<Blk>)
      requires 0 <= i <= |bs| && Half(bs) && Canon(bs, minheap, maxheap) && next == Next(bs, i) && n > 0 && minheap <= a
      requires p == (if JoinsLeft(bs, i, a) then i - 1 else i)
      requires blocks == Splice(bs, p, i, Blk(block, a + n - block)) && (if p < i then block == bs[p].addr else block == a)
      requires Gave(bs, Freed(bs, i, a, n), minheap, maxheap, a, n)
      modifies this
      ensures Valid() && blocks == Freed(bs, i, a, n)
    {
      hide Total, Canon, Splice, Gave;
      ghost var b1, m := blocks, mem;
      SpliceAt(bs, p, i, Blk(block, a + n - block));
      Header(mem, b1, p + 1);
      GaveFacts(bs, Freed(bs, i, a, n), minheap, maxheap, a, n);
      if block + mem[block].mlength == next {
        CanonAscends(bs, minheap, maxheap);
        Header(mem, b1, p);
        Header(mem, b1, p + 2);
        ghost var b := Blk(block, b1[p].len + b1[p + 1].len);
        FreedBoth(bs, i, p, a, n, block);
        CanonAscends(Freed(bs, i, a, n), minheap, maxheap);
        SetLength(block, mem[block].mlength + mem[next].mlength);
        SetNext(block, mem[next].mnext);
        LinkSplice(m, mem, b1, p, p + 2, b);
        blocks := Splice(b1, p, p + 2, b);
      }
      Account(n);
    }

    /** freestk */
    method FreeStk(p: int, len: int) returns (ok: bool)
      requires Valid() && 0 <= len < M32 && 0 <= p < M32
      requires var a, n := (p - Round(len) + 4) % M32, Round(len);
               n != 0 && minheap <= a <= maxheap ==>
                 a + n <= M32 && (Clashes(blocks, Below(blocks, a), a, n) || (a % 8 == 0 && a + n <= maxheap))
      modifies this
      ensures Valid()
      ensures var a, n := (p - Round(len) + 4) % M32, Round(len);
              && (ok <==> n != 0 && minheap <= a <= maxheap && forall x :: a <= x < a + n ==> !IsFree(old(blocks), x))
              && blocks == if ok then old(Freed(blocks, Below(blocks, a), a, n)) else old(blocks)
    {
      RoundTwice(len);
      ok := FreeMem((p - Round(len) + 4) % M32, Round(len));
    }

    /** One call of a run; live are the regions handed out so far. */
    method Call(op: HeapRuns.Op, ghost live: seq<Blk>) returns (ghost live': seq<Blk>)
      requires Valid() && Addressable(op) && HeapRuns.Partition(HeapRuns.Hs(blocks, live), minheap, maxheap)
      requires HeapRuns.Allowed(HeapRuns.Hs(blocks, live), op)
      modifies this
      ensures Valid() && HeapRuns.Hs(blocks, live') == HeapRuns.Step(HeapRuns.Hs(old(blocks), live), op)
    {
      hide Canon, Total, Linked, Round, FirstFit, LastFit, TakeLow, TakeHigh, Freed, Clashes, Below, IsFree, HeapRuns.Partition;
      ghost var h := HeapRuns.Hs(blocks, live);
      live' := HeapRuns.Step(h, op).live;
      match op
      case GetMem(n) =>
        var a := GetMem(n);
      case GetStk(n) =>
        var a := GetStk(n);
      case FreeMem(a, n) =>
        RoundCovers(n);
        OverlapIs(blocks, minheap, maxheap, a, Round(n));
        if !Clashes(blocks, Below(blocks, a), a, Round(n)) { LiveFits(h, minheap, maxheap, Blk(a, Round(n))); }
        var ok := FreeMem(a, n);
    }

    /** Any run of calls: the headers in memory go through the run of the value
        model, so live regions never overlap, and when all of them have been freed
        the list is the single block it started as. */
    method Run(ops: seq<HeapRuns.Op>) returns (ghost live: seq<Blk>)
      requires Valid() && blocks == [Blk(minheap, maxheap - minheap)]
      requires HeapRuns.CanRun(HeapRuns.Hs(blocks, []), ops) && forall i :: 0 <= i < |ops| ==> Addressable(ops[i])
      modifies this
      ensures Valid() && HeapRuns.Hs(blocks, live) == HeapRuns.Run(HeapRuns.Hs(old(blocks), []), ops)
      ensures HeapRuns.Partition(HeapRuns.Hs(blocks, live), minheap, maxheap)
      ensures live == [] ==> blocks == [Blk(minheap, maxheap - minheap)]
    {
      hide Canon, Total, Linked, HeapRuns.Partition, HeapRuns.Step, HeapRuns.Allowed;
      ghost var h0 := HeapRuns.Hs(blocks, []);
      HeapRuns.FreshPartition(minheap, maxheap);
      HeapRuns.RunSafety(minheap, maxheap, ops);
      live := [];
      assert ops[0..] == ops;
      for i := 0 to |ops|
        invariant Valid() && HeapRuns.Partition(HeapRuns.Hs(blocks, live), minheap, maxheap)
        invariant HeapRuns.CanRun(HeapRuns.Hs(blocks, live), ops[i..])
        invariant HeapRuns.Run(h0, ops) == HeapRuns.Run(HeapRuns.Hs(blocks, live), ops[i..])
      {
        ghost var h := HeapRuns.Hs(blocks, live);
        assert ops[i..][0] == ops[i] && ops[i..][1..] == ops[i + 1..];
        HeapRuns.StepKeeps(h, ops[i], minheap, maxheap);
        live := Call(ops[i], live);
      }
      assert ops[|ops|..] == [];
    }
  }

  /** A region below 2^32, as 32-bit arithmetic has it. */
  predicate Addressable(op: HeapRuns.Op) {
    match op
    case GetMem(n) => 0 <= n < M32
    case GetStk(n) => 0 <= n < M32
    case FreeMem(a, n) => 0 <= a < M32 && 0 <= n < M32 && a + Round(n) <= M32
  }

  lemma LiveFits(h: HeapRuns.Hs, lo: int, hi: int, b: Blk)
    requires HeapRuns.Partition(h, lo, hi) && b in h.live
    ensures b.addr % 8 == 0 && lo <= b.addr && End(b) <= hi && b.len > 0
  {
    hide Canon, IsFree;
    var i :| 0 <= i < |h.live| && h.live[i] == b;
    assert Fine(h.live[i]);
  }

  lemma OverlapIs(bs: seq<Blk>, lo: int, hi: int, a: int, n: int)
    requires Canon(bs, lo, hi) && n > 0
    ensures Clashes(bs, Below(bs, a), a, n) <==> !(forall x :: a <= x < a + n ==> !IsFree(bs, x))
  {
    hide Canon, IsFree, Clashes, Below;
    ClashIffOverlap(bs, lo, hi, a, n);
  }

  lemma TakeLowIs(bs: seq<Blk>, i: int, n: int)
    requires 0 <= i < |bs|
    ensures TakeLow(bs, i, n) ==
            if bs[i].len == n then Cut(bs, i) else Splice(bs, i, i + 1, Blk(bs[i].addr + n, bs[i].len - n))
  {
  }

  lemma FitIs(bs: seq<Blk>, n: int, i: int)
    requires 0 <= i < |bs| && bs[i].len >= n && forall j :: 0 <= j < i ==> bs[j].len < n
    ensures FirstFit(bs, n) == i
  {
  }

  lemma LastIs(bs: seq<Blk>, n: int, i: int)
    requires -1 <= i < |bs| && (i >= 0 ==> bs[i].len >= n) && forall j :: i < j < |bs| ==> bs[j].len < n
    ensures LastFit(bs, n) == i
  {
  }

  lemma StillFine(b: Blk, n: int)
    requires Fine(b) && 0 <= n < b.len && n % 8 == 0
    ensures Fine(Blk(b.addr + n, b.len - n)) && Fine(Blk(b.addr, b.len - n))
  {
  }

  lemma SplitCanon(bs: seq<Blk>, lo: int, hi: int, i: int, rest: Blk)
    requires Canon(bs, lo, hi) && 0 <= i < |bs| && bs[i].addr <= rest.addr && End(rest) <= End(bs[i])
    requires Fine(rest)
    ensures Canon(Splice(bs, i, i + 1, rest), lo, hi)
  {
    hide Splice, Fine;
    SpliceCanon(bs, i, i + 1, rest, lo, hi);
  }

  lemma ReplaceTotal(bs: seq<Blk>, i: int, b: Blk)
    requires 0 <= i < |bs|
    ensures Total(Splice(bs, i, i + 1, b)) == Total(bs) - bs[i].len + b.len
  {
    TotalSplice(bs, i, i + 1, b);
    assert bs[i..i + 1] == [bs[i]];
    TotalOne(bs[i]);
  }

  lemma PlaceIs(bs: seq<Blk>, a: int, i: int)
    requires 0 <= i <= |bs| && (forall j :: 0 <= j < i ==> bs[j].addr < a) && (i < |bs| ==> bs[i].addr >= a)
    ensures Below(bs, a) == i
  {
  }

  lemma SameAscends(bs: seq<Blk>, i: int, b: Blk)
    requires Ascending(bs) && 0 <= i < |bs| && b.addr == bs[i].addr
    ensures Ascending(Splice(bs, i, i + 1, b))
  {
    SpliceAt(bs, i, i + 1, b);
  }

  lemma NewAscends(bs: seq<Blk>, i: int, b: Blk)
    requires Ascending(bs) && 0 <= i <= |bs| && 0 < b.addr
    requires (i > 0 ==> bs[i - 1].addr < b.addr) && (i < |bs| ==> b.addr < bs[i].addr)
    ensures Ascending(Splice(bs, i, i, b))
  {
    SpliceAt(bs, i, i, b);
  }

  lemma GaveFacts(bs: seq<Blk>, bs': seq<Blk>, lo: int, hi: int, a: int, n: int)
    requires Gave(bs, bs', lo, hi, a, n)
    ensures Canon(bs', lo, hi) && Total(bs') == Total(bs) + n
  {
  }

  /** Coalescing to the right after the block is in place gives Freed. */
  lemma FreedBoth(bs: seq<Blk>, i: int, p: int, a: int, n: int, block: int)
    requires 0 <= i < |bs| && JoinsRight(bs, i, a, n) && p == (if JoinsLeft(bs, i, a) then i - 1 else i)
    requires if p < i then block == bs[p].addr else block == a
    ensures var b1 := Splice(bs, p, i, Blk(block, a + n - block));
            && p + 2 <= |b1| && b1[p] == Blk(block, a + n - block) && b1[p + 1] == bs[i]
            && Splice(b1, p, p + 2, Blk(block, b1[p].len + b1[p + 1].len)) == Freed(bs, i, a, n)
  {
    SpliceAt(bs, p, i, Blk(block, a + n - block));
    var b1 := Splice(bs, p, i, Blk(block, a + n - block));
    assert b1[..p] == bs[..p];
    assert b1[p + 2..] == bs[i + 1..];
  }

  lemma RoundTwice(n: int)
    requires 0 <= n < M32
    ensures Round(Round(n)) == Round(n)
  {
  }

  // -------------------------------------------------- what callers rely on

  /** A stack that is freed leaves the free list as it was. */
  lemma StackRoundTrip(bs: seq<Blk>, lo: int, hi: int, n: int)
    requires Canon(bs, lo, hi) && 0 < lo <= hi < M32 && 0 < n <= 0xFFFF_FFF8 && LastFit(bs, Round(n)) >= 0
    ensures var i, r := LastFit(bs, Round(n)), Round(n);
            var p := End(bs[i]) - 4;
            var a := (p - r + 4) % M32;
            var bs' := TakeHigh(bs, i, r);
            && a == End(bs[i]) - r && lo <= a && a + r <= hi
            && !Clashes(bs', Below(bs', a), a, r) && Freed(bs', Below(bs', a), a, r) == bs
  {
    hide Round, Canon, TakeHigh, Freed, Clashes, Below, IsFree, LastFit, Total;
    RoundCovers(n);
    var i, r := LastFit(bs, Round(n)), Round(n);
    TakeHighTook(bs, i, r, lo, hi);
    InHeap(End(bs[i]) - r, r, hi);
    TakeFree(bs, TakeHigh(bs, i, r), lo, hi, End(bs[i]) - r, r);
  }

  lemma InHeap(a: int, n: int, hi: int)
    requires 0 <= a && 0 <= n && a + n <= hi < M32
    ensures (a + n - 4 - n + 4) % M32 == a
  {
  }

  /** The region at a, of n bytes, is no longer free. */
  ghost predicate Delivers(bs': seq<Blk>, a: int, n: int) { forall x :: a <= x < a + n ==> !IsFree(bs', x) }

  /** A request that wraps around to zero takes nothing off the list. */
  lemma NothingTaken(bs: seq<Blk>, i: int, lo: int, hi: int)
    requires Canon(bs, lo, hi) && 0 <= i < |bs|
    ensures TakeLow(bs, i, 0) == bs && TakeHigh(bs, i, 0) == bs
    ensures IsFree(bs, bs[i].addr) && IsFree(bs, End(bs[i]) - 1)
  {
    assert Holds(bs[i], bs[i].addr) && Holds(bs[i], End(bs[i]) - 1);
  }

  /** A successful getmem hands out memory that is no longer free exactly if the
      request can be rounded up without wrapping around. */
  lemma GetMemDelivers(bs: seq<Blk>, lo: int, hi: int, n: int)
    requires Canon(bs, lo, hi) && 0 < n < M32 && FirstFit(bs, Round(n)) < |bs|
    ensures var i := FirstFit(bs, Round(n)); Delivers(TakeLow(bs, i, Round(n)), bs[i].addr, n) <==> n <= 0xFFFF_FFF8
  {
    hide Round, Canon, TakeLow, IsFree, FirstFit, Total;
    RoundCovers(n);
    var i := FirstFit(bs, Round(n));
    if n <= 0xFFFF_FFF8 {
      TakeLowTook(bs, i, Round(n), lo, hi);
    } else {
      NothingTaken(bs, i, lo, hi);
    }
  }

  /** A request for 0xFFFFFFFF bytes takes nothing and hands out free memory. */
  lemma GetMemWraps()
    ensures var bs := [Blk(8, 16)];
            && Canon(bs, 8, 24) && FirstFit(bs, Round(0xFFFF_FFFF)) == 0 && LastFit(bs, Round(0xFFFF_FFFF)) == 0
            && TakeLow(bs, 0, Round(0xFFFF_FFFF)) == TakeHigh(bs, 0, Round(0xFFFF_FFFF)) == bs && IsFree(bs, 8) && IsFree(bs, 23)
  {
    var bs := [Blk(8, 16)];
    assert Round(0xFFFF_FFFF) == 0;
    assert Canon(bs, 8, 24);
    NothingTaken(bs, 0, 8, 24);
  }

  /** The same for getstk, whose region ends four bytes above the address. */
  lemma GetStkDelivers(bs: seq<Blk>, lo: int, hi: int, n: int)
    requires Canon(bs, lo, hi) && 0 < n < M32 && LastFit(bs, Round(n)) >= 0
    ensures var i := LastFit(bs, Round(n)); Delivers(TakeHigh(bs, i, Round(n)), End(bs[i]) - n, n) <==> n <= 0xFFFF_FFF8
  {
    hide Round, Canon, TakeHigh, IsFree, LastFit, Total;
    RoundCovers(n);
    var i := LastFit(bs, Round(n));
    if n <= 0xFFFF_FFF8 {
      TakeHighTook(bs, i, Round(n), lo, hi);
    } else {
      NothingTaken(bs, i, lo, hi);
    }
  }
}
