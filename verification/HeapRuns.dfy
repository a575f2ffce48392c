// Whole runs of the allocator: free memory and live regions partition the heap.
module HeapRuns {
  import opened HeapModel

  /** The free list and the regions handed out and not yet returned. */
  datatype Hs = Hs(free: seq<Blk>, live: seq<Blk>)

  /** Two regions have no byte in common. */
  predicate Apart(b: Blk, c: Blk) { End(b) <= c.addr || End(c) <= b.addr }

  ghost predicate LiveOK(live: seq<Blk>, lo: int, hi: int) {
    && (forall i :: 0 <= i < |live| ==> Fine(live[i]) && lo <= live[i].addr && End(live[i]) <= hi)
    && (forall i, j :: 0 <= i < j < |live| ==> Apart(live[i], live[j]))
  }

  /** Every byte of the heap is either free or in exactly one live region. */
  ghost predicate Partition(h: Hs, lo: int, hi: int) {
    && Canon(h.free, lo, hi) && LiveOK(h.live, lo, hi)
    && (forall x :: lo <= x < hi ==> (IsFree(h.free, x) <==> !IsFree(h.live, x)))
  }

  // ----------------------------------------------------------- one region

  lemma LiveAdd(live: seq<Blk>, lo: int, hi: int, b: Blk)
    requires LiveOK(live, lo, hi) && Fine(b) && lo <= b.addr && End(b) <= hi
    requires forall x :: Holds(b, x) ==> !IsFree(live, x)
    ensures LiveOK(live + [b], lo, hi)
  {
    forall i | 0 <= i < |live| ensures Apart(live[i], b) { ApartIf(live, i, b); }
  }

  lemma ApartIf(live: seq<Blk>, i: int, b: Blk)
    requires 0 <= i < |live| && Fine(live[i]) && Fine(b) && forall x :: Holds(b, x) ==> !IsFree(live, x)
    ensures Apart(live[i], b)
  {
    var x := if live[i].addr < b.addr then b.addr else live[i].addr;
    assert Holds(b, x) && Holds(live[i], x) ==> IsFree(live, x);
  }

  lemma AddFree(live: seq<Blk>, b: Blk, x: int)
    ensures IsFree(live + [b], x) <==> IsFree(live, x) || Holds(b, x)
  {
    hide Holds;
    var r := live + [b];
    if IsFree(live, x) {
      var i :| 0 <= i < |live| && Holds(live[i], x);
      assert Holds(r[i], x);
    }
    if Holds(b, x) { assert Holds(r[|live|], x); }
  }

  /** A region taken from the free list becomes live. */
  lemma TakeKeeps(h: Hs, free': seq<Blk>, lo: int, hi: int, a: int, n: int)
    requires Partition(h, lo, hi) && Took(h.free, free', lo, hi, a, n) && n > 0
    ensures Partition(Hs(free', h.live + [Blk(a, n)]), lo, hi)
  {
    hide Canon, IsFree, LiveOK;
    var b := Blk(a, n);
    LiveAdd(h.live, lo, hi, b);
    forall x | lo <= x < hi ensures IsFree(free', x) <==> !IsFree(h.live + [b], x) { AddFree(h.live, b, x); }
  }

  lemma LiveCut(live: seq<Blk>, lo: int, hi: int, i: int)
    requires LiveOK(live, lo, hi) && 0 <= i < |live|
    ensures LiveOK(Cut(live, i), lo, hi)
    ensures forall x :: IsFree(Cut(live, i), x) <==> IsFree(live, x) && !Holds(live[i], x)
  {
    var r := Cut(live, i);
    assert forall m :: 0 <= m < |r| ==> r[m] == if m < i then live[m] else live[m + 1];
    forall x ensures IsFree(r, x) <==> IsFree(live, x) && !Holds(live[i], x) {
      CutFree(live, i, x);
      FreeSplit(live, i, i + 1, x);
      OneBlock(live, i, x);
      OthersApart(live, lo, hi, i, x);
    }
  }

  lemma OthersApart(live: seq<Blk>, lo: int, hi: int, i: int, x: int)
    requires LiveOK(live, lo, hi) && 0 <= i < |live|
    ensures Holds(live[i], x) ==> !FreeIn(live, 0, i, x) && !FreeIn(live, i + 1, |live|, x)
  {
    hide Fine;
  }

  /** A live region is never rejected by freemem, and becomes free. */
  lemma GiveKeeps(h: Hs, lo: int, hi: int, i: int)
    requires Partition(h, lo, hi) && 0 <= i < |h.live|
    ensures var b := h.live[i];
            && !Clashes(h.free, Below(h.free, b.addr), b.addr, b.len)
            && Partition(Hs(Freed(h.free, Below(h.free, b.addr), b.addr, b.len), Cut(h.live, i)), lo, hi)
  {
    hide Canon, IsFree, Freed, Below, Clashes;
    var b := h.live[i];
    LiveHolds(h.live, i);
    ClashIffOverlap(h.free, lo, hi, b.addr, b.len);
    FreedGave(h.free, lo, hi, b.addr, b.len);
    LiveCut(h.live, lo, hi, i);
  }

  lemma LiveHolds(live: seq<Blk>, i: int)
    requires 0 <= i < |live|
    ensures forall x :: live[i].addr <= x < End(live[i]) ==> IsFree(live, x)
  {
    forall x | live[i].addr <= x < End(live[i]) ensures IsFree(live, x) { assert Holds(live[i], x); }
  }

  // ------------------------------------------------------------ whole runs

  datatype Op = GetMem(n: int) | GetStk(n: int) | FreeMem(addr: int, n: int)

  /** Sizes that roundmb does not wrap; only regions that are live, or that
      overlap free memory, are given to freemem. */
  ghost predicate Allowed(h: Hs, op: Op) {
    match op
    case GetMem(n) => 0 <= n <= 0xFFFF_FFF8
    case GetStk(n) => 0 <= n <= 0xFFFF_FFF8
    case FreeMem(a, n) =>
      0 < n <= 0xFFFF_FFF8 && (Blk(a, Round(n)) in h.live || Clashes(h.free, Below(h.free, a), a, Round(n)))
  }

  function IndexOf(live: seq<Blk>, b: Blk): (i: nat)
    requires b in live
    ensures i < |live| && live[i] == b
  {
    if live[0] == b then 0 else 1 + IndexOf(live[1..], b)
  }

  ghost function Step(h: Hs, op: Op): Hs
    requires Allowed(h, op)
  {
    match op
    case GetMem(n) =>
      var i := FirstFit(h.free, Round(n));
      if n == 0 || i == |h.free| then h
      else Hs(TakeLow(h.free, i, Round(n)), h.live + [Blk(h.free[i].addr, Round(n))])
    case GetStk(n) =>
      var i := LastFit(h.free, Round(n));
      if n == 0 || i < 0 then h
      else Hs(TakeHigh(h.free, i, Round(n)), h.live + [Blk(End(h.free[i]) - Round(n), Round(n))])
    case FreeMem(a, n) =>
      var b := Blk(a, Round(n));
      if Clashes(h.free, Below(h.free, a), a, Round(n)) then h
      else Hs(Freed(h.free, Below(h.free, a), a, Round(n)), Cut(h.live, IndexOf(h.live, b)))
  }

  lemma StepKeeps(h: Hs, op: Op, lo: int, hi: int)
    requires Partition(h, lo, hi) && Allowed(h, op)
    ensures Partition(Step(h, op), lo, hi)
  {
    hide Partition, Took, TakeLow, TakeHigh, Cut, Freed, Clashes, Below, FirstFit, LastFit, Round;
    match op
    case GetMem(n) =>
      RoundCovers(n);
      var i := FirstFit(h.free, Round(n));
      if n != 0 && i < |h.free| {
        FreeCanon(h, lo, hi);
        TakeLowTook(h.free, i, Round(n), lo, hi);
        TakeKeeps(h, TakeLow(h.free, i, Round(n)), lo, hi, h.free[i].addr, Round(n));
      }
    case GetStk(n) =>
      RoundCovers(n);
      var i := LastFit(h.free, Round(n));
      if n != 0 && i >= 0 {
        FreeCanon(h, lo, hi);
        TakeHighTook(h.free, i, Round(n), lo, hi);
        TakeKeeps(h, TakeHigh(h.free, i, Round(n)), lo, hi, End(h.free[i]) - Round(n), Round(n));
      }
    case FreeMem(a, n) =>
      if !Clashes(h.free, Below(h.free, a), a, Round(n)) {
        GiveKeeps(h, lo, hi, IndexOf(h.live, Blk(a, Round(n))));
      }
  }

  lemma FreeCanon(h: Hs, lo: int, hi: int)
    requires Partition(h, lo, hi)
    ensures Canon(h.free, lo, hi)
  {
  }

  ghost predicate CanRun(h: Hs, ops: seq<Op>)
    decreases |ops|
  {
    ops == [] || (Allowed(h, ops[0]) && CanRun(Step(h, ops[0]), ops[1..]))
  }

  ghost function Run(h: Hs, ops: seq<Op>): Hs
    requires CanRun(h, ops)
    decreases |ops|
  {
    if ops == [] then h else Run(Step(h, ops[0]), ops[1..])
  }

  lemma {:induction false} RunKeeps(h: Hs, ops: seq<Op>, lo: int, hi: int)
    requires Partition(h, lo, hi) && CanRun(h, ops)
    ensures Partition(Run(h, ops), lo, hi)
    decreases |ops|
  {
    hide Partition, Step, Allowed;
    if ops != [] {
      StepKeeps(h, ops[0], lo, hi);
      RunKeeps(Step(h, ops[0]), ops[1..], lo, hi);
    }
  }

  /** meminit */
  function Fresh(lo: int, hi: int): Hs { Hs([Blk(lo, hi - lo)], []) }

  lemma FreshPartition(lo: int, hi: int)
    requires 0 < lo < hi && lo % 8 == 0 && hi % 8 == 0
    ensures Partition(Fresh(lo, hi), lo, hi)
  {
    forall x | lo <= x < hi ensures IsFree(Fresh(lo, hi).free, x) { assert Holds(Fresh(lo, hi).free[0], x); }
  }

  /** In every run live regions are apart from each other and from free memory,
      and when everything has been freed, in whatever order, the free list is
      the single block it started as. */
  lemma RunSafety(lo: int, hi: int, ops: seq<Op>)
    requires 0 < lo < hi && lo % 8 == 0 && hi % 8 == 0 && CanRun(Fresh(lo, hi), ops)
    ensures var h := Run(Fresh(lo, hi), ops);
            && Partition(h, lo, hi)
            && (h.live == [] ==> h.free == [Blk(lo, hi - lo)])
  {
    hide IsFree, Run, CanRun, Canon, LiveOK;
    FreshPartition(lo, hi);
    RunKeeps(Fresh(lo, hi), ops, lo, hi);
    var h := Run(Fresh(lo, hi), ops);
    if h.live == [] { AllFree(h, lo, hi); }
  }

  lemma AllFree(h: Hs, lo: int, hi: int)
    requires 0 < lo < hi && lo % 8 == 0 && hi % 8 == 0 && Partition(h, lo, hi) && h.live == []
    ensures h.free == [Blk(lo, hi - lo)]
  {
    hide Canon, Fine;
    FreshPartition(lo, hi);
    var f := Fresh(lo, hi).free;
    forall x ensures IsFree(h.free, x) <==> IsFree(f, x) {
      InBounds(h.free, lo, hi, x);
      InBounds(f, lo, hi, x);
    }
    CanonUnique(h.free, f, lo, hi);
  }

  lemma InBounds(bs: seq<Blk>, lo: int, hi: int, x: int)
    requires Canon(bs, lo, hi)
    ensures IsFree(bs, x) ==> lo <= x < hi
  {
  }
}
