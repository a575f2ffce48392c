// The state of the mounted local file system and the invariant that every
// operation keeps: who owns each index and data block, what each file's chain
// looks like, how the per-file caches relate to the disk, and what the disk
// copy of the directory may lag behind.
module LfsModel {
  import opened LfsLayout

  // ------------------------------------------------------ block ownership

  /** A block is on the free stack at depth k, or is the k-th block of file f. */
  datatype Place = Free(k: nat) | In(f: nat, k: nat)

  /** One kind of block. The free list is kept as a stack whose top comes last. */
  datatype Area = Area(free: seq<int>, used: seq<seq<int>>, own: map<int, Place>)

  /** Every block of lo..hi is in exactly one place, and every place holds one block. */
  ghost predicate AreaOK(a: Area, lo: int, hi: int) {
    && (forall i :: i in a.own <==> lo <= i < hi)
    && (forall k :: 0 <= k < |a.free| ==> a.free[k] in a.own && a.own[a.free[k]] == Free(k))
    && (forall f, k :: 0 <= f < |a.used| && 0 <= k < |a.used[f]| ==>
          a.used[f][k] in a.own && a.own[a.used[f][k]] == In(f, k))
    && (forall i :: i in a.own ==> AtHome(a, i))
  }

  ghost predicate AtHome(a: Area, i: int)
    requires i in a.own
  {
    match a.own[i]
    case Free(k) => k < |a.free| && a.free[k] == i
    case In(f, k) => f < |a.used| && k < |a.used[f]| && a.used[f][k] == i
  }

  ghost predicate OwnedBy(a: Area, i: int, f: nat) {
    i in a.own && a.own[i].In? && a.own[i].f == f
  }

  function Top(s: seq<int>): int { if s == [] then NULL_ID else s[|s| - 1] }

  /** The top free block becomes the last block of file f. */
  ghost function Give(a: Area, f: nat): Area
    requires a.free != [] && f < |a.used|
  {
    var i := Top(a.free);
    Area(a.free[..|a.free| - 1], a.used[f := a.used[f] + [i]], a.own[i := In(f, |a.used[f]|)])
  }

  lemma GiveOK(a: Area, lo: int, hi: int, f: nat)
    requires AreaOK(a, lo, hi) && a.free != [] && f < |a.used|
    ensures AreaOK(Give(a, f), lo, hi)
    ensures forall i :: i in a.own && i != Top(a.free) ==> Give(a, f).own[i] == a.own[i]
  {
    var b := Give(a, f);
    forall i | i in b.own ensures AtHome(b, i) {
      assert AtHome(a, i);
    }
  }

  function Reverse(s: seq<int>): (r: seq<int>)
    ensures |r| == |s| && forall k :: 0 <= k < |s| ==> r[k] == s[|s| - 1 - k]
  {
    seq(|s|, k requires 0 <= k < |s| => s[|s| - 1 - k])
  }

  /** All blocks of file f go on top of the free stack, the first one uppermost when `rev`. */
  ghost function Release(a: Area, f: nat, rev: bool): Area
    requires f < |a.used|
  {
    var n, m := |a.free|, |a.used[f]|;
    Area(a.free + (if rev then Reverse(a.used[f]) else a.used[f]),
         a.used[f := []],
         map i | i in a.own ::
           if a.own[i].In? && a.own[i].f == f
           then Free(if rev then n + (if a.own[i].k < m then m - 1 - a.own[i].k else 0) else n + a.own[i].k)
           else a.own[i])
  }

  lemma ReleasedAtHome(a: Area, lo: int, hi: int, f: nat, rev: bool, i: int)
    requires AreaOK(a, lo, hi) && f < |a.used| && i in a.own
    ensures i in Release(a, f, rev).own && AtHome(Release(a, f, rev), i)
  {
    assert AtHome(a, i);
  }

  lemma ReleasedFree(a: Area, lo: int, hi: int, f: nat, rev: bool, k: nat)
    requires AreaOK(a, lo, hi) && f < |a.used|
    ensures
      var b := Release(a, f, rev);
      k < |b.free| ==> b.free[k] in b.own && b.own[b.free[k]] == Free(k)
  {
    hide AtHome;
    var b := Release(a, f, rev);
    var n, m := |a.free|, |a.used[f]|;
    if k < n {
      assert b.free[k] == a.free[k];
    } else if k < |b.free| {
      if rev {
        assert b.free[k] == a.used[f][m - 1 - (k - n)];
      } else {
        assert b.free[k] == a.used[f][k - n];
      }
    }
  }

  lemma ReleaseOK(a: Area, lo: int, hi: int, f: nat, rev: bool)
    requires AreaOK(a, lo, hi) && f < |a.used|
    ensures AreaOK(Release(a, f, rev), lo, hi)
  {
    var b := Release(a, f, rev);
    forall k | 0 <= k < |b.free| ensures b.free[k] in b.own && b.own[b.free[k]] == Free(k) {
      ReleasedFree(a, lo, hi, f, rev, k);
    }
    forall i | i in b.own ensures AtHome(b, i) {
      ReleasedAtHome(a, lo, hi, f, rev, i);
    }
    hide AtHome, Reverse;
    forall g, k | 0 <= g < |b.used| && 0 <= k < |b.used[g]|
      ensures b.used[g][k] in b.own && b.own[b.used[g][k]] == In(g, k)
    {
      assert b.used[g] == a.used[g];
    }
  }

  /** A new file owns nothing. */
  lemma AddFileOK(a: Area, lo: int, hi: int)
    requires AreaOK(a, lo, hi)
    ensures AreaOK(a.(used := a.used + [[]]), lo, hi)
  {
    var b := a.(used := a.used + [[]]);
    forall i | i in b.own ensures AtHome(b, i) { assert AtHome(a, i); }
  }

  lemma {:induction false} Pigeonhole(s: seq<int>, lo: int, hi: int)
    requires forall k :: 0 <= k < |s| ==> lo <= s[k] < hi
    requires forall j, k :: 0 <= j < k < |s| ==> s[j] != s[k]
    requires lo <= hi
    ensures |s| <= hi - lo
    decreases hi - lo
  {
    if s == [] {
    } else if hi - 1 in s {
      var m :| 0 <= m < |s| && s[m] == hi - 1;
      Pigeonhole(s[..m] + s[m + 1..], lo, hi - 1);
    } else {
      assert lo <= s[0] < hi;
      Pigeonhole(s, lo, hi - 1);
    }
  }

  /** Blocks are conserved: no file owns more than there are, counting the free ones. */
  lemma OwnedAtMost(a: Area, lo: int, hi: int, f: nat)
    requires AreaOK(a, lo, hi) && f < |a.used| && lo <= hi
    ensures |a.used[f]| + |a.free| <= hi - lo
  {
    var s := a.used[f] + a.free;
    forall k | 0 <= k < |s| ensures lo <= s[k] < hi && a.own[s[k]] == if k < |a.used[f]| then In(f, k) else Free(k - |a.used[f]|) {
      assert s[k] in a.own;
    }
    Pigeonhole(s, lo, hi);
  }

  // -------------------------------------------------------- conservation

  function SumLen(u: seq<seq<int>>): nat {
    if u == [] then 0 else SumLen(u[..|u| - 1]) + |u[|u| - 1]|
  }

  ghost function Elems(s: seq<int>): set<int> { set x | x in s }

  lemma {:induction false} ElemsCard(s: seq<int>)
    requires forall j, k :: 0 <= j < k < |s| ==> s[j] != s[k]
    ensures |Elems(s)| == |s|
  {
    if s != [] {
      var r := s[..|s| - 1];
      ElemsCard(r);
      assert s[|s| - 1] !in r;
      assert Elems(s) == Elems(r) + {s[|s| - 1]};
    }
  }

  ghost function OwnedBelow(a: Area, n: nat): set<int> {
    set i | i in a.own && a.own[i].In? && a.own[i].f < n
  }

  lemma OwnedBelowStep(a: Area, lo: int, hi: int, n: nat)
    requires AreaOK(a, lo, hi) && n < |a.used|
    ensures |OwnedBelow(a, n + 1)| == |OwnedBelow(a, n)| + |a.used[n]|
  {
    var u := a.used[n];
    forall j, k | 0 <= j < k < |u| ensures u[j] != u[k] { assert a.own[u[j]].k == j && a.own[u[k]].k == k; }
    ElemsCard(u);
    forall i | i in OwnedBelow(a, n + 1) ensures i in OwnedBelow(a, n) + Elems(u) { assert AtHome(a, i); }
    assert OwnedBelow(a, n + 1) == OwnedBelow(a, n) + Elems(u);
    assert OwnedBelow(a, n) !! Elems(u);
  }

  lemma {:induction false} OwnedBelowCard(a: Area, lo: int, hi: int, n: nat)
    requires AreaOK(a, lo, hi) && n <= |a.used|
    ensures |OwnedBelow(a, n)| == SumLen(a.used[..n])
    decreases n
  {
    if n == 0 {
      assert OwnedBelow(a, 0) == {};
    } else {
      OwnedBelowCard(a, lo, hi, n - 1);
      OwnedBelowStep(a, lo, hi, n - 1);
      assert a.used[..n][..n - 1] == a.used[..n - 1];
    }
  }

  function Range(lo: int, hi: int): (r: seq<int>)
    requires lo <= hi
    ensures |r| == hi - lo && forall k :: 0 <= k < |r| ==> r[k] == lo + k
  {
    seq(hi - lo, k => lo + k)
  }

  /** Free blocks plus the blocks of all files is always every block there is. */
  lemma BlocksConserved(a: Area, lo: int, hi: int)
    requires AreaOK(a, lo, hi) && lo <= hi
    ensures |a.free| + SumLen(a.used) == hi - lo
  {
    forall j, k | 0 <= j < k < |a.free| ensures a.free[j] != a.free[k] {
      assert a.own[a.free[j]] == Free(j) && a.own[a.free[k]] == Free(k);
    }
    ElemsCard(a.free);
    OwnedBelowCard(a, lo, hi, |a.used|);
    assert a.used[..|a.used|] == a.used;
    ElemsCard(Range(lo, hi));
    AllBlocks(a, lo, hi);
    assert Elems(a.free) !! OwnedBelow(a, |a.used|);
  }

  lemma AllBlocks(a: Area, lo: int, hi: int)
    requires AreaOK(a, lo, hi) && lo <= hi
    ensures Elems(Range(lo, hi)) == Elems(a.free) + OwnedBelow(a, |a.used|)
  {
    var all := Range(lo, hi);
    forall i | i in Elems(all) ensures i in Elems(a.free) + OwnedBelow(a, |a.used|) {
      assert i in a.own && AtHome(a, i);
    }
    hide AtHome;
    forall i | i in Elems(a.free) + OwnedBelow(a, |a.used|) ensures i in Elems(all) {
      assert i in a.own && all[i - lo] == i;
    }
  }

  // ------------------------------------------------------- chains on disk

  /** The free list of index blocks, linked from its head through ib_next. */
  ghost predicate IStack(ibs: seq<IBlk>, head: int, st: seq<int>) {
    && head == Top(st)
    && forall k :: 0 <= k < |st| ==> 0 <= st[k] < |ibs| && ibs[st[k]].next == Top(st[..k])
  }

  /** The free list of data blocks, linked through the first word of each. */
  ghost predicate DStack(dat: map<int, Sector>, head: int, st: seq<int>) {
    && head == Top(st)
    && forall k :: 0 <= k < |st| ==> st[k] in dat && NextDb(dat[st[k]]) == Top(st[..k])
  }

  function Nth(s: seq<int>, k: nat): int { if k < |s| then s[k] else NULL_ID }

  /** The k-th index block of a file: its link, its offset and its 16 pointers. */
  ghost predicate IbOK(ib: IBlk, k: nat, ich: seq<int>, dch: seq<int>) {
    && ib.next == Nth(ich, k + 1)
    && ib.offset == IDATA * k
    && |ib.dba| == IBLEN
    && forall j :: 0 <= j < IBLEN ==> ib.dba[j] == Nth(dch, IBLEN * k + j)
  }

  ghost predicate FileOK(ibs: seq<IBlk>, ilist: int, ich: seq<int>, dch: seq<int>) {
    && ilist == Nth(ich, 0)
    && forall k :: 0 <= k < |ich| ==> 0 <= ich[k] < |ibs| && IbOK(ibs[ich[k]], k, ich, dch)
  }

  function CeilDiv(n: int, d: int): int
    requires d > 0
  {
    (n + d - 1) / d
  }

  // -------------------------------------------------------- mounted state

  /** struct lflcblk; `at` is lfbyte as an index into the data block. */
  datatype Lfl = Lfl(used: bool, fidx: nat, mode: int, pos: nat, name: seq<byte>,
                     inum: int, iblock: IBlk, dnum: int, dblock: Sector, at: nat,
                     ibdirty: bool, dbdirty: bool)

  /** `img` is the disk, `dir` the directory in memory, `ibs` and `dat` the
      logical blocks (the disk as it would be with every cache written back). */
  datatype Fs = Fs(nsec: nat, base: nat, img: Img, dir: Dir, dirty: bool, tab: seq<Lfl>,
                   ibs: seq<IBlk>, dat: map<int, Sector>, ia: Area, da: Area)

  /** File f has been given ei index blocks and ed data blocks ahead of its size. */
  datatype Pend = Pend(f: int, ei: nat, ed: nat)

  const NONE := Pend(-1, 0, 0)

  ghost predicate Shape(s: Fs) {
    && Geometry(s.nsec, s.base)
    && |s.ibs| == |s.img.ibs| == NumIb(s.base)
    && (forall d :: d in s.dat <==> s.base <= d < s.nsec)
    && (forall d :: d in s.img.dat <==> s.base <= d < s.nsec)
    && DirFits(s.dir) && DirFits(s.img.dir)
    && |s.ia.used| == |s.da.used| == s.dir.nfiles
    && AllFit(s.ibs)
    && AreaOK(s.ia, 0, NumIb(s.base))
    && AreaOK(s.da, s.base, s.nsec)
  }

  ghost predicate AllFit(ibs: seq<IBlk>) {
    forall i :: 0 <= i < |ibs| ==> IbFits(ibs[i])
  }

  ghost predicate Sized(size: int, ich: seq<int>, dch: seq<int>, ei: nat, ed: nat) {
    && 0 <= size
    && |ich| == CeilDiv(size, IDATA) + ei
    && |dch| == CeilDiv(size, BLKSIZ) + ed
  }

  ghost predicate FileAt(ibs: seq<IBlk>, e: LdEntry, ich: seq<int>, dch: seq<int>, ei: nat, ed: nat) {
    FileOK(ibs, e.ilist, ich, dch) && Sized(e.size, ich, dch, ei, ed)
  }

  function Extra(p: Pend, f: int): Pend { if p.f == f then p else NONE }

  ghost predicate FilesOK(ibs: seq<IBlk>, files: seq<LdEntry>, iu: seq<seq<int>>, du: seq<seq<int>>, p: Pend) {
    && |iu| == |du| <= |files|
    && forall f :: 0 <= f < |iu| ==>
         FileAt(ibs, files[f], iu[f], du[f], Extra(p, f).ei, Extra(p, f).ed)
  }

  ghost predicate StaleI(tab: seq<Lfl>, i: int) {
    exists c :: 0 <= c < |tab| && tab[c].used && tab[c].ibdirty && tab[c].inum == i
  }

  ghost predicate StaleD(tab: seq<Lfl>, d: int) {
    exists c :: 0 <= c < |tab| && tab[c].used && tab[c].dbdirty && tab[c].dnum == d
  }

  /** The disk differs from the logical blocks only where a cache is dirty. */
  ghost predicate CoherentI(disk: seq<IBlk>, ibs: seq<IBlk>, tab: seq<Lfl>) {
    |disk| == |ibs| && forall i :: 0 <= i < |ibs| ==> disk[i] == ibs[i] || StaleI(tab, i)
  }

  ghost predicate CoherentD(disk: map<int, Sector>, dat: map<int, Sector>, tab: seq<Lfl>, newest: int) {
    forall d :: d in dat ==> d in disk && (disk[d] == dat[d] || StaleD(tab, d) || d == newest)
  }

  /** The blocks of one chain are on disk as they are in memory. */
  ghost predicate CurrentI(disk: seq<IBlk>, ibs: seq<IBlk>, ich: seq<int>) {
    |disk| == |ibs| && forall k :: 0 <= k < |ich| ==> 0 <= ich[k] < |ibs| && disk[ich[k]] == ibs[ich[k]]
  }

  ghost predicate CurrentD(disk: map<int, Sector>, dat: map<int, Sector>, dch: seq<int>) {
    forall k :: 0 <= k < |dch| ==> dch[k] in dat && dch[k] in disk && disk[dch[k]] == dat[dch[k]]
  }

  /** The data block that was allocated but not yet marked dirty. */
  ghost function FreshBlock(du: seq<seq<int>>, p: Pend): int {
    if p.ed == 1 && 0 <= p.f < |du| then Top(du[p.f]) else NULL_ID
  }

  ghost predicate OpenAt(t: Lfl, files: seq<LdEntry>, ibs: seq<IBlk>, dat: map<int, Sector>, ia: Area, da: Area) {
    && |t.name| == NAME_LEN
    && (t.used ==>
      && t.fidx < |da.used| <= |files|
      && t.pos <= files[t.fidx].size
      && (if t.inum == NULL_ID then !t.ibdirty
          else OwnedBy(ia, t.inum, t.fidx) && 0 <= t.inum < |ibs| && t.iblock == ibs[t.inum])
      && (if t.dnum == NULL_ID then !t.dbdirty
          else OwnedBy(da, t.dnum, t.fidx) && t.dnum in dat && t.dblock == dat[t.dnum])
      && t.at <= BLKSIZ
      && (t.at < BLKSIZ ==>
            t.at == t.pos % BLKSIZ && t.dnum != NULL_ID && t.dnum == Nth(da.used[t.fidx], t.pos / BLKSIZ))
      && CStr(t.name) == CStr(files[t.fidx].name))
  }

  ghost predicate TabOK(tab: seq<Lfl>, files: seq<LdEntry>, ibs: seq<IBlk>, dat: map<int, Sector>, ia: Area, da: Area) {
    forall c :: 0 <= c < |tab| ==> OpenAt(tab[c], files, ibs, dat, ia, da)
  }

  /** The disk directory is current unless marked dirty, except that files
      created since it was written, all of them empty, may be missing. */
  ghost predicate DirCoherent(disk: Dir, dir: Dir, dirty: bool, p: Pend) {
    && 0 <= disk.nfiles <= dir.nfiles <= |dir.files| == |disk.files|
    && (!dirty ==>
          && disk.dfree == dir.dfree
          && disk.ifree == dir.ifree
          && forall f :: 0 <= f < dir.nfiles && !(f == p.f && p.ed < p.ei) ==>
               if f < disk.nfiles then disk.files[f] == dir.files[f] else dir.files[f].size == 0)
  }

  /** The characters before the first null. */
  function CStr(s: seq<byte>): seq<byte> {
    if s == [] || s[0] == 0 then [] else [s[0]] + CStr(s[1..])
  }

  ghost predicate NamesOK(dir: Dir) {
    forall f, g :: 0 <= f < g < dir.nfiles <= |dir.files| ==> CStr(dir.files[f].name) != CStr(dir.files[g].name)
  }

  ghost predicate OneOpener(tab: seq<Lfl>) {
    forall b, c :: 0 <= b < c < |tab| && tab[b].used && tab[c].used ==> tab[b].fidx != tab[c].fidx
  }

  ghost predicate InvP(s: Fs, p: Pend) {
    && Shape(s)
    && IStack(s.ibs, s.dir.ifree, s.ia.free)
    && DStack(s.dat, s.dir.dfree, s.da.free)
    && FilesOK(s.ibs, s.dir.files, s.ia.used, s.da.used, p)
    && CoherentI(s.img.ibs, s.ibs, s.tab)
    && CoherentD(s.img.dat, s.dat, s.tab, FreshBlock(s.da.used, p))
    && TabOK(s.tab, s.dir.files, s.ibs, s.dat, s.ia, s.da)
    && DirCoherent(s.img.dir, s.dir, s.dirty, p)
    && NamesOK(s.dir)
    && OneOpener(s.tab)
  }

  ghost predicate Inv(s: Fs) {
    && InvP(s, NONE)
    && (s.dirty ==> exists c :: 0 <= c < |s.tab| && s.tab[c].used)
  }

  // ---------------------------------------------------- logical contents

  /** Byte q of the file whose data blocks are dch. */
  ghost function ByteOf(dat: map<int, Sector>, dch: seq<int>, q: nat): byte {
    var d := Nth(dch, q / BLKSIZ);
    if d in dat then dat[d][q % BLKSIZ] else 0
  }

  ghost function Bytes(dat: map<int, Sector>, dch: seq<int>, size: nat): (r: seq<byte>) {
    seq(size, q requires 0 <= q => ByteOf(dat, dch, q))
  }
}
