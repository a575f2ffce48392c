// What a disk says on its own: following the directory, the index chain and
// the data blocks with no memory state, the empty file system that lfscreate
// lays down, and mounting a disk again.
module LfsImage {
  import opened LfsLayout
  import opened LfsModel
  import opened LfsSteps

  /** Byte q counted from index block ib on, found by walking the chain. */
  ghost function Follow(ibs: seq<IBlk>, dat: map<int, Sector>, ib: int, q: nat): byte
    decreases q
  {
    if !(0 <= ib < |ibs|) then 0
    else if q >= IDATA then Follow(ibs, dat, ibs[ib].next, q - IDATA)
    else
      var d := Nth(ibs[ib].dba, q / BLKSIZ);
      if d in dat then dat[d][q % BLKSIZ] else 0
  }

  /** File f as a reader of the bare disk would find it. */
  ghost function OnDisk(m: Img, f: nat): seq<byte>
    requires f < |m.dir.files| && m.dir.files[f].size >= 0
  {
    seq(m.dir.files[f].size, q requires 0 <= q => Follow(m.ibs, m.dat, m.dir.files[f].ilist, q))
  }

  lemma {:induction false} FollowChain(ibs: seq<IBlk>, dat: map<int, Sector>, ilist: int, ich: seq<int>, dch: seq<int>,
                                       k: nat, q: nat)
    requires FileOK(ibs, ilist, ich, dch) && |dch| <= IBLEN * |ich|
    requires IDATA * k <= q && q / BLKSIZ < |dch|
    ensures k < |ich| && Follow(ibs, dat, ich[k], q - IDATA * k) == ByteOf(dat, dch, q)
    decreases |ich| - k
  {
    assert q / BLKSIZ < IBLEN * |ich|;
    assert IDATA * k <= q < IDATA * |ich|;
    var r := q - IDATA * k;
    var ib := ibs[ich[k]];
    assert IbOK(ib, k, ich, dch);
    if r >= IDATA {
      FollowChain(ibs, dat, ilist, ich, dch, k + 1, q);
    } else {
      assert r / BLKSIZ == q / BLKSIZ - IBLEN * k && r % BLKSIZ == q % BLKSIZ;
      assert ib.dba[r / BLKSIZ] == Nth(dch, IBLEN * k + r / BLKSIZ);
    }
  }

  /** Two disks that agree on the blocks of a file give the same bytes. */
  lemma FollowFile(ibs: seq<IBlk>, ibs': seq<IBlk>, dat: map<int, Sector>, dat': map<int, Sector>,
                   e: LdEntry, ich: seq<int>, dch: seq<int>)
    requires FileAt(ibs, e, ich, dch, 0, 0) && CurrentI(ibs', ibs, ich) && CurrentD(dat', dat, dch)
    ensures forall q :: 0 <= q < e.size ==> Follow(ibs', dat', e.ilist, q) == ByteOf(dat, dch, q)
  {
    FileFrame(ibs, ibs', e.ilist, ich, dch);
    forall q | 0 <= q < e.size ensures Follow(ibs', dat', e.ilist, q) == ByteOf(dat, dch, q) {
      FollowChain(ibs', dat', e.ilist, ich, dch, 0, q);
    }
  }

  /** No open file has unwritten blocks of file f. */
  ghost predicate Settled(tab: seq<Lfl>, f: nat) {
    forall c :: 0 <= c < |tab| && tab[c].used && tab[c].fidx == f ==> !tab[c].ibdirty && !tab[c].dbdirty
  }

  lemma SettledBlocks(s: Fs, f: nat)
    requires InvP(s, NONE) && Settled(s.tab, f) && f < s.dir.nfiles
    ensures CurrentI(s.img.ibs, s.ibs, s.ia.used[f])
    ensures CurrentD(s.img.dat, s.dat, s.da.used[f])
  {
    hide FilesOK, IStack, DStack, DirCoherent, NamesOK, AllFit, DirFits, AtHome;
    forall k | 0 <= k < |s.ia.used[f]|
      ensures var i := s.ia.used[f][k]; 0 <= i < |s.ibs| && s.img.ibs[i] == s.ibs[i]
    {
      var i := s.ia.used[f][k];
      assert i in s.ia.own && s.ia.own[i] == In(f, k);
      assert !StaleI(s.tab, i);
    }
    forall k | 0 <= k < |s.da.used[f]|
      ensures var d := s.da.used[f][k]; d in s.dat && d in s.img.dat && s.img.dat[d] == s.dat[d]
    {
      var d := s.da.used[f][k];
      assert d in s.da.own && s.da.own[d] == In(f, k);
      assert !StaleD(s.tab, d);
    }
  }

  /** Once the directory and the blocks of a non-empty file are written back,
      the disk alone gives exactly the file's contents. */
  lemma Persisted(s: Fs, f: nat)
    requires InvP(s, NONE) && !s.dirty && Settled(s.tab, f) && f < s.dir.nfiles && s.dir.files[f].size > 0
    ensures f < s.img.dir.nfiles && s.img.dir.files[f] == s.dir.files[f]
    ensures OnDisk(s.img, f) == Bytes(s.dat, s.da.used[f], s.dir.files[f].size)
  {
    SettledBlocks(s, f);
    hide IStack, DStack, CoherentI, CoherentD, TabOK, NamesOK, AllFit, AreaOK, OneOpener, FileOK, Follow;
    var ich, dch := s.ia.used[f], s.da.used[f];
    assert FileAt(s.ibs, s.dir.files[f], ich, dch, Extra(NONE, f).ei, Extra(NONE, f).ed);
    FollowFile(s.ibs, s.img.ibs, s.dat, s.img.dat, s.dir.files[f], ich, dch);
  }

  // ------------------------------------------------------ mounting again

  /** No file is open. */
  ghost predicate AllClosed(tab: seq<Lfl>) { forall c :: 0 <= c < |tab| ==> !tab[c].used && |tab[c].name| == NAME_LEN }

  /** The state after a restart: the directory is whatever the disk holds. */
  ghost function Remounted(s: Fs): Fs
    requires 0 <= s.img.dir.nfiles <= |s.ia.used| == |s.da.used|
  {
    var n := s.img.dir.nfiles;
    s.(dir := s.img.dir, ibs := s.img.ibs, dat := s.img.dat,
       ia := s.ia.(used := s.ia.used[..n]), da := s.da.(used := s.da.used[..n]))
  }

  lemma DropEmpty(a: Area, lo: int, hi: int, n: nat)
    requires AreaOK(a, lo, hi) && n <= |a.used| && forall f :: n <= f < |a.used| ==> a.used[f] == []
    ensures AreaOK(a.(used := a.used[..n]), lo, hi)
  {
    var b := a.(used := a.used[..n]);
    forall i | i in b.own ensures AtHome(b, i) { assert AtHome(a, i); }
  }

  lemma ClosedClean(s: Fs)
    requires InvP(s, NONE) && !s.dirty && AllClosed(s.tab)
    ensures s.img.ibs == s.ibs && s.img.dat == s.dat
    ensures s.img.dir.nfiles <= s.dir.nfiles
    ensures forall f :: s.img.dir.nfiles <= f < s.dir.nfiles ==> s.ia.used[f] == [] && s.da.used[f] == []
    ensures forall f :: 0 <= f < s.img.dir.nfiles ==> s.img.dir.files[f] == s.dir.files[f]
  {
    hide IStack, DStack, NamesOK, AllFit, AreaOK, FileOK;
    forall i | 0 <= i < |s.ibs| ensures s.img.ibs[i] == s.ibs[i] { assert !StaleI(s.tab, i); }
    forall d | d in s.dat ensures s.img.dat[d] == s.dat[d] { assert !StaleD(s.tab, d); }
    assert s.img.dat.Keys == s.dat.Keys by { assert forall d :: d in s.img.dat.Keys <==> d in s.dat.Keys; }
    forall f | s.img.dir.nfiles <= f < s.dir.nfiles ensures s.ia.used[f] == [] && s.da.used[f] == [] {
      assert FileAt(s.ibs, s.dir.files[f], s.ia.used[f], s.da.used[f], Extra(NONE, f).ei, Extra(NONE, f).ed);
    }
  }

  /** With every file closed, a restart finds a consistent file system with the
      same files; only files that were created and never written may be gone. */
  lemma RemountKeeps(s: Fs)
    requires Inv(s) && AllClosed(s.tab)
    ensures 0 <= s.img.dir.nfiles <= s.dir.nfiles && |s.ia.used| == |s.da.used| == s.dir.nfiles
    ensures Inv(Remounted(s))
    ensures forall f :: 0 <= f < s.dir.nfiles ==>
              if f < s.img.dir.nfiles then
                && s.img.dir.files[f] == s.dir.files[f]
                && Bytes(s.img.dat, Remounted(s).da.used[f], s.img.dir.files[f].size) ==
                   Bytes(s.dat, s.da.used[f], s.dir.files[f].size)
              else s.dir.files[f].size == 0
  {
    ClosedClean(s);
    var n, s' := s.img.dir.nfiles, Remounted(s);
    DropEmpty(s.ia, 0, NumIb(s.base), n);
    DropEmpty(s.da, s.base, s.nsec, n);
    FewerFiles(s.ibs, s.dir.files, s.img.dir.files, s.ia.used, s.da.used, n);
    hide IStack, DStack, AreaOK, AllFit, FilesOK, StaleI, StaleD, Bytes, CStr, EntryFits;
  }

  lemma FewerFiles(ibs: seq<IBlk>, files: seq<LdEntry>, files': seq<LdEntry>, iu: seq<seq<int>>, du: seq<seq<int>>, n: nat)
    requires FilesOK(ibs, files, iu, du, NONE) && n <= |iu| && n <= |files'| && forall f :: 0 <= f < n ==> files'[f] == files[f]
    ensures FilesOK(ibs, files', iu[..n], du[..n], NONE)
  {
    hide FileAt;
    forall f | 0 <= f < n ensures FileAt(ibs, files'[f], iu[..n][f], du[..n][f], Extra(NONE, f).ei, Extra(NONE, f).ed) {
      assert FileAt(ibs, files[f], iu[f], du[f], Extra(NONE, f).ei, Extra(NONE, f).ed);
    }
  }

  // ------------------------------------------------- the empty file system

  /** The image lfscreate writes: both free lists in ascending order. */
  ghost predicate EmptyImage(m: Img, nsec: nat, base: nat) {
    && Geometry(nsec, base)
    && |m.ibs| == NumIb(base)
    && (forall d :: d in m.dat <==> base <= d < nsec)
    && DirFits(m.dir) && m.dir.nfiles == 0 && m.dir.ifree == 0 && m.dir.dfree == base
    && (forall i :: 0 <= i < |m.ibs| ==>
          m.ibs[i] == IBlk(if i + 1 < |m.ibs| then i + 1 else NULL_ID, 0, seq(IBLEN, _ => NULL_ID)))
    && (forall d :: base <= d < nsec ==> NextDb(m.dat[d]) == if d + 1 < nsec then d + 1 else NULL_ID)
  }

  ghost function AllFree(lo: int, hi: int): (a: Area)
    requires lo < hi
    ensures a.used == [] && |a.free| == hi - lo && forall k :: 0 <= k < |a.free| ==> a.free[k] == hi - 1 - k
  {
    Area(Reverse(Range(lo, hi)), [], map i | i in Range(lo, hi) :: Free(if i < hi then hi - 1 - i else 0))
  }

  lemma AllFreeOK(lo: int, hi: int)
    requires lo < hi
    ensures AreaOK(AllFree(lo, hi), lo, hi)
  {
    var a := AllFree(lo, hi);
    forall i | lo <= i < hi ensures i in a.own { assert Range(lo, hi)[i - lo] == i; }
    forall i | i in a.own ensures AtHome(a, i) { assert a.free[hi - 1 - i] == i; }
  }

  ghost function FirstMount(m: Img, nsec: nat, base: nat, tab: seq<Lfl>): Fs
    requires 2 <= base < nsec
  {
    Fs(nsec, base, m, m.dir, false, tab, m.ibs, m.dat, AllFree(0, NumIb(base)), AllFree(base, nsec))
  }

  lemma EmptyChains(m: Img, nsec: nat, base: nat)
    requires EmptyImage(m, nsec, base)
    ensures IStack(m.ibs, 0, AllFree(0, NumIb(base)).free)
    ensures DStack(m.dat, base, AllFree(base, nsec).free)
  {
    var st := AllFree(0, NumIb(base)).free;
    forall k | 0 <= k < |st| ensures 0 <= st[k] < |m.ibs| && m.ibs[st[k]].next == Top(st[..k]) {
      assert st[k] == NumIb(base) - 1 - k;
    }
    var dt := AllFree(base, nsec).free;
    forall k | 0 <= k < |dt| ensures dt[k] in m.dat && NextDb(m.dat[dt[k]]) == Top(dt[..k]) {
      assert dt[k] == nsec - 1 - k;
    }
  }

  lemma EmptyFits(m: Img, nsec: nat, base: nat)
    requires EmptyImage(m, nsec, base)
    ensures AllFit(m.ibs)
  {
  }

  lemma EmptyShape(m: Img, nsec: nat, base: nat, tab: seq<Lfl>)
    requires EmptyImage(m, nsec, base)
    ensures 2 <= base < nsec && m.dir.nfiles == 0 && m.dir.ifree == 0 && m.dir.dfree == base
    ensures Shape(FirstMount(m, nsec, base, tab))
  {
    EmptyFits(m, nsec, base);
    AllFreeOK(0, NumIb(base));
    AllFreeOK(base, nsec);
    hide AreaOK, AllFree, AllFit;
  }

  lemma EmptyInv(m: Img, nsec: nat, base: nat, tab: seq<Lfl>)
    requires EmptyImage(m, nsec, base) && AllClosed(tab)
    ensures 2 <= base < nsec
    ensures Inv(FirstMount(m, nsec, base, tab))
  {
    hide IStack, DStack, AllFree, EmptyImage, AreaOK, AllFit;
    EmptyShape(m, nsec, base, tab);
    EmptyChains(m, nsec, base);
  }
}
