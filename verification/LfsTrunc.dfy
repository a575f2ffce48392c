// The states that lftruncate passes through: the first k index blocks of the
// chain are emptied on disk and the first n data blocks are on the free list.
module LfsTrunc {
  import opened LfsLayout
  import opened LfsModel
  import opened LfsSteps
  import opened LfsGrow
  import opened LfsFiles
  import opened LfsImage
  import opened LfsAbs
  import opened LfsSetup

  ghost predicate ChainAt(m: seq<IBlk>, ibs: seq<IBlk>, ich: seq<int>, ifree: int, k: nat) {
    forall j :: 0 <= j < |ich| ==>
      0 <= ich[j] < |m| == |ibs| && m[ich[j]] == if j < k then Emptied(ich, j, ifree) else ibs[ich[j]]
  }

  ghost predicate TruncAt(s: Fs, m: Img, dfree: int, f: nat, k: nat, n: nat) {
    && f < |s.ia.used| == |s.da.used| && n <= |s.da.used[f]|
    && SameElsewhereI(s.ia, f, s.img.ibs, m.ibs) && SameElsewhereD(s.da, f, s.img.dat, m.dat)
    && ChainAt(m.ibs, s.ibs, s.ia.used[f], s.dir.ifree, k)
    && DStack(m.dat, dfree, s.da.free + s.da.used[f][..n])
    && (n > 0 ==> m.dir.nfiles == s.dir.nfiles && DirFits(m.dir))
  }

  lemma FreeCurrent(s: Fs)
    requires InvP(s, NONE)
    ensures CurrentD(s.img.dat, s.dat, s.da.free)
  {
    hide IStack, CoherentI, FilesOK, DirCoherent, NamesOK, OneOpener, AllFit, DirFits, AtHome;
    forall k | 0 <= k < |s.da.free|
      ensures var d := s.da.free[k]; d in s.dat && d in s.img.dat && s.img.dat[d] == s.dat[d]
    {
      var d := s.da.free[k];
      assert d in s.da.own && s.da.own[d] == Free(k);
      assert !StaleD(s.tab, d);
    }
  }

  lemma DStackFrame(dat: map<int, Sector>, dat': map<int, Sector>, head: int, st: seq<int>)
    requires DStack(dat, head, st) && CurrentD(dat', dat, st)
    ensures DStack(dat', head, st)
  {
  }

  lemma TruncStart(s: Fs, c: nat)
    requires AtStart0(s, c)
    ensures TruncAt(s, s.img, s.dir.dfree, s.tab[c].fidx, 0, 0)
  {
    TruncStartFacts(s, c);
    hide InvP, DStack;
    assert s.da.free + s.da.used[s.tab[c].fidx][..0] == s.da.free;
  }

  /** File c is open and clean. */
  ghost predicate AtStart0(s: Fs, c: nat) {
    InvP(s, NONE) && c < |s.tab| && s.tab[c].used && !s.tab[c].ibdirty && !s.tab[c].dbdirty
  }

  lemma TruncStartFacts(s: Fs, c: nat)
    requires AtStart0(s, c)
    ensures s.tab[c].fidx < |s.ia.used| == |s.da.used| == s.dir.nfiles <= |s.dir.files|
    ensures CurrentI(s.img.ibs, s.ibs, s.ia.used[s.tab[c].fidx])
    ensures DStack(s.img.dat, s.dir.dfree, s.da.free)
    ensures FileAt(s.ibs, s.dir.files[s.tab[c].fidx], s.ia.used[s.tab[c].fidx], s.da.used[s.tab[c].fidx], 0, 0)
  {
    hide IStack, CoherentI, CoherentD, DirCoherent, NamesOK, AllFit, DirFits, AreaOK, TabOK, DStack, FileAt;
    var f := s.tab[c].fidx;
    TabHas(s.tab, c, s.dir.files, s.ibs, s.dat, s.ia, s.da);
    OneSettles(s.tab, c);
    SettledBlocks(s, f);
    FreeCurrent(s);
    DStackFrame(s.dat, s.img.dat, s.dir.dfree, s.da.free);
    assert FileAt(s.ibs, s.dir.files[f], s.ia.used[f], s.da.used[f], Extra(NONE, f).ei, Extra(NONE, f).ed);
  }

  lemma DStackPush(dat: map<int, Sector>, head: int, st: seq<int>, d: int, blk: Sector)
    requires DStack(dat, head, st) && d in dat && d !in st && NextDb(blk) == head
    ensures DStack(dat[d := blk], d, st + [d])
  {
    var st' := st + [d];
    forall k | 0 <= k < |st'| ensures st'[k] in dat[d := blk] && NextDb(dat[d := blk][st'[k]]) == Top(st'[..k]) {
      assert st'[..k] == st[..k];
      if k == |st| { assert st[..k] == st; }
    }
  }

  /** The n-th data block is in none of the places the free list has grown to. */
  lemma NotYetFree(da: Area, lo: int, hi: int, f: nat, n: nat)
    requires AreaOK(da, lo, hi) && f < |da.used| && n < |da.used[f]|
    ensures da.used[f][n] !in da.free + da.used[f][..n]
    ensures lo <= da.used[f][n] < hi && OwnedBy(da, da.used[f][n], f)
  {
    hide AtHome;
    var d := da.used[f][n];
    assert da.own[d] == In(f, n);
    forall k | 0 <= k < |da.free| ensures da.free[k] != d { assert da.own[da.free[k]] == Free(k); }
    forall k | 0 <= k < n ensures da.used[f][k] != d { assert da.own[da.used[f][k]] == In(f, k); }
  }

  lemma TruncFree(s: Fs, m: Img, dfree: int, f: nat, k: nat, n: nat, blk: Sector, dir: Dir)
    requires Shape(s) && TruncAt(s, m, dfree, f, k, n) && n < |s.da.used[f]| && NextDb(blk) == dfree
    requires forall d :: s.base <= d < s.nsec ==> d in m.dat
    requires dir.nfiles == s.dir.nfiles && DirFits(dir)
    ensures TruncAt(s, m.(dat := m.dat[s.da.used[f][n] := blk], dir := dir), s.da.used[f][n], f, k, n + 1)
  {
    hide AreaOK, DirFits, AllFit, NextDb, ChainAt, DStack, SameElsewhereI;
    var d := s.da.used[f][n];
    NotYetFree(s.da, s.base, s.nsec, f, n);
    DStackPush(m.dat, dfree, s.da.free + s.da.used[f][..n], d, blk);
    OneMore(s.da.free, s.da.used[f], n);
    OwnedChange(s.da, f, s.img.dat, m.dat, d, blk);
    hide SameElsewhereD;
  }

  lemma OneMore(a: seq<int>, b: seq<int>, n: nat)
    requires n < |b|
    ensures a + b[..n] + [b[n]] == a + b[..n + 1]
  {
  }

  lemma OwnedChange(a: Area, f: nat, dat: map<int, Sector>, dat': map<int, Sector>, d: int, blk: Sector)
    requires SameElsewhereD(a, f, dat, dat') && OwnedBy(a, d, f) && d in dat'
    ensures SameElsewhereD(a, f, dat, dat'[d := blk])
  {
  }

  lemma TruncEmptied(s: Fs, m: Img, dfree: int, f: nat, k: nat, n: nat)
    requires Shape(s) && TruncAt(s, m, dfree, f, k, n) && k < |s.ia.used[f]|
    ensures 0 <= s.ia.used[f][k] < |m.ibs|
    ensures
      var i := s.ia.used[f][k];
      TruncAt(s, m.(ibs := m.ibs[i := Emptied(s.ia.used[f], k, s.dir.ifree)]), dfree, f, k + 1, n)
  {
    hide DirFits, AllFit, DStack, AtHome, Emptied, SameElsewhereD;
    var ich := s.ia.used[f];
    assert s.ia.own[ich[k]] == In(f, k);
    forall j | 0 <= j < |ich| && j != k ensures ich[j] != ich[k] { assert s.ia.own[ich[j]] == In(f, j); }
  }

  /** The logical blocks once the chain has been emptied. */
  ghost function OverI(a: Area, f: nat, ibs: seq<IBlk>, m: seq<IBlk>): (r: seq<IBlk>)
    requires |m| == |ibs|
    ensures |r| == |ibs| && SameElsewhereI(a, f, ibs, r) && WrittenI(a, f, m, r)
  {
    seq(|ibs|, i requires 0 <= i < |ibs| => if OwnedBy(a, i, f) then m[i] else ibs[i])
  }

  ghost function OverD(a: Area, f: nat, dat: map<int, Sector>, m: map<int, Sector>): (r: map<int, Sector>)
    requires dat.Keys <= m.Keys
    ensures r.Keys == dat.Keys && SameElsewhereD(a, f, dat, r) && WrittenD(a, f, m, r)
  {
    map d | d in dat :: if OwnedBy(a, d, f) then m[d] else dat[d]
  }

  /** The state lftruncate ends in. */
  ghost function TruncEnd(s: Fs, m: Img, dfree: int, c: nat): Fs
    requires c < |s.tab| && s.tab[c].fidx < |s.ia.used| == |s.da.used| && s.tab[c].fidx < |s.dir.files|
    requires s.ia.used[s.tab[c].fidx] != [] && |m.ibs| == |s.ibs| && s.dat.Keys <= m.dat.Keys
  {
    var f := s.tab[c].fidx;
    s.(img := m, tab := s.tab[c := Reset(s.tab[c])],
       dir := s.dir.(dfree := dfree, ifree := s.ia.used[f][0],
                     files := s.dir.files[f := s.dir.files[f].(size := 0, ilist := NULL_ID)]),
       dirty := true,
       ibs := OverI(s.ia, f, s.ibs, m.ibs), dat := OverD(s.da, f, s.dat, m.dat),
       ia := Release(s.ia, f, true), da := Release(s.da, f, false))
  }

  lemma EndChain(s: Fs, m: Img, dfree: int, f: nat)
    requires Shape(s) && f < |s.ia.used| == |s.da.used| && TruncAt(s, m, dfree, f, |s.ia.used[f]|, |s.da.used[f]|)
    requires |m.ibs| == |s.ibs|
    ensures ChainEmptied(OverI(s.ia, f, s.ibs, m.ibs), s.ia.used[f], s.dir.ifree)
  {
    hide DirFits, AllFit, DStack, AtHome, Emptied, SameElsewhereD, SameElsewhereI, OverI;
    var ich := s.ia.used[f];
    var r := OverI(s.ia, f, s.ibs, m.ibs);
    forall k | 0 <= k < |ich| ensures 0 <= ich[k] < |r| && r[ich[k]] == Emptied(ich, k, s.dir.ifree) {
      assert s.ia.own[ich[k]] == In(f, k);
    }
  }

  lemma EndStack(s: Fs, m: Img, dfree: int, f: nat)
    requires InvP(s, NONE) && f < |s.ia.used| == |s.da.used| && TruncAt(s, m, dfree, f, |s.ia.used[f]|, |s.da.used[f]|)
    requires s.dat.Keys <= m.dat.Keys
    ensures DStack(OverD(s.da, f, s.dat, m.dat), dfree, s.da.free + s.da.used[f])
  {
    FreeCurrent(s);
    EndCurrent(s, m, dfree, f);
    hide InvP, DStack, OverD;
    assert s.da.used[f][..|s.da.used[f]|] == s.da.used[f];
    DStackFrame(m.dat, OverD(s.da, f, s.dat, m.dat), dfree, s.da.free + s.da.used[f]);
  }

  lemma EndCurrent(s: Fs, m: Img, dfree: int, f: nat)
    requires Shape(s) && f < |s.ia.used| == |s.da.used| && TruncAt(s, m, dfree, f, |s.ia.used[f]|, |s.da.used[f]|)
    requires s.dat.Keys <= m.dat.Keys && CurrentD(s.img.dat, s.dat, s.da.free)
    ensures CurrentD(OverD(s.da, f, s.dat, m.dat), m.dat, s.da.free + s.da.used[f])
  {
    hide DirFits, AllFit, DStack, AtHome, ChainAt, SameElsewhereI, OverD;
    var st, r := s.da.free + s.da.used[f], OverD(s.da, f, s.dat, m.dat);
    forall k | 0 <= k < |st| ensures st[k] in m.dat && st[k] in r && r[st[k]] == m.dat[st[k]] {
      var d := st[k];
      if k < |s.da.free| {
        assert d == s.da.free[k] && d in s.da.own && s.da.own[d] == Free(k);
      } else {
        assert d == s.da.used[f][k - |s.da.free|] && d in s.da.own && s.da.own[d] == In(f, k - |s.da.free|);
      }
      assert d in s.dat && d in s.dat.Keys && d in m.dat.Keys && d in r.Keys;
    }
  }

  lemma TruncDone(s: Fs, m: Img, dfree: int, c: nat)
    requires AtStart0(s, c) && s.tab[c].fidx < |s.ia.used| == |s.da.used| && s.tab[c].fidx < |s.dir.files|
    requires s.ia.used[s.tab[c].fidx] != [] && s.da.used[s.tab[c].fidx] != []
    requires |m.ibs| == |s.ibs| && m.dat.Keys == s.dat.Keys
    requires var f := s.tab[c].fidx; TruncAt(s, m, dfree, f, |s.ia.used[f]|, |s.da.used[f]|)
    ensures InvP(TruncEnd(s, m, dfree, c), NONE)
    ensures IsOpen(Abs(s), c) && Abs(TruncEnd(s, m, dfree, c)) == Refilled(Abs(s), c, [], 0)
  {
    hide InvP, Abs;
    TruncatedEnd(s, m, dfree, c);
    TruncKeeps(s, TruncEnd(s, m, dfree, c), c);
    AbsTrunc(s, TruncEnd(s, m, dfree, c), c);
  }

  lemma TruncatedEnd(s: Fs, m: Img, dfree: int, c: nat)
    requires AtStart0(s, c) && s.tab[c].fidx < |s.ia.used| == |s.da.used| && s.tab[c].fidx < |s.dir.files|
    requires s.ia.used[s.tab[c].fidx] != [] && s.da.used[s.tab[c].fidx] != []
    requires |m.ibs| == |s.ibs| && m.dat.Keys == s.dat.Keys
    requires var f := s.tab[c].fidx; TruncAt(s, m, dfree, f, |s.ia.used[f]|, |s.da.used[f]|)
    ensures Truncated(s, TruncEnd(s, m, dfree, c), c)
  {
    hide InvP, DStack, OverD, OverI, Release, ChainEmptied, SameElsewhereD, SameElsewhereI, WrittenD, WrittenI, DirFits, ChainAt;
    var f := s.tab[c].fidx;
    ShapeOf(s);
    EndChain(s, m, dfree, f);
    EndStack(s, m, dfree, f);
  }

  lemma ShapeOf(s: Fs)
    requires InvP(s, NONE)
    ensures Shape(s)
  {
  }

  lemma DataKeys(m: Img, nsec: nat, base: nat)
    requires forall d :: d in m.dat <==> base <= d < nsec
    ensures forall d :: base <= d < nsec ==> d in m.dat
  {
  }

  /** The pointers of the k-th index block are the file's data blocks, then nulls. */
  lemma PointersOf(ib: IBlk, k: nat, ich: seq<int>, dch: seq<int>, s: Fs)
    requires IbOK(ib, k, ich, dch) && Shape(s)
    requires exists f :: 0 <= f < |s.da.used| && s.da.used[f] == dch
    ensures |ib.dba| == IBLEN
    ensures forall i :: 0 <= i < IBLEN ==> ib.dba[i] == Nth(dch, IBLEN * k + i)
    ensures forall i :: 0 <= i < |dch| ==> s.base <= dch[i] < s.nsec
  {
    hide AtHome, AllFit, DirFits;
    var f :| 0 <= f < |s.da.used| && s.da.used[f] == dch;
    forall i | 0 <= i < |dch| ensures s.base <= dch[i] < s.nsec { assert s.da.used[f][i] in s.da.own; }
  }

  lemma ClearedFits(dir: Dir, f: nat)
    requires DirFits(dir) && f < |dir.files|
    ensures DirFits(dir.(files := dir.files[f := dir.files[f].(ilist := NULL_ID, size := 0)]))
  {
  }

  /** The chain of a non-empty file: as many index blocks as its data blocks need,
      and none of them the head of the free list. */
  ghost predicate Planned(s: Fs, f: nat) {
    && Shape(s) && f < |s.ia.used| == |s.da.used| && s.ia.used[f] != [] && s.da.used[f] != []
    && IBLEN * (|s.ia.used[f]| - 1) < |s.da.used[f]| <= IBLEN * |s.ia.used[f]|
    && (forall k :: 0 <= k < |s.ia.used[f]| ==> s.ia.used[f][k] != s.dir.ifree && s.ia.used[f][k] >= 0)
  }

  /** What lftruncate relies on when it starts on a non-empty file. */
  lemma TruncPlan(s: Fs, c: nat)
    requires AtStart0(s, c) && s.tab[c].fidx < |s.dir.files| && s.dir.files[s.tab[c].fidx].size > 0
    ensures DirFits(s.dir) && Planned(s, s.tab[c].fidx)
    ensures s.dir.files[s.tab[c].fidx].ilist == s.ia.used[s.tab[c].fidx][0]
  {
    TruncStartFacts(s, c);
    var f := s.tab[c].fidx;
    NotHead(s, f);
    ShapeOf(s);
    hide InvP, CurrentI, DStack, IbOK, DirFits, AllFit, AreaOK;
    assert DirFits(s.dir);
    CeilRatio(s.dir.files[f].size);
  }

  lemma CeilRatio(size: int)
    requires size > 0
    ensures CeilDiv(size, IDATA) >= 1 && CeilDiv(size, BLKSIZ) >= 1
    ensures IBLEN * (CeilDiv(size, IDATA) - 1) < CeilDiv(size, BLKSIZ) <= IBLEN * CeilDiv(size, IDATA)
  {
  }

  /** A file's index block is never the head of the free list. */
  lemma NotHead(s: Fs, f: nat)
    requires InvP(s, NONE) && f < |s.ia.used|
    ensures forall k :: 0 <= k < |s.ia.used[f]| ==> s.ia.used[f][k] != s.dir.ifree && s.ia.used[f][k] >= 0
  {
    hide DStack, CoherentI, CoherentD, DirCoherent, NamesOK, AllFit, DirFits, TabOK, AtHome, FilesOK;
    forall k | 0 <= k < |s.ia.used[f]| ensures s.ia.used[f][k] != s.dir.ifree && s.ia.used[f][k] >= 0 {
      assert s.ia.used[f][k] in s.ia.own && s.ia.own[s.ia.used[f][k]] == In(f, k);
      if s.ia.free != [] { assert s.ia.own[s.ia.free[|s.ia.free| - 1]].Free?; }
    }
  }

  /** The k-th index block, as read back from the disk, before it is emptied. */
  lemma TruncNext(s: Fs, m: Img, dfree: int, f: nat, k: nat, n: nat)
    requires InvP(s, NONE) && TruncAt(s, m, dfree, f, k, n) && k < |s.ia.used[f]|
    ensures |m.ibs| == |s.ibs| == NumIb(s.base) && 0 <= s.ia.used[f][k] < |m.ibs|
    ensures IbOK(m.ibs[s.ia.used[f][k]], k, s.ia.used[f], s.da.used[f])
    ensures IbFits(Emptied(s.ia.used[f], k, s.dir.ifree))
    ensures
      var next := m.ibs[s.ia.used[f][k]].next;
      Emptied(s.ia.used[f], k, s.dir.ifree) == Cleared(0).(next := if next == NULL_ID then s.dir.ifree else next)
  {
    hide IStack, DStack, CoherentI, CoherentD, DirCoherent, NamesOK, AllFit, TabOK, AtHome, SameElsewhereD;
    var ich := s.ia.used[f];
    assert FileAt(s.ibs, s.dir.files[f], ich, s.da.used[f], Extra(NONE, f).ei, Extra(NONE, f).ed);
    assert IbOK(s.ibs[ich[k]], k, ich, s.da.used[f]);
    if k + 1 < |ich| { assert ich[k + 1] in s.ia.own; }
    assert Emptied(ich, k, s.dir.ifree).dba == Cleared(0).dba;
  }

  lemma TruncKeys(s: Fs, m: Img, dfree: int, f: nat, k: nat, n: nat)
    requires InvP(s, NONE) && TruncAt(s, m, dfree, f, k, n)
    ensures |m.ibs| == |s.ibs| && m.dat.Keys == s.dat.Keys
  {
    hide IStack, DStack, CoherentI, CoherentD, DirCoherent, NamesOK, AllFit, TabOK, AreaOK, FilesOK, DirFits;
    assert forall d :: d in m.dat.Keys <==> d in s.dat.Keys;
  }
}
