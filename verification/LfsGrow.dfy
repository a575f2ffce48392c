// Giving a file its next data block, and storing a byte in the current block.
module LfsGrow {
  import opened LfsLayout
  import opened LfsModel
  import opened LfsSteps

  lemma DataFile(ibs: seq<IBlk>, ilist: int, ich: seq<int>, dch: seq<int>, d: int)
    requires FileOK(ibs, ilist, ich, dch) && ich != []
    requires IBLEN * (|ich| - 1) <= |dch| < IBLEN * |ich|
    requires forall j, k :: 0 <= j < k < |ich| ==> ich[j] != ich[k]
    ensures 0 <= Top(ich) < |ibs| && |ibs[Top(ich)].dba| == IBLEN
    ensures FileOK(ibs[Top(ich) := Pointing(ibs[Top(ich)], |dch| % IBLEN, d)], ilist, ich, dch + [d])
  {
    hide IbOK;
    var n := |ich| - 1;
    assert IbOK(ibs[ich[n]], n, ich, dch);
    LastBlock(ibs[ich[n]], ich, dch, d);
    var ibs' := ibs[Top(ich) := Pointing(ibs[Top(ich)], |dch| % IBLEN, d)];
    forall k | 0 <= k < |ich| ensures 0 <= ich[k] < |ibs'| && IbOK(ibs'[ich[k]], k, ich, dch + [d]) {
      assert IbOK(ibs[ich[k]], k, ich, dch);
      if k < n { FullBlock(ibs[ich[k]], k, ich, dch, d); }
    }
  }

  lemma FullBlock(ib: IBlk, k: nat, ich: seq<int>, dch: seq<int>, d: int)
    requires IbOK(ib, k, ich, dch) && IBLEN * (k + 1) <= |dch|
    ensures IbOK(ib, k, ich, dch + [d])
  {
  }

  lemma LastBlock(ib: IBlk, ich: seq<int>, dch: seq<int>, d: int)
    requires ich != [] && IbOK(ib, |ich| - 1, ich, dch) && IBLEN * (|ich| - 1) <= |dch| < IBLEN * |ich|
    ensures |ib.dba| == IBLEN && IbOK(Pointing(ib, |dch| % IBLEN, d), |ich| - 1, ich, dch + [d])
  {
  }

  /** An index block with pointer j set to d. */
  function Pointing(ib: IBlk, j: nat, d: int): IBlk
    requires j < |ib.dba|
  {
    ib.(dba := ib.dba[j := d])
  }

  /** The condition under which lfsetup allocates a data block for file f. */
  ghost predicate FullData(a: Area, da: Area, f: nat, lo: int, hi: int, nib: int) {
    && AreaOK(a, 0, nib) && AreaOK(da, lo, hi) && f < |a.used| == |da.used| && da.free != []
    && a.used[f] != [] && IBLEN * (|a.used[f]| - 1) <= |da.used[f]| < IBLEN * |a.used[f]|
  }

  lemma GrowDataFiles(ibs: seq<IBlk>, files: seq<LdEntry>, a: Area, da: Area, f: nat, p: Pend, lo: int, hi: int)
    requires FullData(a, da, f, lo, hi, |ibs|)
    requires FilesOK(ibs, files, a.used, da.used, p) && p.f == f && p.ed == 0
    ensures 0 <= Top(a.used[f]) < |ibs| && |ibs[Top(a.used[f])].dba| == IBLEN
    ensures
      var ib := Pointing(ibs[Top(a.used[f])], |da.used[f]| % IBLEN, Top(da.free));
      FilesOK(ibs[Top(a.used[f]) := ib], files, a.used, da.used[f := da.used[f] + [Top(da.free)]], Pend(f, p.ei, 1))
  {
    hide IbOK, AtHome;
    var ich, dch, d := a.used[f], da.used[f], Top(da.free);
    assert FileAt(ibs, files[f], ich, dch, Extra(p, f).ei, Extra(p, f).ed);
    DataFile(ibs, files[f].ilist, ich, dch, d);
    assert a.own[ich[|ich| - 1]] == In(f, |ich| - 1);
    var ibs' := ibs[Top(ich) := Pointing(ibs[Top(ich)], |dch| % IBLEN, d)];
    var q := Pend(f, p.ei, 1);
    forall g | 0 <= g < |a.used|
      ensures FileAt(ibs', files[g], a.used[g], da.used[f := dch + [d]][g], Extra(q, g).ei, Extra(q, g).ed)
    {
      assert FileAt(ibs, files[g], a.used[g], da.used[g], Extra(p, g).ei, Extra(p, g).ed);
      if g != f {
        forall k | 0 <= k < |a.used[g]| ensures ibs'[a.used[g][k]] == ibs[a.used[g][k]] {
          assert a.own[a.used[g][k]] == In(g, k);
        }
        FileFrame(ibs, ibs', files[g].ilist, a.used[g], da.used[g]);
      }
    }
  }

  lemma GrowDataFree(dat: map<int, Sector>, head: int, da: Area, lo: int, hi: int, blk: Sector)
    requires DStack(dat, head, da.free) && AreaOK(da, lo, hi) && da.free != []
    ensures head in dat && head == Top(da.free) && NextDb(dat[head]) == Top(da.free[..|da.free| - 1])
    ensures DStack(dat[head := blk], Top(da.free[..|da.free| - 1]), da.free[..|da.free| - 1])
  {
    hide AtHome;
    var st := da.free;
    var st' := st[..|st| - 1];
    forall k | 0 <= k < |st'|
      ensures st'[k] in dat && st'[k] != head && NextDb(dat[st'[k]]) == Top(st'[..k])
    {
      assert st'[..k] == st[..k];
      assert da.own[st[k]] == Free(k) && da.own[head] == Free(|st| - 1);
    }
  }

  function GrownData(t: Lfl, j: nat, d: int): Lfl
    requires j < |t.iblock.dba|
  {
    t.(iblock := Pointing(t.iblock, j, d), ibdirty := true, dnum := d, dblock := Filled(), at := t.pos % BLKSIZ)
  }

  lemma GrowDataTab(tab: seq<Lfl>, c: nat, files: seq<LdEntry>, ibs: seq<IBlk>, dat: map<int, Sector>, a: Area, da: Area,
                    lo: int, hi: int)
    requires TabOK(tab, files, ibs, dat, a, da) && OneOpener(tab)
    requires c < |tab| && tab[c].used && !tab[c].dbdirty && 0 <= lo
    requires FullData(a, da, tab[c].fidx, lo, hi, |ibs|)
    requires var f := tab[c].fidx; tab[c].inum == Top(a.used[f]) && tab[c].pos == BLKSIZ * |da.used[f]|
    requires 0 <= tab[c].inum < |ibs| && |ibs[tab[c].inum].dba| == IBLEN && tab[c].iblock == ibs[tab[c].inum]
    ensures
      var f := tab[c].fidx;
      var t := GrownData(tab[c], |da.used[f]| % IBLEN, Top(da.free));
      TabOK(tab[c := t], files, ibs[tab[c].inum := t.iblock], dat[Top(da.free) := Filled()], a, Give(da, f))
  {
    var f := tab[c].fidx;
    var d, t := Top(da.free), GrownData(tab[c], |da.used[f]| % IBLEN, Top(da.free));
    GiveOK(da, lo, hi, f);
    assert da.own[d].Free?;
    assert a.own[a.used[f][|a.used[f]| - 1]].f == f;
    assert OpenAt(tab[c], files, ibs, dat, a, da);
    hide AreaOK;
    var tab' := tab[c := t];
    forall b | 0 <= b < |tab|
      ensures OpenAt(tab'[b], files, ibs[tab[c].inum := t.iblock], dat[d := Filled()], a, Give(da, f))
    {
      assert OpenAt(tab[b], files, ibs, dat, a, da);
    }
  }

  lemma GrowDataCoherent(disk: seq<IBlk>, ibs: seq<IBlk>, ddisk: map<int, Sector>, dat: map<int, Sector>,
                         tab: seq<Lfl>, c: nat, j: nat, d: int)
    requires CoherentI(disk, ibs, tab) && CoherentD(ddisk, dat, tab, NULL_ID) && NULL_ID !in dat && d in dat
    requires c < |tab| && tab[c].used && !tab[c].dbdirty && j < |tab[c].iblock.dba|
    requires 0 <= tab[c].inum < |ibs|
    ensures
      var t := GrownData(tab[c], j, d);
      && CoherentI(disk, ibs[tab[c].inum := t.iblock], tab[c := t])
      && CoherentD(ddisk, dat[d := Filled()], tab[c := t], d)
  {
    var t := GrownData(tab[c], j, d);
    StaleKept(tab, c, t);
    var tab' := tab[c := t];
    assert StaleI(tab', t.inum) by { assert tab'[c].used && tab'[c].ibdirty && tab'[c].inum == t.inum; }
    hide StaleI, StaleD;
  }

  /** Rewriting a file's index block does not touch the free list. */
  lemma FreeIndexFrame(ibs: seq<IBlk>, head: int, a: Area, i: int, ib: IBlk)
    requires IStack(ibs, head, a.free) && AreaOK(a, 0, |ibs|)
    requires i in a.own && a.own[i].In?
    ensures IStack(ibs[i := ib], head, a.free)
  {
    hide AtHome;
    var ibs' := ibs[i := ib];
    forall k | 0 <= k < |a.free| ensures ibs'[a.free[k]] == ibs[a.free[k]] {
      assert a.own[a.free[k]] == Free(k);
    }
    IStackFrame(ibs, ibs', head, a.free);
  }

  /** lfdballoc and the code around it in lfsetup. */
  ghost function GrowData(s: Fs, c: nat): Fs
    requires c < |s.tab| && s.tab[c].fidx < |s.da.used| && s.da.free != []
    requires 0 <= s.tab[c].inum < |s.ibs| && |s.tab[c].iblock.dba| == IBLEN
  {
    var f := s.tab[c].fidx;
    var d := Top(s.da.free);
    var t := GrownData(s.tab[c], |s.da.used[f]| % IBLEN, d);
    var dir1 := s.dir.(dfree := Top(s.da.free[..|s.da.free| - 1]));
    s.(dir := dir1, img := s.img.(dir := dir1), dirty := false,
       ibs := s.ibs[t.inum := t.iblock], dat := s.dat[d := Filled()],
       da := Give(s.da, f), tab := s.tab[c := t])
  }

  /** What holds in lfsetup when the block for the end of the file is missing. */
  ghost predicate WantsData(s: Fs, c: nat, p: Pend) {
    && InvP(s, p) && AtEnd(s, c) && s.da.free != []
    && p.f == s.tab[c].fidx && p.ed == 0
    && s.tab[c].pos % BLKSIZ == 0 && p.ei == (if s.tab[c].pos % IDATA == 0 then 1 else 0)
    && s.tab[c].inum == Top(s.ia.used[s.tab[c].fidx])
  }

  /** The blocks of a file whose end is at the end of its last data block. */
  lemma EndOfFile(pos: nat, ni: int, nd: int, ei: nat)
    requires pos % BLKSIZ == 0 && ei == (if pos % IDATA == 0 then 1 else 0)
    requires ni == CeilDiv(pos, IDATA) + ei && nd == CeilDiv(pos, BLKSIZ)
    ensures pos == BLKSIZ * nd && ni == pos / IDATA + 1 && IBLEN * (ni - 1) <= nd < IBLEN * ni
  {
    WholeBlocks(pos, nd);
    hide CeilDiv;
    WholeIndex(pos, nd, CeilDiv(pos, IDATA));
  }

  lemma WholeBlocks(pos: nat, nd: int)
    requires pos % BLKSIZ == 0 && nd == CeilDiv(pos, BLKSIZ)
    ensures pos == BLKSIZ * nd
  {
  }

  lemma WholeIndex(pos: nat, nd: int, ci: int)
    requires pos == BLKSIZ * nd && ci == CeilDiv(pos, IDATA)
    ensures ci == pos / IDATA + (if pos % IDATA == 0 then 0 else 1)
    ensures IBLEN * (pos / IDATA) <= nd < IBLEN * (pos / IDATA + 1)
  {
    var q, r := pos / IDATA, pos % IDATA;
    assert pos == IDATA * q + r;
  }

  /** The two topmost blocks of a free list lie in the area. */
  lemma FreeTop(a: Area, lo: int, hi: int)
    requires AreaOK(a, lo, hi) && a.free != []
    ensures lo <= Top(a.free) < hi && (|a.free| > 1 ==> lo <= Top(a.free[..|a.free| - 1]) < hi)
    ensures |a.free| == 1 ==> Top(a.free[..|a.free| - 1]) == NULL_ID
  {
    hide AtHome;
    var fr := a.free;
    assert fr[|fr| - 1] in a.own;
    if |fr| > 1 { assert fr[|fr| - 2] in a.own; }
  }

  lemma WantsDataFacts(s: Fs, c: nat, p: Pend)
    requires WantsData(s, c, p)
    ensures FullData(s.ia, s.da, s.tab[c].fidx, s.base, s.nsec, |s.ibs|)
    ensures
      var f := s.tab[c].fidx;
      var d := Top(s.da.free);
      && s.tab[c].pos == BLKSIZ * |s.da.used[f]|
      && 0 <= s.tab[c].inum < |s.ibs| && |s.ibs[s.tab[c].inum].dba| == IBLEN
      && s.tab[c].iblock == s.ibs[s.tab[c].inum]
      && s.base <= d < s.nsec && d in s.dat && Int32(d)
      && OwnedBy(s.ia, s.tab[c].inum, f)
      && NULL_ID !in s.dat && Int32(Top(s.da.free[..|s.da.free| - 1]))
  {
    hide IStack, DStack, CoherentI, CoherentD, DirCoherent, NamesOK, OneOpener, AllFit, AreaOK, CeilDiv, CStr;
    var f := s.tab[c].fidx;
    var ich := s.ia.used[f];
    assert FileAt(s.ibs, s.dir.files[f], ich, s.da.used[f], Extra(p, f).ei, Extra(p, f).ed);
    FreeTop(s.da, s.base, s.nsec);
    EndOfFile(s.tab[c].pos, |ich|, |s.da.used[f]|, p.ei);
    assert IbOK(s.ibs[ich[|ich| - 1]], |ich| - 1, ich, s.da.used[f]);
    assert OpenAt(s.tab[c], s.dir.files, s.ibs, s.dat, s.ia, s.da);
  }

  lemma GrowDataShape(s: Fs, c: nat, p: Pend)
    requires WantsData(s, c, p)
    requires 0 <= s.tab[c].inum < |s.ibs| && |s.tab[c].iblock.dba| == IBLEN
    ensures Shape(GrowData(s, c))
  {
    hide IStack, DStack, CoherentI, CoherentD, TabOK, DirCoherent, NamesOK, OneOpener, FilesOK, AtHome;
    WantsDataFacts(s, c, p);
    GiveOK(s.da, s.base, s.nsec, s.tab[c].fidx);
    hide AreaOK;
    var s' := GrowData(s, c);
    assert IbFits(s.ibs[s.tab[c].inum]);
    assert IbFits(s'.ibs[s.tab[c].inum]);
    assert AllFit(s'.ibs);
    assert DirFits(s'.dir);
  }

  lemma GrowDataKeeps(s: Fs, c: nat, p: Pend)
    requires WantsData(s, c, p)
    ensures 0 <= s.tab[c].inum < |s.ibs| && |s.tab[c].iblock.dba| == IBLEN
    ensures InvP(GrowData(s, c), Pend(s.tab[c].fidx, p.ei, 1))
  {
    hide AreaOK, IbOK, AllFit, FileAt, IStack, DStack, TabOK, CoherentI, CoherentD, StaleD, StaleI, FullData,
         FilesOK, NamesOK, EntryFits, AtHome;
    WantsDataFacts(s, c, p);
    GrowDataShape(s, c, p);
    var f, s' := s.tab[c].fidx, GrowData(s, c);
    GrowDataFiles(s.ibs, s.dir.files, s.ia, s.da, f, p, s.base, s.nsec);
    GrowDataFree(s.dat, s.dir.dfree, s.da, s.base, s.nsec, Filled());
    GrowDataCoherent(s.img.ibs, s.ibs, s.img.dat, s.dat, s.tab, c, |s.da.used[f]| % IBLEN, Top(s.da.free));
    GrowDataTab(s.tab, c, s.dir.files, s.ibs, s.dat, s.ia, s.da, s.base, s.nsec);
    FreeIndexFrame(s.ibs, s.dir.ifree, s.ia, s.tab[c].inum, s'.tab[c].iblock);
    SameNames(s.dir, s'.dir);
  }

  // ------------------------------------------------------ storing one byte

  function Stored(t: Lfl, ch: byte): Lfl
    requires t.at < BLKSIZ
  {
    t.(dblock := t.dblock[t.at := ch], at := t.at + 1, pos := t.pos + 1, dbdirty := true)
  }

  function NewSize(e: LdEntry, pos: nat): LdEntry {
    if pos >= e.size then e.(size := e.size + 1) else e
  }

  /** The body of lflputc after lfsetup: the byte goes into the cached block. */
  ghost function PutByte(s: Fs, c: nat, ch: byte): Fs
    requires c < |s.tab| && s.tab[c].fidx < |s.dir.files| && s.tab[c].at < BLKSIZ
  {
    var t := s.tab[c];
    var f := t.fidx;
    s.(dir := s.dir.(files := s.dir.files[f := NewSize(s.dir.files[f], t.pos)]),
       dirty := s.dirty || t.pos >= s.dir.files[f].size,
       dat := s.dat[t.dnum := t.dblock[t.at := ch]],
       tab := s.tab[c := Stored(t, ch)])
  }

  /** The state lfsetup leaves: the current block is cached, and any block it
      had to allocate is the one for the byte about to be written. */
  ghost predicate Ready(s: Fs, c: nat, p: Pend) {
    && InvP(s, p) && c < |s.tab| && s.tab[c].used && s.tab[c].at < BLKSIZ
    && var t := s.tab[c];
    && var f := t.fidx;
    && f < s.dir.nfiles <= |s.dir.files|
    && (p == Pend(f, 0, 0) || t.pos == s.dir.files[f].size)
    && p.f == f
    && (p.ed == 1 ==> t.dnum == Top(s.da.used[f]))
    && Sized(NewSize(s.dir.files[f], t.pos).size, s.ia.used[f], s.da.used[f], 0, 0)
  }

  lemma PutByteFiles(ibs: seq<IBlk>, files: seq<LdEntry>, iu: seq<seq<int>>, du: seq<seq<int>>, p: Pend, e: LdEntry)
    requires FilesOK(ibs, files, iu, du, p) && 0 <= p.f < |iu|
    requires e.ilist == files[p.f].ilist && Sized(e.size, iu[p.f], du[p.f], 0, 0)
    ensures FilesOK(ibs, files[p.f := e], iu, du, NONE)
  {
    hide FileOK, Sized;
    forall g | 0 <= g < |iu|
      ensures FileAt(ibs, files[p.f := e][g], iu[g], du[g], Extra(NONE, g).ei, Extra(NONE, g).ed)
    {
      assert FileAt(ibs, files[g], iu[g], du[g], Extra(p, g).ei, Extra(p, g).ed);
    }
  }

  lemma FreeDataFrame(dat: map<int, Sector>, head: int, da: Area, lo: int, hi: int, d: int, blk: Sector)
    requires DStack(dat, head, da.free) && AreaOK(da, lo, hi)
    requires d in da.own && da.own[d].In?
    ensures DStack(dat[d := blk], head, da.free)
  {
    hide AtHome;
    forall k | 0 <= k < |da.free| ensures da.free[k] != d { assert da.own[da.free[k]] == Free(k); }
  }

  lemma PutByteTab(tab: seq<Lfl>, c: nat, files: seq<LdEntry>, ibs: seq<IBlk>, dat: map<int, Sector>, a: Area, da: Area,
                   ch: byte, e: LdEntry)
    requires TabOK(tab, files, ibs, dat, a, da) && OneOpener(tab)
    requires c < |tab| && tab[c].used && tab[c].at < BLKSIZ && tab[c].fidx < |files|
    requires var o := files[tab[c].fidx]; e.name == o.name && e.size >= o.size && e.size > tab[c].pos
    ensures
      var t := tab[c];
      TabOK(tab[c := Stored(t, ch)], files[t.fidx := e], ibs, dat[t.dnum := t.dblock[t.at := ch]], a, da)
  {
    var t := tab[c];
    var tab', files', dat' := tab[c := Stored(t, ch)], files[t.fidx := e], dat[t.dnum := t.dblock[t.at := ch]];
    assert OpenAt(t, files, ibs, dat, a, da);
    assert t.at + 1 < BLKSIZ ==> (t.pos + 1) % BLKSIZ == t.at + 1 && (t.pos + 1) / BLKSIZ == t.pos / BLKSIZ;
    forall b | 0 <= b < |tab| ensures OpenAt(tab'[b], files', ibs, dat', a, da) {
      assert OpenAt(tab[b], files, ibs, dat, a, da);
    }
  }

  lemma PutByteCoherent(disk: seq<IBlk>, ibs: seq<IBlk>, ddisk: map<int, Sector>, dat: map<int, Sector>,
                        tab: seq<Lfl>, c: nat, ch: byte, newest: int)
    requires CoherentI(disk, ibs, tab) && CoherentD(ddisk, dat, tab, newest) && NULL_ID !in dat
    requires c < |tab| && tab[c].used && tab[c].at < BLKSIZ && tab[c].dnum in dat
    requires newest == NULL_ID || newest == tab[c].dnum
    ensures
      var t := tab[c];
      && CoherentI(disk, ibs, tab[c := Stored(t, ch)])
      && CoherentD(ddisk, dat[t.dnum := t.dblock[t.at := ch]], tab[c := Stored(t, ch)], NULL_ID)
  {
    var t := tab[c];
    StaleKept(tab, c, Stored(t, ch));
    var tab' := tab[c := Stored(t, ch)];
    assert StaleD(tab', t.dnum) by { assert tab'[c].used && tab'[c].dbdirty && tab'[c].dnum == t.dnum; }
    hide StaleI, StaleD;
  }

  /** The largest file the disk can hold is smaller than 2^32 bytes. */
  lemma SizeFits(s: Fs, f: nat, size: int)
    requires Shape(s) && f < s.dir.nfiles && Sized(size, s.ia.used[f], s.da.used[f], 0, 0)
    ensures UInt32(size)
  {
    OwnedAtMost(s.da, s.base, s.nsec, f);
    assert size <= BLKSIZ * |s.da.used[f]|;
  }

  lemma PutByteKeeps(s: Fs, c: nat, p: Pend, ch: byte)
    requires Ready(s, c, p)
    ensures InvP(PutByte(s, c, ch), NONE)
  {
    hide AreaOK, AllFit, FileAt, IStack, DStack, CoherentI, CoherentD, StaleD, StaleI, FilesOK, NamesOK, AtHome, TabOK;
    var t := s.tab[c];
    var f, s' := t.fidx, PutByte(s, c, ch);
    var e := NewSize(s.dir.files[f], t.pos);
    TabHas(s.tab, c, s.dir.files, s.ibs, s.dat, s.ia, s.da);
    SizeFits(s, f, e.size);
    PutByteFiles(s.ibs, s.dir.files, s.ia.used, s.da.used, p, e);
    FreeDataFrame(s.dat, s.dir.dfree, s.da, s.base, s.nsec, t.dnum, s'.dat[t.dnum]);
    PutByteTab(s.tab, c, s.dir.files, s.ibs, s.dat, s.ia, s.da, ch, e);
    PutByteCoherent(s.img.ibs, s.ibs, s.img.dat, s.dat, s.tab, c, ch, FreshBlock(s.da.used, p));
    SameNames(s.dir, s'.dir);
    assert EntryFits(s.dir.files[f]);
  }

  lemma TabHas(tab: seq<Lfl>, c: nat, files: seq<LdEntry>, ibs: seq<IBlk>, dat: map<int, Sector>, a: Area, da: Area)
    requires TabOK(tab, files, ibs, dat, a, da) && c < |tab|
    ensures OpenAt(tab[c], files, ibs, dat, a, da)
  {
  }
}
