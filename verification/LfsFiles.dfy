// Whole-file steps: truncating, creating, opening and closing a file, laying
// down an empty file system, and what the disk alone says about a file.
module LfsFiles {
  import opened LfsLayout
  import opened LfsModel
  import opened LfsSteps

  // ------------------------------------------------------------ truncation

  /** What lftruncate leaves in the k-th index block of the chain. */
  function Emptied(ich: seq<int>, k: nat, ifree: int): IBlk {
    IBlk(if k + 1 < |ich| then ich[k + 1] else ifree, 0, seq(IBLEN, _ => NULL_ID))
  }

  ghost predicate ChainEmptied(ibs: seq<IBlk>, ich: seq<int>, ifree: int) {
    forall k :: 0 <= k < |ich| ==> 0 <= ich[k] < |ibs| && ibs[ich[k]] == Emptied(ich, k, ifree)
  }

  ghost predicate SameElsewhereI(a: Area, f: nat, ibs: seq<IBlk>, ibs': seq<IBlk>) {
    |ibs'| == |ibs| && forall i :: 0 <= i < |ibs| && !OwnedBy(a, i, f) ==> ibs'[i] == ibs[i]
  }

  ghost predicate SameElsewhereD(a: Area, f: nat, dat: map<int, Sector>, dat': map<int, Sector>) {
    dat'.Keys == dat.Keys && forall d :: d in dat && !OwnedBy(a, d, f) ==> dat'[d] == dat[d]
  }

  /** The blocks of file f are on disk as they are in memory. */
  ghost predicate WrittenI(a: Area, f: nat, disk: seq<IBlk>, ibs: seq<IBlk>) {
    forall i :: 0 <= i < |ibs| && OwnedBy(a, i, f) && i < |disk| ==> disk[i] == ibs[i]
  }

  ghost predicate WrittenD(a: Area, f: nat, disk: map<int, Sector>, dat: map<int, Sector>) {
    forall d :: d in dat && OwnedBy(a, d, f) && d in disk ==> disk[d] == dat[d]
  }

  /** One link of the emptied chain once it sits on the free list. */
  lemma SplicedLink(fr: seq<int>, ich: seq<int>, k: nat)
    requires |fr| <= k < |fr| + |ich|
    ensures
      var st := fr + Reverse(ich);
      var j := |ich| - 1 - (k - |fr|);
      st[k] == ich[j] && Top(st[..k]) == Emptied(ich, j, Top(fr)).next
  {
    var st := fr + Reverse(ich);
    if k == |fr| {
      assert st[..k] == fr;
    } else {
      assert Top(st[..k]) == st[k - 1];
    }
  }

  /** The emptied chain, spliced in front of the free list, is a free list. */
  lemma SpliceFree(ibs: seq<IBlk>, ibs': seq<IBlk>, head: int, a: Area, f: nat)
    requires IStack(ibs, head, a.free) && AreaOK(a, 0, |ibs|) && f < |a.used| && a.used[f] != []
    requires SameElsewhereI(a, f, ibs, ibs') && ChainEmptied(ibs', a.used[f], head)
    ensures IStack(ibs', a.used[f][0], a.free + Reverse(a.used[f]))
  {
    hide AtHome;
    var ich := a.used[f];
    var n := |a.free|;
    var st := a.free + Reverse(ich);
    forall k | 0 <= k < n ensures 0 <= a.free[k] < |ibs'| && ibs'[a.free[k]].next == Top(st[..k]) {
      assert st[..k] == a.free[..k];
      assert a.own[a.free[k]] == Free(k);
    }
    hide AreaOK, SameElsewhereI, Emptied;
    forall k | n <= k < |st| ensures 0 <= st[k] < |ibs'| && ibs'[st[k]].next == Top(st[..k]) {
      SplicedLink(a.free, ich, k);
    }
  }

  lemma TruncFiles(ibs: seq<IBlk>, ibs': seq<IBlk>, files: seq<LdEntry>, a: Area, da: Area, f: nat, e: LdEntry)
    requires FilesOK(ibs, files, a.used, da.used, NONE) && AreaOK(a, 0, |ibs|) && f < |a.used|
    requires SameElsewhereI(a, f, ibs, ibs') && e.size == 0 && e.ilist == NULL_ID
    ensures FilesOK(ibs', files[f := e], a.used[f := []], da.used[f := []], NONE)
  {
    hide IbOK, AtHome;
    forall g | 0 <= g < |a.used|
      ensures FileAt(ibs', files[f := e][g], a.used[f := []][g], da.used[f := []][g], Extra(NONE, g).ei, Extra(NONE, g).ed)
    {
      assert FileAt(ibs, files[g], a.used[g], da.used[g], Extra(NONE, g).ei, Extra(NONE, g).ed);
      if g != f {
        forall k | 0 <= k < |a.used[g]| ensures ibs'[a.used[g][k]] == ibs[a.used[g][k]] {
          assert a.own[a.used[g][k]] == In(g, k);
        }
        FileFrame(ibs, ibs', files[g].ilist, a.used[g], da.used[g]);
      }
    }
  }

  function Reset(t: Lfl): Lfl {
    t.(pos := 0, inum := NULL_ID, dnum := NULL_ID, at := BLKSIZ)
  }

  lemma TruncTab(tab: seq<Lfl>, c: nat, files: seq<LdEntry>, ibs: seq<IBlk>, ibs': seq<IBlk>,
                 dat: map<int, Sector>, dat': map<int, Sector>, a: Area, da: Area, e: LdEntry)
    requires TabOK(tab, files, ibs, dat, a, da) && OneOpener(tab)
    requires c < |tab| && tab[c].used && !tab[c].ibdirty && !tab[c].dbdirty
    requires var f := tab[c].fidx;
      && f < |a.used| == |da.used| <= |files| && e.size == 0 && e.name == files[f].name
      && SameElsewhereI(a, f, ibs, ibs') && SameElsewhereD(da, f, dat, dat')
    ensures
      var f := tab[c].fidx;
      TabOK(tab[c := Reset(tab[c])], files[f := e], ibs', dat', Release(a, f, true), Release(da, f, false))
  {
    var f := tab[c].fidx;
    var tab', files', a', da' := tab[c := Reset(tab[c])], files[f := e], Release(a, f, true), Release(da, f, false);
    forall b | 0 <= b < |tab| ensures OpenAt(tab'[b], files', ibs', dat', a', da') {
      assert OpenAt(tab[b], files, ibs, dat, a, da);
    }
  }

  lemma TruncCoherent(disk: seq<IBlk>, disk': seq<IBlk>, ibs: seq<IBlk>, ibs': seq<IBlk>,
                      ddisk: map<int, Sector>, ddisk': map<int, Sector>, dat: map<int, Sector>, dat': map<int, Sector>,
                      tab: seq<Lfl>, c: nat, a: Area, da: Area)
    requires CoherentI(disk, ibs, tab) && CoherentD(ddisk, dat, tab, NULL_ID) && NULL_ID !in dat
    requires c < |tab| && tab[c].used && !tab[c].ibdirty && !tab[c].dbdirty
    requires var f := tab[c].fidx;
      && SameElsewhereI(a, f, ibs, ibs') && SameElsewhereI(a, f, disk, disk')
      && SameElsewhereD(da, f, dat, dat') && SameElsewhereD(da, f, ddisk, ddisk')
      && WrittenI(a, f, disk', ibs') && WrittenD(da, f, ddisk', dat')
    ensures CoherentI(disk', ibs', tab[c := Reset(tab[c])])
    ensures CoherentD(ddisk', dat', tab[c := Reset(tab[c])], NULL_ID)
  {
    StaleKept(tab, c, Reset(tab[c]));
    hide StaleI, StaleD, OwnedBy;
  }

  /** s' is what lftruncate makes of s, whose file c is clean and not empty. */
  ghost predicate Truncated(s: Fs, s': Fs, c: nat) {
    && c < |s.tab| && s.tab[c].used && !s.tab[c].ibdirty && !s.tab[c].dbdirty
    && var f := s.tab[c].fidx;
    && f < |s.ia.used| == |s.da.used| && f < |s.dir.files| && s.ia.used[f] != []
    && s'.nsec == s.nsec && s'.base == s.base
    && s'.tab == s.tab[c := Reset(s.tab[c])]
    && s'.dir == s.dir.(dfree := s'.dir.dfree, ifree := s.ia.used[f][0],
                        files := s.dir.files[f := s.dir.files[f].(size := 0, ilist := NULL_ID)])
    && s'.dirty
    && s'.ia == Release(s.ia, f, true) && s'.da == Release(s.da, f, false)
    && SameElsewhereI(s.ia, f, s.ibs, s'.ibs) && SameElsewhereI(s.ia, f, s.img.ibs, s'.img.ibs)
    && SameElsewhereD(s.da, f, s.dat, s'.dat) && SameElsewhereD(s.da, f, s.img.dat, s'.img.dat)
    && WrittenI(s.ia, f, s'.img.ibs, s'.ibs) && WrittenD(s.da, f, s'.img.dat, s'.dat)
    && ChainEmptied(s'.ibs, s.ia.used[f], s.dir.ifree)
    && DStack(s'.dat, s'.dir.dfree, s.da.free + s.da.used[f])
    && s'.img.dir.nfiles == s.dir.nfiles && DirFits(s'.img.dir)
  }

  lemma TruncFits(s: Fs, s': Fs, c: nat)
    requires InvP(s, NONE) && Truncated(s, s', c)
    ensures AllFit(s'.ibs) && DirFits(s'.dir)
  {
    hide IStack, CoherentI, CoherentD, TabOK, DirCoherent, NamesOK, OneOpener, FilesOK, AtHome, Release, DStack,
         WrittenI, WrittenD, SameElsewhereD;
    var f := s.tab[c].fidx;
    TruncHeads(s, s', c);
    forall i | 0 <= i < |s'.ibs| ensures IbFits(s'.ibs[i]) {
      if OwnedBy(s.ia, i, f) {
        EmptiedFits(s.ibs, s'.ibs, s.dir.ifree, s.ia, f, i);
      } else {
        assert IbFits(s.ibs[i]);
      }
    }
    hide AreaOK, OwnedBy, SameElsewhereI, ChainEmptied;
    assert EntryFits(s.dir.files[f]);
  }

  lemma TruncHeads(s: Fs, s': Fs, c: nat)
    requires InvP(s, NONE) && Truncated(s, s', c)
    ensures Int32(s'.dir.dfree) && Int32(s'.dir.ifree)
  {
    hide IStack, CoherentI, CoherentD, TabOK, DirCoherent, NamesOK, OneOpener, FilesOK, AtHome, Release,
         WrittenI, WrittenD, SameElsewhereI, SameElsewhereD, ChainEmptied, AllFit, DirFits;
    TopInt32(s.da, s.base, s.nsec, s.tab[c].fidx);
    assert s.ia.used[s.tab[c].fidx][0] in s.ia.own;
  }

  lemma TruncShape(s: Fs, s': Fs, c: nat)
    requires InvP(s, NONE) && Truncated(s, s', c)
    ensures Shape(s')
  {
    hide IStack, CoherentI, CoherentD, TabOK, DirCoherent, NamesOK, OneOpener, FilesOK, AtHome, DStack,
         WrittenI, WrittenD, ChainEmptied, AllFit, AreaOK, OwnedBy;
    TruncFits(s, s', c);
    ReleaseOK(s.ia, 0, NumIb(s.base), s.tab[c].fidx, true);
    ReleaseOK(s.da, s.base, s.nsec, s.tab[c].fidx, false);
  }

  lemma TopInt32(da: Area, lo: int, hi: int, f: nat)
    requires AreaOK(da, lo, hi) && f < |da.used| && 0 <= lo <= hi < 0x8000_0000
    ensures Int32(Top(da.free + da.used[f]))
  {
    hide AtHome;
    if da.used[f] != [] {
      assert da.used[f][|da.used[f]| - 1] in da.own;
    } else if da.free != [] {
      assert da.free[|da.free| - 1] in da.own;
    }
  }

  lemma EmptiedFits(ibs: seq<IBlk>, ibs': seq<IBlk>, ifree: int, a: Area, f: nat, i: int)
    requires AreaOK(a, 0, |ibs|) && |ibs'| == |ibs| < 0x8000_0000 && f < |a.used|
    requires ChainEmptied(ibs', a.used[f], ifree) && Int32(ifree) && OwnedBy(a, i, f)
    ensures 0 <= i < |ibs'| && IbFits(ibs'[i])
  {
    assert AtHome(a, i);
    var k := a.own[i].k;
    var ich := a.used[f];
    assert ich[k] == i;
    if k + 1 < |ich| { assert ich[k + 1] in a.own; }
  }

  lemma TruncTables(s: Fs, s': Fs, c: nat)
    requires InvP(s, NONE) && Truncated(s, s', c)
    ensures TabOK(s'.tab, s'.dir.files, s'.ibs, s'.dat, s'.ia, s'.da)
    ensures CoherentI(s'.img.ibs, s'.ibs, s'.tab)
    ensures CoherentD(s'.img.dat, s'.dat, s'.tab, NULL_ID)
  {
    hide AreaOK, AllFit, IStack, DStack, CoherentI, CoherentD, FilesOK, NamesOK, TabOK, Release,
         SameElsewhereI, SameElsewhereD, WrittenI, WrittenD, ChainEmptied, DirFits;
    var f := s.tab[c].fidx;
    var e := s.dir.files[f].(size := 0, ilist := NULL_ID);
    TruncTab(s.tab, c, s.dir.files, s.ibs, s'.ibs, s.dat, s'.dat, s.ia, s.da, e);
    TruncCoherent(s.img.ibs, s'.img.ibs, s.ibs, s'.ibs, s.img.dat, s'.img.dat, s.dat, s'.dat, s.tab, c, s.ia, s.da);
  }

  lemma TruncChains(s: Fs, s': Fs, c: nat)
    requires InvP(s, NONE) && Truncated(s, s', c)
    ensures IStack(s'.ibs, s'.dir.ifree, s'.ia.free)
    ensures DStack(s'.dat, s'.dir.dfree, s'.da.free)
    ensures FilesOK(s'.ibs, s'.dir.files, s'.ia.used, s'.da.used, NONE)
  {
    hide AreaOK, AllFit, IStack, DStack, CoherentI, CoherentD, FilesOK, NamesOK, TabOK,
         SameElsewhereI, SameElsewhereD, WrittenI, WrittenD, ChainEmptied, DirFits;
    var f := s.tab[c].fidx;
    SpliceFree(s.ibs, s'.ibs, s.dir.ifree, s.ia, f);
    TruncFiles(s.ibs, s'.ibs, s.dir.files, s.ia, s.da, f, s'.dir.files[f]);
  }

  lemma TruncKeeps(s: Fs, s': Fs, c: nat)
    requires InvP(s, NONE) && Truncated(s, s', c)
    ensures InvP(s', NONE)
  {
    hide AreaOK, AllFit, IStack, DStack, CoherentI, CoherentD, FilesOK, NamesOK, TabOK, Release,
         SameElsewhereI, SameElsewhereD, WrittenI, WrittenD, ChainEmptied, EntryFits;
    TruncShape(s, s', c);
    TruncTables(s, s', c);
    TruncChains(s, s', c);
    SameNames(s.dir, s'.dir);
  }

  // --------------------------------------------------- opening and closing

  lemma StaleOpened(tab: seq<Lfl>, c: nat, t: Lfl)
    requires c < |tab|
    requires tab[c].used ==> !tab[c].ibdirty && !tab[c].dbdirty
    ensures forall i :: StaleI(tab, i) ==> StaleI(tab[c := t], i)
    ensures forall d :: StaleD(tab, d) ==> StaleD(tab[c := t], d)
  {
    var tab' := tab[c := t];
    forall i | StaleI(tab, i) ensures StaleI(tab', i) {
      var b :| 0 <= b < |tab| && tab[b].used && tab[b].ibdirty && tab[b].inum == i;
      assert tab'[b].used && tab'[b].ibdirty && tab'[b].inum == i;
    }
    forall d | StaleD(tab, d) ensures StaleD(tab', d) {
      var b :| 0 <= b < |tab| && tab[b].used && tab[b].dbdirty && tab[b].dnum == d;
      assert tab'[b].used && tab'[b].dbdirty && tab'[b].dnum == d;
    }
  }

  /** A control block as lfsopen initialises it. */
  ghost predicate JustOpened(t: Lfl, f: nat, name: seq<byte>) {
    && t.used && t.fidx == f && t.pos == 0 && t.inum == NULL_ID && t.dnum == NULL_ID && t.at == BLKSIZ
    && !t.ibdirty && !t.dbdirty && |t.name| == NAME_LEN && CStr(t.name) == CStr(name)
  }

  /** Opening a file that is in the directory and that nobody has open. */
  lemma OpenOldKeeps(s: Fs, c: nat, f: nat, t: Lfl)
    requires InvP(s, NONE) && c < |s.tab| && !s.tab[c].used && f < s.dir.nfiles
    requires JustOpened(t, f, s.dir.files[f].name)
    requires forall b :: 0 <= b < |s.tab| && s.tab[b].used ==> s.tab[b].fidx != f
    ensures InvP(SetTab(s, c, t), NONE)
  {
    hide FilesOK, IStack, DStack, DirCoherent, NamesOK, StaleI, StaleD, AreaOK, AllFit, IbOK;
    StaleOpened(s.tab, c, t);
    assert EntryFits(s.dir.files[f]);
  }

  lemma CloseKeeps(s: Fs, c: nat)
    requires InvP(s, NONE) && c < |s.tab| && s.tab[c].used && !s.tab[c].ibdirty && !s.tab[c].dbdirty
    ensures InvP(SetTab(s, c, s.tab[c].(used := false)), NONE)
  {
    hide FilesOK, IStack, DStack, DirCoherent, NamesOK, StaleI, StaleD, AreaOK, AllFit, DirFits;
    StaleOpened(s.tab, c, s.tab[c].(used := false));
  }

  /** The directory gains an empty file. */
  ghost function AddFile(s: Fs, name: seq<byte>): Fs
    requires 0 <= s.dir.nfiles < |s.dir.files|
  {
    s.(dir := s.dir.(nfiles := s.dir.nfiles + 1, files := s.dir.files[s.dir.nfiles := LdEntry(0, NULL_ID, name)]),
       ia := s.ia.(used := s.ia.used + [[]]),
       da := s.da.(used := s.da.used + [[]]))
  }

  lemma AddFileFiles(ibs: seq<IBlk>, files: seq<LdEntry>, iu: seq<seq<int>>, du: seq<seq<int>>, e: LdEntry)
    requires FilesOK(ibs, files, iu, du, NONE) && |iu| < |files| && e.size == 0 && e.ilist == NULL_ID
    ensures FilesOK(ibs, files[|iu| := e], iu + [[]], du + [[]], NONE)
  {
    forall g | 0 <= g < |iu| + 1
      ensures FileAt(ibs, files[|iu| := e][g], (iu + [[]])[g], (du + [[]])[g], Extra(NONE, g).ei, Extra(NONE, g).ed)
    {
      if g < |iu| { assert FileAt(ibs, files[g], iu[g], du[g], Extra(NONE, g).ei, Extra(NONE, g).ed); }
    }
  }

  lemma AddFileTab(tab: seq<Lfl>, files: seq<LdEntry>, ibs: seq<IBlk>, dat: map<int, Sector>, a: Area, da: Area, e: LdEntry)
    requires TabOK(tab, files, ibs, dat, a, da) && |da.used| < |files|
    ensures TabOK(tab, files[|da.used| := e], ibs, dat, a.(used := a.used + [[]]), da.(used := da.used + [[]]))
  {
    var files', a', da' := files[|da.used| := e], a.(used := a.used + [[]]), da.(used := da.used + [[]]);
    forall b | 0 <= b < |tab| ensures OpenAt(tab[b], files', ibs, dat, a', da') {
      assert OpenAt(tab[b], files, ibs, dat, a, da);
    }
  }

  lemma AddFileNames(dir: Dir, name: seq<byte>)
    requires NamesOK(dir) && 0 <= dir.nfiles < |dir.files|
    requires forall f :: 0 <= f < dir.nfiles ==> CStr(dir.files[f].name) != CStr(name)
    ensures NamesOK(dir.(nfiles := dir.nfiles + 1, files := dir.files[dir.nfiles := LdEntry(0, NULL_ID, name)]))
  {
    hide CStr;
  }

  lemma AddFileDir(disk: Dir, dir: Dir, dirty: bool, name: seq<byte>)
    requires DirCoherent(disk, dir, dirty, NONE) && 0 <= dir.nfiles < |dir.files|
    ensures DirCoherent(disk, dir.(nfiles := dir.nfiles + 1, files := dir.files[dir.nfiles := LdEntry(0, NULL_ID, name)]),
                        dirty, NONE)
  {
  }

  lemma AddFileShape(s: Fs, name: seq<byte>)
    requires Shape(s) && s.dir.nfiles < NUM_DIR_ENT && |name| == NAME_LEN
    ensures Shape(AddFile(s, name))
  {
    hide AreaOK, AllFit;
    AddFileOK(s.ia, 0, NumIb(s.base));
    AddFileOK(s.da, s.base, s.nsec);
  }

  lemma AddFileKeeps(s: Fs, name: seq<byte>)
    requires InvP(s, NONE) && s.dir.nfiles < NUM_DIR_ENT && |name| == NAME_LEN
    requires forall f :: 0 <= f < s.dir.nfiles ==> CStr(s.dir.files[f].name) != CStr(name)
    ensures InvP(AddFile(s, name), NONE)
  {
    hide FilesOK, IStack, DStack, StaleI, StaleD, AreaOK, AllFit, TabOK, CoherentI, CoherentD, OneOpener, CStr, NamesOK,
         DirCoherent, EntryFits;
    var e := LdEntry(0, NULL_ID, name);
    AddFileShape(s, name);
    AddFileFiles(s.ibs, s.dir.files, s.ia.used, s.da.used, e);
    AddFileTab(s.tab, s.dir.files, s.ibs, s.dat, s.ia, s.da, e);
    AddFileNames(s.dir, name);
    AddFileDir(s.img.dir, s.dir, s.dirty, name);
  }
}
