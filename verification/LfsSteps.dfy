// The steps that the file-system calls are made of, each shown to keep the
// invariant of LfsModel.
module LfsSteps {
  import opened LfsLayout
  import opened LfsModel

  // ------------------------------------------- one control block changes

  /** Blocks stay stale when a control block keeps its dirty block. */
  lemma StaleKept(tab: seq<Lfl>, c: nat, t: Lfl)
    requires c < |tab| && tab[c].used && t.used
    ensures forall i :: StaleI(tab, i) && (tab[c].ibdirty && tab[c].inum == i ==> t.ibdirty && t.inum == i) ==>
                          StaleI(tab[c := t], i)
    ensures forall d :: StaleD(tab, d) && (tab[c].dbdirty && tab[c].dnum == d ==> t.dbdirty && t.dnum == d) ==>
                          StaleD(tab[c := t], d)
  {
    var tab' := tab[c := t];
    forall i | StaleI(tab, i) && (tab[c].ibdirty && tab[c].inum == i ==> t.ibdirty && t.inum == i)
      ensures StaleI(tab', i)
    {
      var b :| 0 <= b < |tab| && tab[b].used && tab[b].ibdirty && tab[b].inum == i;
      assert tab'[b].used && tab'[b].ibdirty && tab'[b].inum == i;
    }
    forall d | StaleD(tab, d) && (tab[c].dbdirty && tab[c].dnum == d ==> t.dbdirty && t.dnum == d)
      ensures StaleD(tab', d)
    {
      var b :| 0 <= b < |tab| && tab[b].used && tab[b].dbdirty && tab[b].dnum == d;
      assert tab'[b].used && tab'[b].dbdirty && tab'[b].dnum == d;
    }
  }

  ghost function SetTab(s: Fs, c: nat, t: Lfl): Fs
    requires c < |s.tab|
  {
    s.(tab := s.tab[c := t])
  }

  /** Any change to one control block that keeps its dirty blocks and its own
      consistency keeps the invariant: seeking, loading and invalidating blocks. */
  lemma SetTabKeeps(s: Fs, p: Pend, c: nat, t: Lfl)
    requires InvP(s, p) && c < |s.tab| && s.tab[c].used && t.used && t.fidx == s.tab[c].fidx
    requires s.tab[c].ibdirty ==> t.ibdirty && t.inum == s.tab[c].inum
    requires s.tab[c].dbdirty ==> t.dbdirty && t.dnum == s.tab[c].dnum
    requires OpenAt(t, s.dir.files, s.ibs, s.dat, s.ia, s.da)
    ensures InvP(SetTab(s, c, t), p)
  {
    hide FilesOK, IStack, DStack, DirCoherent, NamesOK, StaleI, StaleD, OpenAt, AreaOK, DirFits, AllFit;
    StaleKept(s.tab, c, t);
  }

  // ------------------------------------------------------------- flushing

  ghost function FlushDir(s: Fs): Fs {
    s.(img := s.img.(dir := s.dir), dirty := false)
  }

  ghost function FlushDb(s: Fs, c: nat): Fs
    requires c < |s.tab|
  {
    var t := s.tab[c];
    s.(img := s.img.(dat := s.img.dat[t.dnum := t.dblock]), tab := s.tab[c := t.(dbdirty := false)])
  }

  ghost function FlushIb(s: Fs, c: nat): Fs
    requires c < |s.tab| && 0 <= s.tab[c].inum < |s.img.ibs|
  {
    var t := s.tab[c];
    s.(img := s.img.(ibs := s.img.ibs[t.inum := t.iblock]), tab := s.tab[c := t.(ibdirty := false)])
  }

  lemma FlushDirKeeps(s: Fs, p: Pend)
    requires InvP(s, p)
    ensures InvP(FlushDir(s), p)
  {
    hide FilesOK, IStack, DStack, CoherentI, CoherentD, TabOK, NamesOK, OneOpener, AreaOK;
  }

  lemma FlushDbKeeps(s: Fs, p: Pend, c: nat)
    requires InvP(s, p) && c < |s.tab| && s.tab[c].used && s.tab[c].dbdirty
    ensures s.base <= s.tab[c].dnum < s.nsec
    ensures InvP(FlushDb(s, c), p)
  {
    hide FilesOK, IStack, DStack, DirCoherent, NamesOK, StaleI, StaleD, AreaOK, DirFits;
    assert OpenAt(s.tab[c], s.dir.files, s.ibs, s.dat, s.ia, s.da);
    StaleKept(s.tab, c, s.tab[c].(dbdirty := false));
  }

  lemma FlushIbKeeps(s: Fs, p: Pend, c: nat)
    requires InvP(s, p) && c < |s.tab| && s.tab[c].used && s.tab[c].ibdirty
    ensures 0 <= s.tab[c].inum < |s.img.ibs|
    ensures InvP(FlushIb(s, c), p)
  {
    hide FilesOK, IStack, DStack, DirCoherent, NamesOK, StaleI, StaleD, AreaOK, DirFits;
    assert OpenAt(s.tab[c], s.dir.files, s.ibs, s.dat, s.ia, s.da);
    StaleKept(s.tab, c, s.tab[c].(ibdirty := false));
  }

  // -------------------------------------------------------- growing a file

  const FILL: byte := 43

  function Filled(): Sector { seq(BLKSIZ, _ => FILL) }

  function Cleared(offset: int): IBlk {
    IBlk(NULL_ID, offset, seq(IBLEN, _ => NULL_ID))
  }

  lemma PendZero(s: Fs, f: int)
    ensures InvP(s, NONE) <==> InvP(s, Pend(f, 0, 0))
  {
    hide Shape, IStack, DStack, CoherentI, CoherentD, TabOK, NamesOK, OneOpener, FileAt;
  }

  ghost function LinkedLast(ibs: seq<IBlk>, ich: seq<int>, i: int): (r: seq<IBlk>)
    requires ich != [] ==> 0 <= Top(ich) < |ibs|
    ensures |r| == |ibs|
  {
    if ich == [] then ibs else ibs[Top(ich) := ibs[Top(ich)].(next := i)]
  }

  /** The index blocks after `i` has been cleared and linked behind the chain. */
  ghost function Linked(ibs: seq<IBlk>, ich: seq<int>, i: int): (r: seq<IBlk>)
    requires 0 <= i < |ibs| && (ich != [] ==> 0 <= Top(ich) < |ibs|)
    ensures |r| == |ibs|
  {
    LinkedLast(ibs, ich, i)[i := Cleared(IDATA * |ich|)]
  }

  lemma LinkedFile(ibs: seq<IBlk>, ilist: int, ich: seq<int>, dch: seq<int>, i: int)
    requires FileOK(ibs, ilist, ich, dch) && |dch| == IBLEN * |ich|
    requires 0 <= i < |ibs| && i !in ich
    requires forall j, k :: 0 <= j < k < |ich| ==> ich[j] != ich[k]
    ensures ich != [] ==> 0 <= Top(ich) < |ibs|
    ensures FileOK(Linked(ibs, ich, i), Nth(ich + [i], 0), ich + [i], dch)
  {
    if ich != [] { assert IbOK(ibs[ich[|ich| - 1]], |ich| - 1, ich, dch); }
    var ibs' := Linked(ibs, ich, i);
    var ich' := ich + [i];
    forall k | 0 <= k < |ich'| ensures 0 <= ich'[k] < |ibs'| && IbOK(ibs'[ich'[k]], k, ich', dch) {
      if k < |ich| { assert IbOK(ibs[ich[k]], k, ich, dch); }
    }
  }

  /** A file whose index blocks did not change is still well formed. */
  lemma FileFrame(ibs: seq<IBlk>, ibs': seq<IBlk>, ilist: int, ich: seq<int>, dch: seq<int>)
    requires FileOK(ibs, ilist, ich, dch) && |ibs'| == |ibs|
    requires forall k :: 0 <= k < |ich| && 0 <= ich[k] < |ibs| ==> ibs'[ich[k]] == ibs[ich[k]]
    ensures FileOK(ibs', ilist, ich, dch)
  {
    forall k | 0 <= k < |ich| ensures 0 <= ich[k] < |ibs'| && IbOK(ibs'[ich[k]], k, ich, dch) {
      assert IbOK(ibs[ich[k]], k, ich, dch);
    }
  }

  /** The free list survives changes to blocks that are not on it. */
  lemma IStackFrame(ibs: seq<IBlk>, ibs': seq<IBlk>, head: int, st: seq<int>)
    requires IStack(ibs, head, st) && |ibs'| == |ibs|
    requires forall k :: 0 <= k < |st| && 0 <= st[k] < |ibs| ==> ibs'[st[k]] == ibs[st[k]]
    ensures IStack(ibs', head, st)
  {
  }

  lemma IStackPop(ibs: seq<IBlk>, head: int, st: seq<int>)
    requires IStack(ibs, head, st) && st != []
    ensures 0 <= head < |ibs|
    ensures IStack(ibs, ibs[head].next, st[..|st| - 1])
  {
    var st' := st[..|st| - 1];
    assert forall k :: 0 <= k < |st'| ==> st'[..k] == st[..k];
  }

  /** The condition under which lfsetup allocates an index block for file f. */
  ghost predicate FullIndex(a: Area, da: Area, f: nat, size: int, hi: int) {
    && AreaOK(a, 0, hi) && f < |a.used| == |da.used| && a.free != []
    && size == IDATA * |a.used[f]| && |da.used[f]| == IBLEN * |a.used[f]|
  }

  lemma GrowIndexFiles(ibs: seq<IBlk>, files: seq<LdEntry>, a: Area, da: Area, f: nat, size: int)
    requires FullIndex(a, da, f, size, |ibs|)
    requires FilesOK(ibs, files, a.used, da.used, NONE) && files[f].size == size
    ensures 0 <= Top(a.free) < |ibs| && (a.used[f] != [] ==> 0 <= Top(a.used[f]) < |ibs|)
    ensures
      var ich' := a.used[f] + [Top(a.free)];
      FilesOK(Linked(ibs, a.used[f], Top(a.free)), files[f := files[f].(ilist := Nth(ich', 0))],
              a.used[f := ich'], da.used, Pend(f, 1, 0))
  {
    hide IbOK, AtHome;
    var ich, i := a.used[f], Top(a.free);
    assert i in a.own;
    if ich != [] { assert ich[|ich| - 1] in a.own; }
    var ibs' := Linked(ibs, ich, i);
    var p := Pend(f, 1, 0);
    forall g | 0 <= g < |a.used|
      ensures FileAt(ibs', files[f := files[f].(ilist := Nth(ich + [i], 0))][g], a.used[f := ich + [i]][g], da.used[g],
                     Extra(p, g).ei, Extra(p, g).ed)
    {
      assert FileAt(ibs, files[g], a.used[g], da.used[g], 0, 0);
      if g == f {
        LinkedFile(ibs, files[f].ilist, ich, da.used[f], i);
      } else {
        forall k | 0 <= k < |a.used[g]| ensures ibs'[a.used[g][k]] == ibs[a.used[g][k]] {
          assert a.own[a.used[g][k]] == In(g, k);
        }
        FileFrame(ibs, ibs', files[g].ilist, a.used[g], da.used[g]);
      }
    }
  }

  /** The disk after lfsetup has rewritten the last index block of the chain. */
  ghost function DiskLinked(disk: seq<IBlk>, ibs: seq<IBlk>, ich: seq<int>, i: int): (r: seq<IBlk>)
    requires |disk| == |ibs| && (ich != [] ==> 0 <= Top(ich) < |ibs|)
    ensures |r| == |disk|
  {
    if ich == [] then disk else disk[Top(ich) := ibs[Top(ich)].(next := i)]
  }

  function Grown(t: Lfl, i: int, offset: int): Lfl {
    t.(inum := i, iblock := Cleared(offset), ibdirty := true, dnum := NULL_ID)
  }

  lemma GrowIndexCoherent(disk: seq<IBlk>, ibs: seq<IBlk>, tab: seq<Lfl>, c: nat, ich: seq<int>, i: int)
    requires CoherentI(disk, ibs, tab) && c < |tab| && tab[c].used && !tab[c].ibdirty && !tab[c].dbdirty
    requires 0 <= i < |ibs| && i !in ich && (ich != [] ==> 0 <= Top(ich) < |ibs|)
    ensures
      CoherentI(DiskLinked(disk, ibs, ich, i), Linked(ibs, ich, i), tab[c := Grown(tab[c], i, IDATA * |ich|)])
  {
    var t := Grown(tab[c], i, IDATA * |ich|);
    StaleKept(tab, c, t);
    var tab' := tab[c := t];
    assert StaleI(tab', i) by { assert tab'[c].used && tab'[c].ibdirty && tab'[c].inum == i; }
    if ich != [] { assert ich[|ich| - 1] in ich; }
    hide StaleI;
  }

  lemma GrowIndexTab(tab: seq<Lfl>, c: nat, files: seq<LdEntry>, ibs: seq<IBlk>, dat: map<int, Sector>, a: Area, da: Area,
                     size: int, files': seq<LdEntry>)
    requires TabOK(tab, files, ibs, dat, a, da) && OneOpener(tab)
    requires c < |tab| && tab[c].used && !tab[c].dbdirty && tab[c].at == BLKSIZ
    requires FullIndex(a, da, tab[c].fidx, size, |ibs|)
    requires 0 <= Top(a.free) < |ibs|
    requires a.used[tab[c].fidx] != [] ==> 0 <= Top(a.used[tab[c].fidx]) < |ibs|
    requires SameButList(files, files')
    ensures
      var f := tab[c].fidx;
      TabOK(tab[c := Grown(tab[c], Top(a.free), IDATA * |a.used[f]|)], files', Linked(ibs, a.used[f], Top(a.free)),
            dat, Give(a, f), da)
  {
    var f := tab[c].fidx;
    var i := Top(a.free);
    var ich := a.used[f];
    GiveOK(a, 0, |ibs|, f);
    var tab' := tab[c := Grown(tab[c], i, IDATA * |ich|)];
    assert a.own[i].Free?;
    if ich != [] { assert a.own[Top(ich)] == In(f, |ich| - 1); }
    hide AreaOK;
    forall b | 0 <= b < |tab| ensures OpenAt(tab'[b], files', Linked(ibs, ich, i), dat, Give(a, f), da) {
      assert OpenAt(tab[b], files, ibs, dat, a, da);
    }
  }

  ghost predicate AtEnd(s: Fs, c: nat) {
    && c < |s.tab| && s.tab[c].used && !s.tab[c].dbdirty && s.tab[c].at == BLKSIZ
    && s.tab[c].fidx < s.dir.nfiles <= |s.dir.files|
    && s.tab[c].pos == s.dir.files[s.tab[c].fidx].size
  }

  /** lfiballoc and the code around it in lfsetup: the file gets one more index
      block, linked from its last one or from the directory. */
  ghost function GrowIndex(s: Fs, c: nat): Fs
    requires c < |s.tab| && s.tab[c].fidx < |s.ia.used| && s.tab[c].fidx < |s.dir.files|
    requires s.ia.free != [] && 0 <= Top(s.ia.free) < |s.ibs| == |s.img.ibs|
    requires var ich := s.ia.used[s.tab[c].fidx]; ich != [] ==> 0 <= Top(ich) < |s.ibs|
  {
    var t := s.tab[c];
    var f := t.fidx;
    var ich := s.ia.used[f];
    var i := Top(s.ia.free);
    var dir1 := s.dir.(ifree := Top(s.ia.free[..|s.ia.free| - 1]));
    s.(dir := dir1.(files := dir1.files[f := dir1.files[f].(ilist := Nth(ich + [i], 0))]),
       img := s.img.(dir := dir1, ibs := DiskLinked(s.img.ibs, s.ibs, ich, i)),
       dirty := false,
       ibs := Linked(s.ibs, ich, i),
       ia := Give(s.ia, f),
       tab := s.tab[c := Grown(t, i, IDATA * |ich|)])
  }

  lemma FullIndexFacts(s: Fs, c: nat)
    requires InvP(s, NONE) && AtEnd(s, c) && s.ia.free != [] && s.tab[c].pos % IDATA == 0
    ensures FullIndex(s.ia, s.da, s.tab[c].fidx, s.tab[c].pos, |s.ibs|)
    ensures
      var ich := s.ia.used[s.tab[c].fidx];
      var i := Top(s.ia.free);
      && 0 <= i < |s.ibs| && i !in ich && (ich != [] ==> 0 <= Top(ich) < |s.ibs|)
      && Int32(i) && Int32(Top(s.ia.free[..|s.ia.free| - 1])) && Int32(Nth(ich + [i], 0))
  {
    hide IStack, DStack, CoherentI, CoherentD, TabOK, DirCoherent, NamesOK, OneOpener, IbOK, AllFit, AtHome;
    var f := s.tab[c].fidx;
    var ich, fr := s.ia.used[f], s.ia.free;
    assert FileAt(s.ibs, s.dir.files[f], ich, s.da.used[f], Extra(NONE, f).ei, Extra(NONE, f).ed);
    assert fr[|fr| - 1] in s.ia.own;
    if |fr| > 1 { assert fr[|fr| - 2] in s.ia.own; }
    if ich != [] { assert ich[|ich| - 1] in s.ia.own && ich[0] in s.ia.own; }
  }

  lemma GrowIndexShape(s: Fs, c: nat)
    requires InvP(s, NONE) && AtEnd(s, c) && s.ia.free != [] && s.tab[c].pos % IDATA == 0
    requires s.tab[c].pos < WORD
    requires 0 <= Top(s.ia.free) < |s.ibs|
    requires var ich := s.ia.used[s.tab[c].fidx]; ich != [] ==> 0 <= Top(ich) < |s.ibs|
    ensures Shape(GrowIndex(s, c))
  {
    hide IStack, DStack, CoherentI, CoherentD, TabOK, DirCoherent, NamesOK, OneOpener, FilesOK, AtHome;
    FullIndexFacts(s, c);
    GiveOK(s.ia, 0, NumIb(s.base), s.tab[c].fidx);
    hide AreaOK;
    var s' := GrowIndex(s, c);
    assert AllFit(s'.ibs);
    assert DirFits(s'.dir);
  }

  lemma GrowIndexFree(ibs: seq<IBlk>, head: int, a: Area, da: Area, f: nat, size: int)
    requires IStack(ibs, head, a.free) && FullIndex(a, da, f, size, |ibs|)
    requires 0 <= Top(a.free) < |ibs| && (a.used[f] != [] ==> 0 <= Top(a.used[f]) < |ibs|)
    ensures ibs[Top(a.free)].next == Top(a.free[..|a.free| - 1])
    ensures IStack(Linked(ibs, a.used[f], Top(a.free)), Top(a.free[..|a.free| - 1]), a.free[..|a.free| - 1])
  {
    hide AtHome;
    IStackPop(ibs, head, a.free);
    var ibs' := Linked(ibs, a.used[f], Top(a.free));
    if a.used[f] != [] { assert a.own[Top(a.used[f])].In?; }
    forall k | 0 <= k < |a.free| - 1 ensures ibs'[a.free[k]] == ibs[a.free[k]] {
      assert a.own[a.free[k]] == Free(k);
    }
    IStackFrame(ibs, ibs', ibs[head].next, a.free[..|a.free| - 1]);
  }

  /** Entries that differ at most in where their chain starts. */
  ghost predicate SameButList(files: seq<LdEntry>, files': seq<LdEntry>) {
    |files'| == |files| && forall g :: 0 <= g < |files| ==>
      files'[g].size == files[g].size && files'[g].name == files[g].name
  }

  lemma SameNames(dir: Dir, dir': Dir)
    requires NamesOK(dir) && dir'.nfiles == dir.nfiles
    requires |dir'.files| == |dir.files| && forall g :: 0 <= g < |dir.files| ==> dir'.files[g].name == dir.files[g].name
    ensures NamesOK(dir')
  {
  }

  lemma GrowIndexKeeps(s: Fs, c: nat)
    requires InvP(s, NONE) && AtEnd(s, c) && s.ia.free != [] && s.tab[c].pos % IDATA == 0
    requires s.tab[c].pos < WORD && !s.tab[c].ibdirty
    ensures 0 <= Top(s.ia.free) < |s.ibs|
    ensures var ich := s.ia.used[s.tab[c].fidx]; ich != [] ==> 0 <= Top(ich) < |s.ibs|
    ensures InvP(GrowIndex(s, c), Pend(s.tab[c].fidx, 1, 0))
  {
    hide AreaOK, IbOK, AllFit, FileAt, IStack, DStack, TabOK, CoherentI, StaleD, StaleI, FullIndex, Linked, DiskLinked,
         FilesOK, NamesOK, FullIndex, DirFits;
    FullIndexFacts(s, c);
    GrowIndexShape(s, c);
    var f, s' := s.tab[c].fidx, GrowIndex(s, c);
    var ich, i := s.ia.used[f], Top(s.ia.free);
    GrowIndexFiles(s.ibs, s.dir.files, s.ia, s.da, f, s.tab[c].pos);
    GrowIndexCoherent(s.img.ibs, s.ibs, s.tab, c, ich, i);
    GrowIndexTab(s.tab, c, s.dir.files, s.ibs, s.dat, s.ia, s.da, s.tab[c].pos, s'.dir.files);
    StaleKept(s.tab, c, s'.tab[c]);
    GrowIndexFree(s.ibs, s.dir.ifree, s.ia, s.da, f, s.tab[c].pos);
    SameNames(s.dir, s'.dir);
  }
}
