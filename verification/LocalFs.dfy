// The calls of the local file system, working on the disk, the directory in
// memory and the open-file table, and proved against the view of LfsAbs.
module LocalFileSystem {
  import opened LfsLayout
  import opened LfsModel
  import opened LfsSteps
  import opened LfsGrow
  import opened LfsFiles
  import opened LfsImage
  import opened LfsAbs
  import opened LfsSetup
  import opened LfsTrunc
  import opened LfsNames
  import opened LfsFormat

  /** The copy loop of lfibget. */
  method CopyOut(s: Sector, from: nat) returns (r: seq<byte>)
    requires from + 72 <= BLKSIZ
    ensures r == s[from..from + 72]
  {
    r := [];
    for i := 0 to 72
      invariant r == s[from..from + i]
    {
      r := r + [s[from + i]];
    }
  }

  /** The copy loop of lfibput. */
  method CopyIn(s: Sector, to: nat, b: seq<byte>) returns (r: Sector)
    requires |b| == 72 && to + 72 <= BLKSIZ
    ensures r == s[..to] + b + s[to + 72..]
  {
    r := s;
    for i := 0 to 72
      invariant r == s[..to] + b[..i] + s[to + i..]
    {
      r := r[to + i := b[i]];
    }
    assert b[..72] == b;
  }

  /** lfibclear */
  method LfIbClear(offset: int) returns (ib: IBlk)
    ensures ib == Cleared(offset)
  {
    var dba: seq<int> := [];
    for i := 0 to IBLEN
      invariant |dba| == i && forall k :: 0 <= k < i ==> dba[k] == NULL_ID
    {
      dba := dba + [NULL_ID];
    }
    ib := IBlk(NULL_ID, offset, dba);
    assert dba == Cleared(offset).dba;
  }

  lemma DecodeSlice(s: seq<byte>, at: nat)
    requires at + 72 <= |s|
    ensures DecodeIb(s[at..at + 72], 0) == DecodeIb(s, at)
  {
    var b := s[at..at + 72];
    forall k | 0 <= k < IBLEN ensures I32At(b, 8 + 4 * k) == I32At(s, at + 8 + 4 * k) {
    }
    assert DecodeIb(b, 0).dba == DecodeIb(s, at).dba;
  }

  lemma ImageDir(disk: seq<Sector>, base: nat)
    requires Geometry(|disk|, base)
    ensures ImgOf(disk, base).dir == DecodeDir(disk[0])
  {
  }

  /** With no file open, no name is open. */
  lemma NobodyOpen(s: Fs, name: seq<byte>)
    requires AllClosed(s.tab)
    ensures !NameOpen(Abs(s), name) && FirstClosed(Abs(s).open) == 0 && |Abs(s).open| == |s.tab|
  {
    hide AbsFiles;
    if s.tab != [] { assert Abs(s).open[0].Closed?; }
  }

  /** The lists that start at the heads on the bare disk. */
  lemma ImageLists(s: Fs)
    requires 0 <= s.img.dir.nfiles <= |s.ia.used| == |s.da.used| && Inv(Remounted(s))
    ensures IStack(s.img.ibs, s.img.dir.ifree, s.ia.free) && DStack(s.img.dat, s.img.dir.dfree, s.da.free)
  {
  }

  const LF_CTL_TRUNC := 2

  /** No open file has the name. */
  ghost predicate NotAmong(tab: seq<Lfl>, name: seq<byte>) {
    forall b :: 0 <= b < |tab| && tab[b].used ==> CStr(tab[b].name) != name
  }

  /** a' is a with the blocks of file f on its free list. */
  ghost predicate Returned(a: Area, a': Area, f: nat, rev: bool) { f < |a.used| && a' == Release(a, f, rev) }

  class LocalFs {
    const nsec: nat
    const base: nat
    var disk: seq<Sector>
    var dir: Dir
    var dirpresent: bool
    var dirdirty: bool
    var lfltab: seq<Lfl>
    ghost var ibs: seq<IBlk>
    ghost var dat: map<int, Sector>
    ghost var ia: Area
    ghost var da: Area

    ghost predicate Formatted()
      reads `disk
    {
      |disk| == nsec && Geometry(nsec, base)
    }

    ghost function Image(): Img
      reads `disk
      requires Formatted()
    {
      ImgOf(disk, base)
    }

    /** Before the first open the directory is the one on the disk. */
    ghost function State(): Fs
      reads this
      requires Formatted()
    {
      Fs(nsec, base, Image(), if dirpresent then dir else Image().dir, dirdirty, lfltab, ibs, dat, ia, da)
    }

    ghost predicate Valid()
      reads this
    {
      && Formatted()
      && Inv(State())
      && (!dirpresent ==> AllClosed(lfltab))
    }

    // --------------------------------------------------- start and restart

    /** After lfsinit and lflinit on a disk that lfscreate has laid out. */
    constructor (disk: seq<Sector>, base: nat, lfltab: seq<Lfl>)
      requires Geometry(|disk|, base) && EmptyImage(ImgOf(disk, base), |disk|, base) && AllClosed(lfltab)
      ensures Valid() && !dirpresent && this.lfltab == lfltab && this.disk == disk && this.base == base
      ensures Abs(State()).files == []
    {
      hide ImgOf, Inv, EmptyImage, Abs, AllFree;
      EmptyInv(ImgOf(disk, base), |disk|, base, lfltab);
      NoFiles(ImgOf(disk, base), |disk|, base, lfltab);
      this.nsec, this.base, this.disk, this.lfltab := |disk|, base, disk, lfltab;
      dir := Dir(0, 0, 0, []);
      dirpresent, dirdirty := false, false;
      ghost var s := FirstMount(ImgOf(disk, base), |disk|, base, lfltab);
      ibs, dat, ia, da := s.ibs, s.dat, s.ia, s.da;
      new;
      assert State() == s;
    }

    /** The system stops with every file closed and starts again from the disk.
        A file survives exactly if it is below the count of files on sector 0. */
    method Restart()
      requires Valid() && AllClosed(lfltab)
      modifies this
      ensures Valid() && !dirpresent && disk == old(disk) && lfltab == old(lfltab)
      ensures var was, now := old(Abs(State())).files, Abs(State()).files;
              && |now| == DecodeDir(old(disk)[0]).nfiles <= |was| && now == was[..|now|]
              && forall f :: |now| <= f < |was| ==> was[f].bytes == []
    {
      hide ImgOf, Inv, Abs;
      ghost var s := State();
      ImageDir(disk, base);
      RemountKeeps(s);
      AbsRemount(s);
      dirpresent, dirdirty := false, false;
      dir := Dir(0, 0, 0, []);
      ghost var r := Remounted(s);
      ibs, dat, ia, da := r.ibs, r.dat, r.ia, r.da;
      assert State() == r;
    }

    /** A file that is created, closed and never written is gone after a restart:
        lfsopen does not mark the directory dirty, so lflclose does not write it. */
    method LoseNewFile(name: seq<byte>) returns (c: nat)
      requires Valid() && AllClosed(lfltab) && lfltab != [] && 0 in name && |CStr(name)| < NAME_LEN
      requires var files := Abs(State()).files;
               |files| == DecodeDir(disk[0]).nfiles < NUM_DIR_ENT && FindName(files, CStr(name)) == |files|
      modifies this
      ensures Valid() && disk == old(disk) && Abs(State()).files == old(Abs(State()).files)
      ensures FindName(Abs(State()).files, CStr(name)) == |Abs(State()).files|
    {
      hide ImgOf, Inv, Abs, CStr, DecodeDir;
      NobodyOpen(State(), CStr(name));
      AbsRemount(State());
      ghost var a := Abs(State());
      var r := LfsOpen(name, Mode(false, false, 0));
      c := r.c;
      assert Abs(State()).files == a.files + [AFile(CStr(name), [])];
      var ok := LflClose(c);
      Restart();
    }

    /** lfsckfmt on the disk of a file system with every file closed: what the
        files, by their sizes, do not use. */
    method CountFree() returns (niblks: nat, ndblks: nat)
      requires Valid() && AllClosed(lfltab)
      ensures niblks + BlocksOf(Abs(State()).files, IDATA) == NumIb(base)
      ensures ndblks + BlocksOf(Abs(State()).files, BLKSIZ) == nsec - base
    {
      hide ImgOf, Abs, BlocksOf;
      RemountKeeps(State());
      ImageLists(State());
      FreeCount(State());
      niblks, ndblks := LfsCkFmt(disk, base, ia.free, da.free);
    }

    // ------------------------------------------------- reading and writing

    method WriteDir()
      requires Formatted() && DirFits(dir)
      modifies `disk
      ensures Formatted()
      ensures Image() == old(Image()).(dir := dir)
    {
      WriteDirImg(disk, base, dir);
      disk := disk[0 := EncodeDir(dir)];
    }

    method WriteData(d: int, blk: Sector)
      requires Formatted() && base <= d < nsec
      modifies `disk
      ensures Formatted()
      ensures Image() == old(Image()).(dat := old(Image()).dat[d := blk])
    {
      WriteDataImg(disk, base, d, blk);
      disk := disk[d := blk];
    }

    method ReadData(d: int) returns (blk: Sector)
      requires Formatted() && base <= d < nsec
      ensures d in Image().dat && blk == Image().dat[d]
    {
      blk := disk[d];
    }

    method LfIbGet(inum: int) returns (ib: IBlk)
      requires Formatted() && 0 <= inum < NumIb(base)
      ensures ib == Image().ibs[inum] && IbFits(ib)
    {
      var dbuff := disk[Ib2Sect(inum)];
      var ibuff := CopyOut(dbuff, Ib2Disp(inum));
      ib := DecodeIb(ibuff, 0);
      DecodeSlice(dbuff, Ib2Disp(inum));
    }

    method LfIbPut(inum: int, ib: IBlk)
      requires Formatted() && 0 <= inum < NumIb(base) && IbFits(ib)
      modifies `disk
      ensures Formatted()
      ensures Image() == old(Image()).(ibs := old(Image()).ibs[inum := ib])
    {
      WriteIbImg(disk, base, inum, ib);
      var diskblock := Ib2Sect(inum);
      var dbuff := CopyIn(disk[diskblock], Ib2Disp(inum), EncodeIb(ib));
      disk := disk[diskblock := dbuff];
    }

    // ------------------------------------------------------------ lfflush

    method FlushDirectory()
      requires Formatted() && dirpresent && DirFits(dir)
      modifies `disk, `dirdirty
      ensures Formatted() && State() == (if old(dirdirty) then FlushDir(old(State())) else old(State()))
      ensures !dirdirty
    {
      hide ImgOf, DirFits;
      if dirdirty {
        WriteDir();
        dirdirty := false;
      }
    }

    method FlushDataBlock(c: nat)
      requires Formatted() && dirpresent && c < |lfltab|
      requires lfltab[c].dbdirty ==> base <= lfltab[c].dnum < nsec
      modifies `disk, `lfltab
      ensures Formatted() && State() == (if old(lfltab[c].dbdirty) then FlushDb(old(State()), c) else old(State()))
    {
      hide ImgOf;
      if lfltab[c].dbdirty {
        WriteData(lfltab[c].dnum, lfltab[c].dblock);
        lfltab := lfltab[c := lfltab[c].(dbdirty := false)];
      }
    }

    method FlushIndexBlock(c: nat)
      requires Formatted() && dirpresent && c < |lfltab|
      requires lfltab[c].ibdirty ==> 0 <= lfltab[c].inum < NumIb(base) && IbFits(lfltab[c].iblock)
      modifies `disk, `lfltab
      ensures Formatted() && State() == (if old(lfltab[c].ibdirty) then FlushIb(old(State()), c) else old(State()))
    {
      hide ImgOf, IbFits;
      if lfltab[c].ibdirty {
        LfIbPut(lfltab[c].inum, lfltab[c].iblock);
        lfltab := lfltab[c := lfltab[c].(ibdirty := false)];
      }
    }

    method LfFlush(c: nat) returns (ok: bool)
      requires Formatted() && dirpresent && InvP(State(), NONE) && c < |lfltab|
      modifies `disk, `dirdirty, `lfltab
      ensures ok == old(lfltab[c].used)
      ensures Formatted() && InvP(State(), NONE) && Abs(State()) == old(Abs(State()))
      ensures !ok ==> disk == old(disk) && dirdirty == old(dirdirty) && lfltab == old(lfltab)
      ensures ok ==> !dirdirty && lfltab == old(lfltab)[c := old(lfltab[c]).(ibdirty := false, dbdirty := false)]
    {
      hide InvP, ImgOf, Abs, DirFits, IbFits, Image;
      if !lfltab[c].used {
        return false;
      }
      ok := true;
      ghost var s0 := State();
      FlushParts(s0, c);
      FlushDirectory();
      FlushDirKeeps(s0, NONE);
      ghost var s1 := State();
      FlushParts(s1, c);
      FlushDataBlock(c);
      if s1.tab[c].dbdirty { FlushDbKeeps(s1, NONE, c); }
      ghost var s2 := State();
      FlushParts(s2, c);
      FlushIndexBlock(c);
      if s2.tab[c].ibdirty { FlushIbKeeps(s2, NONE, c); }
      AbsSame(s0, State(), c);
    }

    // --------------------------------------------------------- allocation

    /** Panics when the free list is empty, so the caller must know it is not. */
    method LfIbAlloc() returns (ibnum: int)
      requires Formatted() && dirpresent && DirFits(dir)
      requires dir.ifree != NULL_ID && 0 <= dir.ifree < NumIb(base)
      modifies `disk, `dir, `dirdirty
      ensures Formatted()
      ensures ibnum == old(dir.ifree) && !dirdirty
      ensures dir == old(dir).(ifree := old(Image()).ibs[ibnum].next)
      ensures Image() == old(Image()).(dir := dir)
    {
      hide ImgOf;
      ibnum := dir.ifree;
      var iblock := LfIbGet(ibnum);
      dir := dir.(ifree := iblock.next);
      WriteDir();
      dirdirty := false;
    }

    method LfDbAlloc() returns (dnum: int, dbuff: Sector)
      requires Formatted() && dirpresent && DirFits(dir)
      requires dir.dfree != NULL_ID && base <= dir.dfree < nsec
      modifies `disk, `dir, `dirdirty
      ensures Formatted()
      ensures dnum == old(dir.dfree) && dnum in old(Image()).dat && dbuff == Filled() && !dirdirty
      ensures dir == old(dir).(dfree := NextDb(old(Image()).dat[dnum]))
      ensures Image() == old(Image()).(dir := dir)
    {
      hide ImgOf, NextDb;
      dnum := dir.dfree;
      dbuff := ReadData(dnum);
      dir := dir.(dfree := NextDb(dbuff));
      WriteDir();
      dirdirty := false;
      dbuff := Filled();
    }

    // ------------------------------------------------------------ lfsetup

    /** lfsetup, first part: an empty file gets its first index block. */
    method SetupEmpty(c: nat)
      requires Formatted() && dirpresent && AtStart(State(), c) && lfltab[c].fidx < |dir.files|
      requires lfltab[c].inum == NULL_ID && dir.files[lfltab[c].fidx].ilist == NULL_ID && dir.ifree != NULL_ID
      modifies this
      ensures Formatted() && dirpresent
      ensures old(GrowIndexPre(State(), c)) && State() == old(GrowIndex(State(), c))
      ensures AtIndex(State(), c, Pend(old(lfltab[c].fidx), 1, 0), 0) && Abs(State()) == old(Abs(State()))
    {
      hide AtIndex, Abs, InvP, ImgOf, Image, DirFits;
      ghost var s := State();
      var f := lfltab[c].fidx;
      EmptyFile(s, c);
      GrowIndexAt(s, c);
      AllocFacts(s, c);
      var ibnum := LfIbAlloc();
      var ib := LfIbClear(0);
      dir := dir.(files := dir.files[f := dir.files[f].(ilist := ibnum)]);
      lfltab := lfltab[c := lfltab[c].(inum := ibnum, iblock := ib, ibdirty := true)];
      ibs := Linked(ibs, ia.used[f], ibnum);
      ia := Give(ia, f);
      assert lfltab == GrowIndex(s, c).tab;
      assert dir == GrowIndex(s, c).dir;
      assert Image() == GrowIndex(s, c).img;
    }

    /** lfsetup, in the loop: the chain is extended past its last index block. */
    method SetupExtend(c: nat)
      requires Formatted() && dirpresent && AtStart(State(), c) && lfltab[c].fidx < |dir.files|
      requires lfltab[c].fidx < |ia.used| && ia.used[lfltab[c].fidx] != [] && lfltab[c].inum == Top(ia.used[lfltab[c].fidx])
      requires lfltab[c].pos == dir.files[lfltab[c].fidx].size && lfltab[c].pos % IDATA == 0 && dir.ifree != NULL_ID
      modifies this
      ensures Formatted() && dirpresent
      ensures old(GrowIndexPre(State(), c)) && State() == old(GrowIndex(State(), c))
      ensures AtIndex(State(), c, Pend(old(lfltab[c].fidx), 1, 0), old(|ia.used[lfltab[c].fidx]|))
      ensures Abs(State()) == old(Abs(State()))
    {
      hide AtIndex, Abs, InvP, ImgOf, Image, OwnedBy, DirFits, FileAt, CurrentI, CurrentD, Linked, Give;
      ghost var s := State();
      var f := lfltab[c].fidx;
      StartFacts(s, c);
      GrowIndexAt(s, c);
      AllocFacts(s, c);
      LastIndex(s, c);
      var ibnum := LfIbAlloc();
      var iblock := lfltab[c].iblock.(next := ibnum);
      LfIbPut(lfltab[c].inum, iblock);
      var newoffset := iblock.offset + IDATA;
      iblock := LfIbClear(newoffset);
      lfltab := lfltab[c := lfltab[c].(inum := ibnum, iblock := iblock, ibdirty := true)];
      lfltab := lfltab[c := lfltab[c].(dnum := NULL_ID)];
      ibs := Linked(ibs, ia.used[f], ibnum);
      ia := Give(ia, f);
      assert lfltab == GrowIndex(s, c).tab;
      assert dir.files == GrowIndex(s, c).dir.files;
      assert dir == GrowIndex(s, c).dir;
      assert Image() == GrowIndex(s, c).img;
    }

    /** lfibget into the control block; `drop` also invalidates the data block. */
    method LoadIndex(c: nat, ibnum: int, drop: bool, ghost k: nat)
      requires Formatted() && dirpresent && AtStart(State(), c) && lfltab[c].fidx < |ia.used|
      requires k < |ia.used[lfltab[c].fidx]| && ibnum == ia.used[lfltab[c].fidx][k] && IDATA * k <= lfltab[c].pos
      modifies `lfltab
      ensures |lfltab| == old(|lfltab|) && c < |lfltab|
      ensures lfltab[c].fidx == old(lfltab[c].fidx) && lfltab[c].pos == old(lfltab[c].pos)
      ensures AtStart(State(), c) && AtIndex(State(), c, Pend(lfltab[c].fidx, 0, 0), k)
      ensures Abs(State()) == old(Abs(State()))
    {
      hide AtIndex, Abs, InvP, ImgOf, Image;
      ghost var s := State();
      LoadIndexKeeps(s, c, k, drop);
      Counts(s, NONE);
      AllFits(s, NONE);
      var ib := LfIbGet(ibnum);
      lfltab := lfltab[c := lfltab[c].(inum := ibnum, iblock := ib)];
      if drop {
        lfltab := lfltab[c := lfltab[c].(dnum := NULL_ID)];
      }
      assert lfltab == s.tab[c := Loaded(s.tab[c], ibnum, s.img.ibs[ibnum], drop)];
    }

    /** lfsetup up to the loop: some index block of the file is in memory. */
    method SetupStart(c: nat) returns (ghost p: Pend, ghost k: nat)
      requires Formatted() && dirpresent && AtStart(State(), c)
      requires NeedsIndex(State(), c) ==> dir.ifree != NULL_ID
      modifies this
      ensures Formatted() && dirpresent && |lfltab| == old(|lfltab|) && c < |lfltab|
      ensures lfltab[c].fidx == old(lfltab[c].fidx) && lfltab[c].pos == old(lfltab[c].pos)
      ensures AtIndex(State(), c, p, k) && Abs(State()) == old(Abs(State()))
      ensures p.ei == 0 ==> AtStart(State(), c) && dir == old(dir)
      ensures da == old(da) && dir.dfree == old(dir.dfree) && SameButList(old(dir.files), dir.files)
    {
      hide AtIndex, Abs, InvP, ImgOf, Image, FileAt, CurrentI, CurrentD, IbOK;
      ghost var s := State();
      StartFacts(s, c);
      var f := lfltab[c].fidx;
      ChainHead(s, c);
      var ibnum := lfltab[c].inum;
      if ibnum == NULL_ID {
        ibnum := dir.files[f].ilist;
        if ibnum == NULL_ID {
          SetupEmpty(c);
          p, k := Pend(f, 1, 0), 0;
        } else {
          p, k := Pend(f, 0, 0), 0;
          LoadIndex(c, ibnum, false, 0);
        }
      } else if lfltab[c].pos < lfltab[c].iblock.offset {
        ibnum := dir.files[f].ilist;
        p, k := Pend(f, 0, 0), 0;
        LoadIndex(c, ibnum, false, 0);
      } else {
        CachedIndex(s, c);
        p, k := Pend(f, 0, 0), ia.own[ibnum].k;
      }
    }

    /** The loop of lfsetup: walk, or extend, the chain up to the position. */
    method SetupWalk(c: nat, ghost p0: Pend, ghost k0: nat) returns (ghost p: Pend, ghost k: nat)
      requires Formatted() && dirpresent && AtIndex(State(), c, p0, k0)
      requires p0.ei == 0 ==> AtStart(State(), c) && (NeedsIndex(State(), c) ==> dir.ifree != NULL_ID)
      modifies this
      ensures Formatted() && dirpresent && |lfltab| == old(|lfltab|) && c < |lfltab|
      ensures lfltab[c].fidx == old(lfltab[c].fidx) && lfltab[c].pos == old(lfltab[c].pos)
      ensures AtIndex(State(), c, p, k) && lfltab[c].pos < IDATA * (k + 1)
      ensures Abs(State()) == old(Abs(State()))
      ensures da == old(da) && dir.dfree == old(dir.dfree) && SameButList(old(dir.files), dir.files)
    {
      hide Abs, InvP, ImgOf, Image, AtIndex, Sized;
      p, k := p0, k0;
      WalkFacts(State(), c, p, k);
      while lfltab[c].pos - lfltab[c].pos % IDATA > lfltab[c].iblock.offset
        invariant Formatted() && dirpresent && |lfltab| == old(|lfltab|) && c < |lfltab|
        invariant lfltab[c].fidx == old(lfltab[c].fidx) && lfltab[c].pos == old(lfltab[c].pos)
        invariant AtIndex(State(), c, p, k) && lfltab[c].iblock.offset == IDATA * k && IDATA * k <= lfltab[c].pos
        invariant p.ei == 0 ==> AtStart(State(), c) && (NeedsIndex(State(), c) ==> dir.ifree != NULL_ID)
        invariant Abs(State()) == old(Abs(State()))
        invariant da == old(da) && dir.dfree == old(dir.dfree) && SameButList(old(dir.files), dir.files)
        decreases lfltab[c].pos - lfltab[c].iblock.offset
      {
        WalkFacts(State(), c, p, k);
        var ibnum := lfltab[c].iblock.next;
        var f := lfltab[c].fidx;
        if ibnum == NULL_ID {
          p, k := Pend(f, 1, 0), k + 1;
          SetupExtend(c);
        } else {
          p, k := Pend(f, 0, 0), k + 1;
          LoadIndex(c, ibnum, true, k);
        }
        WalkFacts(State(), c, p, k);
      }
    }

    /** lfsetup: the file gets the data block that its end has reached. */
    method SetupNewData(c: nat, dindex: nat, ghost p: Pend, ghost k: nat)
      requires Formatted() && dirpresent && AtIndex(State(), c, p, k) && lfltab[c].pos < IDATA * (k + 1)
      requires dindex == lfltab[c].pos % IDATA / BLKSIZ && da.free != [] && dir.dfree != NULL_ID
      requires lfltab[c].fidx < |da.used| && lfltab[c].pos / BLKSIZ >= |da.used[lfltab[c].fidx]|
      modifies this
      ensures Formatted() && dirpresent
      ensures Ready(State(), c, Pend(old(lfltab[c].fidx), p.ei, 1)) && Abs(State()) == old(Abs(State()))
    {
      hide Abs, InvP, ImgOf, Image, AtIndex, Sized, Ready, DirFits, NextDb;
      ghost var s := State();
      WalkFacts(s, c, p, k);
      PointerFacts(s, c, p, k);
      DataFacts(s, c, p);
      GrowDataAt(s, c, p, k);
      var f := lfltab[c].fidx;
      PointerIndex(lfltab[c].pos);
      assert dindex == |da.used[f]| % IBLEN;
      var dnum, dblock := LfDbAlloc();
      var t := lfltab[c];
      lfltab := lfltab[c := t.(dblock := dblock, iblock := t.iblock.(dba := t.iblock.dba[dindex := dnum]), ibdirty := true)];
      lfltab := lfltab[c := lfltab[c].(dnum := dnum, at := lfltab[c].pos % BLKSIZ)];
      ibs := ibs[lfltab[c].inum := lfltab[c].iblock];
      dat := dat[dnum := dblock];
      da := Give(da, f);
      assert lfltab == GrowData(s, c).tab;
      assert State() == GrowData(s, c);
    }

    /** lfsetup: the data block exists, and is read unless it is the cached one. */
    method SetupOldData(c: nat, dnum: int, ghost k: nat)
      requires Formatted() && dirpresent && c < |lfltab| && AtIndex(State(), c, Pend(lfltab[c].fidx, 0, 0), k)
      requires lfltab[c].pos < IDATA * (k + 1) && lfltab[c].fidx < |da.used|
      requires dnum == Nth(da.used[lfltab[c].fidx], lfltab[c].pos / BLKSIZ) && dnum != NULL_ID
      modifies `lfltab
      ensures Ready(State(), c, Pend(old(lfltab[c].fidx), 0, 0)) && Abs(State()) == old(Abs(State()))
    {
      hide Abs, InvP, ImgOf, AtIndex, Sized, Ready;
      ghost var s := State();
      ghost var p := Pend(lfltab[c].fidx, 0, 0);
      WalkFacts(s, c, p, k);
      DataFacts(s, c, p);
      LoadDataReady(s, c, k, dnum);
      if dnum != lfltab[c].dnum {
        var dblock := ReadData(dnum);
        lfltab := lfltab[c := lfltab[c].(dblock := dblock, dbdirty := false)];
      }
      lfltab := lfltab[c := lfltab[c].(dnum := dnum, at := lfltab[c].pos % BLKSIZ)];
      assert lfltab == s.tab[c := DataLoaded(s.tab[c], dnum, s.img.dat[dnum])];
    }

    /** lfsetup on a file whose byte pointer is past its block. */
    method LfSetup(c: nat) returns (ghost q: Pend)
      requires Formatted() && dirpresent && InvP(State(), NONE)
      requires c < |lfltab| && lfltab[c].used && lfltab[c].at == BLKSIZ
      requires NeedsIndex(State(), c) ==> dir.ifree != NULL_ID
      requires NeedsData(State(), c) ==> dir.dfree != NULL_ID
      modifies this
      ensures Formatted() && dirpresent && Ready(State(), c, q) && Abs(State()) == old(Abs(State()))
    {
      hide Abs, InvP, ImgOf, Image, AtIndex, Sized, Ready;
      if lfltab[c].ibdirty || lfltab[c].dbdirty {
        var _ := LfFlush(c);
      }
      ghost var p, k := SetupStart(c);
      p, k := SetupWalk(c, p, k);
      WalkFacts(State(), c, p, k);
      PointerFacts(State(), c, p, k);
      DataFacts(State(), c, p);
      var dindex := lfltab[c].pos % IDATA / BLKSIZ;
      var dnum := lfltab[c].iblock.dba[dindex];
      if dnum == NULL_ID {
        q := Pend(lfltab[c].fidx, p.ei, 1);
        SetupNewData(c, dindex, p, k);
      } else {
        q := Pend(lfltab[c].fidx, 0, 0);
        SetupOldData(c, dnum, k);
      }
    }

    // ------------------------------------------------- bytes and positions

    method LflGetc(c: nat) returns (r: Getc)
      requires Valid() && c < |lfltab|
      modifies this
      ensures Valid() && (Abs(State()), r) == AGetc(old(Abs(State())), c)
    {
      hide Abs, InvP, ImgOf, Image, Ready;
      AbsOpen(State(), c, NONE);
      if !lfltab[c].used {
        return SysErr;
      }
      var f := lfltab[c].fidx;
      if lfltab[c].pos >= dir.files[f].size {
        return Eof;
      }
      if lfltab[c].at >= BLKSIZ {
        OpenFacts(State(), c);
        ghost var q := LfSetup(c);
        ReadyInv(State(), c, q);
        AbsOpen(State(), c, q);
        GetReady(State(), c, q);
      }
      AbsGetByte(State(), c);
      var onebyte := lfltab[c].dblock[lfltab[c].at];
      lfltab := lfltab[c := lfltab[c].(at := lfltab[c].at + 1, pos := lfltab[c].pos + 1)];
      assert Inv(State()) by { assert lfltab[c].used; }
      return Char(onebyte);
    }

    /** lfdballoc or lfiballoc would find its free list empty and panic. */
    predicate WouldPanic(c: nat)
      reads this
      requires c < |lfltab| && (lfltab[c].used ==> lfltab[c].fidx < |dir.files|)
    {
      && lfltab[c].used && lfltab[c].at >= BLKSIZ && lfltab[c].pos == dir.files[lfltab[c].fidx].size
      && (  (lfltab[c].pos % IDATA == 0 && dir.ifree == NULL_ID)
         || (lfltab[c].pos % BLKSIZ == 0 && dir.dfree == NULL_ID))
    }

    ghost function Capacity(): Cap
      requires Geometry(nsec, base)
    {
      Cap(NumIb(base), nsec - base)
    }

    /** Tells a caller whether writing a byte would panic. */
    method Full(c: nat) returns (r: bool)
      requires Valid() && c < |lfltab|
      ensures r <==> APanics(Abs(State()), c, Capacity())
      ensures r || !lfltab[c].used || (lfltab[c].fidx < |dir.files| && !WouldPanic(c))
    {
      hide Abs, InvP, ImgOf, Image;
      AbsOpen(State(), c, NONE);
      if !lfltab[c].used {
        return false;
      }
      PanicMeaning(State(), c);
      r := WouldPanic(c);
    }

    method LflPutc(c: nat, ch: byte) returns (ok: bool)
      requires Valid() && c < |lfltab| && !APanics(Abs(State()), c, Capacity())
      modifies this
      ensures Valid() && (Abs(State()), ok) == APutc(old(Abs(State())), c, ch)
    {
      hide Abs, InvP, ImgOf, Image, Ready;
      AbsOpen(State(), c, NONE);
      if !lfltab[c].used {
        return false;
      }
      var f := lfltab[c].fidx;
      if lfltab[c].pos > dir.files[f].size {
        return false;
      }
      PanicMeaning(State(), c);
      ghost var q;
      if lfltab[c].at >= BLKSIZ {
        OpenFacts(State(), c);
        q := LfSetup(c);
      } else {
        InBlock(State(), c);
        q := Pend(f, 0, 0);
      }
      StoreByte(c, ch, q);
      return true;
    }

    /** lflputc once the right blocks are cached. */
    method StoreByte(c: nat, ch: byte, ghost q: Pend)
      requires Formatted() && dirpresent && Ready(State(), c, q)
      modifies this
      ensures Valid() && IsOpen(old(Abs(State())), c) && old(Abs(State()).open[c].pos <= |FileOf(Abs(State()), c)|)
      ensures var a := old(Abs(State())); var pos := a.open[c].pos;
              Abs(State()) == Refilled(a, c, Written(FileOf(a, c), pos, ch), pos + 1)
    {
      hide Abs, InvP, ImgOf, Image, Ready;
      ghost var s := State();
      ReadyInv(s, c, q);
      PutByteKeeps(s, c, q, ch);
      AbsPutByte(s, c, q, ch);
      var f := lfltab[c].fidx;
      if lfltab[c].pos >= dir.files[f].size {
        dir := dir.(files := dir.files[f := dir.files[f].(size := dir.files[f].size + 1)]);
        dirdirty := true;
      }
      dat := dat[lfltab[c].dnum := lfltab[c].dblock[lfltab[c].at := ch]];
      lfltab := lfltab[c := lfltab[c].(dblock := lfltab[c].dblock[lfltab[c].at := ch], at := lfltab[c].at + 1,
                                       pos := lfltab[c].pos + 1, dbdirty := true)];
      assert dir.files == PutByte(s, c, ch).dir.files;
      assert State() == PutByte(s, c, ch);
      assert Inv(State()) by { assert lfltab[c].used; }
    }

    method LflSeek(c: nat, offset: nat) returns (ok: bool)
      requires Valid() && c < |lfltab|
      modifies `lfltab
      ensures Valid() && (Abs(State()), ok) == ASeek(old(Abs(State())), c, offset)
    {
      hide Abs, InvP, ImgOf, Image;
      ghost var s := State();
      AbsOpen(s, c, NONE);
      if !lfltab[c].used {
        return false;
      }
      if offset > dir.files[lfltab[c].fidx].size {
        return false;
      }
      SeekKeeps(s, c, offset);
      lfltab := lfltab[c := lfltab[c].(pos := offset, at := BLKSIZ)];
      assert Inv(State()) by { assert lfltab[c].used; }
      return true;
    }

    method LflClose(c: nat) returns (ok: bool)
      requires Valid() && c < |lfltab|
      modifies `disk, `dirdirty, `lfltab
      ensures Valid() && (Abs(State()), ok) == AClose(old(Abs(State())), c)
      ensures ok ==> !dirdirty
      ensures old(!dirdirty && !lfltab[c].dbdirty && !lfltab[c].ibdirty && lfltab[c].used) ==>
                disk == old(disk) && lfltab == old(lfltab)[c := old(lfltab[c]).(used := false)]
      ensures ok ==> forall f :: 0 <= f < |Abs(State()).files| && f == old(lfltab[c].fidx) && Abs(State()).files[f].bytes != [] ==>
                OnDiskIs(State(), f, Abs(State()).files[f].bytes)
    {
      hide Abs, InvP, ImgOf, Image;
      AbsOpen(State(), c, NONE);
      if !lfltab[c].used {
        return false;
      }
      if dirdirty || lfltab[c].dbdirty || lfltab[c].ibdirty {
        var _ := LfFlush(c);
      }
      ghost var s := State();
      AbsOpen(s, c, NONE);
      CloseKeeps(s, c);
      AbsSetTab(s, c, lfltab[c].(used := false));
      lfltab := lfltab[c := lfltab[c].(used := false)];
      ClosedOnDisk(State(), lfltab[c].fidx, c, s);
      return true;
    }

    // --------------------------------------------------------- truncation

    /** The 508 bytes after the link are whatever the stack held. */
    method LfDbFree(dnum: int) returns (ghost blk: Sector)
      requires Formatted() && dirpresent && DirFits(dir) && base <= dnum < nsec
      modifies `disk, `dir
      ensures Formatted() && NextDb(blk) == old(dir.dfree)
      ensures dir == old(dir).(dfree := dnum)
      ensures Image() == old(Image()).(dat := old(Image()).dat[dnum := blk], dir := dir)
    {
      hide ImgOf, NextDb;
      assert |seq(BLKSIZ - 4, _ => 0 as byte)| == BLKSIZ - 4;
      var rest: seq<byte> :| |rest| == BLKSIZ - 4;
      var buf := FreeBlock(dir.dfree, rest);
      blk := buf;
      dir := dir.(dfree := dnum);
      WriteData(dnum, buf);
      WriteDir();
    }

    /** The inner loop of lftruncate, over the pointers of one index block. */
    method FreePointers(iblock: IBlk, ghost s: Fs, ghost f: nat, ghost k: nat)
      requires Formatted() && dirpresent && DirFits(dir) && dir.nfiles == s.dir.nfiles
      requires Shape(s) && s.nsec == nsec && s.base == base
      requires f < |s.da.used| == |s.ia.used| && IBLEN * k <= |s.da.used[f]| && IbOK(iblock, k, s.ia.used[f], s.da.used[f])
      requires TruncAt(s, Image(), dir.dfree, f, k, IBLEN * k)
      modifies `disk, `dir
      ensures Formatted() && dir == old(dir).(dfree := dir.dfree) && DirFits(dir)
      ensures var n := |s.da.used[f]|; TruncAt(s, Image(), dir.dfree, f, k, if IBLEN * (k + 1) <= n then IBLEN * (k + 1) else n)
    {
      hide ImgOf, TruncAt, Shape, NextDb, IbOK;
      ghost var dch := s.da.used[f];
      ghost var n := IBLEN * k;
      PointersOf(iblock, k, s.ia.used[f], dch, s);
      for i := 0 to IBLEN
        invariant Formatted() && dir == old(dir).(dfree := dir.dfree) && DirFits(dir)
        invariant n == (if IBLEN * k + i <= |dch| then IBLEN * k + i else |dch|)
        invariant TruncAt(s, Image(), dir.dfree, f, k, n)
      {
        var nextdb := iblock.dba[i];
        if nextdb != NULL_ID {
          ghost var m, dfree := Image(), dir.dfree;
          DataKeys(m, nsec, base);
          ghost var blk := LfDbFree(nextdb);
          TruncFree(s, m, dfree, f, k, n, blk, dir);
          n := n + 1;
        }
      }
    }

    /** lftruncate on a file that is not empty and has been flushed. */
    method TruncateClean(c: nat)
      requires Formatted() && dirpresent && AtStart0(State(), c) && lfltab[c].fidx < |dir.files|
      requires dir.files[lfltab[c].fidx].size > 0
      modifies this
      ensures Formatted() && dirpresent && dirdirty && InvP(State(), NONE)
      ensures |lfltab| == old(|lfltab|) && c < |lfltab| && lfltab[c].used
      ensures IsOpen(old(Abs(State())), c) && Abs(State()) == Refilled(old(Abs(State())), c, [], 0)
      ensures var f := old(lfltab[c].fidx); Returned(old(ia), ia, f, true) && Returned(old(da), da, f, false)
    {
      hide ImgOf, Image, TruncAt, Shape, InvP, Abs, DirFits, FileAt, OverI, OverD, Release, AreaOK, Refilled, IsOpen;
      ghost var s := State();
      var f := lfltab[c].fidx;
      TruncStart(s, c);
      TruncPlan(s, c);
      ghost var ich, dch := ia.used[f], da.used[f];
      lfltab := lfltab[c := lfltab[c].(pos := 0, inum := NULL_ID, dnum := NULL_ID, at := BLKSIZ)];
      var ifree := dir.ifree;
      var firstib := dir.files[f].ilist;
      dir := dir.(files := dir.files[f := dir.files[f].(ilist := NULL_ID, size := 0)]);
      ClearedFits(s.dir, f);
      dirdirty := true;
      TruncLoop(ifree, firstib, s, f);
      TruncKeys(s, Image(), dir.dfree, f, |ich|, |dch|);
      TruncDone(s, Image(), dir.dfree, c);
      dir := dir.(ifree := firstib);
      ibs := OverI(ia, f, ibs, Image().ibs);
      dat := OverD(da, f, dat, Image().dat);
      ia := Release(ia, f, true);
      da := Release(da, f, false);
      assert State() == TruncEnd(s, Image(), dir.dfree, c);
    }

    /** The loop of lftruncate over the index blocks of file f. */
    method TruncLoop(ifree: int, firstib: int, ghost s: Fs, ghost f: nat)
      requires Formatted() && dirpresent && DirFits(dir) && dir.nfiles == s.dir.nfiles && InvP(s, NONE) && Planned(s, f)
      requires s.nsec == nsec && s.base == base && ifree == s.dir.ifree && firstib == s.ia.used[f][0]
      requires TruncAt(s, Image(), dir.dfree, f, 0, 0)
      modifies `disk, `dir
      ensures Formatted() && dir == old(dir).(dfree := dir.dfree) && DirFits(dir)
      ensures TruncAt(s, Image(), dir.dfree, f, |s.ia.used[f]|, |s.da.used[f]|)
    {
      hide ImgOf, Image, TruncAt, Shape, InvP, DirFits, FileAt, OverI, OverD, Release;
      ghost var ich, dch := s.ia.used[f], s.da.used[f];
      ghost var dir0 := dir;
      ghost var k := 0;
      var nextib := firstib;
      while nextib != ifree
        invariant Formatted() && dirpresent
        invariant dir == dir0.(dfree := dir.dfree) && DirFits(dir)
        invariant k <= |ich| && nextib == (if k < |ich| then ich[k] else ifree)
        invariant TruncAt(s, Image(), dir.dfree, f, k, if IBLEN * k <= |dch| then IBLEN * k else |dch|)
        decreases |ich| - k
      {
        TruncNext(s, Image(), dir.dfree, f, k, if IBLEN * k <= |dch| then IBLEN * k else |dch|);
        var iblock := LfIbGet(nextib);
        FreePointers(iblock, s, f, k);
        ghost var n := if IBLEN * (k + 1) <= |dch| then IBLEN * (k + 1) else |dch|;
        var cleared := LfIbClear(0);
        iblock := cleared.(next := iblock.next);
        if iblock.next == NULL_ID {
          iblock := iblock.(next := ifree);
        }
        TruncEmptied(s, Image(), dir.dfree, f, k, n);
        LfIbPut(nextib, iblock);
        nextib := iblock.next;
        k := k + 1;
      }
    }

    method LfTruncate(c: nat) returns (ok: bool)
      requires Valid() && c < |lfltab| && lfltab[c].used
      modifies this
      ensures Valid() && (Abs(State()), ok) == ATruncate(old(Abs(State())), c) && ok
      ensures IsOpen(old(Abs(State())), c) && (FileOf(old(Abs(State())), c) == [] ==> ia == old(ia) && da == old(da))
      ensures FileOf(old(Abs(State())), c) != [] ==>
                var f := old(lfltab[c].fidx); Returned(old(ia), ia, f, true) && Returned(old(da), da, f, false)
    {
      hide ImgOf, Image, InvP, Abs;
      AbsOpen(State(), c, NONE);
      if dir.files[lfltab[c].fidx].size == 0 {
        NothingToDo(Abs(State()), c);
        return true;
      }
      if lfltab[c].ibdirty || lfltab[c].dbdirty {
        var _ := LfFlush(c);
      }
      TruncateClean(c);
      assert Inv(State()) by { assert lfltab[c].used; }
      return true;
    }

    /** lflcontrol: every function but LF_CTL_TRUNC is an error. */
    method LflControl(c: nat, func: int) returns (ok: bool)
      requires Valid() && c < |lfltab|
      modifies this
      ensures Valid()
      ensures (Abs(State()), ok) == if func == LF_CTL_TRUNC then ATruncate(old(Abs(State())), c) else (old(Abs(State())), false)
      ensures func != LF_CTL_TRUNC ==> disk == old(disk) && dir == old(dir) && lfltab == old(lfltab)
      ensures var a := old(Abs(State()));
              if ok && IsOpen(a, c) && FileOf(a, c) != [] then
                var f := old(lfltab[c].fidx); Returned(old(ia), ia, f, true) && Returned(old(da), da, f, false)
              else ia == old(ia) && da == old(da)
    {
      hide ImgOf, Image, Inv, Abs;
      match func
      case 2 =>
        ok := LflControlTrunc(c);
      case _ =>
        return false;
    }

    /** lflcontrol with function LF_CTL_TRUNC. */
    method LflControlTrunc(c: nat) returns (ok: bool)
      requires Valid() && c < |lfltab|
      modifies this
      ensures Valid() && (Abs(State()), ok) == ATruncate(old(Abs(State())), c)
      ensures var a := old(Abs(State()));
              if ok && IsOpen(a, c) && FileOf(a, c) != [] then
                var f := old(lfltab[c].fidx); Returned(old(ia), ia, f, true) && Returned(old(da), da, f, false)
              else ia == old(ia) && da == old(da)
    {
      hide ImgOf, Image, InvP, Abs;
      AbsOpen(State(), c, NONE);
      if !lfltab[c].used {
        return false;
      }
      ok := LfTruncate(c);
    }

    // ------------------------------------------------------ reads and writes

    method LflRead(c: nat, count: int) returns (r: ReadResult)
      requires Valid() && c < |lfltab|
      modifies this
      ensures Valid() && (Abs(State()), r) == ARead(old(Abs(State())), c, count)
    {
      hide ImgOf, Image, Inv, Abs;
      if count < 0 {
        return ReadErr;
      }
      ghost var a := Abs(State());
      ghost var n := |lfltab|;
      var buff: seq<byte> := [];
      var numread := 0;
      TabLen(State());
      while numread < count
        invariant 0 <= numread <= count && |buff| == numread && Valid() && |lfltab| == n
        invariant numread == 0 ==> Abs(State()) == a
        invariant numread > 0 ==>
                    && IsOpen(a, c) && a.open[c].pos + numread <= |FileOf(a, c)|
                    && Abs(State()) == Moved(a, c, a.open[c].pos + numread)
                    && buff == FileOf(a, c)[a.open[c].pos..a.open[c].pos + numread]
      {
        var nxtbyte := LflGetc(c);
        TabLen(State());
        if nxtbyte.SysErr? {
          return ReadErr;
        } else if nxtbyte.Eof? {
          if numread == 0 {
            return ReadEof;
          } else {
            return Got(buff);
          }
        } else {
          buff := buff + [nxtbyte.ch];
        }
        numread := numread + 1;
      }
      return Got(buff);
    }

    /** `panicked` says that the system stopped because the disk was full. */
    method LflWrite(c: nat, buff: seq<byte>, count: int) returns (r: int, panicked: bool)
      requires Valid() && c < |lfltab| && count <= |buff|
      modifies this
      ensures Valid() && (Abs(State()), r, panicked) == AWrite(old(Abs(State())), c, buff, count, Capacity())
    {
      hide ImgOf, Image, Inv, Abs;
      panicked := false;
      if count < 0 {
        return -1, false;
      }
      ghost var a := Abs(State());
      ghost var n := |lfltab|;
      TabLen(State());
      var i := 0;
      while i < count
        invariant 0 <= i <= count && Valid() && |lfltab| == n
        invariant AWriteFrom(a, c, buff[..count], 0, Capacity()) == AWriteFrom(Abs(State()), c, buff[..count], i, Capacity())
      {
        TabLen(State());
        var full := Full(c);
        if full {
          return i, true;
        }
        var ok := LflPutc(c, buff[i]);
        TabLen(State());
        if !ok {
          return -1, false;
        }
        i := i + 1;
      }
      return count, false;
    }

    // -------------------------------------------------------------- lfsopen

    /** The search over the open-file table: a free entry, unless the file is open. */
    method FindEntry(name: seq<byte>, n: nat) returns (lfnext: int, dup: bool)
      requires Valid()
      requires n < NAME_LEN && n < |name| && name[n] == 0 && forall k :: 0 <= k < n ==> name[k] != 0
      ensures dup <==> NameOpen(Abs(State()), name[..n])
      ensures !dup ==> forall c :: 0 <= c < |lfltab| && lfltab[c].used ==> CStr(lfltab[c].name) != name[..n]
      ensures !dup ==> FirstClosed(Abs(State()).open) == if lfnext == -1 then |lfltab| else lfnext
      ensures !dup && lfnext != -1 ==> 0 <= lfnext < |lfltab| && !lfltab[lfnext].used
    {
      hide ImgOf, Image, InvP, Abs, CStr;
      lfnext, dup := -1, false;
      var i := 0;
      while i < |lfltab|
        invariant 0 <= i <= |lfltab|
        invariant if lfnext == -1 then forall c :: 0 <= c < i ==> lfltab[c].used
                  else 0 <= lfnext < i && !lfltab[lfnext].used && forall c :: 0 <= c < lfnext ==> lfltab[c].used
        invariant forall c :: 0 <= c < i && lfltab[c].used ==> CStr(lfltab[c].name) != name[..n]
      {
        if !lfltab[i].used {
          if lfnext == -1 {
            lfnext := i;
          }
        } else {
          NameLen(State(), i);
          var same := SameName(name, n, lfltab[i].name);
          if same {
            IsNameOpen(State(), name[..n], i);
            return lfnext, true;
          }
        }
        i := i + 1;
      }
      NotOpen(State(), name[..n]);
      FirstFree(State(), if lfnext == -1 then |lfltab| else lfnext);
    }

    /** The search over the directory. */
    method FindFile(name: seq<byte>, n: nat) returns (f: nat)
      requires Valid() && dirpresent
      requires n < NAME_LEN && n < |name| && name[n] == 0 && forall k :: 0 <= k < n ==> name[k] != 0
      ensures f <= dir.nfiles <= |dir.files| && f == FindName(Abs(State()).files, name[..n])
      ensures f < dir.nfiles ==> CStr(dir.files[f].name) == name[..n]
      ensures forall g :: 0 <= g < f ==> CStr(dir.files[g].name) != name[..n]
    {
      hide ImgOf, Image, InvP, Abs, CStr;
      Counts(State(), NONE);
      f := 0;
      while f < dir.nfiles
        invariant f <= dir.nfiles && forall g :: 0 <= g < f ==> CStr(dir.files[g].name) != name[..n]
      {
        EntryLen(State(), f);
        var same := SameName(name, n, dir.files[f].name);
        if same {
          break;
        }
        f := f + 1;
      }
      FoundAt(State(), name[..n], f);
    }

    method LoadDirectory()
      requires Valid()
      modifies `dir, `dirpresent
      ensures Valid() && dirpresent && State() == old(State())
    {
      if !dirpresent {
        dir := DecodeDir(disk[0]);
        dirpresent := true;
      }
    }

    /** The directory gets an entry for a new, empty file. It is not marked dirty. */
    method CreateEntry(name: seq<byte>, n: nat)
      requires Valid() && dirpresent && dir.nfiles < NUM_DIR_ENT
      requires n < NAME_LEN && n < |name| && name[n] == 0 && forall k :: 0 <= k < n ==> name[k] != 0
      requires forall g :: 0 <= g < dir.nfiles <= |dir.files| ==> CStr(dir.files[g].name) != name[..n]
      modifies `dir, `ia, `da
      ensures Valid() && dir.nfiles == old(dir.nfiles) + 1 <= |dir.files| && old(dir.nfiles) >= 0
      ensures CStr(dir.files[old(dir.nfiles)].name) == name[..n]
      ensures forall g :: 0 <= g < old(dir.nfiles) ==> CStr(dir.files[g].name) != name[..n]
      ensures Abs(State()) == old(Abs(State())).(files := old(Abs(State())).files + [AFile(name[..n], [])])
    {
      hide ImgOf, Image, InvP, Abs, CStr;
      ghost var s := State();
      Counts(s, NONE);
      FileCount(s);
      EntryLen(s, dir.nfiles);
      var raw := CopyName(dir.files[dir.nfiles].name, name, n);
      AddFileKeeps(s, raw);
      AbsAddFile(s, raw);
      dir := dir.(nfiles := dir.nfiles + 1, files := dir.files[dir.nfiles := LdEntry(0, NULL_ID, raw)]);
      ia := ia.(used := ia.used + [[]]);
      da := da.(used := da.used + [[]]);
      assert State() == AddFile(s, raw);
    }

    /** The control block is set up for file f, of the given name. */
    method InitEntry(c: nat, f: nat, name: seq<byte>, n: nat, mode: int)
      requires Valid() && dirpresent && c < |lfltab| && !lfltab[c].used && f < dir.nfiles <= |dir.files|
      requires n < NAME_LEN && n < |name| && name[n] == 0 && forall k :: 0 <= k < n ==> name[k] != 0
      requires CStr(dir.files[f].name) == name[..n]
      requires forall b :: 0 <= b < |lfltab| && lfltab[b].used ==> CStr(lfltab[b].name) != name[..n]
      modifies `lfltab
      ensures Valid() && Abs(State()) == old(Abs(State())).(open := old(Abs(State())).open[c := Open(f, 0)])
      ensures lfltab == old(lfltab)[c := lfltab[c]] && |lfltab| == |old(lfltab)|
      ensures lfltab[c].used && !lfltab[c].ibdirty && !lfltab[c].dbdirty && |lfltab[c].name| == NAME_LEN
    {
      hide ImgOf, Image, InvP, Abs, CStr;
      ghost var s := State();
      TabLen(s);
      NameLen(s, c);
      var raw := CopyName(lfltab[c].name, name, n);
      var t := lfltab[c].(used := true, fidx := f, mode := mode, pos := 0, name := raw,
                          inum := NULL_ID, dnum := NULL_ID, at := BLKSIZ, ibdirty := false, dbdirty := false);
      NoOpener(s, f);
      OpenOldKeeps(s, c, f, t);
      AbsSetTab(s, c, t);
      lfltab := lfltab[c := t];
      assert Inv(State()) by { assert lfltab[c].used; }
    }

    method LfsOpen(name: seq<byte>, mode: Mode) returns (r: Opened)
      requires Valid() && 0 in name
      modifies this
      ensures Valid() && (Abs(State()), r) == AOpenFile(old(Abs(State())), CStr(name), mode)
      ensures disk == old(disk) && dirdirty == old(dirdirty)
      ensures if r.OpenErr? then lfltab == old(lfltab)
              else && r.c < |lfltab| && lfltab == old(lfltab)[r.c := lfltab[r.c]]
                   && lfltab[r.c].used && !lfltab[r.c].ibdirty && !lfltab[r.c].dbdirty && |lfltab[r.c].name| == NAME_LEN
    {
      hide ImgOf, Image, InvP, Abs, CStr, FindName, FirstClosed, NameOpen;
      var n := NameLength(name);
      if n >= NAME_LEN || mode.BadMode? {
        return OpenErr;
      }
      var lfnext, dup := FindEntry(name, n);
      TabLen(State());
      if dup || lfnext == -1 {
        return OpenErr;
      }
      LoadDirectory();
      r := OpenAs(name, n, lfnext, mode);
    }

    /** lfsopen once a free entry of the table is known and the name is not open. */
    method OpenAs(name: seq<byte>, n: nat, lfnext: nat, mode: Mode) returns (r: Opened)
      requires n < NAME_LEN && n < |name| && name[n] == 0 && forall k :: 0 <= k < n ==> name[k] != 0
      requires mode.Mode? && lfnext < |lfltab| && !lfltab[lfnext].used
      requires NotAmong(lfltab, name[..n]) && dirpresent && Valid()
      modifies `dir, `ia, `da, `lfltab
      ensures if r.OpenErr? then lfltab == old(lfltab)
              else && r.c < |lfltab| == |old(lfltab)| && lfltab == old(lfltab)[r.c := lfltab[r.c]]
                   && lfltab[r.c].used && !lfltab[r.c].ibdirty && !lfltab[r.c].dbdirty && |lfltab[r.c].name| == NAME_LEN
      ensures Valid() && (Abs(State()), r) == old(AOpenAt(Abs(State()), name[..n], mode, lfnext))
    {
      hide ImgOf, Image, InvP, Abs, CStr, FindName;
      var f := FindFile(name, n);
      Counts(State(), NONE);
      FileCount(State());
      TabLen(State());
      if f == dir.nfiles {
        if mode.old_ || dir.nfiles >= NUM_DIR_ENT {
          return OpenErr;
        }
        CreateEntry(name, n);
      } else if mode.new_ {
        return OpenErr;
      }
      InitEntry(lfnext, f, name, n, mode.rw);
      return Dev(lfnext);
    }

    // ----------------------------------------------------------- whole runs

    /** One call, given as a value; `stop` says that the system panicked. */
    method Call(op: Op) returns (r: Res, stop: bool)
      requires Valid() && OpOK(op, |lfltab|)
      modifies this
      ensures Valid() && (Abs(State()), r, stop) == AStep(old(Abs(State())), op, Capacity())
    {
      hide ImgOf, Image, Inv, Abs, APanics, AWrite;
      stop := false;
      match op
      case DoGetc(c) =>
        var g := LflGetc(c);
        r := RGetc(g);
      case DoPutc(c, ch) =>
        var full := Full(c);
        if full {
          return ROk(false), true;
        }
        var ok := LflPutc(c, ch);
        r := ROk(ok);
      case DoSeek(c, offset) =>
        var ok := LflSeek(c, offset);
        r := ROk(ok);
      case DoRead(c, count) =>
        var g := LflRead(c, count);
        r := RRead(g);
      case DoWrite(c, buff, count) =>
        var n;
        n, stop := LflWrite(c, buff, count);
        r := RWrite(n);
      case DoTruncate(c) =>
        var ok := LflControlTrunc(c);
        r := ROk(ok);
      case DoClose(c) =>
        var ok := LflClose(c);
        r := ROk(ok);
      case DoOpen(name, mode) =>
        var d := LfsOpen(name, mode);
        r := ROpen(d);
    }

    /** Any sequence of calls, on any of the files, up to the first panic: the
        results and the final files are those of plain byte sequences. */
    method Run(ops: seq<Op>) returns (results: seq<Res>)
      requires Valid() && forall k :: 0 <= k < |ops| ==> OpOK(ops[k], |lfltab|)
      modifies this
      ensures Valid() && |results| <= |ops|
      ensures (Abs(State()), results) == ARun(old(Abs(State())), ops, Capacity())
    {
      hide ImgOf, Image, Inv, Abs, AStep, ARun, Prefixed;
      results := [];
      ghost var a, n, cap := Abs(State()), |lfltab|, Capacity();
      var k := 0;
      RunBegins(a, ops, cap);
      while k < |ops|
        invariant 0 <= k <= |ops| && |results| == k && Valid() && |lfltab| == n && Capacity() == cap
        invariant ARun(a, ops, cap) == Prefixed(results, ARun(Abs(State()), ops[k..], cap))
      {
        TabLen(State());
        ghost var a1 := Abs(State());
        var r, stop := Call(ops[k]);
        StepLen(a1, ops[k], cap);
        TabLen(State());
        RunStep(results, a1, ops, k, cap);
        if stop {
          return;
        }
        results := results + [r];
        k := k + 1;
      }
      assert ops[k..] == [];
      RunEnds(results, Abs(State()), cap);
    }
  }
}
