// The states that lfsetup passes through while it moves a file's cached index
// block and data block to the current position.
module LfsSetup {
  import opened LfsLayout
  import opened LfsModel
  import opened LfsSteps
  import opened LfsGrow
  import opened LfsImage
  import opened LfsAbs

  /** File c is clean, and its byte pointer asks for a new block. */
  ghost predicate AtStart(s: Fs, c: nat) {
    && InvP(s, NONE) && c < |s.tab| && s.tab[c].used
    && !s.tab[c].ibdirty && !s.tab[c].dbdirty && s.tab[c].at == BLKSIZ
  }

  /** The k-th index block of file c is cached and does not lie past the position. */
  ghost predicate AtIndex(s: Fs, c: nat, p: Pend, k: nat) {
    && InvP(s, p) && c < |s.tab| && s.tab[c].used && !s.tab[c].dbdirty && s.tab[c].at == BLKSIZ
    && var t := s.tab[c];
    && t.fidx < |s.ia.used| == |s.da.used| <= |s.dir.files| && p.f == t.fidx && p.ed == 0
    && var ich := s.ia.used[t.fidx];
    && k < |ich| && t.inum == ich[k] && IbOK(t.iblock, k, ich, s.da.used[t.fidx]) && IDATA * k <= t.pos
    && t.pos <= s.dir.files[t.fidx].size
    && Sized(s.dir.files[t.fidx].size, ich, s.da.used[t.fidx], p.ei, 0)
    && (if p.ei == 1 then k == |ich| - 1 && t.pos == s.dir.files[t.fidx].size && t.pos == IDATA * k
        else p.ei == 0 && !t.ibdirty)
  }

  /** The facts about file c that lfsetup starts from. */
  lemma StartFacts(s: Fs, c: nat)
    requires AtStart(s, c)
    ensures
      var t := s.tab[c];
      && t.fidx < |s.ia.used| == |s.da.used| == s.dir.nfiles <= |s.dir.files|
      && t.pos <= s.dir.files[t.fidx].size
      && FileAt(s.ibs, s.dir.files[t.fidx], s.ia.used[t.fidx], s.da.used[t.fidx], 0, 0)
      && CurrentI(s.img.ibs, s.ibs, s.ia.used[t.fidx])
      && CurrentD(s.img.dat, s.dat, s.da.used[t.fidx])
      && (t.inum != NULL_ID ==> OwnedBy(s.ia, t.inum, t.fidx) && 0 <= t.inum < |s.ibs| && t.iblock == s.ibs[t.inum])
      && (s.ia.free != [] <==> s.dir.ifree != NULL_ID)
      && (s.da.free != [] <==> s.dir.dfree != NULL_ID)
  {
    var f := s.tab[c].fidx;
    TabHas(s.tab, c, s.dir.files, s.ibs, s.dat, s.ia, s.da);
    assert Settled(s.tab, f) by { hide InvP, Shape, TabOK; OneSettles(s.tab, c); }
    SettledBlocks(s, f);
    HeadNull(s.ibs, s.dir.ifree, s.ia.free);
    HeadNullD(s);
    hide IStack, DStack, CoherentI, CoherentD, TabOK, DirCoherent, NamesOK, AllFit, AreaOK, OneOpener, Settled, FileAt;
    assert FileAt(s.ibs, s.dir.files[f], s.ia.used[f], s.da.used[f], Extra(NONE, f).ei, Extra(NONE, f).ed);
  }

  lemma OneSettles(tab: seq<Lfl>, c: nat)
    requires OneOpener(tab) && c < |tab| && tab[c].used && !tab[c].ibdirty && !tab[c].dbdirty
    ensures Settled(tab, tab[c].fidx)
  {
  }

  lemma HeadNull(ibs: seq<IBlk>, head: int, st: seq<int>)
    requires IStack(ibs, head, st)
    ensures st != [] <==> head != NULL_ID
  {
  }

  lemma HeadNullD(s: Fs)
    requires Shape(s) && DStack(s.dat, s.dir.dfree, s.da.free)
    ensures s.da.free != [] <==> s.dir.dfree != NULL_ID
  {
    hide AllFit, DirFits, AtHome;
    if s.da.free != [] { assert s.da.free[|s.da.free| - 1] in s.da.own; }
  }

  function Loaded(t: Lfl, i: int, ib: IBlk, drop: bool): Lfl {
    t.(inum := i, iblock := ib, dnum := if drop then NULL_ID else t.dnum)
  }

  /** Reading the k-th index block of the chain from the disk. */
  lemma LoadIndexKeeps(s: Fs, c: nat, k: nat, drop: bool)
    requires AtStart(s, c)
    requires s.tab[c].fidx < |s.ia.used| && k < |s.ia.used[s.tab[c].fidx]| && IDATA * k <= s.tab[c].pos
    ensures
      var i := s.ia.used[s.tab[c].fidx][k];
      && 0 <= i < |s.img.ibs|
      && AtIndex(SetTab(s, c, Loaded(s.tab[c], i, s.img.ibs[i], drop)), c, Pend(s.tab[c].fidx, 0, 0), k)
      && AtStart(SetTab(s, c, Loaded(s.tab[c], i, s.img.ibs[i], drop)), c)
      && Abs(SetTab(s, c, Loaded(s.tab[c], i, s.img.ibs[i], drop))) == Abs(s)
  {
    StartFacts(s, c);
    var t := s.tab[c];
    var f := t.fidx;
    var i := s.ia.used[f][k];
    var t' := Loaded(t, i, s.img.ibs[i], drop);
    LoadedOpen(s, c, k, drop);
    SetTabKeeps(s, NONE, c, t');
    PendZero(SetTab(s, c, t'), f);
    AbsSame(s, SetTab(s, c, t'), c);
    hide InvP, Abs, CeilDiv;
    assert IbOK(s.ibs[s.ia.used[f][k]], k, s.ia.used[f], s.da.used[f]);
  }

  lemma LoadedOpen(s: Fs, c: nat, k: nat, drop: bool)
    requires AtStart(s, c)
    requires s.tab[c].fidx < |s.ia.used| && k < |s.ia.used[s.tab[c].fidx]|
    requires var i := s.ia.used[s.tab[c].fidx][k]; 0 <= i < |s.ibs| == |s.img.ibs| && s.img.ibs[i] == s.ibs[i]
    ensures
      var i := s.ia.used[s.tab[c].fidx][k];
      OpenAt(Loaded(s.tab[c], i, s.img.ibs[i], drop), s.dir.files, s.ibs, s.dat, s.ia, s.da)
  {
    hide IStack, DStack, CoherentI, CoherentD, FilesOK, DirCoherent, NamesOK, AllFit, OneOpener, AtHome, DirFits;
    TabHas(s.tab, c, s.dir.files, s.ibs, s.dat, s.ia, s.da);
    assert s.ia.used[s.tab[c].fidx][k] in s.ia.own;
  }

  /** Extending the chain by one index block. */
  lemma GrowIndexAt(s: Fs, c: nat)
    requires AtStart(s, c) && s.ia.free != []
    requires s.tab[c].fidx < |s.dir.files| && s.tab[c].pos == s.dir.files[s.tab[c].fidx].size && s.tab[c].pos % IDATA == 0
    ensures s.tab[c].fidx < |s.ia.used|
    ensures 0 <= Top(s.ia.free) < |s.ibs| == |s.img.ibs|
    ensures var ich := s.ia.used[s.tab[c].fidx]; ich != [] ==> 0 <= Top(ich) < |s.ibs|
    ensures AtIndex(GrowIndex(s, c), c, Pend(s.tab[c].fidx, 1, 0), |s.ia.used[s.tab[c].fidx]|)
    ensures Abs(GrowIndex(s, c)) == Abs(s)
  {
    hide InvP, Abs, FileAt, FullIndex, OwnedBy, CurrentI, CurrentD, Linked, DiskLinked, IbOK, CeilDiv, Sized;
    StartFacts(s, c);
    Counts(s, NONE);
    Size32(s, s.tab[c].fidx);
    FullIndexFacts(s, c);
    GrowIndexKeeps(s, c);
    GrownIndexFits(s, c);
    AbsSame(s, GrowIndex(s, c), c);
  }

  lemma Size32(s: Fs, f: nat)
    requires InvP(s, NONE) && f < |s.dir.files|
    ensures UInt32(s.dir.files[f].size)
  {
    hide FilesOK, IStack, DStack, CoherentI, CoherentD, TabOK, DirCoherent, NamesOK, OneOpener, AllFit, AreaOK;
    assert EntryFits(s.dir.files[f]);
  }

  lemma GrownIndexFits(s: Fs, c: nat)
    requires AtStart(s, c) && s.ia.free != [] && AtEnd(s, c) && s.tab[c].pos % IDATA == 0
    requires s.tab[c].fidx < |s.ia.used| == |s.da.used|
    requires 0 <= Top(s.ia.free) < |s.ibs| == |s.img.ibs|
    requires var ich := s.ia.used[s.tab[c].fidx]; ich != [] ==> 0 <= Top(ich) < |s.ibs|
    ensures
      var s' := GrowIndex(s, c);
      var f := s.tab[c].fidx;
      && |s'.ia.used| == |s'.da.used| <= |s'.dir.files| && |s'.ia.used[f]| == |s.ia.used[f]| + 1
      && s.tab[c].pos == IDATA * |s.ia.used[f]|
      && s'.tab[c].inum == s'.ia.used[f][|s.ia.used[f]|]
      && IbOK(s'.tab[c].iblock, |s.ia.used[f]|, s'.ia.used[f], s'.da.used[f])
      && Sized(s'.dir.files[f].size, s'.ia.used[f], s'.da.used[f], 1, 0)
      && SameButList(s.dir.files, s'.dir.files)
  {
    hide InvP, FileOK, OwnedBy, CurrentI, CurrentD, Linked, DiskLinked, IbOK, CeilDiv;
    StartFacts(s, c);
    var f := s.tab[c].fidx;
    EndArith(s.tab[c].pos, |s.ia.used[f]|, |s.da.used[f]|);
    ClearedOK(s.ia.used[f] + [Top(s.ia.free)], s.da.used[f]);
  }

  lemma EndArith(size: nat, ni: int, nd: int)
    requires size % IDATA == 0 && ni == CeilDiv(size, IDATA) && nd == CeilDiv(size, BLKSIZ)
    ensures size == IDATA * ni && nd == IBLEN * ni
  {
  }

  lemma ClearedOK(ich: seq<int>, dch: seq<int>)
    requires ich != [] && |dch| == IBLEN * (|ich| - 1)
    ensures IbOK(Cleared(IDATA * (|ich| - 1)), |ich| - 1, ich, dch)
  {
  }

  /** The data block for the position exists: cache it and point at the byte. */
  function DataLoaded(t: Lfl, d: int, onDisk: Sector): Lfl {
    t.(dnum := d, dblock := if d == t.dnum then t.dblock else onDisk, at := t.pos % BLKSIZ)
  }

  lemma PointerFacts(s: Fs, c: nat, p: Pend, k: nat)
    requires AtIndex(s, c, p, k) && s.tab[c].pos < IDATA * (k + 1)
    ensures
      var t := s.tab[c];
      var dch := s.da.used[t.fidx];
      && |t.iblock.dba| == IBLEN
      && t.iblock.dba[t.pos % IDATA / BLKSIZ] == Nth(dch, t.pos / BLKSIZ)
      && (t.pos / BLKSIZ < |dch| ==>
            p.ei == 0 && Sized(NewSize(s.dir.files[t.fidx], t.pos).size, s.ia.used[t.fidx], dch, 0, 0))
      && (t.pos / BLKSIZ >= |dch| ==>
            && t.pos == s.dir.files[t.fidx].size && t.pos % BLKSIZ == 0 && t.pos / BLKSIZ == |dch|
            && p.ei == (if t.pos % IDATA == 0 then 1 else 0) && k == |s.ia.used[t.fidx]| - 1
            && Sized(t.pos + 1, s.ia.used[t.fidx], dch + [0], 0, 0))
  {
    hide InvP;
    var t := s.tab[c];
    var j := t.pos % IDATA / BLKSIZ;
    assert t.pos / IDATA == k;
    assert IBLEN * k + j == t.pos / BLKSIZ;
  }

  lemma LoadDataReady(s: Fs, c: nat, k: nat, d: int)
    requires c < |s.tab| && AtIndex(s, c, Pend(s.tab[c].fidx, 0, 0), k) && s.tab[c].pos < IDATA * (k + 1)
    requires s.tab[c].pos / BLKSIZ < |s.da.used[s.tab[c].fidx]| && d == s.da.used[s.tab[c].fidx][s.tab[c].pos / BLKSIZ]
    ensures d in s.img.dat
    ensures
      var s' := SetTab(s, c, DataLoaded(s.tab[c], d, s.img.dat[d]));
      Ready(s', c, Pend(s.tab[c].fidx, 0, 0)) && Abs(s') == Abs(s)
  {
    hide Abs, InvP, FileAt, OpenAt, IbOK, CeilDiv;
    var t := s.tab[c];
    var f := t.fidx;
    PendZero(s, f);
    StartFacts(s, c);
    PointerFacts(s, c, Pend(f, 0, 0), k);
    var t' := DataLoaded(t, d, s.img.dat[d]);
    DataLoadedOpen(s, c, d);
    SetTabKeeps(s, NONE, c, t');
    var s' := SetTab(s, c, t');
    PendZero(s', f);
    AbsSame(s, s', c);
    Counts(s, NONE);
  }

  lemma DataLoadedOpen(s: Fs, c: nat, d: int)
    requires AtStart(s, c) && s.tab[c].fidx < |s.da.used| && d in s.img.dat && d in s.dat && s.img.dat[d] == s.dat[d]
    requires s.tab[c].pos / BLKSIZ < |s.da.used[s.tab[c].fidx]| && d == s.da.used[s.tab[c].fidx][s.tab[c].pos / BLKSIZ]
    ensures OpenAt(DataLoaded(s.tab[c], d, s.img.dat[d]), s.dir.files, s.ibs, s.dat, s.ia, s.da)
  {
    hide IStack, DStack, CoherentI, CoherentD, FilesOK, DirCoherent, NamesOK, AllFit, OneOpener, AtHome, DirFits;
    TabHas(s.tab, c, s.dir.files, s.ibs, s.dat, s.ia, s.da);
    assert d in s.da.own;
  }

  /** The data block for the end of the file is missing: give it one. */
  lemma GrowDataAt(s: Fs, c: nat, p: Pend, k: nat)
    requires AtIndex(s, c, p, k) && s.tab[c].pos < IDATA * (k + 1) && s.da.free != []
    requires s.tab[c].pos / BLKSIZ >= |s.da.used[s.tab[c].fidx]|
    ensures GrowDataReady(s, c)
    ensures Ready(GrowData(s, c), c, Pend(s.tab[c].fidx, p.ei, 1))
    ensures Abs(GrowData(s, c)) == Abs(s)
  {
    hide Abs, InvP, FullData, IbOK, OwnedBy, CeilDiv;
    IndexWantsData(s, c, p, k);
    WantsDataFacts(s, c, p);
    GrowDataKeeps(s, c, p);
    AbsGrowData(s, c, p);
    PointerFacts(s, c, p, k);
    var s' := GrowData(s, c);
    Counts(s, p);
    assert s'.ia == s.ia && s'.da.used[s.tab[c].fidx] == s.da.used[s.tab[c].fidx] + [Top(s.da.free)];
  }

  lemma Counts(s: Fs, p: Pend)
    requires InvP(s, p)
    ensures |s.ia.used| == |s.da.used| == s.dir.nfiles <= |s.dir.files|
    ensures |s.ibs| == |s.img.ibs|
  {
  }

  lemma IndexWantsData(s: Fs, c: nat, p: Pend, k: nat)
    requires AtIndex(s, c, p, k) && s.tab[c].pos < IDATA * (k + 1) && s.da.free != []
    requires s.tab[c].pos / BLKSIZ >= |s.da.used[s.tab[c].fidx]|
    ensures WantsData(s, c, p)
  {
    PointerFacts(s, c, p, k);
    Counts(s, p);
    hide InvP;
  }

  /** With the byte pointer inside the cached block, lfsetup is not needed. */
  lemma InBlock(s: Fs, c: nat)
    requires InvP(s, NONE) && c < |s.tab| && s.tab[c].used && s.tab[c].at < BLKSIZ
    ensures Ready(s, c, Pend(s.tab[c].fidx, 0, 0))
  {
    PendZero(s, s.tab[c].fidx);
    Counts(s, NONE);
    var f := s.tab[c].fidx;
    InBlockFacts(s, c);
    hide InvP;
    InBlockArith(s.tab[c].pos, s.dir.files[f].size, |s.ia.used[f]|, |s.da.used[f]|);
  }

  lemma InBlockFacts(s: Fs, c: nat)
    requires InvP(s, NONE) && c < |s.tab| && s.tab[c].used && s.tab[c].at < BLKSIZ
    ensures
      var t := s.tab[c];
      && t.fidx < |s.ia.used| == |s.da.used| <= |s.dir.files|
      && t.pos <= s.dir.files[t.fidx].size && t.pos / BLKSIZ < |s.da.used[t.fidx]|
      && Sized(s.dir.files[t.fidx].size, s.ia.used[t.fidx], s.da.used[t.fidx], 0, 0)
  {
    hide IStack, DStack, CoherentI, CoherentD, TabOK, DirCoherent, NamesOK, OneOpener, AllFit, AreaOK, FileOK;
    TabHas(s.tab, c, s.dir.files, s.ibs, s.dat, s.ia, s.da);
    var f := s.tab[c].fidx;
    assert FileAt(s.ibs, s.dir.files[f], s.ia.used[f], s.da.used[f], Extra(NONE, f).ei, Extra(NONE, f).ed);
  }

  lemma CeilNext(n: nat)
    ensures n % BLKSIZ == 0 ==> CeilDiv(n, BLKSIZ) == n / BLKSIZ
    ensures n % BLKSIZ != 0 ==> CeilDiv(n + 1, BLKSIZ) == CeilDiv(n, BLKSIZ)
  {
  }

  lemma CeilNextIndex(n: nat)
    ensures n % BLKSIZ != 0 ==> CeilDiv(n + 1, IDATA) == CeilDiv(n, IDATA)
  {
    if n % IDATA == 0 { assert n % BLKSIZ == 0; }
  }

  lemma InBlockArith(pos: nat, size: int, ni: int, nd: int)
    requires pos <= size && ni == CeilDiv(size, IDATA) && nd == CeilDiv(size, BLKSIZ) && pos / BLKSIZ < nd
    ensures var size' := if pos >= size then size + 1 else size; ni == CeilDiv(size', IDATA) && nd == CeilDiv(size', BLKSIZ)
  {
    hide CeilDiv;
    CeilNext(size);
    CeilNextIndex(size);
  }

  lemma OpenFacts(s: Fs, c: nat)
    requires InvP(s, NONE) && c < |s.tab| && s.tab[c].used
    ensures s.tab[c].at <= BLKSIZ
  {
    hide IStack, DStack, CoherentI, CoherentD, TabOK, DirCoherent, NamesOK, OneOpener, AllFit, AreaOK, FilesOK, DirFits;
    TabHas(s.tab, c, s.dir.files, s.ibs, s.dat, s.ia, s.da);
  }

  lemma ReadyInv(s: Fs, c: nat, q: Pend)
    requires Ready(s, c, q)
    ensures InvP(s, q) && c < |s.tab| && s.tab[c].used && s.tab[c].at < BLKSIZ
    ensures s.tab[c].fidx < s.dir.nfiles <= |s.dir.files|
  {
    hide InvP;
  }

  lemma GetReady(s: Fs, c: nat, q: Pend)
    requires Ready(s, c, q) && s.tab[c].pos != s.dir.files[s.tab[c].fidx].size
    ensures InvP(s, NONE) && s.tab[c].used && s.tab[c].at < BLKSIZ
  {
    hide InvP;
    PendZero(s, s.tab[c].fidx);
  }

  lemma WalkFacts(s: Fs, c: nat, p: Pend, k: nat)
    requires AtIndex(s, c, p, k)
    ensures InvP(s, p) && c < |s.tab| && s.tab[c].used && !s.tab[c].dbdirty
    ensures s.tab[c].iblock.offset == IDATA * k && IDATA * k <= s.tab[c].pos
    ensures s.tab[c].fidx < |s.ia.used| == |s.da.used| <= |s.dir.files| && k < |s.ia.used[s.tab[c].fidx]|
    ensures p.f == s.tab[c].fidx && p.ed == 0 && p.ei <= 1 && s.tab[c].inum == s.ia.used[s.tab[c].fidx][k]
    ensures p.ei == 1 ==> s.tab[c].pos == IDATA * k
    ensures p.ei == 0 ==> p == Pend(s.tab[c].fidx, 0, 0)
    ensures s.tab[c].iblock.next == Nth(s.ia.used[s.tab[c].fidx], k + 1)
    ensures p.ei == 0 && s.tab[c].pos - s.tab[c].pos % IDATA > IDATA * k ==>
              if s.tab[c].iblock.next == NULL_ID
              then NeedsIndex(s, c) && s.tab[c].inum == Top(s.ia.used[s.tab[c].fidx]) && k + 1 == |s.ia.used[s.tab[c].fidx]|
              else k + 1 < |s.ia.used[s.tab[c].fidx]| && IDATA * (k + 1) <= s.tab[c].pos
  {
    hide InvP, CeilDiv;
    NonNull(s, p, s.tab[c].fidx, k + 1);
    var f := s.tab[c].fidx;
    if p.ei == 0 && s.tab[c].pos - s.tab[c].pos % IDATA > IDATA * k { WalkArith(s.tab[c].pos, s.dir.files[f].size, |s.ia.used[f]|, k); }
  }

  lemma PointerIndex(pos: nat)
    ensures pos % IDATA / BLKSIZ == pos / BLKSIZ % IBLEN
  {
    var q, r := pos / BLKSIZ, pos % BLKSIZ;
    var a, b := q / IBLEN, q % IBLEN;
    ModIdata(pos, a, BLKSIZ * b + r);
    DivBlksiz(BLKSIZ * b + r, b, r);
  }

  lemma ModIdata(x: int, a: int, y: int)
    requires x == IDATA * a + y && 0 <= y < IDATA
    ensures x % IDATA == y
  {
  }

  lemma DivBlksiz(y: int, b: int, r: int)
    requires y == BLKSIZ * b + r && 0 <= r < BLKSIZ
    ensures y / BLKSIZ == b
  {
  }

  lemma WalkArith(pos: nat, size: int, n: nat, k: nat)
    requires pos <= size && n == CeilDiv(size, IDATA) && pos - pos % IDATA > IDATA * k
    ensures IDATA * (k + 1) <= pos
    ensures k + 1 == n ==> pos == size && pos % IDATA == 0
  {
  }

  lemma NonNull(s: Fs, p: Pend, f: nat, k: nat)
    requires InvP(s, p) && f < |s.ia.used|
    ensures k < |s.ia.used[f]| ==> s.ia.used[f][k] >= 0
  {
    hide IStack, DStack, CoherentI, CoherentD, FilesOK, DirCoherent, NamesOK, OneOpener, AllFit, TabOK, AtHome;
  }

  lemma DataFacts(s: Fs, c: nat, p: Pend)
    requires InvP(s, p) && c < |s.tab| && s.tab[c].used && s.tab[c].fidx < |s.da.used|
    requires p.ed == 0
    ensures DirFits(s.dir) && 0 <= s.base
    ensures forall k :: 0 <= k < |s.da.used[s.tab[c].fidx]| ==> s.base <= s.da.used[s.tab[c].fidx][k] < s.nsec
    ensures s.da.free != [] <==> s.dir.dfree != NULL_ID
    ensures s.da.free != [] ==>
              && s.dir.dfree == Top(s.da.free) && s.base <= s.dir.dfree < s.nsec && s.dir.dfree in s.img.dat
              && NextDb(s.img.dat[s.dir.dfree]) == Top(s.da.free[..|s.da.free| - 1])
  {
    hide IStack, CoherentI, FilesOK, DirCoherent, NamesOK, OneOpener, AllFit, AtHome, DirFits, NextDb;
    var u, fr := s.da.used[s.tab[c].fidx], s.da.free;
    forall k | 0 <= k < |u| ensures s.base <= u[k] < s.nsec { assert u[k] in s.da.own; }
    if fr != [] {
      var d := fr[|fr| - 1];
      assert d in s.da.own && s.da.own[d].Free?;
      assert !StaleD(s.tab, d);
    }
  }

  /** The next byte lies in an index block that the file does not have yet. */
  ghost predicate NeedsIndex(s: Fs, c: nat) {
    && c < |s.tab| && s.tab[c].fidx < |s.dir.files|
    && s.tab[c].pos == s.dir.files[s.tab[c].fidx].size && s.tab[c].pos % IDATA == 0
  }

  /** The next byte lies in a data block that the file does not have yet. */
  ghost predicate NeedsData(s: Fs, c: nat) {
    && c < |s.tab| && s.tab[c].fidx < |s.dir.files|
    && s.tab[c].pos == s.dir.files[s.tab[c].fidx].size && s.tab[c].pos % BLKSIZ == 0
  }

  /** The directory entry holds the first index block, and none only if the file is empty. */
  lemma ChainHead(s: Fs, c: nat)
    requires AtStart(s, c) && s.tab[c].fidx < |s.ia.used| <= |s.dir.files|
    ensures
      var f := s.tab[c].fidx;
      var ich := s.ia.used[f];
      if ich == [] then s.dir.files[f].ilist == NULL_ID && s.tab[c].inum == NULL_ID && NeedsIndex(s, c)
      else s.dir.files[f].ilist == ich[0] && ich[0] >= 0
    ensures s.tab[c].inum != NULL_ID ==> s.ia.used[s.tab[c].fidx] != []
  {
    hide InvP, OwnedBy, CurrentI, CurrentD, IbOK;
    StartFacts(s, c);
    if s.ia.used[s.tab[c].fidx] == [] { NoIndex(s, c); }
  }

  lemma NoIndex(s: Fs, c: nat)
    requires InvP(s, NONE) && c < |s.tab| && s.tab[c].used && s.tab[c].fidx < |s.ia.used| && s.ia.used[s.tab[c].fidx] == []
    ensures s.tab[c].inum == NULL_ID
  {
    hide IStack, DStack, CoherentI, CoherentD, FilesOK, DirCoherent, NamesOK, OneOpener, AllFit;
    TabHas(s.tab, c, s.dir.files, s.ibs, s.dat, s.ia, s.da);
  }

  /** The index block already in the cache lies at or before the position. */
  lemma CachedIndex(s: Fs, c: nat)
    requires AtStart(s, c) && s.tab[c].inum != NULL_ID && s.tab[c].iblock.offset <= s.tab[c].pos
    ensures s.tab[c].inum in s.ia.own && s.ia.own[s.tab[c].inum].In?
    ensures AtIndex(s, c, Pend(s.tab[c].fidx, 0, 0), s.ia.own[s.tab[c].inum].k)
  {
    hide InvP, CurrentI, CurrentD, CeilDiv;
    StartFacts(s, c);
    Counts(s, NONE);
    Home(s, s.tab[c].inum);
    PendZero(s, s.tab[c].fidx);
    var ich := s.ia.used[s.tab[c].fidx];
    var k := s.ia.own[s.tab[c].inum].k;
    assert IbOK(s.ibs[ich[k]], k, ich, s.da.used[s.tab[c].fidx]);
  }

  lemma Home(s: Fs, i: int)
    requires InvP(s, NONE) && i in s.ia.own
    ensures AtHome(s.ia, i)
  {
    hide IStack, DStack, CoherentI, CoherentD, FilesOK, DirCoherent, NamesOK, OneOpener, AllFit, TabOK;
  }

  ghost predicate GrowIndexPre(s: Fs, c: nat) {
    && c < |s.tab| && s.tab[c].fidx < |s.ia.used| && s.tab[c].fidx < |s.dir.files|
    && s.ia.free != [] && 0 <= Top(s.ia.free) < |s.ibs| == |s.img.ibs|
    && var ich := s.ia.used[s.tab[c].fidx]; ich != [] ==> 0 <= Top(ich) < |s.ibs|
  }

  /** A file whose directory entry has no chain is empty and has nothing cached. */
  lemma EmptyFile(s: Fs, c: nat)
    requires AtStart(s, c) && s.tab[c].fidx < |s.dir.files| && s.dir.files[s.tab[c].fidx].ilist == NULL_ID
    requires s.dir.ifree != NULL_ID
    ensures s.ia.free != [] && s.tab[c].fidx < |s.ia.used| && s.ia.used[s.tab[c].fidx] == []
    ensures s.tab[c].pos == 0 && s.dir.files[s.tab[c].fidx].size == 0 && s.tab[c].dnum == NULL_ID
  {
    hide InvP, FileAt, OwnedBy, CurrentI, CurrentD;
    StartFacts(s, c);
    NoChain(s, s.tab[c].fidx);
    NoData(s, c);
  }

  lemma NoChain(s: Fs, f: nat)
    requires InvP(s, NONE) && f < |s.ia.used| == |s.da.used| <= |s.dir.files| && s.dir.files[f].ilist == NULL_ID
    ensures s.ia.used[f] == [] && s.da.used[f] == [] && s.dir.files[f].size == 0
  {
    hide IStack, DStack, CoherentI, CoherentD, TabOK, DirCoherent, NamesOK, OneOpener, AllFit, IbOK, AtHome;
    assert FileAt(s.ibs, s.dir.files[f], s.ia.used[f], s.da.used[f], Extra(NONE, f).ei, Extra(NONE, f).ed);
  }

  lemma NoData(s: Fs, c: nat)
    requires InvP(s, NONE) && c < |s.tab| && s.tab[c].used && s.tab[c].fidx < |s.da.used| && s.da.used[s.tab[c].fidx] == []
    ensures s.tab[c].dnum == NULL_ID
  {
    hide IStack, DStack, CoherentI, CoherentD, FilesOK, DirCoherent, NamesOK, OneOpener, AllFit;
    TabHas(s.tab, c, s.dir.files, s.ibs, s.dat, s.ia, s.da);
  }

  /** The top free index block is the head of the list on the disk. */
  lemma AllocFacts(s: Fs, c: nat)
    requires AtStart(s, c) && s.ia.free != []
    ensures DirFits(s.dir) && |s.img.ibs| == NumIb(s.base)
    ensures s.dir.ifree == Top(s.ia.free) && 0 <= s.dir.ifree < NumIb(s.base)
    ensures s.img.ibs[s.dir.ifree].next == Top(s.ia.free[..|s.ia.free| - 1])
  {
    hide DStack, CoherentD, FilesOK, DirCoherent, NamesOK, OneOpener, AllFit, DirFits, AtHome;
    var i := s.ia.free[|s.ia.free| - 1];
    assert i in s.ia.own && s.ia.own[i].Free?;
    assert !StaleI(s.tab, i);
  }

  lemma LastIndex(s: Fs, c: nat)
    requires AtStart(s, c) && s.tab[c].fidx < |s.ia.used| && s.ia.used[s.tab[c].fidx] != []
    requires s.tab[c].inum == Top(s.ia.used[s.tab[c].fidx])
    ensures 0 <= s.tab[c].inum < |s.ibs| == NumIb(s.base)
    ensures s.tab[c].iblock == s.ibs[s.tab[c].inum] && IbFits(s.tab[c].iblock)
    ensures s.tab[c].iblock.offset == IDATA * (|s.ia.used[s.tab[c].fidx]| - 1)
    ensures s.dir.files[s.tab[c].fidx].ilist == s.ia.used[s.tab[c].fidx][0]
  {
    StartFacts(s, c);
    var ich, dch := s.ia.used[s.tab[c].fidx], s.da.used[s.tab[c].fidx];
    assert IbOK(s.ibs[ich[|ich| - 1]], |ich| - 1, ich, dch);
    AllFits(s, NONE);
    Counts(s, NONE);
    hide InvP, CurrentI, CurrentD, Sized;
    assert 0 <= ich[|ich| - 1] < |s.ibs|;
  }

  lemma AllFits(s: Fs, p: Pend)
    requires InvP(s, p)
    ensures AllFit(s.ibs) && |s.ibs| == NumIb(s.base)
  {
  }

  /** What lfflush needs to know about the blocks it writes. */
  lemma FlushParts(s: Fs, c: nat)
    requires InvP(s, NONE) && c < |s.tab| && s.tab[c].used
    ensures DirFits(s.dir) && |s.img.ibs| == NumIb(s.base)
    ensures s.tab[c].dbdirty ==> s.base <= s.tab[c].dnum < s.nsec
    ensures s.tab[c].ibdirty ==> 0 <= s.tab[c].inum < NumIb(s.base) && IbFits(s.tab[c].iblock)
  {
    hide IStack, DStack, CoherentI, CoherentD, FilesOK, DirCoherent, NamesOK, OneOpener, AreaOK, DirFits;
    TabHas(s.tab, c, s.dir.files, s.ibs, s.dat, s.ia, s.da);
  }

  /** lflputc meets an empty free list exactly when the disk is full for it. */
  lemma PanicMeaning(s: Fs, c: nat)
    requires InvP(s, NONE) && c < |s.tab| && s.tab[c].used
    ensures s.tab[c].fidx < |s.dir.files|
    ensures APanics(Abs(s), c, Cap(NumIb(s.base), s.nsec - s.base)) <==>
              && s.tab[c].at >= BLKSIZ
              && ((NeedsIndex(s, c) && s.dir.ifree == NULL_ID) || (NeedsData(s, c) && s.dir.dfree == NULL_ID))
  {
    FreeCount(s);
    FreeNull(s);
    AbsOpen(s, c, NONE);
    hide InvP, Abs;
    if s.tab[c].at < BLKSIZ { InBlock(s, c); NotAtEnd(s, c); }
  }

  lemma FreeNull(s: Fs)
    requires InvP(s, NONE)
    ensures s.ia.free != [] <==> s.dir.ifree != NULL_ID
    ensures s.da.free != [] <==> s.dir.dfree != NULL_ID
    ensures 2 <= s.base < s.nsec
  {
    HeadNull(s.ibs, s.dir.ifree, s.ia.free);
    HeadNullD(s);
  }

  lemma NotAtEnd(s: Fs, c: nat)
    requires InvP(s, NONE) && c < |s.tab| && s.tab[c].used && s.tab[c].at < BLKSIZ
    requires s.tab[c].fidx < |s.dir.files|
    ensures s.tab[c].pos == s.dir.files[s.tab[c].fidx].size ==> s.tab[c].pos % BLKSIZ != 0 && s.tab[c].pos % IDATA != 0
  {
    hide InvP, CeilDiv;
    InBlockFacts(s, c);
    CeilNext(s.tab[c].pos);
    Multiple(s.tab[c].pos);
  }

  lemma Multiple(n: nat)
    ensures n % IDATA == 0 ==> n % BLKSIZ == 0
  {
  }

  lemma SeekKeeps(s: Fs, c: nat, offset: nat)
    requires InvP(s, NONE) && c < |s.tab| && s.tab[c].used
    requires s.tab[c].fidx < |s.dir.files| && offset <= s.dir.files[s.tab[c].fidx].size
    ensures
      var t := s.tab[c].(pos := offset, at := BLKSIZ);
      && InvP(SetTab(s, c, t), NONE)
      && Abs(SetTab(s, c, t)) == Abs(s).(open := Abs(s).open[c := Open(t.fidx, offset)])
  {
    var t := s.tab[c].(pos := offset, at := BLKSIZ);
    SeekOpen(s, c, offset);
    hide InvP;
    SetTabKeeps(s, NONE, c, t);
    AbsSetTab(s, c, t);
  }

  lemma SeekOpen(s: Fs, c: nat, offset: nat)
    requires InvP(s, NONE) && c < |s.tab| && s.tab[c].used
    requires s.tab[c].fidx < |s.dir.files| && offset <= s.dir.files[s.tab[c].fidx].size
    ensures OpenAt(s.tab[c].(pos := offset, at := BLKSIZ), s.dir.files, s.ibs, s.dat, s.ia, s.da)
  {
    hide IStack, DStack, CoherentI, CoherentD, TabOK, DirCoherent, NamesOK, OneOpener, AllFit, AreaOK, FilesOK, DirFits;
    TabHas(s.tab, c, s.dir.files, s.ibs, s.dat, s.ia, s.da);
  }

  /** Following the bare disk from directory entry f gives exactly b. */
  ghost predicate OnDiskIs(s: Fs, f: nat, b: seq<byte>) {
    f < s.img.dir.nfiles && f < |s.img.dir.files| && s.img.dir.files[f].size >= 0 && OnDisk(s.img, f) == b
  }

  /** s was flushed for file c and then c was closed, which gives s'. */
  lemma ClosedOnDisk(s': Fs, f: nat, c: nat, s: Fs)
    requires InvP(s', NONE) && !s'.dirty && c < |s.tab| && f == s.tab[c].fidx
    requires InvP(s, NONE) && s.tab[c].used && s' == SetTab(s, c, s.tab[c].(used := false))
    ensures f < |Abs(s').files|
    ensures Abs(s').files[f].bytes != [] ==> OnDiskIs(s', f, Abs(s').files[f].bytes)
  {
    Counts(s', NONE);
    AbsOpen(s, c, NONE);
    ClosedSettled(s', f, c, s);
    FileSize(s', f);
    if s'.dir.files[f].size > 0 {
      Persisted(s', f);
      hide InvP, OnDisk;
    }
  }

  lemma FileSize(s: Fs, f: nat)
    requires InvP(s, NONE) && f < |s.da.used| <= |s.dir.files|
    ensures 0 <= s.dir.files[f].size
    ensures Abs(s).files[f].bytes == Bytes(s.dat, s.da.used[f], s.dir.files[f].size)
    ensures |Abs(s).files[f].bytes| == s.dir.files[f].size
  {
    TiledOf(s, NONE);
    BytesLen(s.dat, s.da.used[f], s.dir.files[f].size);
    hide InvP, Bytes;
  }

  lemma ClosedSettled(s': Fs, f: nat, c: nat, s: Fs)
    requires InvP(s, NONE) && c < |s.tab| && s.tab[c].used && f == s.tab[c].fidx
    requires s' == SetTab(s, c, s.tab[c].(used := false))
    ensures Settled(s'.tab, f)
  {
    hide Shape, IStack, DStack, CoherentI, CoherentD, TabOK, DirCoherent, NamesOK, FilesOK;
  }

  /** What a restart keeps: the files below the count on the disk; the others were
      never written to. */
  lemma AbsRemount(s: Fs)
    requires Inv(s) && AllClosed(s.tab)
    ensures !s.dirty && s.img.dir.nfiles <= |s.ia.used| == |s.da.used|
    ensures
      var was, now := Abs(s).files, Abs(Remounted(s)).files;
      && |now| == s.img.dir.nfiles <= |was| && now == was[..|now|]
      && forall f :: |now| <= f < |was| ==> was[f].bytes == []
  {
    RemountKeeps(s);
    Counts(s, NONE);
    FreeCounts(s);
    hide InvP, Bytes, CStr, AreaOK;
    var was, now := Abs(s).files, Abs(Remounted(s)).files;
    forall f | 0 <= f < |now| ensures now[f] == was[f] {
      assert was[f] == AbsFile(s.dir.files[f], s.dat, s.da.used[f]);
    }
    forall f | |now| <= f < |was| ensures was[f].bytes == [] {
      BytesLen(s.dat, s.da.used[f], 0);
    }
  }

  lemma NoFiles(m: Img, nsec: nat, base: nat, tab: seq<Lfl>)
    requires 2 <= base < nsec
    ensures Abs(FirstMount(m, nsec, base, tab)).files == []
  {
    hide Bytes;
  }
}
