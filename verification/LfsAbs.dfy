// The file system as its users see it: named byte sequences, and open files
// with a position.  Each internal step either leaves this view alone or
// changes it as the call it belongs to promises.
module LfsAbs {
  import opened LfsLayout
  import opened LfsModel
  import opened LfsSteps
  import opened LfsGrow
  import opened LfsFiles

  datatype AFile = AFile(name: seq<byte>, bytes: seq<byte>)
  datatype AOpen = Closed | Open(f: nat, pos: nat)
  datatype AFs = AFs(files: seq<AFile>, open: seq<AOpen>)

  // ------------------------------------------------- the specified calls

  /** Writing one byte at position pos, or appending it at the end. */
  function Written(b: seq<byte>, pos: nat, ch: byte): seq<byte> {
    if pos < |b| then b[pos := ch] else b + [ch]
  }

  predicate IsOpen(a: AFs, c: nat) { c < |a.open| && a.open[c].Open? && a.open[c].f < |a.files| }

  function Moved(a: AFs, c: nat, pos: nat): AFs
    requires IsOpen(a, c)
  {
    a.(open := a.open[c := a.open[c].(pos := pos)])
  }

  function Refilled(a: AFs, c: nat, b: seq<byte>, pos: nat): AFs
    requires IsOpen(a, c)
  {
    Moved(a, c, pos).(files := a.files[a.open[c].f := a.files[a.open[c].f].(bytes := b)])
  }

  function FileOf(a: AFs, c: nat): seq<byte>
    requires IsOpen(a, c)
  {
    a.files[a.open[c].f].bytes
  }

  datatype Getc = Char(ch: byte) | Eof | SysErr

  function AGetc(a: AFs, c: nat): (AFs, Getc) {
    if !IsOpen(a, c) then (a, SysErr)
    else if a.open[c].pos >= |FileOf(a, c)| then (a, Eof)
    else (Moved(a, c, a.open[c].pos + 1), Char(FileOf(a, c)[a.open[c].pos]))
  }

  function APutc(a: AFs, c: nat, ch: byte): (AFs, bool) {
    if !IsOpen(a, c) || a.open[c].pos > |FileOf(a, c)| then (a, false)
    else (Refilled(a, c, Written(FileOf(a, c), a.open[c].pos, ch), a.open[c].pos + 1), true)
  }

  function ASeek(a: AFs, c: nat, offset: nat): (AFs, bool) {
    if !IsOpen(a, c) || offset > |FileOf(a, c)| then (a, false) else (Moved(a, c, offset), true)
  }

  function ATruncate(a: AFs, c: nat): (AFs, bool) {
    if !IsOpen(a, c) then (a, false) else (Refilled(a, c, [], 0), true)
  }

  function AClose(a: AFs, c: nat): (AFs, bool) {
    if !IsOpen(a, c) then (a, false) else (a.(open := a.open[c := Closed]), true)
  }

  /** The mode bits lfgetmode found: the file must be old, or must be new. */
  datatype Mode = BadMode | Mode(old_: bool, new_: bool, rw: int)
  datatype Opened = Dev(c: nat) | OpenErr

  function FirstClosed(open: seq<AOpen>): (r: nat)
    ensures r <= |open| && (r < |open| ==> open[r].Closed?)
    ensures forall c :: 0 <= c < r ==> open[c].Open?
  {
    if open == [] || open[0].Closed? then 0 else 1 + FirstClosed(open[1..])
  }

  function FindName(files: seq<AFile>, name: seq<byte>): (r: nat)
    ensures r <= |files| && (r < |files| ==> files[r].name == name)
    ensures forall f :: 0 <= f < r ==> files[f].name != name
  {
    if files == [] || files[0].name == name then 0 else 1 + FindName(files[1..], name)
  }

  ghost predicate NameOpen(a: AFs, name: seq<byte>) {
    exists c :: 0 <= c < |a.open| && IsOpen(a, c) && a.files[a.open[c].f].name == name
  }

  /** lfsopen, for a name given without its terminating null. */
  ghost function AOpenFile(a: AFs, name: seq<byte>, m: Mode): (AFs, Opened) {
    var c := FirstClosed(a.open);
    if |name| >= NAME_LEN || NameOpen(a, name) then (a, OpenErr) else AOpenAt(a, name, m, c)
  }

  /** The file, old or new, opened in entry c. */
  function AOpenAt(a: AFs, name: seq<byte>, m: Mode, c: nat): (AFs, Opened) {
    var f := FindName(a.files, name);
    if m.BadMode? || c >= |a.open| then (a, OpenErr)
    else if f == |a.files| then
      if m.old_ || |a.files| >= NUM_DIR_ENT then (a, OpenErr)
      else (AFs(a.files + [AFile(name, [])], a.open[c := Open(f, 0)]), Dev(c))
    else if m.new_ then (a, OpenErr)
    else (a.(open := a.open[c := Open(f, 0)]), Dev(c))
  }

  /** lflread: what is read before the end of the file, if anything. */
  datatype ReadResult = Got(b: seq<byte>) | ReadEof | ReadErr

  function ARead(a: AFs, c: nat, count: int): (AFs, ReadResult) {
    if count < 0 then (a, ReadErr)
    else if count == 0 then (a, Got([]))
    else if !IsOpen(a, c) then (a, ReadErr)
    else
      var b, pos := FileOf(a, c), a.open[c].pos;
      if pos >= |b| then (a, ReadEof)
      else
        var end := if pos + count <= |b| then pos + count else |b|;
        (Moved(a, c, end), Got(b[pos..end]))
  }

  // ----------------------------------------------------- the abstraction

  ghost function AbsFile(e: LdEntry, dat: map<int, Sector>, dch: seq<int>): AFile {
    AFile(CStr(e.name), Bytes(dat, dch, if e.size >= 0 then e.size else 0))
  }

  ghost function AbsFiles(files: seq<LdEntry>, dat: map<int, Sector>, du: seq<seq<int>>): (r: seq<AFile>)
    ensures |r| == |du|
    ensures forall f :: 0 <= f < |du| && f < |files| ==> r[f] == AbsFile(files[f], dat, du[f])
  {
    seq(|du|, f requires 0 <= f < |du| =>
      if f < |files| then AbsFile(files[f], dat, du[f]) else AFile([], []))
  }

  function AbsLfl(t: Lfl): AOpen { if t.used then Open(t.fidx, t.pos) else Closed }

  function AbsTab(tab: seq<Lfl>): (r: seq<AOpen>)
    ensures |r| == |tab| && forall c :: 0 <= c < |tab| ==> r[c] == AbsLfl(tab[c])
  {
    seq(|tab|, c requires 0 <= c < |tab| => AbsLfl(tab[c]))
  }

  ghost function Abs(s: Fs): AFs {
    AFs(AbsFiles(s.dir.files, s.dat, s.da.used), AbsTab(s.tab))
  }

  // -------------------------------------------------- effect of the steps

  lemma AbsTabSet(tab: seq<Lfl>, c: nat, t: Lfl)
    requires c < |tab|
    ensures AbsTab(tab[c := t]) == AbsTab(tab)[c := AbsLfl(t)]
  {
  }

  lemma AbsSetTab(s: Fs, c: nat, t: Lfl)
    requires c < |s.tab|
    ensures Abs(SetTab(s, c, t)) == Abs(s).(open := Abs(s).open[c := AbsLfl(t)])
  {
    AbsTabSet(s.tab, c, t);
  }

  lemma AbsSame(s: Fs, s': Fs, c: nat)
    requires c < |s.tab| && s'.dat == s.dat && s'.da.used == s.da.used && SameButList(s.dir.files, s'.dir.files)
    requires |s'.tab| == |s.tab| && s'.tab == s.tab[c := s'.tab[c]] && AbsLfl(s'.tab[c]) == AbsLfl(s.tab[c])
    ensures Abs(s') == Abs(s)
  {
    AbsTabSet(s.tab, c, s'.tab[c]);
    assert AbsTab(s'.tab) == AbsTab(s.tab);
    assert AbsFiles(s.dir.files, s.dat, s.da.used) == AbsFiles(s'.dir.files, s'.dat, s'.da.used);
  }

  /** A freshly given block changes no byte below the size. */
  lemma BytesGrow(dat: map<int, Sector>, dch: seq<int>, size: nat, d: int, blk: Sector)
    requires size <= BLKSIZ * |dch| && d !in dch
    ensures Bytes(dat[d := blk], dch + [d], size) == Bytes(dat, dch, size)
  {
    forall q | 0 <= q < size ensures ByteOf(dat[d := blk], dch + [d], q) == ByteOf(dat, dch, q) {
      assert q / BLKSIZ < |dch|;
      assert dch[q / BLKSIZ] in dch;
    }
  }

  /** Changing a block that the file does not own changes none of its bytes. */
  lemma BytesFrame(dat: map<int, Sector>, dat': map<int, Sector>, dch: seq<int>, size: nat)
    requires size <= BLKSIZ * |dch|
    requires forall k :: 0 <= k < |dch| ==> (dch[k] in dat <==> dch[k] in dat') && (dch[k] in dat ==> dat'[dch[k]] == dat[dch[k]])
    ensures Bytes(dat', dch, size) == Bytes(dat, dch, size)
  {
    forall q | 0 <= q < size ensures ByteOf(dat', dch, q) == ByteOf(dat, dch, q) {
      assert q / BLKSIZ < |dch|;
    }
  }

  lemma BytesPut(dat: map<int, Sector>, dch: seq<int>, size: nat, pos: nat, ch: byte)
    requires pos <= size && pos / BLKSIZ < |dch| && size <= BLKSIZ * |dch|
    requires forall k :: 0 <= k < |dch| ==> dch[k] in dat
    requires forall j, k :: 0 <= j < k < |dch| ==> dch[j] != dch[k]
    ensures
      var d := dch[pos / BLKSIZ];
      Bytes(dat[d := dat[d][pos % BLKSIZ := ch]], dch, if pos < size then size else size + 1) ==
      Written(Bytes(dat, dch, size), pos, ch)
  {
    var d := dch[pos / BLKSIZ];
    var dat' := dat[d := dat[d][pos % BLKSIZ := ch]];
    var size' := if pos < size then size else size + 1;
    var b := Written(Bytes(dat, dch, size), pos, ch);
    forall q | 0 <= q < size' ensures ByteOf(dat', dch, q) == b[q] {
      assert q / BLKSIZ < |dch|;
      if q == pos {
        assert b[q] == ch;
      } else {
        assert b[q] == ByteOf(dat, dch, q);
        if q / BLKSIZ == pos / BLKSIZ { assert q % BLKSIZ != pos % BLKSIZ; }
      }
    }
  }

  // The blocks of the files, as far as the view needs them.
  ghost predicate Tiled(files: seq<LdEntry>, dat: map<int, Sector>, da: Area, lo: int, hi: int) {
    && AreaOK(da, lo, hi) && |da.used| <= |files|
    && (forall d :: lo <= d < hi ==> d in dat)
    && forall g :: 0 <= g < |da.used| ==> 0 <= files[g].size <= BLKSIZ * |da.used[g]|
  }

  lemma TiledOf(s: Fs, p: Pend)
    requires InvP(s, p)
    ensures Tiled(s.dir.files, s.dat, s.da, s.base, s.nsec)
  {
    hide IStack, DStack, CoherentI, CoherentD, TabOK, DirCoherent, NamesOK, OneOpener, AllFit, AreaOK, FileOK;
    forall g | 0 <= g < |s.da.used| ensures 0 <= s.dir.files[g].size <= BLKSIZ * |s.da.used[g]| {
      assert FileAt(s.ibs, s.dir.files[g], s.ia.used[g], s.da.used[g], Extra(p, g).ei, Extra(p, g).ed);
    }
  }

  lemma FilesGrow(files: seq<LdEntry>, dat: map<int, Sector>, da: Area, lo: int, hi: int, f: nat, blk: Sector)
    requires Tiled(files, dat, da, lo, hi) && f < |da.used| && da.free != []
    ensures
      AbsFiles(files, dat[Top(da.free) := blk], Give(da, f).used) == AbsFiles(files, dat, da.used)
  {
    hide AtHome, Bytes;
    var d := Top(da.free);
    assert da.own[d].Free?;
    var a, b := AbsFiles(files, dat, da.used), AbsFiles(files, dat[d := blk], Give(da, f).used);
    forall g | 0 <= g < |da.used| ensures a[g] == b[g] {
      var u := da.used[g];
      forall k | 0 <= k < |u| ensures u[k] != d { assert da.own[u[k]] == In(g, k); }
      if g == f {
        BytesGrow(dat, u, files[g].size, d, blk);
      } else {
        BytesFrame(dat, dat[d := blk], u, files[g].size);
      }
    }
  }

  lemma FilesPut(files: seq<LdEntry>, dat: map<int, Sector>, da: Area, lo: int, hi: int, f: nat, pos: nat, ch: byte, e: LdEntry)
    requires Tiled(files, dat, da, lo, hi) && f < |da.used|
    requires pos <= files[f].size && pos / BLKSIZ < |da.used[f]|
    requires e == NewSize(files[f], pos)
    ensures da.used[f][pos / BLKSIZ] in dat
    ensures
      var d := da.used[f][pos / BLKSIZ];
      var a := AbsFiles(files, dat, da.used);
      AbsFiles(files[f := e], dat[d := dat[d][pos % BLKSIZ := ch]], da.used) ==
      a[f := a[f].(bytes := Written(a[f].bytes, pos, ch))]
  {
    hide AtHome, Bytes, Written;
    var dch := da.used[f];
    var d := dch[pos / BLKSIZ];
    forall k | 0 <= k < |dch| ensures dch[k] in dat && da.own[dch[k]] == In(f, k) {
      assert dch[k] in da.own && lo <= dch[k] < hi;
    }
    var dat' := dat[d := dat[d][pos % BLKSIZ := ch]];
    var a, b := AbsFiles(files, dat, da.used), AbsFiles(files[f := e], dat', da.used);
    BytesPut(dat, dch, files[f].size, pos, ch);
    forall g | 0 <= g < |da.used| && g != f ensures a[g] == b[g] {
      forall k | 0 <= k < |da.used[g]| ensures da.used[g][k] != d { assert da.own[da.used[g][k]] == In(g, k); }
      BytesFrame(dat, dat', da.used[g], files[g].size);
    }
  }

  lemma AbsGrowData(s: Fs, c: nat, p: Pend)
    requires InvP(s, p) && GrowDataReady(s, c)
    ensures Abs(GrowData(s, c)) == Abs(s)
  {
    TiledOf(s, p);
    hide InvP, AbsFiles, AbsTab, Tiled;
    FilesGrow(s.dir.files, s.dat, s.da, s.base, s.nsec, s.tab[c].fidx, Filled());
    AbsTabSet(s.tab, c, GrowData(s, c).tab[c]);
  }

  ghost predicate GrowDataReady(s: Fs, c: nat) {
    && c < |s.tab| && s.tab[c].fidx < |s.da.used| && s.da.free != []
    && 0 <= s.tab[c].inum < |s.ibs| && |s.tab[c].iblock.dba| == IBLEN
  }

  lemma AbsPutByte(s: Fs, c: nat, p: Pend, ch: byte)
    requires Ready(s, c, p)
    ensures IsOpen(Abs(s), c) && Abs(s).open[c] == Open(s.tab[c].fidx, s.tab[c].pos)
    ensures s.tab[c].pos <= |FileOf(Abs(s), c)|
    ensures
      var pos := s.tab[c].pos;
      Abs(PutByte(s, c, ch)) == Refilled(Abs(s), c, Written(FileOf(Abs(s), c), pos, ch), pos + 1)
  {
    hide InvP, AbsTab, AbsFiles, Tiled, Bytes, Written, Ready, CStr;
    ReadyTiled(s, c, p);
    ReadyFacts(s, c, p);
    var t := s.tab[c];
    FilesPut(s.dir.files, s.dat, s.da, s.base, s.nsec, t.fidx, t.pos, ch, NewSize(s.dir.files[t.fidx], t.pos));
    AbsTabSet(s.tab, c, Stored(t, ch));
    BytesLen(s.dat, s.da.used[t.fidx], s.dir.files[t.fidx].size);
  }

  lemma ReadyTiled(s: Fs, c: nat, p: Pend)
    requires Ready(s, c, p)
    ensures Tiled(s.dir.files, s.dat, s.da, s.base, s.nsec)
  {
    hide InvP;
    TiledOf(s, p);
  }

  lemma BytesLen(dat: map<int, Sector>, dch: seq<int>, size: nat)
    ensures |Bytes(dat, dch, size)| == size
  {
  }

  lemma ReadyFacts(s: Fs, c: nat, p: Pend)
    requires Ready(s, c, p)
    ensures c < |s.tab|
    ensures
      var t := s.tab[c];
      && t.used && t.at < BLKSIZ && t.at == t.pos % BLKSIZ && t.fidx < |s.da.used| <= |s.dir.files|
      && 0 <= t.pos <= s.dir.files[t.fidx].size
      && t.pos / BLKSIZ < |s.da.used[t.fidx]| && t.dnum == s.da.used[t.fidx][t.pos / BLKSIZ]
      && t.dnum in s.dat && t.dblock == s.dat[t.dnum]
  {
    hide IStack, DStack, CoherentI, CoherentD, TabOK, DirCoherent, NamesOK, OneOpener, AllFit, AreaOK, FilesOK;
    TabHas(s.tab, c, s.dir.files, s.ibs, s.dat, s.ia, s.da);
  }

  lemma FilesTrunc(files: seq<LdEntry>, dat: map<int, Sector>, dat': map<int, Sector>, da: Area, lo: int, hi: int,
                   f: nat, e: LdEntry)
    requires Tiled(files, dat, da, lo, hi) && f < |da.used| && SameElsewhereD(da, f, dat, dat')
    requires e.size == 0 && e.name == files[f].name
    ensures
      var a := AbsFiles(files, dat, da.used);
      AbsFiles(files[f := e], dat', da.used[f := []]) == a[f := a[f].(bytes := [])]
  {
    hide AtHome, Bytes;
    var a, b := AbsFiles(files, dat, da.used), AbsFiles(files[f := e], dat', da.used[f := []]);
    BytesLen(dat', [], 0);
    forall g | 0 <= g < |da.used| && g != f ensures a[g] == b[g] {
      forall k | 0 <= k < |da.used[g]| ensures !OwnedBy(da, da.used[g][k], f) {
        assert da.own[da.used[g][k]] == In(g, k);
      }
      BytesFrame(dat, dat', da.used[g], files[g].size);
    }
  }

  lemma AbsTrunc(s: Fs, s': Fs, c: nat)
    requires InvP(s, NONE) && Truncated(s, s', c)
    ensures IsOpen(Abs(s), c)
    ensures Abs(s') == Refilled(Abs(s), c, [], 0)
  {
    TiledOf(s, NONE);
    hide InvP, AbsTab, AbsFiles, Tiled, SameElsewhereI, SameElsewhereD, ChainEmptied, WrittenI, WrittenD, DStack, DirFits;
    var f := s.tab[c].fidx;
    TiledFacts(s.dir.files, s.dat, s.da, s.base, s.nsec);
    FilesTrunc(s.dir.files, s.dat, s'.dat, s.da, s.base, s.nsec, f, s'.dir.files[f]);
    AbsTabSet(s.tab, c, Reset(s.tab[c]));
  }

  lemma TiledFacts(files: seq<LdEntry>, dat: map<int, Sector>, da: Area, lo: int, hi: int)
    requires Tiled(files, dat, da, lo, hi)
    ensures |da.used| <= |files|
  {
  }

  lemma AbsAddFile(s: Fs, name: seq<byte>)
    requires InvP(s, NONE) && s.dir.nfiles < NUM_DIR_ENT
    ensures 0 <= s.dir.nfiles < |s.dir.files|
    ensures Abs(AddFile(s, name)) == Abs(s).(files := Abs(s).files + [AFile(CStr(name), [])])
  {
    hide IStack, DStack, CoherentI, CoherentD, TabOK, DirCoherent, NamesOK, OneOpener, AllFit, AreaOK, FilesOK,
         AbsFiles, AbsTab, Bytes;
    var s' := AddFile(s, name);
    BytesLen(s.dat, [], 0);
    assert AbsFiles(s'.dir.files, s'.dat, s'.da.used) ==
           AbsFiles(s.dir.files, s.dat, s.da.used) + [AFile(CStr(name), [])];
  }

  lemma AbsOpen(s: Fs, c: nat, p: Pend)
    requires InvP(s, p) && c < |s.tab|
    ensures |Abs(s).open| == |s.tab| && (IsOpen(Abs(s), c) <==> s.tab[c].used)
    ensures s.tab[c].used ==>
              && s.tab[c].fidx < |s.da.used| <= |s.dir.files|
              && Abs(s).open[c] == Open(s.tab[c].fidx, s.tab[c].pos)
              && |FileOf(Abs(s), c)| == s.dir.files[s.tab[c].fidx].size
              && s.tab[c].pos <= s.dir.files[s.tab[c].fidx].size
  {
    TiledOf(s, p);
    hide IStack, DStack, CoherentI, CoherentD, TabOK, DirCoherent, NamesOK, OneOpener, AllFit, AreaOK, FilesOK,
         AbsFiles, AbsTab, Bytes;
    TabHas(s.tab, c, s.dir.files, s.ibs, s.dat, s.ia, s.da);
    if s.tab[c].used {
      var f := s.tab[c].fidx;
      BytesLen(s.dat, s.da.used[f], s.dir.files[f].size);
    }
  }

  /** Reading through the cache gives the byte of the file. */
  lemma AbsGetByte(s: Fs, c: nat)
    requires InvP(s, NONE) && c < |s.tab| && s.tab[c].used && s.tab[c].at < BLKSIZ
    requires s.tab[c].fidx < |s.da.used| <= |s.dir.files| && s.tab[c].pos < s.dir.files[s.tab[c].fidx].size
    ensures IsOpen(Abs(s), c) && s.tab[c].pos < |FileOf(Abs(s), c)|
    ensures FileOf(Abs(s), c)[s.tab[c].pos] == s.tab[c].dblock[s.tab[c].at]
    ensures
      var t := s.tab[c].(at := s.tab[c].at + 1, pos := s.tab[c].pos + 1);
      && InvP(SetTab(s, c, t), NONE)
      && Abs(SetTab(s, c, t)) == Moved(Abs(s), c, t.pos)
  {
    hide InvP, AbsFiles, AbsTab;
    var t := s.tab[c].(at := s.tab[c].at + 1, pos := s.tab[c].pos + 1);
    AbsOpen(s, c, NONE);
    NextByte(s, c);
    SetTabKeeps(s, NONE, c, t);
    AbsSetTab(s, c, t);
  }

  lemma NextByte(s: Fs, c: nat)
    requires InvP(s, NONE) && c < |s.tab| && s.tab[c].used && s.tab[c].at < BLKSIZ
    requires s.tab[c].fidx < |s.da.used| <= |s.dir.files| && s.tab[c].pos < s.dir.files[s.tab[c].fidx].size
    ensures ByteOf(s.dat, s.da.used[s.tab[c].fidx], s.tab[c].pos) == s.tab[c].dblock[s.tab[c].at]
    ensures OpenAt(s.tab[c].(at := s.tab[c].at + 1, pos := s.tab[c].pos + 1), s.dir.files, s.ibs, s.dat, s.ia, s.da)
  {
    hide IStack, DStack, CoherentI, CoherentD, TabOK, DirCoherent, NamesOK, OneOpener, AllFit, AreaOK, FilesOK, DirFits;
    TabHas(s.tab, c, s.dir.files, s.ibs, s.dat, s.ia, s.da);
    var t := s.tab[c];
    assert t.at + 1 < BLKSIZ ==> (t.pos + 1) % BLKSIZ == t.at + 1 && (t.pos + 1) / BLKSIZ == t.pos / BLKSIZ;
  }

  // ------------------------------------------------------- running out

  function BlocksOf(files: seq<AFile>, size: int): nat
    requires size > 0
  {
    if files == [] then 0
    else BlocksOf(files[..|files| - 1], size) + CeilNat(|files[|files| - 1].bytes|, size)
  }

  function CeilNat(n: nat, d: int): nat
    requires d > 0
  {
    CeilDiv(n, d)
  }

  /** How many index and data blocks the disk has. */
  datatype Cap = Cap(ni: nat, nd: nat)

  /** Writing the next byte needs a block, and none of that kind is left. */
  predicate APanics(a: AFs, c: nat, cap: Cap) {
    && IsOpen(a, c) && a.open[c].pos == |FileOf(a, c)|
    && var n := |FileOf(a, c)|;
    || (n % IDATA == 0 && BlocksOf(a.files, IDATA) >= cap.ni)
    || (n % BLKSIZ == 0 && BlocksOf(a.files, BLKSIZ) >= cap.nd)
  }

  lemma {:induction false} SumLenBlocks(u: seq<seq<int>>, files: seq<AFile>, size: int)
    requires size > 0 && |u| == |files|
    requires forall f :: 0 <= f < |u| ==> |u[f]| == CeilNat(|files[f].bytes|, size)
    ensures SumLen(u) == BlocksOf(files, size)
  {
    if u != [] { SumLenBlocks(u[..|u| - 1], files[..|u| - 1], size); }
  }

  /** The length of both free lists is fixed by the sizes of the files alone. */
  lemma FreeCount(s: Fs)
    requires InvP(s, NONE)
    ensures |s.ia.free| + BlocksOf(Abs(s).files, IDATA) == NumIb(s.base)
    ensures |s.da.free| + BlocksOf(Abs(s).files, BLKSIZ) == s.nsec - s.base
  {
    FreeCounts(s);
    BlocksConserved(s.ia, 0, NumIb(s.base));
    BlocksConserved(s.da, s.base, s.nsec);
    hide InvP, AreaOK;
    SumLenBlocks(s.ia.used, Abs(s).files, IDATA);
    SumLenBlocks(s.da.used, Abs(s).files, BLKSIZ);
  }

  lemma FreeCounts(s: Fs)
    requires InvP(s, NONE)
    ensures |s.ia.used| == |s.da.used| == |Abs(s).files|
    ensures AreaOK(s.ia, 0, NumIb(s.base)) && AreaOK(s.da, s.base, s.nsec) && 2 <= s.base < s.nsec
    ensures forall f :: 0 <= f < |s.ia.used| ==> |s.ia.used[f]| == CeilNat(|Abs(s).files[f].bytes|, IDATA)
    ensures forall f :: 0 <= f < |s.da.used| ==> |s.da.used[f]| == CeilNat(|Abs(s).files[f].bytes|, BLKSIZ)
  {
    hide IStack, DStack, CoherentI, CoherentD, TabOK, DirCoherent, NamesOK, OneOpener, AllFit, AreaOK, FileOK, AbsFiles,
         Bytes, CeilDiv, EntryFits;
    forall f | 0 <= f < |s.ia.used|
      ensures |s.ia.used[f]| == CeilNat(|Abs(s).files[f].bytes|, IDATA)
           && |s.da.used[f]| == CeilNat(|Abs(s).files[f].bytes|, BLKSIZ)
    {
      assert FileAt(s.ibs, s.dir.files[f], s.ia.used[f], s.da.used[f], Extra(NONE, f).ei, Extra(NONE, f).ed);
      BytesLen(s.dat, s.da.used[f], s.dir.files[f].size);
    }
  }

  // --------------------------------------------------- writing many bytes

  /** lflwrite from its i-th byte on: the count returned, and whether it panicked. */
  function AWriteFrom(a: AFs, c: nat, b: seq<byte>, i: nat, cap: Cap): (AFs, int, bool)
    requires i <= |b|
    decreases |b| - i
  {
    if i == |b| then (a, |b|, false)
    else if APanics(a, c, cap) then (a, i, true)
    else
      var (a', ok) := APutc(a, c, b[i]);
      if !ok then (a', -1, false) else AWriteFrom(a', c, b, i + 1, cap)
  }

  function AWrite(a: AFs, c: nat, b: seq<byte>, count: int, cap: Cap): (AFs, int, bool)
    requires count <= |b|
  {
    if count < 0 then (a, -1, false) else AWriteFrom(a, c, b[..count], 0, cap)
  }

  /** b written over f from position pos on. */
  function Overlay(f: seq<byte>, pos: nat, b: seq<byte>): seq<byte>
    requires pos <= |f|
  {
    f[..pos] + b + (if pos + |b| <= |f| then f[pos + |b|..] else [])
  }

  /** A write that does not run out of blocks stores the whole buffer in place. */
  lemma {:induction false} WriteMeaning(a: AFs, c: nat, b: seq<byte>, i: nat, cap: Cap)
    requires i <= |b| && IsOpen(a, c) && a.open[c].pos <= |FileOf(a, c)|
    requires !AWriteFrom(a, c, b, i, cap).2
    ensures AWriteFrom(a, c, b, i, cap) ==
            (Refilled(a, c, Overlay(FileOf(a, c), a.open[c].pos, b[i..]), a.open[c].pos + |b| - i), |b|, false)
    decreases |b| - i
  {
    var f, pos := FileOf(a, c), a.open[c].pos;
    if i == |b| {
      assert Overlay(f, pos, b[i..]) == f;
      assert a.files[a.open[c].f := a.files[a.open[c].f].(bytes := f)] == a.files;
      assert a.open[c := a.open[c].(pos := pos)] == a.open;
    } else {
      var a' := APutc(a, c, b[i]).0;
      WriteMeaning(a', c, b, i + 1, cap);
      WriteStep(f, pos, b, i);
      RefilledTwice(a, c, Written(f, pos, b[i]), pos + 1, Overlay(f, pos, b[i..]), pos + |b| - i);
    }
  }

  lemma RefilledTwice(a: AFs, c: nat, b1: seq<byte>, p1: nat, b2: seq<byte>, p2: nat)
    requires IsOpen(a, c)
    ensures IsOpen(Refilled(a, c, b1, p1), c) && FileOf(Refilled(a, c, b1, p1), c) == b1
    ensures Refilled(Refilled(a, c, b1, p1), c, b2, p2) == Refilled(a, c, b2, p2)
  {
    var f := a.open[c].f;
    var a1 := Refilled(a, c, b1, p1);
    assert a1.files[f := a1.files[f].(bytes := b2)] == a.files[f := a.files[f].(bytes := b2)];
    assert a1.open[c := a1.open[c].(pos := p2)] == a.open[c := a.open[c].(pos := p2)];
  }

  lemma WriteStep(f: seq<byte>, pos: nat, b: seq<byte>, i: nat)
    requires pos <= |f| && i < |b|
    ensures pos + 1 <= |Written(f, pos, b[i])|
    ensures Overlay(Written(f, pos, b[i]), pos + 1, b[i + 1..]) == Overlay(f, pos, b[i..])
  {
    var x, y := Overlay(Written(f, pos, b[i]), pos + 1, b[i + 1..]), Overlay(f, pos, b[i..]);
    assert |x| == |y|;
    forall k | 0 <= k < |x| ensures x[k] == y[k] {
    }
  }

  lemma NothingToDo(a: AFs, c: nat)
    requires IsOpen(a, c) && FileOf(a, c) == [] && a.open[c].pos == 0
    ensures Refilled(a, c, [], 0) == a
  {
    assert a.files[a.open[c].f := a.files[a.open[c].f].(bytes := [])] == a.files;
    assert a.open[c := a.open[c].(pos := 0)] == a.open;
  }

  lemma TabLen(s: Fs)
    ensures |Abs(s).open| == |s.tab|
  {
  }

  // ------------------------------------------------------------ whole runs

  datatype Op = DoGetc(c: nat) | DoPutc(c: nat, ch: byte) | DoSeek(c: nat, offset: nat) | DoRead(c: nat, count: int)
              | DoWrite(c: nat, buff: seq<byte>, count: int)
              | DoTruncate(c: nat) | DoClose(c: nat) | DoOpen(name: seq<byte>, mode: Mode)
  datatype Res = RGetc(g: Getc) | ROk(ok: bool) | RRead(r: ReadResult) | RWrite(n: int) | ROpen(d: Opened)

  predicate OpOK(op: Op, n: nat) {
    if op.DoOpen? then 0 in op.name else op.c < n && (op.DoWrite? ==> op.count <= |op.buff|)
  }

  /** One call: the files after it, its result, and whether the system stopped
      because the disk was full. */
  ghost function AStep(a: AFs, op: Op, cap: Cap): (AFs, Res, bool) {
    match op
    case DoGetc(c) => var (b, r) := AGetc(a, c); (b, RGetc(r), false)
    case DoPutc(c, ch) =>
      if APanics(a, c, cap) then (a, ROk(false), true) else var (b, r) := APutc(a, c, ch); (b, ROk(r), false)
    case DoSeek(c, offset) => var (b, r) := ASeek(a, c, offset); (b, ROk(r), false)
    case DoRead(c, count) => var (b, r) := ARead(a, c, count); (b, RRead(r), false)
    case DoWrite(c, buff, count) =>
      if count > |buff| then (a, RWrite(-1), false) else var (b, r, stop) := AWrite(a, c, buff, count, cap); (b, RWrite(r), stop)
    case DoTruncate(c) => var (b, r) := ATruncate(a, c); (b, ROk(r), false)
    case DoClose(c) => var (b, r) := AClose(a, c); (b, ROk(r), false)
    case DoOpen(name, mode) => var (b, r) := AOpenFile(a, CStr(name), mode); (b, ROpen(r), false)
  }

  /** The run on plain byte sequences; it ends early only where the disk is full. */
  ghost function ARun(a: AFs, ops: seq<Op>, cap: Cap): (AFs, seq<Res>)
    decreases |ops|
  {
    if ops == [] then (a, [])
    else
      var (b, r, stop) := AStep(a, ops[0], cap);
      if stop then (b, []) else Prefixed([r], ARun(b, ops[1..], cap))
  }

  ghost function Prefixed(rs: seq<Res>, x: (AFs, seq<Res>)): (AFs, seq<Res>) {
    (x.0, rs + x.1)
  }

  lemma StepLen(a: AFs, op: Op, cap: Cap)
    ensures |AStep(a, op, cap).0.open| == |a.open|
  {
    hide AWrite;
    if op.DoWrite? && op.count <= |op.buff| { WriteLen(a, op.c, op.buff, op.count, cap); }
  }

  lemma WriteLen(a: AFs, c: nat, b: seq<byte>, count: int, cap: Cap)
    requires count <= |b|
    ensures |AWrite(a, c, b, count, cap).0.open| == |a.open|
  {
    if count >= 0 { WriteFromLen(a, c, b[..count], 0, cap); }
  }

  lemma {:induction false} WriteFromLen(a: AFs, c: nat, b: seq<byte>, i: nat, cap: Cap)
    requires i <= |b|
    ensures |AWriteFrom(a, c, b, i, cap).0.open| == |a.open|
    decreases |b| - i
  {
    if i < |b| && !APanics(a, c, cap) && APutc(a, c, b[i]).1 { WriteFromLen(APutc(a, c, b[i]).0, c, b, i + 1, cap); }
  }

  lemma RunStep(rs: seq<Res>, a: AFs, ops: seq<Op>, k: nat, cap: Cap)
    requires k < |ops|
    ensures
      var (b, r, stop) := AStep(a, ops[k], cap);
      Prefixed(rs, ARun(a, ops[k..], cap)) == if stop then (b, rs) else Prefixed(rs + [r], ARun(b, ops[k + 1..], cap))
  {
    hide AStep;
    assert ops[k..][0] == ops[k] && ops[k..][1..] == ops[k + 1..];
    var (b, r, stop) := AStep(a, ops[k], cap);
    assert rs + [] == rs;
    if !stop {
      var t := ARun(b, ops[k + 1..], cap);
      assert rs + ([r] + t.1) == rs + [r] + t.1;
    }
  }

  lemma RunEnds(rs: seq<Res>, a: AFs, cap: Cap)
    ensures Prefixed(rs, ARun(a, [], cap)) == (a, rs)
  {
    assert rs + [] == rs;
  }

  lemma RunBegins(a: AFs, ops: seq<Op>, cap: Cap)
    ensures ARun(a, ops, cap) == Prefixed([], ARun(a, ops[0..], cap))
  {
    assert ops[0..] == ops;
    assert [] + ARun(a, ops, cap).1 == ARun(a, ops, cap).1;
  }
}
