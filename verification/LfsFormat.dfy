// Laying down an empty file system, and counting its two free lists.
module LfsFormat {
  import opened LfsLayout
  import opened LfsModel
  import opened LfsImage

  /** The directory that memset and the assignments of lfscreate leave. */
  function FreshDir(base: int): Dir {
    Dir(base, 0, 0, seq(NUM_DIR_ENT, _ => LdEntry(0, 0, seq(NAME_LEN, _ => 0))))
  }

  function ListIb(i: int, n: int): IBlk {
    IBlk(if i + 1 < n then i + 1 else NULL_ID, 0, seq(IBLEN, _ => NULL_ID))
  }

  /** The first n index blocks are on the list, and nothing else has moved. */
  ghost predicate IndexLaid(m: Img, base: nat, n: nat) {
    m.dir == FreshDir(base) && |m.ibs| == NumIb(base) &&
    forall i :: 0 <= i < n && i < |m.ibs| ==> m.ibs[i] == ListIb(i, |m.ibs|)
  }

  ghost predicate DataLaid(m: Img, base: nat, end: int, nsec: int) {
    forall d :: base <= d < end && d in m.dat ==> NextDb(m.dat[d]) == if d + 1 < nsec then d + 1 else NULL_ID
  }

  lemma LaidIsEmpty(m: Img, nsec: nat, base: nat)
    requires Geometry(nsec, base) && IndexLaid(m, base, NumIb(base)) && DataLaid(m, base, nsec, nsec)
    requires forall d :: d in m.dat <==> base <= d < nsec
    ensures EmptyImage(m, nsec, base)
  {
    assert forall i :: 0 <= i < |m.ibs| ==> ListIb(i, |m.ibs|).dba == seq(IBLEN, _ => NULL_ID);
  }

  /** The loop of lfscreate over the index blocks. */
  method LayIndex(disk0: seq<Sector>, base: nat) returns (disk: seq<Sector>)
    requires Geometry(|disk0|, base) && IndexLaid(ImgOf(disk0, base), base, 0)
    ensures |disk| == |disk0| && IndexLaid(ImgOf(disk, base), base, NumIb(base))
  {
    hide ImgOf, ListIb, IndexLaid;
    disk := disk0;
    var niblks := NumIb(base);
    var i := 0;
    while i < niblks - 1
      invariant 0 <= i <= niblks - 1 && |disk| == |disk0| && IndexLaid(ImgOf(disk, base), base, i)
    {
      disk := PutBlock(disk, base, i, ListIb(i, niblks));
      i := i + 1;
    }
    disk := PutBlock(disk, base, i, ListIb(i, niblks));
  }

  /** One block of the data list. */
  method PutData(disk0: seq<Sector>, base: nat, d: nat, next: int) returns (disk: seq<Sector>)
    requires Geometry(|disk0|, base) && base <= d < |disk0| && Int32(next)
    requires next == if d + 1 < |disk0| then d + 1 else NULL_ID
    requires IndexLaid(ImgOf(disk0, base), base, NumIb(base)) && DataLaid(ImgOf(disk0, base), base, d, |disk0|)
    ensures |disk| == |disk0|
    ensures IndexLaid(ImgOf(disk, base), base, NumIb(base)) && DataLaid(ImgOf(disk, base), base, d + 1, |disk0|)
  {
    hide ImgOf, ListIb, FreshDir, NextDb;
    var blk := FreeBlock(next, seq(BLKSIZ - 4, _ => 0));
    WriteDataImg(disk0, base, d, blk);
    disk := disk0[d := blk];
  }

  /** The loop of lfscreate over the data blocks. */
  method LayData(disk0: seq<Sector>, base: nat) returns (disk: seq<Sector>)
    requires Geometry(|disk0|, base) && IndexLaid(ImgOf(disk0, base), base, NumIb(base))
    ensures |disk| == |disk0|
    ensures IndexLaid(ImgOf(disk, base), base, NumIb(base)) && DataLaid(ImgOf(disk, base), base, |disk0|, |disk0|)
  {
    hide ImgOf, IndexLaid;
    disk := disk0;
    var dbindex := base;
    while dbindex < |disk0| - 1
      invariant base <= dbindex <= |disk0| - 1 && |disk| == |disk0|
      invariant IndexLaid(ImgOf(disk, base), base, NumIb(base)) && DataLaid(ImgOf(disk, base), base, dbindex, |disk0|)
    {
      disk := PutData(disk, base, dbindex, dbindex + 1);
      dbindex := dbindex + 1;
    }
    disk := PutData(disk, base, dbindex, NULL_ID);
  }

  /** The sectors of index blocks, in the 32-bit arithmetic of lfscreate. */
  function IbSectors(lfiblks: int): (r: int)
    ensures 0 <= r < WORD
  {
    (lfiblks + 6) % WORD / 7
  }

  /** The first sector of data blocks, and the last one that the loop over the
      data blocks writes to. */
  function FirstData(lfiblks: int): int { IbSectors(lfiblks) + 1 }

  function LastData(lfiblks: int, sectors: int): int {
    var dblks := (sectors - IbSectors(lfiblks) - 1) % WORD;
    FirstData(lfiblks) + (dblks - 1) % WORD
  }

  /** lfscreate, for requests whose data blocks end on the disk: LayoutSound and
      LayoutBroken say which do not.  A request that rounds to no index sector is
      accepted, and index block 0, which the directory names as free, lies in the
      sector of the first free data block. */
  method LfsCreate(disk0: seq<Sector>, lfiblks: int, dsiz: int) returns (ok: bool, disk: seq<Sector>, base: nat)
    requires Int32(lfiblks) && UInt32(dsiz) && |disk0| == dsiz / BLKSIZ
    requires IbSectors(lfiblks) <= |disk0| / 2 ==> LastData(lfiblks, |disk0|) < |disk0|
    ensures ok <==> IbSectors(lfiblks) <= |disk0| / 2
    ensures base == FirstData(lfiblks) && |disk| == |disk0|
    ensures !ok ==> disk == disk0
    ensures ok && Ib2Sect(0) != base ==> Geometry(|disk|, base) && EmptyImage(ImgOf(disk, base), |disk|, base)
    ensures ok && Ib2Sect(0) == base ==> Overlaid(disk)
  {
    disk := disk0;
    var sectors := dsiz / BLKSIZ;
    var ibsectors := (lfiblks + 6) % WORD / 7;
    base := ibsectors + 1;
    if ibsectors > sectors / 2 {
      return false, disk, base;
    }
    hide ImgOf, EncodeDir, FreshDir, ListIb, DataLaid, Overlaid, EmptyImage, IndexLaid;
    FitsDisk(lfiblks, sectors);
    ok := true;
    if ibsectors == 0 {
      disk := LayFlat(disk);
    } else {
      disk := LayBoth(disk, base);
    }
  }

  /** lfscreate with an index area of its own. */
  method LayBoth(disk0: seq<Sector>, base: nat) returns (disk: seq<Sector>)
    requires Geometry(|disk0|, base) && Int32(base)
    ensures |disk| == |disk0| && EmptyImage(ImgOf(disk, base), |disk|, base)
  {
    hide ImgOf, EncodeDir, FreshDir, ListIb, DataLaid;
    FreshFits(base);
    WriteDirImg(disk0, base, FreshDir(base));
    disk := disk0[0 := EncodeDir(FreshDir(base))];
    disk := LayIndex(disk, base);
    disk := LayData(disk, base);
    LaidIsEmpty(ImgOf(disk, base), |disk|, base);
  }

  /** Index block 0 is on the free list, and its 72 bytes are those of the first
      data block on the other free list: its pointers are no pointers. */
  ghost predicate Overlaid(disk: seq<Sector>) {
    && |disk| >= 2 && DecodeDir(disk[0]).ifree == 0 && DecodeDir(disk[0]).dfree == Ib2Sect(0) == 1
    && NextDb(disk[1]) == (if |disk| > 2 then 2 else NULL_ID)
    && DecodeIb(disk[1], Ib2Disp(0)).next == NextDb(disk[1])
    && DecodeIb(disk[1], Ib2Disp(0)).dba == seq(IBLEN, _ => 0)
  }

  /** lfscreate without an index area: the list of data blocks starts in the
      sector that index block 0 was written to. */
  method LayFlat(disk0: seq<Sector>) returns (disk: seq<Sector>)
    requires 2 <= |disk0| < 0x8000_0000
    ensures |disk| == |disk0| && Overlaid(disk)
  {
    hide EncodeDir, DecodeDir, FreshDir, PutIb;
    FreshFits(1);
    DirRoundTrip(FreshDir(1));
    FreshHeads(1);
    disk := disk0[0 := EncodeDir(FreshDir(1))];
    var last := IBlk(NULL_ID, 0, seq(IBLEN, _ => NULL_ID));
    disk := disk[Ib2Sect(0) := PutIb(disk[Ib2Sect(0)], 0, last)];
    var rest: seq<byte> := seq(BLKSIZ - 4, _ => 0);
    var dbindex := 1;
    while dbindex < |disk0| - 1
      invariant 1 <= dbindex <= |disk0| - 1 && |disk| == |disk0| && disk[0] == EncodeDir(FreshDir(1))
      invariant dbindex > 1 ==> disk[1] == FreeBlock(2, rest)
    {
      disk := disk[dbindex := FreeBlock(dbindex + 1, rest)];
      dbindex := dbindex + 1;
    }
    disk := disk[dbindex := FreeBlock(NULL_ID, rest)];
    ZeroPointers(if |disk0| > 2 then 2 else NULL_ID, rest);
  }

  lemma FreshHeads(base: int)
    ensures FreshDir(base).ifree == 0 && FreshDir(base).dfree == base
  {
  }

  /** What an empty block of the data list says when read as an index block. */
  lemma ZeroPointers(next: int, rest: seq<byte>)
    requires Int32(next) && rest == seq(BLKSIZ - 4, _ => 0)
    ensures DecodeIb(FreeBlock(next, rest), 0).next == next
    ensures DecodeIb(FreeBlock(next, rest), 0).dba == seq(IBLEN, _ => 0)
  {
    var s := FreeBlock(next, rest);
    forall k | 0 <= k < IBLEN ensures I32At(s, 8 + 4 * k) == 0 {
      assert s[8 + 4 * k] == 0 && s[8 + 4 * k + 1] == 0 && s[8 + 4 * k + 2] == 0 && s[8 + 4 * k + 3] == 0;
    }
  }

  lemma FitsDisk(lfiblks: int, sectors: nat)
    requires Int32(lfiblks) && sectors < 0x80_0000 && IbSectors(lfiblks) <= sectors / 2 && LastData(lfiblks, sectors) < sectors
    ensures IbSectors(lfiblks) + 2 <= sectors && sectors >= 2
    ensures IbSectors(lfiblks) >= 1 ==> Geometry(sectors, FirstData(lfiblks))
  {
  }

  /** A request that lfscreate accepts is laid out soundly, with index block 0 and
      the data blocks in different sectors and every data block on the disk,
      exactly if it asks for an index sector and the disk has three sectors. */
  lemma LayoutSound(lfiblks: int, sectors: nat)
    requires Int32(lfiblks) && sectors < 0x80_0000 && IbSectors(lfiblks) <= sectors / 2
    ensures Ib2Sect(0) != FirstData(lfiblks) && LastData(lfiblks, sectors) < sectors <==> IbSectors(lfiblks) >= 1 && sectors >= 3
    ensures Ib2Sect(0) == FirstData(lfiblks) <==> IbSectors(lfiblks) == 0
    ensures LastData(lfiblks, sectors) < sectors <==> sectors >= IbSectors(lfiblks) + 2
    ensures LastData(lfiblks, sectors) < sectors ==> LastData(lfiblks, sectors) == sectors - 1
  {
  }

  /** The two ways in which it goes wrong: no index blocks asked for, and one index
      block on a disk of two sectors, where the loop would write on and on. */
  lemma LayoutBroken()
    ensures IbSectors(0) <= 3 / 2 && Ib2Sect(0) == FirstData(0)
    ensures IbSectors(1) <= 2 / 2 && LastData(1, 2) == 0x1_0000_0001
  {
  }

  lemma FreshFits(base: int)
    requires Int32(base)
    ensures DirFits(FreshDir(base))
  {
  }

  method PutBlock(disk0: seq<Sector>, base: nat, i: nat, ib: IBlk) returns (disk: seq<Sector>)
    requires Geometry(|disk0|, base) && i < NumIb(base) && IndexLaid(ImgOf(disk0, base), base, i)
    requires ib == ListIb(i, NumIb(base))
    ensures |disk| == |disk0| && IndexLaid(ImgOf(disk, base), base, i + 1)
  {
    hide ImgOf, FreshDir, PutIb;
    assert IbFits(ib);
    WriteIbImg(disk0, base, i, ib);
    disk := disk0[Ib2Sect(i) := PutIb(disk0[Ib2Sect(i)], i, ib)];
  }

  /** lfsckfmt: on a disk whose lists are the given ones it counts exactly them. */
  method LfsCkFmt(disk: seq<Sector>, base: nat, ghost ist: seq<int>, ghost dst: seq<int>) returns (niblks: nat, ndblks: nat)
    requires Geometry(|disk|, base)
    requires IStack(ImgOf(disk, base).ibs, ImgOf(disk, base).dir.ifree, ist)
    requires DStack(ImgOf(disk, base).dat, ImgOf(disk, base).dir.dfree, dst)
    ensures niblks == |ist| && ndblks == |dst|
  {
    var dir := DecodeDir(disk[0]);
    niblks := 0;
    var nextib := dir.ifree;
    while nextib != NULL_ID
      invariant niblks <= |ist| && nextib == Top(ist[..|ist| - niblks])
      decreases |ist| - niblks
    {
      ghost var k := |ist| - niblks - 1;
      assert ist[..k + 1][k] == ist[k] && ist[..k + 1][..k] == ist[..k];
      nextib := IbAt(disk, base, nextib).next;
      niblks := niblks + 1;
    }
    ndblks := 0;
    var nextdb := dir.dfree;
    while nextdb != NULL_ID
      invariant ndblks <= |dst| && nextdb == Top(dst[..|dst| - ndblks])
      decreases |dst| - ndblks
    {
      ghost var k := |dst| - ndblks - 1;
      assert dst[..k + 1][k] == dst[k] && dst[..k + 1][..k] == dst[..k];
      nextdb := NextDb(disk[nextdb]);
      ndblks := ndblks + 1;
    }
    assert niblks == |ist| by { ListDone(ImgOf(disk, base).ibs, dir.ifree, ist, niblks); }
    assert ndblks == |dst| by { DataDone(ImgOf(disk, base).dat, dir.dfree, dst, ndblks, base); }
  }

  lemma ListDone(ibs: seq<IBlk>, head: int, ist: seq<int>, n: nat)
    requires IStack(ibs, head, ist) && n <= |ist| && Top(ist[..|ist| - n]) == NULL_ID
    ensures n == |ist|
  {
  }

  lemma DataDone(dat: map<int, Sector>, head: int, dst: seq<int>, n: nat, base: nat)
    requires DStack(dat, head, dst) && n <= |dst| && Top(dst[..|dst| - n]) == NULL_ID && forall d :: d in dat ==> d >= base
    ensures n == |dst|
  {
  }
}
