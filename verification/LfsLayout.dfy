// On-disk layout of the local file system: 512-byte sectors, little-endian
// 32-bit words, seven 72-byte index blocks in a sector, and the directory in
// sector 0.  The two codecs are proved to be exact inverses, and writing one
// block is proved to leave every other block readable as before.
module LfsLayout {

  newtype byte = b: int | 0 <= b < 256

  const BLKSIZ := 512
  const IBLEN := 16
  const IDATA := 8192
  const NAME_LEN := 16
  const NUM_DIR_ENT := 20
  const NULL_ID: int := -1
  const WORD := 0x1_0000_0000

  type Sector = s: seq<byte> | |s| == BLKSIZ witness seq(BLKSIZ, _ => 0)

  /** struct lfiblk */
  datatype IBlk = IBlk(next: int, offset: int, dba: seq<int>)

  /** struct ldentry; the name is kept as the raw 16 bytes of the structure. */
  datatype LdEntry = LdEntry(size: int, ilist: int, name: seq<byte>)

  /** struct lfdir */
  datatype Dir = Dir(dfree: int, ifree: int, nfiles: int, files: seq<LdEntry>)

  predicate Int32(x: int) { -0x8000_0000 <= x < 0x8000_0000 }
  predicate UInt32(x: int) { 0 <= x < WORD }

  predicate IbFits(ib: IBlk) {
    && Int32(ib.next) && UInt32(ib.offset) && |ib.dba| == IBLEN
    && forall k :: 0 <= k < IBLEN ==> Int32(ib.dba[k])
  }

  predicate EntryFits(e: LdEntry) {
    UInt32(e.size) && Int32(e.ilist) && |e.name| == NAME_LEN
  }

  predicate DirFits(d: Dir) {
    && Int32(d.dfree) && Int32(d.ifree) && 0 <= d.nfiles <= NUM_DIR_ENT
    && |d.files| == NUM_DIR_ENT
    && forall e :: 0 <= e < NUM_DIR_ENT ==> EntryFits(d.files[e])
  }

  // ---------------------------------------------------------------- words

  function Le32(x: int): (r: seq<byte>)
    ensures |r| == 4
  {
    var u := x % WORD;
    [(u % 256) as byte, (u / 256 % 256) as byte, (u / 65536 % 256) as byte, (u / 16777216) as byte]
  }

  function U32At(s: seq<byte>, at: nat): (r: int)
    requires at + 4 <= |s|
    ensures UInt32(r)
  {
    s[at] as int + 256 * s[at + 1] as int + 65536 * s[at + 2] as int + 16777216 * s[at + 3] as int
  }

  function I32At(s: seq<byte>, at: nat): (r: int)
    requires at + 4 <= |s|
    ensures Int32(r)
  {
    var u := U32At(s, at);
    if u < 0x8000_0000 then u else u - WORD
  }

  predicate WordIs(s: seq<byte>, at: nat, x: int)
    requires at + 4 <= |s|
  {
    var b := Le32(x);
    s[at] == b[0] && s[at + 1] == b[1] && s[at + 2] == b[2] && s[at + 3] == b[3]
  }

  /** A word stored at `at` reads back as itself, signed or unsigned. */
  lemma WordRoundTrip(s: seq<byte>, at: nat, x: int)
    requires at + 4 <= |s| && WordIs(s, at, x)
    ensures UInt32(x) ==> U32At(s, at) == x
    ensures Int32(x) ==> I32At(s, at) == x
  {
    var u := x % WORD;
    assert u / 65536 == u / 256 / 256 && u / 16777216 == u / 65536 / 256;
    assert U32At(s, at) == u;
    if Int32(x) && x < 0 { assert u == x + WORD; }
  }

  // --------------------------------------------------------- index blocks

  /** The macros ib2sect and ib2disp. */
  function Ib2Sect(ib: nat): nat { ib / 7 + 1 }
  function Ib2Disp(ib: nat): nat { ib % 7 * 72 }

  function IbWord(ib: IBlk, w: nat): int
    requires |ib.dba| == IBLEN && w < 18
  {
    if w == 0 then ib.next else if w == 1 then ib.offset else ib.dba[w - 2]
  }

  /** The 72 bytes of the in-memory structure. */
  function EncodeIb(ib: IBlk): (r: seq<byte>)
    requires |ib.dba| == IBLEN
    ensures |r| == 72
  {
    seq(72, i requires 0 <= i < 72 => Le32(IbWord(ib, i / 4))[i % 4])
  }

  function DecodeIb(s: seq<byte>, at: nat): (r: IBlk)
    requires at + 72 <= |s|
    ensures IbFits(r)
  {
    IBlk(I32At(s, at), U32At(s, at + 4),
         seq(IBLEN, k requires 0 <= k < IBLEN => I32At(s, at + 8 + 4 * k)))
  }

  lemma EncodedWord(s: seq<byte>, at: nat, ib: IBlk, w: nat)
    requires |ib.dba| == IBLEN && w < 18 && at + 72 <= |s|
    requires s[at..at + 72] == EncodeIb(ib)
    ensures WordIs(s, at + 4 * w, IbWord(ib, w))
  {
    forall j | 0 <= j < 4 ensures s[at + 4 * w + j] == Le32(IbWord(ib, w))[j] {
      assert s[at + 4 * w + j] == s[at..at + 72][4 * w + j] == EncodeIb(ib)[4 * w + j];
      assert (4 * w + j) / 4 == w && (4 * w + j) % 4 == j;
    }
  }

  lemma DbaRoundTrip(s: seq<byte>, at: nat, ib: IBlk, k: nat)
    requires IbFits(ib) && at + 72 <= |s| && k < IBLEN
    requires s[at..at + 72] == EncodeIb(ib)
    ensures I32At(s, at + 8 + 4 * k) == ib.dba[k]
  {
    hide EncodeIb, WordIs, I32At, Le32;
    EncodedWord(s, at, ib, k + 2);
    assert at + 4 * (k + 2) == at + 8 + 4 * k;
    WordRoundTrip(s, at + 8 + 4 * k, ib.dba[k]);
  }

  lemma IbRoundTrip(s: seq<byte>, at: nat, ib: IBlk)
    requires IbFits(ib) && at + 72 <= |s|
    requires s[at..at + 72] == EncodeIb(ib)
    ensures DecodeIb(s, at) == ib
  {
    hide EncodeIb, WordIs, I32At, U32At, Le32;
    EncodedWord(s, at, ib, 0);
    EncodedWord(s, at, ib, 1);
    WordRoundTrip(s, at, ib.next);
    WordRoundTrip(s, at + 4, ib.offset);
    var d := DecodeIb(s, at);
    forall k | 0 <= k < IBLEN ensures d.dba[k] == ib.dba[k] {
      DbaRoundTrip(s, at, ib, k);
    }
    assert d.dba == ib.dba;
  }

  // ------------------------------------------------------------ directory

  function DirByte(d: Dir, i: nat): byte
    requires DirFits(d) && i < BLKSIZ
  {
    if i < 12 then
      Le32(if i < 4 then d.dfree else if i < 8 then d.ifree else d.nfiles)[i % 4]
    else if i < 492 then
      var e := d.files[(i - 12) / 24];
      var r := (i - 12) % 24;
      if r < 8 then Le32(if r < 4 then e.size else e.ilist)[r % 4] else e.name[r - 8]
    else 0
  }

  function EncodeDir(d: Dir): (r: Sector)
    requires DirFits(d)
  {
    seq(BLKSIZ, i requires 0 <= i < BLKSIZ => DirByte(d, i))
  }

  function DecodeEntry(s: Sector, e: nat): (r: LdEntry)
    requires e < NUM_DIR_ENT
    ensures EntryFits(r)
  {
    LdEntry(U32At(s, 12 + 24 * e), I32At(s, 16 + 24 * e), s[20 + 24 * e..36 + 24 * e])
  }

  function DecodeDir(s: Sector): (r: Dir) {
    Dir(I32At(s, 0), I32At(s, 4), I32At(s, 8),
        seq(NUM_DIR_ENT, e requires 0 <= e < NUM_DIR_ENT => DecodeEntry(s, e)))
  }

  lemma EntryByte(d: Dir, e: nat, r: nat)
    requires DirFits(d) && e < NUM_DIR_ENT && r < 24
    ensures
      var x := d.files[e];
      EncodeDir(d)[12 + 24 * e + r] ==
      if r < 8 then Le32(if r < 4 then x.size else x.ilist)[r % 4] else x.name[r - 8]
  {
    assert EncodeDir(d)[12 + 24 * e + r] == DirByte(d, 12 + 24 * e + r);
    assert (24 * e + r) / 24 == e && (24 * e + r) % 24 == r;
  }

  lemma EntryRoundTrip(d: Dir, e: nat)
    requires DirFits(d) && e < NUM_DIR_ENT
    ensures DecodeEntry(EncodeDir(d), e) == d.files[e]
  {
    hide EncodeDir, DirByte;
    var s := EncodeDir(d);
    var x := d.files[e];
    EntryByte(d, e, 0); EntryByte(d, e, 1); EntryByte(d, e, 2); EntryByte(d, e, 3);
    EntryByte(d, e, 4); EntryByte(d, e, 5); EntryByte(d, e, 6); EntryByte(d, e, 7);
    WordRoundTrip(s, 12 + 24 * e, x.size);
    WordRoundTrip(s, 16 + 24 * e, x.ilist);
    forall j | 0 <= j < 16 ensures s[20 + 24 * e..36 + 24 * e][j] == x.name[j] {
      EntryByte(d, e, 8 + j);
    }
    assert s[20 + 24 * e..36 + 24 * e] == x.name;
  }

  lemma DirRoundTrip(d: Dir)
    requires DirFits(d)
    ensures DecodeDir(EncodeDir(d)) == d
  {
    var s := EncodeDir(d);
    WordRoundTrip(s, 0, d.dfree);
    WordRoundTrip(s, 4, d.ifree);
    WordRoundTrip(s, 8, d.nfiles);
    forall e | 0 <= e < NUM_DIR_ENT ensures DecodeDir(s).files[e] == d.files[e] {
      EntryRoundTrip(d, e);
    }
  }

  // ------------------------------------------------------------- the disk

  /** What the sectors mean: the directory, the index blocks, the data blocks. */
  datatype Img = Img(dir: Dir, ibs: seq<IBlk>, dat: map<int, Sector>)

  /** Sector 0, `base - 1` sectors of index blocks, data blocks from `base` on. */
  predicate Geometry(nsec: nat, base: nat) {
    2 <= base < nsec < 0x80_0000
  }

  function NumIb(base: nat): int { 7 * (base - 1) }

  function IbAt(disk: seq<Sector>, base: nat, i: nat): (r: IBlk)
    requires Geometry(|disk|, base) && i < NumIb(base)
    ensures IbFits(r)
  {
    DecodeIb(disk[Ib2Sect(i)], Ib2Disp(i))
  }

  ghost function ImgOf(disk: seq<Sector>, base: nat): (m: Img)
    requires Geometry(|disk|, base)
    ensures |m.ibs| == NumIb(base)
    ensures forall d :: d in m.dat <==> base <= d < |disk|
  {
    Img(DecodeDir(disk[0]),
        seq(NumIb(base), i requires 0 <= i < NumIb(base) => IbAt(disk, base, i)),
        map d: int | base <= d < |disk| :: disk[d])
  }

  lemma WriteDirImg(disk: seq<Sector>, base: nat, d: Dir)
    requires Geometry(|disk|, base) && DirFits(d)
    ensures ImgOf(disk[0 := EncodeDir(d)], base) == ImgOf(disk, base).(dir := d)
  {
    DirRoundTrip(d);
    var a, b := ImgOf(disk, base), ImgOf(disk[0 := EncodeDir(d)], base);
    assert a.ibs == b.ibs;
    assert a.dat == b.dat;
  }

  lemma WriteDataImg(disk: seq<Sector>, base: nat, d: nat, s: Sector)
    requires Geometry(|disk|, base) && base <= d < |disk|
    ensures ImgOf(disk[d := s], base) == var m := ImgOf(disk, base); m.(dat := m.dat[d := s])
  {
    var a, b := ImgOf(disk, base), ImgOf(disk[d := s], base);
    assert a.ibs == b.ibs;
    assert b.dat == a.dat[d := s];
  }

  /** The sector holding index block `i` with that block's 72 bytes replaced. */
  function PutIb(s: Sector, i: nat, ib: IBlk): (r: Sector)
    requires |ib.dba| == IBLEN
  {
    s[..Ib2Disp(i)] + EncodeIb(ib) + s[Ib2Disp(i) + 72..]
  }

  lemma PutIbSlot(s: Sector, i: nat, j: nat, ib: IBlk)
    requires IbFits(ib) && Ib2Sect(i) == Ib2Sect(j)
    ensures DecodeIb(PutIb(s, i, ib), Ib2Disp(j)) == if i == j then ib else DecodeIb(s, Ib2Disp(j))
  {
    var r := PutIb(s, i, ib);
    var at := Ib2Disp(j);
    if i == j {
      assert r[at..at + 72] == EncodeIb(ib);
      IbRoundTrip(r, at, ib);
    } else {
      assert i % 7 != j % 7;
      assert forall k :: at <= k < at + 72 ==> r[k] == s[k];
      assert DecodeIb(r, at).dba == DecodeIb(s, at).dba;
    }
  }

  lemma WriteIbImg(disk: seq<Sector>, base: nat, i: nat, ib: IBlk)
    requires Geometry(|disk|, base) && i < NumIb(base) && IbFits(ib)
    ensures
      var m := ImgOf(disk, base);
      ImgOf(disk[Ib2Sect(i) := PutIb(disk[Ib2Sect(i)], i, ib)], base) == m.(ibs := m.ibs[i := ib])
  {
    var k := Ib2Sect(i);
    var disk' := disk[k := PutIb(disk[k], i, ib)];
    var a, b := ImgOf(disk, base), ImgOf(disk', base);
    forall j | 0 <= j < NumIb(base) ensures b.ibs[j] == a.ibs[i := ib][j] {
      if Ib2Sect(j) == k { PutIbSlot(disk[k], i, j, ib); }
    }
    assert b.ibs == a.ibs[i := ib];
    assert b.dat == a.dat;
  }

  /** The link word of a data block that is on the free list. */
  function NextDb(s: Sector): (r: int)
    ensures Int32(r)
  {
    I32At(s, 0)
  }

  /** A data block carrying a free-list link; the other 508 bytes are the caller's. */
  function FreeBlock(next: int, rest: seq<byte>): (r: Sector)
    requires |rest| == BLKSIZ - 4
    ensures Int32(next) ==> NextDb(r) == next
  {
    var r: Sector := Le32(next) + rest;
    WordRoundTrip(r, 0, next);
    r
  }
}
