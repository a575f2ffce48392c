// What programs see of files, by the results of their calls alone: what is
// written at a position is read back from it, files keep their contents until
// they are written, and calls on one file leave the others alone.
module LfsLaws {
  import opened LfsLayout
  import opened LfsModel
  import opened LfsAbs
  import opened LfsNames

  /** The results of a sequence of calls; it is shorter than the sequence only if
      the disk ran full. */
  ghost function Results(a: AFs, ops: seq<Op>, cap: Cap): seq<Res> { ARun(a, ops, cap).1 }

  lemma RunCons(a: AFs, op: Op, rest: seq<Op>, cap: Cap)
    ensures var (b, r, stop) := AStep(a, op, cap);
            ARun(a, [op] + rest, cap) == if stop then (b, []) else (ARun(b, rest, cap).0, [r] + ARun(b, rest, cap).1)
  {
    hide AStep;
    assert ([op] + rest)[1..] == rest;
  }

  lemma RunOne(a: AFs, op: Op, cap: Cap)
    ensures var (b, r, stop) := AStep(a, op, cap); ARun(a, [op], cap) == if stop then (b, []) else (b, [r])
  {
    hide AStep;
    RunCons(a, op, [], cap);
    assert [op] + [] == [op];
    var (b, r, stop) := AStep(a, op, cap);
    assert ARun(b, [], cap) == (b, []) && [r] + [] == [r];
  }

  lemma RunTwo(a: AFs, op1: Op, op2: Op, cap: Cap)
    ensures var (b, r, stop) := AStep(a, op1, cap);
            var (b', r', stop') := AStep(b, op2, cap);
            ARun(a, [op1, op2], cap) == if stop then (b, []) else if stop' then (b', [r]) else (b', [r, r'])
  {
    hide AStep;
    RunCons(a, op1, [op2], cap);
    assert [op1] + [op2] == [op1, op2];
    var (b, r, stop) := AStep(a, op1, cap);
    RunOne(b, op2, cap);
    assert [r] + [AStep(b, op2, cap).1] == [r, AStep(b, op2, cap).1] && [r] + [] == [r];
  }

  // ------------------------------------------------------ seek, read, write

  /** A read right after a seek returns the bytes at the position sought, as many
      as there are; a seek beyond the end fails and does nothing. */
  lemma SeekRead(a: AFs, c: nat, o: nat, n: nat, cap: Cap)
    requires IsOpen(a, c) && n > 0
    ensures var f := FileOf(a, c);
            if o > |f| then ARun(a, [DoSeek(c, o)], cap) == (a, [ROk(false)])
            else Results(a, [DoSeek(c, o), DoRead(c, n)], cap) ==
                 [ROk(true), RRead(if o == |f| then ReadEof else Got(f[o..if o + n <= |f| then o + n else |f|]))]
  {
    RunOne(a, DoSeek(c, o), cap);
    RunTwo(a, DoSeek(c, o), DoRead(c, n), cap);
  }

  lemma SeekGetc(a: AFs, c: nat, o: nat, cap: Cap)
    requires IsOpen(a, c) && o <= |FileOf(a, c)|
    ensures var f := FileOf(a, c);
            Results(a, [DoSeek(c, o), DoGetc(c)], cap) == [ROk(true), RGetc(if o == |f| then Eof else Char(f[o]))]
  {
    RunTwo(a, DoSeek(c, o), DoGetc(c), cap);
  }

  /** One read after another: what they return together is what a single read of as
      many bytes returns, and it is what getc returns byte by byte. */
  lemma ReadOn(a: AFs, c: nat, n: nat, m: nat, cap: Cap)
    requires IsOpen(a, c) && n > 0 && m > 0 && a.open[c].pos + n < |FileOf(a, c)|
    ensures exists x, y ::
              && Results(a, [DoRead(c, n), DoRead(c, m)], cap) == [RRead(Got(x)), RRead(Got(y))] && |x| == n
              && Results(a, [DoRead(c, n + m)], cap) == [RRead(Got(x + y))]
  {
    var f, pos := FileOf(a, c), a.open[c].pos;
    var end := if pos + n + m <= |f| then pos + n + m else |f|;
    RunTwo(a, DoRead(c, n), DoRead(c, m), cap);
    RunOne(a, DoRead(c, n + m), cap);
    assert f[pos..pos + n] + f[pos + n..end] == f[pos..end];
    assert Results(a, [DoRead(c, n), DoRead(c, m)], cap) == [RRead(Got(f[pos..pos + n])), RRead(Got(f[pos + n..end]))];
  }

  /** n calls of getc. */
  function Getcs(c: nat, n: nat): seq<Op> { if n == 0 then [] else [DoGetc(c)] + Getcs(c, n - 1) }

  function Chars(b: seq<byte>): (r: seq<Res>)
    ensures |r| == |b| && forall i :: 0 <= i < |b| ==> r[i] == RGetc(Char(b[i]))
  {
    if b == [] then [] else [RGetc(Char(b[0]))] + Chars(b[1..])
  }

  lemma {:induction false} GetcsRead(a: AFs, c: nat, n: nat, cap: Cap)
    requires IsOpen(a, c) && a.open[c].pos + n <= |FileOf(a, c)|
    ensures var pos := a.open[c].pos;
            && Results(a, Getcs(c, n), cap) == Chars(FileOf(a, c)[pos..pos + n])
            && (n > 0 ==> Results(a, [DoRead(c, n)], cap) == [RRead(Got(FileOf(a, c)[pos..pos + n]))])
    decreases n
  {
    if n > 0 {
      var f, pos := FileOf(a, c), a.open[c].pos;
      RunCons(a, DoGetc(c), Getcs(c, n - 1), cap);
      var a' := AStep(a, DoGetc(c), cap).0;
      GetcsRead(a', c, n - 1, cap);
      assert f[pos..pos + n][1..] == f[pos + 1..pos + n];
      RunOne(a, DoRead(c, n), cap);
    }
  }

  /** Where a position is after bytes were stored there. */
  lemma WriteStored(a: AFs, c: nat, b: seq<byte>, cap: Cap)
    requires IsOpen(a, c) && a.open[c].pos <= |FileOf(a, c)| && !AStep(a, DoWrite(c, b, |b|), cap).2
    ensures var (a', r, stop) := AStep(a, DoWrite(c, b, |b|), cap);
            var f, pos := FileOf(a, c), a.open[c].pos;
            && r == RWrite(|b|) && IsOpen(a', c)
            && FileOf(a', c) == f[..pos] + b + (if pos + |b| <= |f| then f[pos + |b|..] else [])
            && a'.open[c].pos == pos + |b|
  {
    assert b[..|b|] == b && b[0..] == b;
    WriteMeaning(a, c, b, 0, cap);
    RefilledTwice(a, c, Overlay(FileOf(a, c), a.open[c].pos, b), a.open[c].pos + |b|, [], 0);
  }

  /** What is written at a position is read back from that position, unless the disk
      runs full; the rest of the file is as it was. */
  lemma WriteReadBack(a: AFs, c: nat, o: nat, b: seq<byte>, cap: Cap)
    requires IsOpen(a, c) && o <= |FileOf(a, c)| && b != []
    requires |Results(a, [DoSeek(c, o), DoWrite(c, b, |b|)], cap)| == 2
    ensures Results(a, [DoSeek(c, o), DoWrite(c, b, |b|)], cap) == [ROk(true), RWrite(|b|)]
    ensures var a', f := ARun(a, [DoSeek(c, o), DoWrite(c, b, |b|)], cap).0, FileOf(a, c);
            var f' := f[..o] + b + (if o + |b| <= |f| then f[o + |b|..] else []);
            && Results(a', [DoSeek(c, o), DoRead(c, |b|)], cap) == [ROk(true), RRead(Got(b))]
            && Results(a', [DoSeek(c, 0), DoRead(c, |f'|)], cap) == [ROk(true), RRead(Got(f'))]
            && Results(a', [DoSeek(c, |f'|), DoGetc(c)], cap) == [ROk(true), RGetc(Eof)]
  {
    hide AWrite;
    RunTwo(a, DoSeek(c, o), DoWrite(c, b, |b|), cap);
    var a1 := AStep(a, DoSeek(c, o), cap).0;
    WriteStored(a1, c, b, cap);
    var a' := ARun(a, [DoSeek(c, o), DoWrite(c, b, |b|)], cap).0;
    var f' := FileOf(a', c);
    SeekRead(a', c, o, |b|, cap);
    assert f'[o..o + |b|] == b;
    SeekRead(a', c, 0, |f'|, cap);
    assert f'[0..|f'|] == f';
    SeekGetc(a', c, |f'|, cap);
  }

  lemma PutcGetc(a: AFs, c: nat, o: nat, ch: byte, cap: Cap)
    requires IsOpen(a, c) && o <= |FileOf(a, c)| && |Results(a, [DoSeek(c, o), DoPutc(c, ch)], cap)| == 2
    ensures var a' := ARun(a, [DoSeek(c, o), DoPutc(c, ch)], cap).0;
            && Results(a, [DoSeek(c, o), DoPutc(c, ch)], cap) == [ROk(true), ROk(true)]
            && Results(a', [DoSeek(c, o), DoGetc(c)], cap) == [ROk(true), RGetc(Char(ch))]
            && forall k :: 0 <= k < |FileOf(a, c)| && k != o ==>
                 Results(a', [DoSeek(c, k), DoGetc(c)], cap) == [ROk(true), RGetc(Char(FileOf(a, c)[k]))]
  {
    RunTwo(a, DoSeek(c, o), DoPutc(c, ch), cap);
    var a' := ARun(a, [DoSeek(c, o), DoPutc(c, ch)], cap).0;
    SeekGetc(a', c, o, cap);
    forall k | 0 <= k < |FileOf(a, c)| && k != o
      ensures Results(a', [DoSeek(c, k), DoGetc(c)], cap) == [ROk(true), RGetc(Char(FileOf(a, c)[k]))]
    {
      SeekGetc(a', c, k, cap);
    }
  }

  /** Truncation leaves nothing to read and no position but zero. */
  lemma TruncateEmpties(a: AFs, c: nat, o: nat, cap: Cap)
    requires IsOpen(a, c)
    ensures Results(a, [DoTruncate(c), DoGetc(c)], cap) == [ROk(true), RGetc(Eof)]
    ensures Results(a, [DoTruncate(c), DoSeek(c, o)], cap) == [ROk(true), ROk(o == 0)]
  {
    RunTwo(a, DoTruncate(c), DoGetc(c), cap);
    RunTwo(a, DoTruncate(c), DoSeek(c, o), cap);
  }

  // -------------------------------------------------------- open and close

  /** A file of that name exists. */
  ghost predicate Exists(a: AFs, name: seq<byte>) { exists f :: 0 <= f < |a.files| && a.files[f].name == name }

  /** Why lfsopen fails. */
  ghost predicate CannotOpen(a: AFs, name: seq<byte>, m: Mode) {
    || |name| >= NAME_LEN || m.BadMode? || NameOpen(a, name)
    || (forall c :: 0 <= c < |a.open| ==> a.open[c].Open?)
    || (Exists(a, name) && m.new_)
    || (!Exists(a, name) && (m.old_ || |a.files| >= NUM_DIR_ENT))
  }

  /** lfsopen fails exactly for those reasons, and then does nothing.  Otherwise the
      first free entry is at the beginning of the file of that name, which is new and
      empty if there was none; nothing else changes. */
  lemma OpenOutcome(a: AFs, raw: seq<byte>, m: Mode, cap: Cap)
    ensures var (a', r, stop) := AStep(a, DoOpen(raw, m), cap);
            var name := CStr(raw);
            && !stop && r.ROpen? && (r.d.OpenErr? <==> CannotOpen(a, name, m))
            && (r.d.OpenErr? ==> a' == a)
            && (r.d.Dev? ==>
                  var c := r.d.c;
                  && c < |a.open| == |a'.open| && a.open[c].Closed? && (forall d :: 0 <= d < c ==> a.open[d].Open?)
                  && IsOpen(a', c) && a'.open[c].pos == 0 && a'.files[a'.open[c].f].name == name
                  && (forall d :: 0 <= d < |a.open| && d != c ==> a'.open[d] == a.open[d])
                  && a'.files == if Exists(a, name) then a.files else a.files + [AFile(name, [])])
  {
    hide CStr, NameOpen;
  }

  /** No two files have the same name. */
  ghost predicate DistinctNames(files: seq<AFile>) {
    forall f, g :: 0 <= f < g < |files| ==> files[f].name != files[g].name
  }

  /** A closed file refuses all calls. */
  lemma ClosedRefuses(a: AFs, c: nat, o: nat, n: nat, ch: byte, cap: Cap)
    requires IsOpen(a, c) && n > 0
    ensures AStep(a, DoClose(c), cap).1 == ROk(true) && !AStep(a, DoClose(c), cap).2
    ensures var a' := AStep(a, DoClose(c), cap).0;
            && AStep(a', DoGetc(c), cap) == (a', RGetc(SysErr), false) && AStep(a', DoPutc(c, ch), cap) == (a', ROk(false), false)
            && AStep(a', DoSeek(c, o), cap) == (a', ROk(false), false) && AStep(a', DoRead(c, n), cap) == (a', RRead(ReadErr), false)
            && AStep(a', DoTruncate(c), cap) == (a', ROk(false), false) && AStep(a', DoClose(c), cap) == (a', ROk(false), false)
  {
  }

  /** A file that is closed and opened again by its name is read from its beginning,
      with the contents it had. */
  lemma Reopen(a: AFs, c: nat, raw: seq<byte>, rw: int, n: nat, cap: Cap)
    requires AInv(a) && IsOpen(a, c) && CStr(raw) == a.files[a.open[c].f].name && n > 0 && FileOf(a, c) != []
    requires |CStr(raw)| < NAME_LEN
    ensures var a' := AStep(a, DoClose(c), cap).0;
            var d := AStep(a', DoOpen(raw, Mode(true, false, rw)), cap).1.d;
            && AStep(a', DoOpen(raw, Mode(true, false, rw)), cap).1.ROpen? && d.Dev? && d.c <= c
            && Results(AStep(a', DoOpen(raw, Mode(true, false, rw)), cap).0, [DoRead(d.c, n)], cap) ==
               [RRead(Got(FileOf(a, c)[..if n <= |FileOf(a, c)| then n else |FileOf(a, c)|]))]
  {
    hide CStr, NameOpen, AOpenFile;
    var a', name, f := AStep(a, DoClose(c), cap).0, CStr(raw), a.open[c].f;
    OnlyOpener(a, c);
    NotOpen(a', name, f);
    var op := DoOpen(raw, Mode(true, false, rw));
    OpenOutcome(a', raw, Mode(true, false, rw), cap);
    assert a'.files[f].name == name && a'.open[c].Closed?;
    var (b, r, stop) := AStep(a', op, cap);
    RunOne(b, DoRead(r.d.c, n), cap);
  }

  lemma OnlyOpener(a: AFs, c: nat)
    requires AInv(a) && IsOpen(a, c)
    ensures forall d :: 0 <= d < |a.open| && d != c && a.open[d].Open? ==> a.open[d].f != a.open[c].f
  {
  }

  lemma NotOpen(a: AFs, name: seq<byte>, f: nat)
    requires DistinctNames(a.files) && f < |a.files| && a.files[f].name == name
    requires forall d :: 0 <= d < |a.open| && a.open[d].Open? ==> a.open[d].f != f
    ensures !NameOpen(a, name)
  {
  }

  // ------------------------------------------------------------- all files

  /** Names are distinct, each file is open once at most, and positions lie in files. */
  ghost predicate AInv(a: AFs) {
    && DistinctNames(a.files) && |a.files| <= NUM_DIR_ENT
    && (forall c :: 0 <= c < |a.open| && a.open[c].Open? ==> a.open[c].f < |a.files| && a.open[c].pos <= |a.files[a.open[c].f].bytes|)
    && (forall c, d :: 0 <= c < d < |a.open| && a.open[c].Open? && a.open[d].Open? ==> a.open[c].f != a.open[d].f)
  }

  /** A call on entry c changes no other entry and, if c is open, no file but its own. */
  ghost predicate OnlyAt(a: AFs, a': AFs, c: nat) {
    && |a'.open| == |a.open| && |a'.files| == |a.files|
    && (forall d :: 0 <= d < |a.open| && d != c ==> a'.open[d] == a.open[d])
    && (forall f :: 0 <= f < |a.files| ==> a'.files[f].name == a.files[f].name)
    && (forall f :: 0 <= f < |a.files| && !(IsOpen(a, c) && a.open[c].f == f) ==> a'.files[f] == a.files[f])
    && (c < |a.open| && a'.open[c].Open? ==> a.open[c].Open? && a'.open[c].f == a.open[c].f)
  }

  lemma {:induction false} WriteOnlyAt(a: AFs, c: nat, b: seq<byte>, i: nat, cap: Cap)
    requires i <= |b|
    ensures OnlyAt(a, AWriteFrom(a, c, b, i, cap).0, c)
    decreases |b| - i
  {
    if i < |b| && !APanics(a, c, cap) && APutc(a, c, b[i]).1 {
      hide APanics;
      WriteOnlyAt(APutc(a, c, b[i]).0, c, b, i + 1, cap);
    }
  }

  lemma CallOnlyAt(a: AFs, op: Op, cap: Cap)
    requires !op.DoOpen?
    ensures OnlyAt(a, AStep(a, op, cap).0, op.c)
  {
    if op.DoWrite? && 0 <= op.count <= |op.buff| {
      hide AWriteFrom;
      WriteOnlyAt(a, op.c, op.buff[..op.count], 0, cap);
    }
  }

  lemma {:induction false} WritePos(a: AFs, c: nat, b: seq<byte>, i: nat, cap: Cap)
    requires i <= |b| && (IsOpen(a, c) ==> a.open[c].pos <= |FileOf(a, c)|)
    ensures var a' := AWriteFrom(a, c, b, i, cap).0;
            (IsOpen(a', c) ==> a'.open[c].pos <= |FileOf(a', c)|) && (c < |a'.open| && a'.open[c].Open? ==> c < |a.open| && a.open[c].Open?)
    decreases |b| - i
  {
    if i < |b| && !APanics(a, c, cap) && APutc(a, c, b[i]).1 {
      hide APanics;
      WritePos(APutc(a, c, b[i]).0, c, b, i + 1, cap);
    }
  }

  lemma PosIn(a: AFs, op: Op, cap: Cap)
    requires AInv(a) && !op.DoOpen?
    ensures var a' := AStep(a, op, cap).0; IsOpen(a', op.c) ==> a'.open[op.c].pos <= |FileOf(a', op.c)|
  {
    if op.DoWrite? && 0 <= op.count <= |op.buff| {
      hide AWriteFrom;
      WritePos(a, op.c, op.buff[..op.count], 0, cap);
    }
  }

  lemma StepAInv(a: AFs, op: Op, cap: Cap)
    requires AInv(a)
    ensures AInv(AStep(a, op, cap).0)
  {
    if op.DoOpen? {
      OpenAInv(a, op.name, op.mode, cap);
    } else {
      hide AStep;
      CallOnlyAt(a, op, cap);
      PosIn(a, op, cap);
      OnlyAtAInv(a, AStep(a, op, cap).0, op.c);
    }
  }

  lemma OnlyAtAInv(a: AFs, a': AFs, c: nat)
    requires AInv(a) && OnlyAt(a, a', c) && (IsOpen(a', c) ==> a'.open[c].pos <= |FileOf(a', c)|)
    ensures AInv(a')
  {
    forall d | 0 <= d < |a'.open| && a'.open[d].Open?
      ensures a'.open[d].f < |a'.files| && a'.open[d].pos <= |a'.files[a'.open[d].f].bytes|
    {
      if d != c && IsOpen(a, c) { assert a.open[d].f != a.open[c].f; }
    }
  }

  lemma OpenAInv(a: AFs, raw: seq<byte>, m: Mode, cap: Cap)
    requires AInv(a)
    ensures AInv(AStep(a, DoOpen(raw, m), cap).0)
  {
    hide CStr, AStep;
    OpenOutcome(a, raw, m, cap);
    var (a', r, stop) := AStep(a, DoOpen(raw, m), cap);
    if r.d.Dev? { FreshOpener(a, a', CStr(raw), r.d.c); }
  }

  lemma FreshOpener(a: AFs, a': AFs, name: seq<byte>, c: nat)
    requires AInv(a) && !NameOpen(a, name) && c < |a.open| == |a'.open| && IsOpen(a', c) && a'.open[c].pos == 0
    requires a'.files[a'.open[c].f].name == name && (forall d :: 0 <= d < |a.open| && d != c ==> a'.open[d] == a.open[d])
    requires a'.files == (if Exists(a, name) then a.files else a.files + [AFile(name, [])]) && |a'.files| <= NUM_DIR_ENT
    ensures AInv(a')
  {
    forall d | 0 <= d < |a.open| && d != c && a.open[d].Open? ensures a.open[d].f != a'.open[c].f {
      assert IsOpen(a, d);
    }
  }

  /** In any run the names of the files are distinct, every file is open once at
      most, and no position lies beyond the end of its file. */
  lemma {:induction false} RunAInv(a: AFs, ops: seq<Op>, cap: Cap)
    requires AInv(a)
    ensures AInv(ARun(a, ops, cap).0)
    decreases |ops|
  {
    hide AInv, AStep;
    if ops != [] {
      StepAInv(a, ops[0], cap);
      RunAInv(AStep(a, ops[0], cap).0, ops[1..], cap);
    }
  }

  // ---------------------------------------------------- files not written to

  /** The call may change file f. */
  predicate Writes(a: AFs, op: Op, f: nat) {
    (op.DoPutc? || op.DoWrite? || op.DoTruncate?) && IsOpen(a, op.c) && a.open[op.c].f == f
  }

  ghost predicate Unwritten(a: AFs, ops: seq<Op>, cap: Cap, f: nat)
    decreases |ops|
  {
    ops == [] || (!Writes(a, ops[0], f) && Unwritten(AStep(a, ops[0], cap).0, ops[1..], cap, f))
  }

  lemma StepKeepsFile(a: AFs, op: Op, cap: Cap, f: nat)
    requires f < |a.files| && !Writes(a, op, f)
    ensures f < |AStep(a, op, cap).0.files| && AStep(a, op, cap).0.files[f] == a.files[f]
  {
    hide CStr, AWrite;
    if op.DoOpen? { OpenOutcome(a, op.name, op.mode, cap); } else { CallOnlyAt(a, op, cap); }
  }

  lemma {:induction false} RunKeepsFile(a: AFs, ops: seq<Op>, cap: Cap, f: nat)
    requires f < |a.files| && Unwritten(a, ops, cap, f)
    ensures f < |ARun(a, ops, cap).0.files| && ARun(a, ops, cap).0.files[f] == a.files[f]
    decreases |ops|
  {
    hide AStep, Writes;
    if ops != [] {
      StepKeepsFile(a, ops[0], cap, f);
      RunKeepsFile(AStep(a, ops[0], cap).0, ops[1..], cap, f);
    }
  }

  /** However many calls later and through whichever entry: what is read from a file
      at a position is what the file had there when it was last written. */
  lemma ReadLater(a: AFs, ops: seq<Op>, c: nat, f: nat, o: nat, n: nat, cap: Cap)
    requires f < |a.files| && Unwritten(a, ops, cap, f) && o < o + n <= |a.files[f].bytes|
    requires IsOpen(ARun(a, ops, cap).0, c) && ARun(a, ops, cap).0.open[c].f == f
    ensures Results(ARun(a, ops, cap).0, [DoSeek(c, o), DoRead(c, n)], cap) == [ROk(true), RRead(Got(a.files[f].bytes[o..o + n]))]
  {
    hide ARun, AStep, Unwritten;
    RunKeepsFile(a, ops, cap, f);
    SeekRead(ARun(a, ops, cap).0, c, o, n, cap);
  }

  // ------------------------------------------------------- of every disk

  /** The file system of every disk that satisfies the invariant is of this kind. */
  lemma AbsAInv(s: Fs)
    requires InvP(s, NONE)
    ensures AInv(Abs(s))
  {
    FileCount(s);
    NamesApart(s);
    hide InvP, Abs, IsOpen, FileOf;
    var a := Abs(s);
    TabLen(s);
    forall c | 0 <= c < |a.open| && a.open[c].Open?
      ensures a.open[c].f < |a.files| && a.open[c].pos <= |a.files[a.open[c].f].bytes|
    {
      EntryIn(s, c);
    }
    forall c, d | 0 <= c < d < |a.open| && a.open[c].Open? && a.open[d].Open? ensures a.open[c].f != a.open[d].f {
      EntriesApart(s, c, d);
    }
  }

  lemma NamesApart(s: Fs)
    requires InvP(s, NONE)
    ensures DistinctNames(Abs(s).files) && |Abs(s).files| <= NUM_DIR_ENT
  {
    FileCount(s);
    hide IStack, DStack, CoherentI, CoherentD, DirCoherent, AllFit, AreaOK, FilesOK, CStr, TabOK, OneOpener, Bytes;
  }

  lemma EntryIn(s: Fs, c: nat)
    requires InvP(s, NONE) && c < |Abs(s).open| == |s.tab| && Abs(s).open[c].Open?
    ensures Abs(s).open[c].f < |Abs(s).files| && Abs(s).open[c].pos <= |Abs(s).files[Abs(s).open[c].f].bytes|
  {
    AbsOpen(s, c, NONE);
    hide InvP, AbsFiles, Bytes;
  }

  lemma EntriesApart(s: Fs, c: nat, d: nat)
    requires InvP(s, NONE) && c < d < |Abs(s).open| == |s.tab| && Abs(s).open[c].Open? && Abs(s).open[d].Open?
    ensures Abs(s).open[c].f != Abs(s).open[d].f
  {
    hide IStack, DStack, CoherentI, CoherentD, DirCoherent, AllFit, AreaOK, FilesOK, CStr, TabOK, NamesOK, AbsFiles, Shape;
  }
}
