// File names as null-terminated strings: the length check, comparison and copy
// loops of lfsopen, and the searches over the open-file table and directory.
module LfsNames {
  import opened LfsLayout
  import opened LfsModel
  import opened LfsAbs

  lemma {:induction false} CStrIs(s: seq<byte>, n: nat)
    requires n <= |s| && (n < |s| ==> s[n] == 0) && forall i :: 0 <= i < n ==> s[i] != 0
    ensures CStr(s) == s[..n]
    decreases n
  {
    if n > 0 {
      CStrIs(s[1..], n - 1);
      assert s[..n] == [s[0]] + s[1..][..n - 1];
    }
  }

  /** The length check of lfsopen: the index of the null, or 16 if there is none so far. */
  method NameLength(name: seq<byte>) returns (i: nat)
    requires 0 in name
    ensures if i < NAME_LEN then i == |CStr(name)| && i < |name| && name[i] == 0 && CStr(name) == name[..i]
            else |CStr(name)| >= NAME_LEN
    ensures i <= |name| && forall k :: 0 <= k < i ==> name[k] != 0
  {
    i := 0;
    while i < NAME_LEN
      invariant i <= NAME_LEN && i <= |name| && forall k :: 0 <= k < i ==> name[k] != 0
    {
      if name[i] == 0 {
        CStrIs(name, i);
        return;
      }
      i := i + 1;
    }
    LongName(name, i);
  }

  lemma {:induction false} LongName(s: seq<byte>, n: nat)
    requires n <= |s| && forall i :: 0 <= i < n ==> s[i] != 0
    ensures |CStr(s)| >= n
    decreases n
  {
    if n > 0 { LongName(s[1..], n - 1); }
  }

  /** The comparison loops of lfsopen. */
  method SameName(nam: seq<byte>, n: nat, cmp: seq<byte>) returns (same: bool)
    requires n < NAME_LEN == |cmp| && n < |nam| && nam[n] == 0 && forall k :: 0 <= k < n ==> nam[k] != 0
    ensures same <==> CStr(cmp) == nam[..n]
  {
    var i := 0;
    while nam[i] != 0
      invariant i <= n && nam[..i] == cmp[..i]
      decreases n - i
    {
      if nam[i] != cmp[i] {
        break;
      }
      i := i + 1;
    }
    same := nam[i] == 0 && cmp[i] == 0;
    if same {
      CStrIs(cmp, n);
    } else {
      Differs(cmp, nam[..n], i);
    }
  }

  lemma {:induction false} Differs(cmp: seq<byte>, nam: seq<byte>, i: nat)
    requires i <= |nam| && i < |cmp| && cmp[..i] == nam[..i] && forall k :: 0 <= k < |nam| ==> nam[k] != 0
    requires if i < |nam| then cmp[i] != nam[i] else cmp[i] != 0
    ensures CStr(cmp) != nam
    decreases i
  {
    if i > 0 {
      assert cmp[0] == cmp[..i][0] == nam[..i][0] == nam[0];
      assert cmp[1..][..i - 1] == cmp[..i][1..] && nam[1..][..i - 1] == nam[..i][1..];
      Differs(cmp[1..], nam[1..], i - 1);
    }
  }

  /** The copy loops of lfsopen. */
  method CopyName(to: seq<byte>, from: seq<byte>, n: nat) returns (r: seq<byte>)
    requires n < NAME_LEN == |to| && n < |from| && from[n] == 0 && forall k :: 0 <= k < n ==> from[k] != 0
    ensures |r| == NAME_LEN && CStr(r) == from[..n]
  {
    r := to;
    var i := 0;
    r := r[i := from[i]];
    while from[i] != 0
      invariant i <= n && |r| == NAME_LEN && r[..i + 1] == from[..i + 1]
      decreases n - i
    {
      i := i + 1;
      r := r[i := from[i]];
    }
    assert r[n] == r[..n + 1][n] == 0;
    assert forall k :: 0 <= k < n ==> r[k] == r[..n + 1][k];
    CStrIs(r, n);
    assert r[..n] == from[..n];
  }

  // ------------------------------------------------------------ searching

  /** The file opened in entry c, seen through the control blocks. */
  lemma OpenName(s: Fs, c: nat)
    requires InvP(s, NONE) && c < |s.tab| && s.tab[c].used
    ensures IsOpen(Abs(s), c) && Abs(s).files[Abs(s).open[c].f].name == CStr(s.tab[c].name)
  {
    AbsOpen(s, c, NONE);
    OpenNameOf(s, c);
    hide InvP;
  }

  lemma OpenNameOf(s: Fs, c: nat)
    requires InvP(s, NONE) && c < |s.tab| && s.tab[c].used
    ensures s.tab[c].fidx < |s.da.used| <= |s.dir.files| && CStr(s.tab[c].name) == CStr(s.dir.files[s.tab[c].fidx].name)
  {
    hide IStack, DStack, CoherentI, CoherentD, DirCoherent, NamesOK, AllFit, DirFits, AreaOK, FilesOK, CStr;
    assert OpenAt(s.tab[c], s.dir.files, s.ibs, s.dat, s.ia, s.da);
  }

  /** The searches of lfsopen found no open file of this name. */
  lemma NotOpen(s: Fs, name: seq<byte>)
    requires InvP(s, NONE)
    requires forall c :: 0 <= c < |s.tab| && s.tab[c].used ==> CStr(s.tab[c].name) != name
    ensures !NameOpen(Abs(s), name)
  {
    hide InvP, CStr;
    forall c | 0 <= c < |Abs(s).open| && IsOpen(Abs(s), c) ensures Abs(s).files[Abs(s).open[c].f].name != name {
      OpenName(s, c);
    }
  }

  lemma IsNameOpen(s: Fs, name: seq<byte>, c: nat)
    requires InvP(s, NONE) && c < |s.tab| && s.tab[c].used && CStr(s.tab[c].name) == name
    ensures NameOpen(Abs(s), name)
  {
    hide InvP, CStr;
    OpenName(s, c);
    TabLen(s);
  }

  lemma FirstFree(s: Fs, k: nat)
    requires k <= |s.tab| && (k < |s.tab| ==> !s.tab[k].used) && forall c :: 0 <= c < k ==> s.tab[c].used
    ensures FirstClosed(Abs(s).open) == k
  {
    var open := Abs(s).open;
    assert forall c :: 0 <= c < |open| ==> open[c] == AbsLfl(s.tab[c]);
  }

  lemma FoundAt(s: Fs, name: seq<byte>, f: nat)
    requires f <= |s.da.used| <= |s.dir.files|
    requires f < |s.da.used| ==> CStr(s.dir.files[f].name) == name
    requires forall g :: 0 <= g < f ==> CStr(s.dir.files[g].name) != name
    ensures FindName(Abs(s).files, name) == f
  {
    hide CStr, Bytes;
    var files := Abs(s).files;
    assert forall g :: 0 <= g < |files| ==> files[g].name == CStr(s.dir.files[g].name);
  }

  /** A file that is not open under its name has no opener. */
  lemma NoOpener(s: Fs, f: nat)
    requires InvP(s, NONE) && f < s.dir.nfiles <= |s.dir.files|
    requires forall c :: 0 <= c < |s.tab| && s.tab[c].used ==> CStr(s.tab[c].name) != CStr(s.dir.files[f].name)
    ensures forall c :: 0 <= c < |s.tab| && s.tab[c].used ==> s.tab[c].fidx != f
  {
    hide InvP, CStr;
    forall c | 0 <= c < |s.tab| && s.tab[c].used ensures s.tab[c].fidx != f {
      OpenNameOf(s, c);
    }
  }

  lemma NameLen(s: Fs, c: nat)
    requires InvP(s, NONE) && c < |s.tab|
    ensures |s.tab[c].name| == NAME_LEN
  {
    hide IStack, DStack, CoherentI, CoherentD, DirCoherent, NamesOK, AllFit, DirFits, AreaOK, FilesOK, CStr;
    assert OpenAt(s.tab[c], s.dir.files, s.ibs, s.dat, s.ia, s.da);
  }

  lemma EntryLen(s: Fs, f: nat)
    requires InvP(s, NONE) && f < |s.dir.files|
    ensures |s.dir.files[f].name| == NAME_LEN && |s.dir.files| == NUM_DIR_ENT
  {
    hide IStack, DStack, CoherentI, CoherentD, DirCoherent, NamesOK, AllFit, AreaOK, FilesOK, CStr, TabOK;
    assert EntryFits(s.dir.files[f]);
  }

  lemma FileCount(s: Fs)
    requires InvP(s, NONE)
    ensures |Abs(s).files| == s.dir.nfiles && |s.dir.files| == NUM_DIR_ENT
  {
    hide IStack, DStack, CoherentI, CoherentD, DirCoherent, NamesOK, AllFit, AreaOK, FilesOK, CStr, TabOK;
  }
}
