// The library quicksort: a three-way partition that keeps a growing run of
// elements equal to the pivot in the middle, on an array of bytes that holds
// elements of any size, for any comparison function that is a total preorder.
module Qsort {
  import opened Bytes

  type Elem = seq<byte>

  // ------------------------------------------------------------ comparison

  /** A total preorder in the convention of C: negative, zero or positive. */
  ghost predicate Preorder(cmp: (Elem, Elem) -> int) {
    && (forall x, y :: cmp(x, y) < 0 <==> cmp(y, x) > 0)
    && (forall x, y, z :: cmp(x, y) <= 0 && cmp(y, z) <= 0 ==> cmp(x, z) <= 0)
  }

  function Sign(n: int): int { if n < 0 then -1 else if n == 0 then 0 else 1 }

  /** What compares equal to the pivot compares as the pivot does. */
  lemma LikePivot(cmp: (Elem, Elem) -> int, x: Elem, e: Elem, pv: Elem)
    requires Preorder(cmp) && cmp(e, pv) == 0
    ensures Sign(cmp(x, e)) == Sign(cmp(x, pv)) && Sign(cmp(e, x)) == -Sign(cmp(x, pv))
  {
    assert cmp(pv, e) == 0;
  }

  ghost predicate Sorted(E: seq<Elem>, cmp: (Elem, Elem) -> int, lo: int, hi: int)
    requires 0 <= lo <= hi <= |E|
  {
    forall i, j :: lo <= i < j < hi ==> cmp(E[i], E[j]) <= 0
  }

  // ---------------------------------------------------------- permutations

  function Swap(E: seq<Elem>, i: int, j: int): (r: seq<Elem>)
    requires 0 <= i < |E| && 0 <= j < |E|
    ensures |r| == |E|
  {
    E[i := E[j]][j := E[i]]
  }

  /** What qstexc does: i gets k, k gets j, j gets i. */
  function Rotate(E: seq<Elem>, i: int, j: int, k: int): (r: seq<Elem>)
    requires 0 <= i < |E| && 0 <= j < |E| && 0 <= k < |E|
    ensures |r| == |E|
  {
    var E1 := E[i := E[k]];
    var E2 := E1[k := E1[j]];
    E2[j := E[i]]
  }

  /** The elements from lo to hi - 1 are permuted, the others stay. */
  ghost predicate Perm(E: seq<Elem>, E': seq<Elem>, lo: int, hi: int) {
    && 0 <= lo <= hi <= |E| == |E'|
    && multiset(E) == multiset(E')
    && (forall k :: 0 <= k < |E| && !(lo <= k < hi) ==> E'[k] == E[k])
  }

  lemma SwapPerm(E: seq<Elem>, i: int, j: int, lo: int, hi: int)
    requires 0 <= lo <= i < hi <= |E| && lo <= j < hi
    ensures Perm(E, Swap(E, i, j), lo, hi)
  {
  }

  lemma RotatePerm(E: seq<Elem>, i: int, j: int, k: int, lo: int, hi: int)
    requires 0 <= lo <= i < hi <= |E| && lo <= j < hi && lo <= k < hi && i != j && i != k
    ensures Perm(E, Rotate(E, i, j, k), lo, hi)
  {
    var E1 := E[i := E[k]];
    var E2 := E1[k := E1[j]];
    assert E2[j] == E[j];
  }

  lemma PermTrans(E: seq<Elem>, E1: seq<Elem>, E2: seq<Elem>, lo: int, hi: int)
    requires Perm(E, E1, lo, hi) && Perm(E1, E2, lo, hi)
    ensures Perm(E, E2, lo, hi)
  {
  }

  lemma PermWiden(E: seq<Elem>, E': seq<Elem>, lo: int, hi: int, lo': int, hi': int)
    requires Perm(E, E', lo, hi) && 0 <= lo' <= lo && hi <= hi' <= |E|
    ensures Perm(E, E', lo', hi')
  {
  }

  /** What lands in the permuted range comes from it. */
  lemma PermFrom(E: seq<Elem>, E': seq<Elem>, lo: int, hi: int, k: int) returns (j: int)
    requires Perm(E, E', lo, hi) && lo <= k < hi
    ensures lo <= j < hi && E[j] == E'[k]
  {
    SplitThree(E, lo, hi);
    SplitThree(E', lo, hi);
    assert E'[..lo] == E[..lo] && E'[hi..] == E[hi..];
    var m, m' := E[lo..hi], E'[lo..hi];
    Cancel(multiset(E[..lo]), multiset(m), multiset(m'), multiset(E[hi..]));
    assert m'[k - lo] in multiset(m');
    var t :| 0 <= t < |m| && m[t] == E'[k];
    return lo + t;
  }

  lemma Cancel(a: multiset<Elem>, m: multiset<Elem>, m': multiset<Elem>, c: multiset<Elem>)
    requires a + m + c == a + m' + c
    ensures m == m'
  {
    forall x: Elem ensures m[x] == m'[x] { assert (a + m + c)[x] == (a + m' + c)[x]; }
  }

  lemma SplitThree(E: seq<Elem>, lo: int, hi: int)
    requires 0 <= lo <= hi <= |E|
    ensures multiset(E) == multiset(E[..lo]) + multiset(E[lo..hi]) + multiset(E[hi..])
  {
    assert E == E[..lo] + E[lo..hi] + E[hi..];
  }

  // ----------------------------------------------------- bytes and elements

  /** The offset of element k. */
  function Off(k: int, es: int): int { k * es }

  lemma OffNext(k: int, es: int)
    ensures Off(k + 1, es) == Off(k, es) + es && Off(k - 1, es) == Off(k, es) - es
  {
  }

  lemma OffLess(j: int, k: int, es: int)
    requires j < k && es > 0
    ensures Off(j, es) + es <= Off(k, es)
  {
    OffNext(j, es);
    MulMono(j + 1, k, es);
  }

  lemma MulMono(a: int, b: int, es: int)
    requires a <= b && es > 0
    ensures a * es <= b * es
  {
    assert (b - a) * es >= 0;
  }

  lemma OffIff(j: int, k: int, es: int)
    requires es > 0
    ensures Off(j, es) < Off(k, es) <==> j < k
    ensures Off(j, es) == Off(k, es) <==> j == k
  {
    hide Off;
    if j < k { OffLess(j, k, es); } else if k < j { OffLess(k, j, es); }
  }

  function ElemAt(s: seq<byte>, es: int, k: int): Elem
    requires es > 0 && 0 <= Off(k, es) && Off(k, es) + es <= |s|
  {
    s[Off(k, es)..Off(k, es) + es]
  }

  ghost predicate Holds(s: seq<byte>, es: int, E: seq<Elem>) {
    && es > 0 && |s| == Off(|E|, es)
    && (forall k :: 0 <= k < |E| ==> InRange(s, es, k) && ElemAt(s, es, k) == E[k])
  }

  ghost predicate InRange(s: seq<byte>, es: int, k: int) { es > 0 && 0 <= Off(k, es) && Off(k, es) + es <= |s| }

  lemma RangeOK(n: int, es: int, k: int)
    requires es > 0 && 0 <= k < n
    ensures 0 <= Off(k, es) && Off(k, es) + es <= Off(n, es)
  {
    OffLess(k, n, es);
    MulMono(0, k, es);
  }

  /** The bytes of element i, replaced. */
  function PutAt(s: seq<byte>, o: int, e: Elem): (r: seq<byte>)
    requires 0 <= o && o + |e| <= |s|
    ensures |r| == |s|
  {
    s[..o] + e + s[o + |e|..]
  }

  /** Replacing one element's bytes replaces that element. */
  lemma PutHolds(s: seq<byte>, es: int, E: seq<Elem>, i: int, e: Elem)
    requires Holds(s, es, E) && 0 <= i < |E| && |e| == es && InRange(s, es, i)
    ensures Holds(PutAt(s, Off(i, es), e), es, E[i := e])
  {
    hide Off;
    var r := PutAt(s, Off(i, es), e);
    forall k | 0 <= k < |E| ensures InRange(r, es, k) && ElemAt(r, es, k) == E[i := e][k] {
      assert InRange(s, es, k) && ElemAt(s, es, k) == E[k];
      if k < i {
        OffLess(k, i, es);
      } else if k > i {
        OffLess(i, k, es);
      }
    }
  }

  // ------------------------------------------------------ exchanging bytes

  /** The t bytes at i in r are those at j in s. */
  ghost predicate Copied(s: seq<byte>, r: seq<byte>, i: int, j: int, t: int) {
    && 0 <= i && 0 <= j && i + t <= |r| && j + t <= |s|
    && forall x :: i <= x < i + t ==> r[x] == s[j + (x - i)]
  }

  /** The first t bytes have been exchanged, and no others. */
  ghost predicate Exced(s: seq<byte>, r: seq<byte>, i: int, j: int, t: int) {
    && |r| == |s| && Copied(s, r, i, j, t) && Copied(s, r, j, i, t)
    && forall x :: 0 <= x < |s| && !(i <= x < i + t) && !(j <= x < j + t) ==> r[x] == s[x]
  }

  lemma ExcNext(s: seq<byte>, r: seq<byte>, i: int, j: int, t: int, es: int)
    requires Exced(s, r, i, j, t) && 0 <= t < es && i + es <= |s| && j + es <= |s| && (i == j || i + es <= j || j + es <= i)
    requires 0 <= i && 0 <= j
    ensures Exced(s, r[i + t := r[j + t]][j + t := r[i + t]], i, j, t + 1)
  {
  }

  ghost predicate Texced(s: seq<byte>, r: seq<byte>, i: int, j: int, k: int, t: int) {
    && |r| == |s| && Copied(s, r, i, k, t) && Copied(s, r, j, i, t) && (j != k ==> Copied(s, r, k, j, t))
    && forall x :: 0 <= x < |s| && !(i <= x < i + t) && !(j <= x < j + t) && !(k <= x < k + t) ==> r[x] == s[x]
  }

  lemma TexcNext(s: seq<byte>, r: seq<byte>, i: int, j: int, k: int, t: int, es: int)
    requires Texced(s, r, i, j, k, t) && 0 <= t < es && i + es <= |s| && j + es <= |s| && k + es <= |s|
    requires (i + es <= j || j + es <= i) && (i + es <= k || k + es <= i) && (j == k || j + es <= k || k + es <= j)
    requires 0 <= i && 0 <= j && 0 <= k
    ensures Texced(s, r[i + t := r[k + t]][k + t := r[j + t]][j + t := r[i + t]], i, j, k, t + 1)
  {
    var r' := r[i + t := r[k + t]][k + t := r[j + t]][j + t := r[i + t]];
    hide Copied;
    Untouched(s, r, i, j, k, t);
    CopyOn(s, r, r', i, k, t, es);
    CopyOn(s, r, r', j, i, t, es);
    if j != k { CopyOn(s, r, r', k, j, t, es); }
  }

  /** The bytes that the next round moves have not been moved yet. */
  lemma Untouched(s: seq<byte>, r: seq<byte>, i: int, j: int, k: int, t: int)
    requires Texced(s, r, i, j, k, t)
    ensures forall x :: 0 <= x < |s| && !(i <= x < i + t) && !(j <= x < j + t) && !(k <= x < k + t) ==> r[x] == s[x]
  {
  }

  lemma CopyOn(s: seq<byte>, r: seq<byte>, r': seq<byte>, a: int, b: int, t: int, es: int)
    requires Copied(s, r, a, b, t) && 0 <= t < es && a + es <= |r| == |r'| == |s| && b + es <= |s|
    requires r'[a + t] == s[b + t] && forall x :: a <= x < a + t ==> r'[x] == r[x]
    ensures Copied(s, r', a, b, t + 1)
  {
  }

  lemma NoneYet(s: seq<byte>, i: int, j: int, k: int)
    requires 0 <= i <= |s| && 0 <= j <= |s| && 0 <= k <= |s|
    ensures Exced(s, s, i, j, 0) && Texced(s, s, i, j, k, 0)
  {
  }

  /** qsexc: exchange two elements, or one with itself. */
  method QsExc(m: array<byte>, i: int, j: int, es: int)
    requires es > 0 && 0 <= i && i + es <= m.Length && 0 <= j && j + es <= m.Length
    requires i == j || i + es <= j || j + es <= i
    modifies m
    ensures m[..] == PutAt(PutAt(old(m[..]), i, old(m[j..j + es])), j, old(m[i..i + es]))
  {
    hide Copied, PutAt;
    ghost var s := m[..];
    NoneYet(s, i, j, j);
    var n, t := es, 0;
    while n > 0
      invariant 0 <= t && t + n == es && Exced(s, m[..], i, j, t)
    {
      ExcNext(s, m[..], i, j, t, es);
      ghost var r := m[..];
      var c := m[i + t];
      m[i + t] := m[j + t];
      m[j + t] := c;
      assert m[..] == r[i + t := r[j + t]][j + t := r[i + t]];
      t := t + 1;
      n := n - 1;
    }
    ExcBytes(s, m[..], i, j, es);
    assert s[i..i + es] == old(m[i..i + es]) && s[j..j + es] == old(m[j..j + es]);
  }

  lemma ExcBytes(s: seq<byte>, r: seq<byte>, i: int, j: int, es: int)
    requires es > 0 && 0 <= i && i + es <= |s| == |r| && 0 <= j && j + es <= |s| && (i == j || i + es <= j || j + es <= i)
    requires Exced(s, r, i, j, es)
    ensures r == PutAt(PutAt(s, i, s[j..j + es]), j, s[i..i + es])
  {
    hide PutAt;
    PutBytes(s, i, s[j..j + es]);
    PutBytes(PutAt(s, i, s[j..j + es]), j, s[i..i + es]);
  }

  lemma PutBytes(s: seq<byte>, o: int, e: Elem)
    requires 0 <= o && o + |e| <= |s|
    ensures forall x :: 0 <= x < |s| ==> PutAt(s, o, e)[x] == if o <= x < o + |e| then e[x - o] else s[x]
  {
  }

  /** qstexc: i gets k, k gets j, j gets i; j and k may be the same. */
  method QsTexc(m: array<byte>, i: int, j: int, k: int, es: int)
    requires es > 0 && 0 <= i && i + es <= m.Length && 0 <= j && j + es <= m.Length && 0 <= k && k + es <= m.Length
    requires (i + es <= j || j + es <= i) && (i + es <= k || k + es <= i) && (j == k || j + es <= k || k + es <= j)
    modifies m
    ensures m[..] == PutAt(PutAt(PutAt(old(m[..]), i, old(m[k..k + es])), k, old(m[j..j + es])), j, old(m[i..i + es]))
  {
    hide Copied, PutAt;
    ghost var s := m[..];
    NoneYet(s, i, j, k);
    var n, t := es, 0;
    while n > 0
      invariant 0 <= t && t + n == es && Texced(s, m[..], i, j, k, t)
    {
      TexcNext(s, m[..], i, j, k, t, es);
      ghost var r := m[..];
      var c := m[i + t];
      m[i + t] := m[k + t];
      m[k + t] := m[j + t];
      m[j + t] := c;
      assert m[..] == r[i + t := r[k + t]][k + t := r[j + t]][j + t := r[i + t]];
      t := t + 1;
      n := n - 1;
    }
    TexcBytes(s, m[..], i, j, k, es);
    assert s[i..i + es] == old(m[i..i + es]) && s[j..j + es] == old(m[j..j + es]) && s[k..k + es] == old(m[k..k + es]);
  }

  lemma TexcBytes(s: seq<byte>, r: seq<byte>, i: int, j: int, k: int, es: int)
    requires es > 0 && 0 <= i && i + es <= |s| == |r| && 0 <= j && j + es <= |s| && 0 <= k && k + es <= |s|
    requires (i + es <= j || j + es <= i) && (i + es <= k || k + es <= i) && (j == k || j + es <= k || k + es <= j)
    requires Texced(s, r, i, j, k, es)
    ensures r == PutAt(PutAt(PutAt(s, i, s[k..k + es]), k, s[j..j + es]), j, s[i..i + es])
  {
    hide PutAt;
    var s1 := PutAt(s, i, s[k..k + es]);
    var s2 := PutAt(s1, k, s[j..j + es]);
    PutBytes(s, i, s[k..k + es]);
    PutBytes(s1, k, s[j..j + es]);
    PutBytes(s2, j, s[i..i + es]);
  }

  // ----------------------------------------- the same, on whole elements

  lemma ElemIs(s: seq<byte>, es: int, E: seq<Elem>, k: int)
    requires Holds(s, es, E) && 0 <= k < |E|
    ensures es > 0 && 0 <= Off(k, es) && Off(k, es) + es <= |s| && s[Off(k, es)..Off(k, es) + es] == E[k] && |E[k]| == es
  {
    assert InRange(s, es, k);
  }

  lemma Apart(i: int, j: int, es: int)
    requires es > 0
    ensures i == j || Off(i, es) + es <= Off(j, es) || Off(j, es) + es <= Off(i, es)
  {
    if i < j { OffLess(i, j, es); } else if j < i { OffLess(j, i, es); }
  }

  method Exchange(m: array<byte>, i: int, j: int, es: int, ghost E: seq<Elem>, ghost ie: int, ghost je: int) returns (ghost E': seq<Elem>)
    requires Holds(m[..], es, E) && 0 <= ie < |E| && 0 <= je < |E| && i == Off(ie, es) && j == Off(je, es)
    modifies m
    ensures E' == Swap(E, ie, je) && Holds(m[..], es, E')
  {
    hide Off, Holds, PutAt;
    ghost var s := m[..];
    ElemIs(s, es, E, ie);
    ElemIs(s, es, E, je);
    Apart(ie, je, es);
    InRangeIs(s, es, E, ie);
    PutHolds(s, es, E, ie, E[je]);
    InRangeIs(PutAt(s, i, E[je]), es, E[ie := E[je]], je);
    PutHolds(PutAt(s, i, E[je]), es, E[ie := E[je]], je, E[ie]);
    SliceIs(m, i, es, s);
    SliceIs(m, j, es, s);
    QsExc(m, i, j, es);
    E' := Swap(E, ie, je);
  }

  lemma InRangeIs(s: seq<byte>, es: int, E: seq<Elem>, k: int)
    requires Holds(s, es, E) && 0 <= k < |E|
    ensures InRange(s, es, k)
  {
  }

  lemma SliceIs(m: array<byte>, o: int, es: int, s: seq<byte>)
    requires s == m[..] && es > 0 && 0 <= o && o + es <= m.Length
    ensures m[o..o + es] == s[o..o + es]
  {
  }

  method ExchangeThree(m: array<byte>, i: int, j: int, k: int, es: int, ghost E: seq<Elem>, ghost ie: int, ghost je: int, ghost ke: int)
    returns (ghost E': seq<Elem>)
    requires Holds(m[..], es, E) && 0 <= ie < |E| && 0 <= je < |E| && 0 <= ke < |E| && ie != je && ie != ke
    requires i == Off(ie, es) && j == Off(je, es) && k == Off(ke, es)
    modifies m
    ensures E' == Rotate(E, ie, je, ke) && Holds(m[..], es, E')
  {
    hide Off, Holds, PutAt;
    ghost var s := m[..];
    ElemIs(s, es, E, ie);
    ElemIs(s, es, E, je);
    ElemIs(s, es, E, ke);
    Apart(ie, je, es);
    Apart(ie, ke, es);
    Apart(je, ke, es);
    ghost var E1 := E[ie := E[ke]];
    ghost var s1 := PutAt(s, i, E[ke]);
    InRangeIs(s, es, E, ie);
    PutHolds(s, es, E, ie, E[ke]);
    InRangeIs(s1, es, E1, ke);
    PutHolds(s1, es, E1, ke, E[je]);
    ghost var E2 := E1[ke := E[je]];
    ghost var s2 := PutAt(s1, k, E[je]);
    InRangeIs(s2, es, E2, je);
    PutHolds(s2, es, E2, je, E[ie]);
    SliceIs(m, i, es, s);
    SliceIs(m, j, es, s);
    SliceIs(m, k, es, s);
    QsTexc(m, i, j, k, es);
    E' := Rotate(E, ie, je, ke);
  }

  // ---------------------------------------------------------- the partition

  /** Smaller elements below I, unknown ones up to LP, equal ones up to HP,
      unknown ones up to J, larger ones above. */
  ghost predicate Part(E: seq<Elem>, cmp: (Elem, Elem) -> int, pv: Elem, A: int, L: int, I: int, LP: int, HP: int, J: int) {
    && 0 <= A <= I <= LP <= HP <= J < L <= |E|
    && (forall k :: A <= k < I ==> cmp(E[k], pv) < 0)
    && (forall k :: LP <= k <= HP ==> cmp(E[k], pv) == 0)
    && (forall k :: J < k < L ==> cmp(E[k], pv) > 0)
  }

  ghost predicate PartPerm(E0: seq<Elem>, E: seq<Elem>, cmp: (Elem, Elem) -> int, pv: Elem,
                           A: int, L: int, I: int, LP: int, HP: int, J: int)
  {
    Part(E, cmp, pv, A, L, I, LP, HP, J) && Perm(E0, E, A, L)
  }

  lemma PartStart(E: seq<Elem>, cmp: (Elem, Elem) -> int, A: int, L: int)
    requires 0 <= A < L - 1 && L <= |E| && Preorder(cmp)
    ensures var M := A + (L - A) / 2; A <= M < L && PartPerm(E, E, cmp, E[M], A, L, A, M, M, L - 1)
  {
    var M := A + (L - A) / 2;
    Reflexive(cmp, E[M]);
    hide Preorder;
  }

  lemma Reflexive(cmp: (Elem, Elem) -> int, x: Elem)
    requires Preorder(cmp)
    ensures cmp(x, x) == 0
  {
  }

  /** An element on the left compares with the pivot as with its copy at LP. */
  lemma CompareLeft(E: seq<Elem>, cmp: (Elem, Elem) -> int, pv: Elem, A: int, L: int, I: int, LP: int, HP: int, J: int)
    requires Part(E, cmp, pv, A, L, I, LP, HP, J) && Preorder(cmp)
    ensures (cmp(E[I], E[LP]) == 0 <==> cmp(E[I], pv) == 0) && (cmp(E[I], E[LP]) < 0 <==> cmp(E[I], pv) < 0)
    ensures (cmp(E[HP], E[J]) == 0 <==> cmp(E[J], pv) == 0) && (cmp(E[HP], E[J]) > 0 <==> cmp(E[J], pv) < 0)
  {
    hide Preorder;
    LikePivot(cmp, E[I], E[LP], pv);
    LikePivot(cmp, E[J], E[HP], pv);
  }

  lemma EqualLeft(E0: seq<Elem>, E: seq<Elem>, cmp: (Elem, Elem) -> int, pv: Elem, A: int, L: int, I: int, LP: int, HP: int, J: int)
    requires PartPerm(E0, E, cmp, pv, A, L, I, LP, HP, J) && I < LP && cmp(E[I], pv) == 0
    ensures PartPerm(E0, Swap(E, I, LP - 1), cmp, pv, A, L, I, LP - 1, HP, J)
  {
    SwapPerm(E, I, LP - 1, A, L);
    PermTrans(E0, E, Swap(E, I, LP - 1), A, L);
    hide Perm;
  }

  lemma SmallerLeft(E0: seq<Elem>, E: seq<Elem>, cmp: (Elem, Elem) -> int, pv: Elem, A: int, L: int, I: int, LP: int, HP: int, J: int)
    requires PartPerm(E0, E, cmp, pv, A, L, I, LP, HP, J) && I < LP && cmp(E[I], pv) < 0
    ensures PartPerm(E0, E, cmp, pv, A, L, I + 1, LP, HP, J)
  {
    hide Perm;
  }

  lemma EqualRight(E0: seq<Elem>, E: seq<Elem>, cmp: (Elem, Elem) -> int, pv: Elem, A: int, L: int, I: int, LP: int, HP: int, J: int)
    requires PartPerm(E0, E, cmp, pv, A, L, I, LP, HP, J) && HP < J && cmp(E[J], pv) == 0
    ensures PartPerm(E0, Swap(E, HP + 1, J), cmp, pv, A, L, I, LP, HP + 1, J) && (I < LP ==> Swap(E, HP + 1, J)[I] == E[I])
  {
    SwapPerm(E, HP + 1, J, A, L);
    PermTrans(E0, E, Swap(E, HP + 1, J), A, L);
    hide Perm;
  }

  /** A smaller element on the right and no unknown one on the left: it takes
      the place of the first copy of the pivot, which moves up. */
  lemma SmallerRight(E0: seq<Elem>, E: seq<Elem>, cmp: (Elem, Elem) -> int, pv: Elem, A: int, L: int, LP: int, HP: int, J: int)
    requires PartPerm(E0, E, cmp, pv, A, L, LP, LP, HP, J) && HP < J && cmp(E[J], pv) < 0
    ensures PartPerm(E0, Rotate(E, LP, HP + 1, J), cmp, pv, A, L, LP + 1, LP + 1, HP + 1, J)
  {
    RotatePerm(E, LP, HP + 1, J, A, L);
    PermTrans(E0, E, Rotate(E, LP, HP + 1, J), A, L);
    hide Perm;
  }

  lemma Crosswise(E0: seq<Elem>, E: seq<Elem>, cmp: (Elem, Elem) -> int, pv: Elem, A: int, L: int, I: int, LP: int, HP: int, J: int)
    requires PartPerm(E0, E, cmp, pv, A, L, I, LP, HP, J) && I < LP && HP < J && cmp(E[I], pv) > 0 && cmp(E[J], pv) < 0
    ensures PartPerm(E0, Swap(E, I, J), cmp, pv, A, L, I + 1, LP, HP, J - 1)
  {
    SwapPerm(E, I, J, A, L);
    PermTrans(E0, E, Swap(E, I, J), A, L);
    hide Perm;
  }

  lemma LargerRight(E0: seq<Elem>, E: seq<Elem>, cmp: (Elem, Elem) -> int, pv: Elem, A: int, L: int, I: int, LP: int, HP: int, J: int)
    requires PartPerm(E0, E, cmp, pv, A, L, I, LP, HP, J) && HP < J && cmp(E[J], pv) > 0
    ensures PartPerm(E0, E, cmp, pv, A, L, I, LP, HP, J - 1)
  {
    hide Perm;
  }

  /** A larger element on the left and no unknown one on the right. */
  lemma LargerLeft(E0: seq<Elem>, E: seq<Elem>, cmp: (Elem, Elem) -> int, pv: Elem, A: int, L: int, I: int, LP: int, HP: int)
    requires PartPerm(E0, E, cmp, pv, A, L, I, LP, HP, HP) && I < LP && cmp(E[I], pv) > 0
    ensures PartPerm(E0, Rotate(E, HP, LP - 1, I), cmp, pv, A, L, I, LP - 1, HP - 1, HP - 1)
  {
    RotatePerm(E, HP, LP - 1, I, A, L);
    PermTrans(E0, E, Rotate(E, HP, LP - 1, I), A, L);
    hide Perm;
  }

  lemma PartBounds(E0: seq<Elem>, E: seq<Elem>, cmp: (Elem, Elem) -> int, pv: Elem, A: int, L: int, I: int, LP: int, HP: int, J: int)
    requires PartPerm(E0, E, cmp, pv, A, L, I, LP, HP, J)
    ensures 0 <= A <= I <= LP <= HP <= J < L <= |E| && Part(E, cmp, pv, A, L, I, LP, HP, J)
  {
  }

  /** Elements I and LP, HP and J as the code sees them. */
  method Compare(m: array<byte>, x: int, y: int, es: int, cmp: (Elem, Elem) -> int, ghost E: seq<Elem>, ghost xe: int, ghost ye: int)
    returns (c: int)
    requires Holds(m[..], es, E) && 0 <= xe < |E| && 0 <= ye < |E| && x == Off(xe, es) && y == Off(ye, es)
    ensures c == cmp(E[xe], E[ye])
  {
    hide Off, Holds;
    ElemIs(m[..], es, E, xe);
    ElemIs(m[..], es, E, ye);
    SliceIs(m, x, es, m[..]);
    SliceIs(m, y, es, m[..]);
    c := cmp(m[x..x + es], m[y..y + es]);
  }

  lemma Offsets(I: int, LP: int, HP: int, J: int, es: int)
    requires es > 0
    ensures (Off(I, es) < Off(LP, es) <==> I < LP) && (Off(I, es) == Off(LP, es) <==> I == LP) && (Off(J, es) > Off(HP, es) <==> J > HP)
    ensures Off(I + 1, es) == Off(I, es) + es && Off(J - 1, es) == Off(J, es) - es
    ensures Off(LP - 1, es) == Off(LP, es) - es && Off(LP + 1, es) == Off(LP, es) + es
    ensures Off(HP - 1, es) == Off(HP, es) - es && Off(HP + 1, es) == Off(HP, es) + es
  {
    hide Off;
    OffIff(I, LP, es);
    OffIff(HP, J, es);
    OffNext(I, es);
    OffNext(LP, es);
    OffNext(HP, es);
    OffNext(J, es);
  }

  /** One round with elements left on the left: whether it deals with the next one,
      or leaves it, because it is larger than the pivot. */
  method LeftStep(m: array<byte>, i0: int, lp0: int, es: int, cmp: (Elem, Elem) -> int,
                  ghost E0: seq<Elem>, ghost E1: seq<Elem>, ghost pv: Elem, ghost A: int, ghost L: int,
                  ghost I1: int, ghost LP1: int, ghost HP: int, ghost J: int)
    returns (i: int, lp: int, moved: bool, ghost E: seq<Elem>, ghost I: int, ghost LP: int)
    requires Holds(m[..], es, E1) && PartPerm(E0, E1, cmp, pv, A, L, I1, LP1, HP, J) && Preorder(cmp)
    requires 0 <= A <= I1 < LP1 <= HP <= J < L <= |E1| && i0 == Off(I1, es) && lp0 == Off(LP1, es)
    modifies m
    ensures Holds(m[..], es, E) && PartPerm(E0, E, cmp, pv, A, L, I, LP, HP, J) && A <= I <= LP <= HP && |E| == |E1|
    ensures i == Off(I, es) && lp == Off(LP, es)
    ensures if moved then LP - I < LP1 - I1 else I == I1 && LP == LP1 && I < |E| && cmp(E[I], pv) > 0
  {
    hide Holds, Part, Perm, PartPerm, Preorder, Off, Swap, Rotate;
    Positive(m[..], es, E1);
    PartBounds(E0, E1, cmp, pv, A, L, I1, LP1, HP, J);
    CompareLeft(E1, cmp, pv, A, L, I1, LP1, HP, J);
    Offsets(I1, LP1, HP, J, es);
    i, lp, moved, E, I, LP := i0, lp0, true, E1, I1, LP1;
    var c := Compare(m, i, lp, es, cmp, E, I, LP);
    if c == 0 {
      EqualLeft(E0, E, cmp, pv, A, L, I, LP, HP, J);
      lp := lp - es;
      E := Exchange(m, i, lp, es, E, I, LP - 1);
      LP := LP - 1;
    } else if c < 0 {
      SmallerLeft(E0, E, cmp, pv, A, L, I, LP, HP, J);
      i, I := i + es, I + 1;
    } else {
      moved := false;
    }
  }

  /** One round at the label loop with elements left on the right: whether it goes
      back there, and the pointers after it. */
  method RightStep(m: array<byte>, i0: int, lp0: int, hp0: int, j0: int, es: int, cmp: (Elem, Elem) -> int,
                   ghost E0: seq<Elem>, ghost E1: seq<Elem>, ghost pv: Elem, ghost A: int, ghost L: int,
                   ghost I1: int, ghost LP1: int, ghost HP1: int, ghost J1: int)
    returns (i: int, lp: int, hp: int, j: int, again: bool,
             ghost E: seq<Elem>, ghost I: int, ghost LP: int, ghost HP: int, ghost J: int)
    requires Holds(m[..], es, E1) && PartPerm(E0, E1, cmp, pv, A, L, I1, LP1, HP1, J1) && Preorder(cmp)
    requires 0 <= A <= I1 <= LP1 <= HP1 < J1 < L <= |E1| && (I1 < LP1 ==> cmp(E1[I1], pv) > 0)
    requires i0 == Off(I1, es) && lp0 == Off(LP1, es) && hp0 == Off(HP1, es) && j0 == Off(J1, es)
    modifies m
    ensures Holds(m[..], es, E) && PartPerm(E0, E, cmp, pv, A, L, I, LP, HP, J)
    ensures 0 <= A <= I <= LP <= HP <= J < L <= |E| && (again && I < LP ==> cmp(E[I], pv) > 0)
    ensures i == Off(I, es) && lp == Off(LP, es) && hp == Off(HP, es) && j == Off(J, es)
    ensures (LP - I) + (J - HP) < (LP1 - I1) + (J1 - HP1)
  {
    hide Holds, Part, Perm, PartPerm, Preorder, Off, Swap, Rotate;
    Positive(m[..], es, E1);
    PartBounds(E0, E1, cmp, pv, A, L, I1, LP1, HP1, J1);
    CompareLeft(E1, cmp, pv, A, L, I1, LP1, HP1, J1);
    Offsets(I1, LP1, HP1, J1, es);
    i, lp, hp, j, again := i0, lp0, hp0, j0, true;
    E, I, LP, HP, J := E1, I1, LP1, HP1, J1;
    var c := Compare(m, hp, j, es, cmp, E, HP, J);
    if c == 0 {
      EqualRight(E0, E, cmp, pv, A, L, I, LP, HP, J);
      hp := hp + es;
      E := Exchange(m, hp, j, es, E, HP + 1, J);
      HP := HP + 1;
    } else if c > 0 && i == lp {
      SmallerRight(E0, E, cmp, pv, A, L, LP, HP, J);
      hp := hp + es;
      E := ExchangeThree(m, i, hp, j, es, E, I, HP + 1, J);
      lp := lp + es;
      i := lp;
      I, LP, HP := LP + 1, LP + 1, HP + 1;
    } else if c > 0 {
      Crosswise(E0, E, cmp, pv, A, L, I, LP, HP, J);
      E := Exchange(m, i, j, es, E, I, J);
      j, i := j - es, i + es;
      J, I := J - 1, I + 1;
      again := false;
    } else {
      LargerRight(E0, E, cmp, pv, A, L, I, LP, HP, J);
      j, J := j - es, J - 1;
    }
    PartBounds(E0, E, cmp, pv, A, L, I, LP, HP, J);
  }

  /** The loop of qs1 from its start to the point where it recurses. */
  method Partition(m: array<byte>, a: int, l: int, es: int, cmp: (Elem, Elem) -> int, ghost E0: seq<Elem>, ghost A: int, ghost L: int)
    returns (lp: int, hp: int, ghost E: seq<Elem>, ghost LP: int, ghost HP: int, ghost pv: Elem)
    requires Holds(m[..], es, E0) && Preorder(cmp) && 0 <= A < L - 1 && L <= |E0| && a == Off(A, es) && l == Off(L, es)
    modifies m
    ensures Holds(m[..], es, E) && PartPerm(E0, E, cmp, pv, A, L, LP, LP, HP, HP) && lp == Off(LP, es) && hp == Off(HP, es)
  {
    hide Holds, Part, Perm, PartPerm, Preorder, Off, Swap, Rotate;
    Positive(m[..], es, E0);
    PartStart(E0, cmp, A, L);
    Middle(A, L, es);
    OffNext(L, es);
    pv := E0[A + (L - A) / 2];
    var mid := a + es * ((l - a) / (2 * es));
    lp, hp, E, LP, HP := PartLoop(m, a, mid, l - es, es, cmp, E0, pv, A, L, A + (L - A) / 2);
  }

  /** The loop, with both runs of unknown elements still whole. */
  method PartLoop(m: array<byte>, a: int, mid: int, last: int, es: int, cmp: (Elem, Elem) -> int,
                  ghost E0: seq<Elem>, ghost pv: Elem, ghost A: int, ghost L: int, ghost M: int)
    returns (lp: int, hp: int, ghost E: seq<Elem>, ghost LP: int, ghost HP: int)
    requires Holds(m[..], es, E0) && Preorder(cmp) && 0 <= A <= M < L <= |E0| && PartPerm(E0, E0, cmp, pv, A, L, A, M, M, L - 1)
    requires a == Off(A, es) && mid == Off(M, es) && last == Off(L - 1, es)
    modifies m
    ensures Holds(m[..], es, E) && PartPerm(E0, E, cmp, pv, A, L, LP, LP, HP, HP) && lp == Off(LP, es) && hp == Off(HP, es)
  {
    hide Holds, Part, Perm, PartPerm, Preorder, Off, Swap, Rotate;
    Positive(m[..], es, E0);
    ghost var I, J := A, L - 1;
    E, LP, HP := E0, M, M;
    lp, hp := mid, mid;
    var i, j := a, last;
    var done, right := false, false;
    while !done
      invariant Holds(m[..], es, E) && PartPerm(E0, E, cmp, pv, A, L, I, LP, HP, J)
      invariant 0 <= A <= I <= LP <= HP <= J < L <= |E|
      invariant i == Off(I, es) && lp == Off(LP, es) && hp == Off(HP, es) && j == Off(J, es)
      invariant right && I < LP ==> cmp(E[I], pv) > 0
      invariant done ==> I == LP && J == HP
      decreases (LP - I) + (J - HP), !done
    {
      PartBounds(E0, E, cmp, pv, A, L, I, LP, HP, J);
      Offsets(I, LP, HP, J, es);
      if !right && i < lp {
        var moved;
        i, lp, moved, E, I, LP := LeftStep(m, i, lp, es, cmp, E0, E, pv, A, L, I, LP, HP, J);
        if moved {
          continue;
        }
      }
      right := true;
      if j > hp {
        i, lp, hp, j, right, E, I, LP, HP, J := RightStep(m, i, lp, hp, j, es, cmp, E0, E, pv, A, L, I, LP, HP, J);
        continue;
      }
      if i == lp {
        done := true;
        continue;
      }
      LargerLeft(E0, E, cmp, pv, A, L, I, LP, HP);
      lp := lp - es;
      E := ExchangeThree(m, j, lp, i, es, E, J, LP - 1, I);
      hp := hp - es;
      j := hp;
      LP, HP, J := LP - 1, HP - 1, HP - 1;
      right := false;
    }
  }

  lemma Positive(s: seq<byte>, es: int, E: seq<Elem>)
    requires Holds(s, es, E)
    ensures es > 0
  {
  }

  lemma Middle(A: int, L: int, es: int)
    requires A < L && es > 0
    ensures Off(A, es) + es * ((Off(L, es) - Off(A, es)) / (2 * es)) == Off(A + (L - A) / 2, es)
  {
    var n := L - A;
    assert Off(L, es) - Off(A, es) == n * es;
    Half(n, es);
    assert es * (n / 2) == (n / 2) * es;
  }

  lemma Half(n: int, es: int)
    requires n > 0 && es > 0
    ensures (n * es) / (2 * es) == n / 2
  {
    var q, r := n / 2, n % 2;
    assert n * es == q * (2 * es) + r * es;
    DivUnique(n * es, 2 * es, q, r * es);
  }

  lemma DivUnique(x: int, d: int, q: int, r: int)
    requires d > 0 && x == q * d + r && 0 <= r < d
    ensures x / d == q
  {
    var t := q - x / d;
    assert d * t == x % d - r;
    Small(d, t);
  }

  lemma Small(d: int, t: int)
    requires d > 0 && -d < d * t < d
    ensures t == 0
  {
  }

  // ------------------------------------------------------------- the sort

  /** Every pair is in order unless both are among the elements from A to L - 1. */
  ghost predicate Open(E: seq<Elem>, cmp: (Elem, Elem) -> int, A0: int, A: int, L: int, L0: int) {
    && 0 <= A0 <= A <= L <= L0 <= |E|
    && (forall i, j :: A0 <= i < j < L0 && !(A <= i && j < L) ==> cmp(E[i], E[j]) <= 0)
  }

  /** The same with two ranges, from A to P - 1 and from Q to L - 1. */
  ghost predicate OpenTwo(E: seq<Elem>, cmp: (Elem, Elem) -> int, A0: int, A: int, P: int, Q: int, L: int, L0: int) {
    && 0 <= A0 <= A <= P <= Q <= L <= L0 <= |E|
    && (forall i, j :: A0 <= i < j < L0 && !(A <= i && j < P) && !(Q <= i && j < L) ==> cmp(E[i], E[j]) <= 0)
  }

  lemma Source(E: seq<Elem>, E': seq<Elem>, lo: int, hi: int, k: int) returns (j: int)
    requires Perm(E, E', lo, hi) && 0 <= k < |E|
    ensures 0 <= j < |E| && E[j] == E'[k] && if lo <= k < hi then lo <= j < hi else j == k
  {
    if lo <= k < hi { j := PermFrom(E, E', lo, hi, k); } else { j := k; }
  }

  lemma OpenPerm(E: seq<Elem>, E': seq<Elem>, cmp: (Elem, Elem) -> int, A0: int, A: int, L: int, L0: int)
    requires Open(E, cmp, A0, A, L, L0) && Perm(E, E', A, L)
    ensures Open(E', cmp, A0, A, L, L0)
  {
    forall i, j | A0 <= i < j < L0 && !(A <= i && j < L) ensures cmp(E'[i], E'[j]) <= 0 {
      var i' := Source(E, E', A, L, i);
      var j' := Source(E, E', A, L, j);
      assert cmp(E[i'], E[j']) <= 0;
    }
  }

  lemma PairInOrder(E: seq<Elem>, cmp: (Elem, Elem) -> int, pv: Elem, A: int, L: int, LP: int, HP: int, i: int, j: int)
    requires Part(E, cmp, pv, A, L, LP, LP, HP, HP) && Preorder(cmp)
    requires A <= i < j < L && !(j < LP) && !(HP < i)
    ensures cmp(E[i], E[j]) <= 0
  {
    assert cmp(E[i], pv) <= 0;
    assert cmp(E[j], pv) >= 0;
    assert cmp(pv, E[j]) <= 0;
  }

  lemma SplitOpen(E: seq<Elem>, cmp: (Elem, Elem) -> int, pv: Elem, A0: int, A: int, L: int, L0: int, LP: int, HP: int)
    requires Open(E, cmp, A0, A, L, L0) && Part(E, cmp, pv, A, L, LP, LP, HP, HP) && Preorder(cmp)
    ensures OpenTwo(E, cmp, A0, A, LP, HP + 1, L, L0)
  {
    hide Preorder;
    forall i, j | A0 <= i < j < L0 && !(A <= i && j < LP) && !(HP + 1 <= i && j < L) ensures cmp(E[i], E[j]) <= 0 {
      if A <= i && j < L { PairInOrder(E, cmp, pv, A, L, LP, HP, i, j); }
    }
  }

  lemma CloseRight(E: seq<Elem>, E': seq<Elem>, cmp: (Elem, Elem) -> int, A0: int, A: int, P: int, Q: int, L: int, L0: int)
    requires OpenTwo(E, cmp, A0, A, P, Q, L, L0) && Perm(E, E', Q, L) && Sorted(E', cmp, Q, L)
    ensures Open(E', cmp, A0, A, P, L0)
  {
    forall i, j | A0 <= i < j < L0 && !(A <= i && j < P) ensures cmp(E'[i], E'[j]) <= 0 {
      if !(Q <= i && j < L) {
        var i' := Source(E, E', Q, L, i);
        var j' := Source(E, E', Q, L, j);
        assert cmp(E[i'], E[j']) <= 0;
      }
    }
  }

  lemma CloseLeft(E: seq<Elem>, E': seq<Elem>, cmp: (Elem, Elem) -> int, A0: int, A: int, P: int, Q: int, L: int, L0: int)
    requires OpenTwo(E, cmp, A0, A, P, Q, L, L0) && Perm(E, E', A, P) && Sorted(E', cmp, A, P)
    ensures Open(E', cmp, A0, Q, L, L0)
  {
    forall i, j | A0 <= i < j < L0 && !(Q <= i && j < L) ensures cmp(E'[i], E'[j]) <= 0 {
      if !(A <= i && j < P) {
        var i' := Source(E, E', A, P, i);
        var j' := Source(E, E', A, P, j);
        assert cmp(E[i'], E[j']) <= 0;
      }
    }
  }

  function Log2(n: int): nat { if n < 2 then 0 else 1 + Log2(n / 2) }

  function Pow2(k: nat): int { if k == 0 then 1 else 2 * Pow2(k - 1) }

  /** Log2(n) is the k with 2^k <= n < 2^(k + 1). */
  lemma {:induction false} Log2Is(n: int)
    requires n >= 1
    ensures Pow2(Log2(n)) <= n < Pow2(Log2(n) + 1)
    decreases n
  {
    if n >= 2 { Log2Is(n / 2); }
  }

  lemma {:induction false} Log2Mono(a: int, b: int)
    requires a <= b
    ensures Log2(a) <= Log2(b)
    decreases b
  {
    if a >= 2 { Log2Mono(a / 2, b / 2); }
  }

  /** Sorting less than half of the elements nests less deeply. */
  lemma Log2Half(part: int, n: int, n0: int)
    requires 2 * part <= n - 1 && 2 <= n <= n0
    ensures Log2(part) + 1 <= Log2(n0)
  {
    Log2Mono(part, n / 2);
    Log2Mono(n, n0);
  }

  lemma Partitioned(E0: seq<Elem>, E: seq<Elem>, cmp: (Elem, Elem) -> int, pv: Elem, A: int, L: int, LP: int, HP: int)
    requires PartPerm(E0, E, cmp, pv, A, L, LP, LP, HP, HP)
    ensures 0 <= A <= LP <= HP < L <= |E| == |E0| && Perm(E0, E, A, L) && Part(E, cmp, pv, A, L, LP, LP, HP, HP)
  {
  }

  lemma PermSame(E: seq<Elem>, lo: int, hi: int)
    requires 0 <= lo <= hi <= |E|
    ensures Perm(E, E, lo, hi)
  {
  }

  lemma OffSub(j: int, k: int, es: int)
    ensures Off(k, es) - Off(j, es) == Off(k - j, es)
  {
  }

  lemma Whole(E: seq<Elem>, cmp: (Elem, Elem) -> int, A0: int, L0: int)
    requires 0 <= A0 <= L0 <= |E|
    ensures Open(E, cmp, A0, A0, L0, L0)
  {
  }

  lemma Closed(E: seq<Elem>, cmp: (Elem, Elem) -> int, A0: int, A: int, L: int, L0: int)
    requires Open(E, cmp, A0, A, L, L0) && L - A <= 1
    ensures Sorted(E, cmp, A0, L0)
  {
  }

  /** Perm within, as part of Perm of the whole range. */
  lemma PermGrow(E0: seq<Elem>, E: seq<Elem>, E': seq<Elem>, A0: int, L0: int, lo: int, hi: int)
    requires Perm(E0, E, A0, L0) && Perm(E, E', lo, hi) && A0 <= lo && hi <= L0
    ensures Perm(E0, E', A0, L0) && |E'| == |E0|
  {
    PermWiden(E, E', lo, hi, A0, L0);
    PermTrans(E0, E, E', A0, L0);
  }

  /** qs1, which recurses on the smaller side and loops on the larger; depth is
      how many calls of it were nested. */
  method Qs1(m: array<byte>, a0: int, l0: int, es: int, cmp: (Elem, Elem) -> int, ghost E0: seq<Elem>, ghost A0: int, ghost L0: int)
    returns (ghost E: seq<Elem>, ghost depth: nat)
    requires Holds(m[..], es, E0) && Preorder(cmp) && 0 <= A0 <= L0 <= |E0| && a0 == Off(A0, es) && l0 == Off(L0, es)
    modifies m
    ensures Holds(m[..], es, E) && Perm(E0, E, A0, L0) && Sorted(E, cmp, A0, L0)
    ensures depth <= Log2(L0 - A0) + 1
    decreases L0 - A0
  {
    hide Holds, Part, Perm, PartPerm, Preorder, Off, Open, OpenTwo, Sorted, Log2;
    Positive(m[..], es, E0);
    PermSame(E0, A0, L0);
    Whole(E0, cmp, A0, L0);
    SizeTest(A0, L0, es);
    E, depth := E0, 1;
    var a, l := a0, l0;
    ghost var A, L := A0, L0;
    while l - a > es
      invariant A0 <= A <= L <= L0 <= |E| == |E0| && a == Off(A, es) && l == Off(L, es)
      invariant l - a > es <==> L - A > 1
      invariant Holds(m[..], es, E) && Perm(E0, E, A0, L0) && Open(E, cmp, A0, A, L, L0)
      invariant depth <= Log2(L0 - A0) + 1
      decreases L - A
    {
      var lp, hp; ghost var E1, LP, HP, pv;
      lp, hp, E1, LP, HP, pv := Partition(m, a, l, es, cmp, E, A, L);
      AfterPartition(E0, E, E1, cmp, pv, A0, A, L, L0, LP, HP);
      SideTest(A, LP, HP, L, es);
      ghost var d;
      if lp - a >= l - hp {
        Log2Half(L - (HP + 1), L - A, L0 - A0);
        E, d := Qs1(m, hp + es, l, es, cmp, E1, HP + 1, L);
        PermGrow(E0, E1, E, A0, L0, HP + 1, L);
        CloseRight(E1, E, cmp, A0, A, LP, HP + 1, L, L0);
        l, L := lp, LP;
      } else {
        Log2Half(LP - A, L - A, L0 - A0);
        E, d := Qs1(m, a, lp, es, cmp, E1, A, LP);
        PermGrow(E0, E1, E, A0, L0, A, LP);
        CloseLeft(E1, E, cmp, A0, A, LP, HP + 1, L, L0);
        a, A := hp + es, HP + 1;
      }
      if d + 1 > depth { depth := d + 1; }
      SizeTest(A, L, es);
    }
    Closed(E, cmp, A0, A, L, L0);
  }

  lemma AfterPartition(E0: seq<Elem>, E: seq<Elem>, E1: seq<Elem>, cmp: (Elem, Elem) -> int, pv: Elem,
                       A0: int, A: int, L: int, L0: int, LP: int, HP: int)
    requires Perm(E0, E, A0, L0) && Open(E, cmp, A0, A, L, L0) && PartPerm(E, E1, cmp, pv, A, L, LP, LP, HP, HP) && Preorder(cmp)
    ensures A <= LP <= HP < L <= |E1| == |E0| && Perm(E0, E1, A0, L0) && OpenTwo(E1, cmp, A0, A, LP, HP + 1, L, L0)
  {
    hide Preorder, Perm, Part;
    Partitioned(E, E1, cmp, pv, A, L, LP, HP);
    PermGrow(E0, E, E1, A0, L0, A, L);
    PermLen(E0, E1, A0, L0);
    OpenPerm(E, E1, cmp, A0, A, L, L0);
    SplitOpen(E1, cmp, pv, A0, A, L, L0, LP, HP);
  }

  lemma SizeTest(A: int, L: int, es: int)
    requires es > 0
    ensures Off(L, es) - Off(A, es) > es <==> L - A > 1
  {
    hide Off;
    OffIff(1, L - A, es);
    OffSub(A, L, es);
    OffOne(es);
  }

  lemma SideTest(A: int, LP: int, HP: int, L: int, es: int)
    requires es > 0
    ensures Off(LP, es) - Off(A, es) >= Off(L, es) - Off(HP, es) <==> LP - A >= L - HP
    ensures Off(HP + 1, es) == Off(HP, es) + es
  {
    hide Off;
    OffNext(HP, es);
    OffSub(A, LP, es);
    OffSub(HP, L, es);
    OffIff(LP - A, L - HP, es);
  }

  lemma OffOne(es: int)
    ensures Off(1, es) == es
  {
  }

  lemma PermLen(E: seq<Elem>, E': seq<Elem>, lo: int, hi: int)
    requires Perm(E, E', lo, hi)
    ensures |E'| == |E|
  {
  }

  /** The elements held by n * es bytes. */
  function Elems(s: seq<byte>, es: int, n: nat): (E: seq<Elem>)
    requires es > 0 && |s| == Off(n, es)
    ensures |E| == n
  {
    seq(n, k requires 0 <= k < n => RangeOK(n, es, k); ElemAt(s, es, k))
  }

  lemma ElemsHold(s: seq<byte>, es: int, n: nat)
    requires es > 0 && |s| == Off(n, es)
    ensures Holds(s, es, Elems(s, es, n))
  {
    hide Off;
    forall k | 0 <= k < n ensures InRange(s, es, k) && ElemAt(s, es, k) == Elems(s, es, n)[k] { RangeOK(n, es, k); }
  }

  lemma HeldElems(s: seq<byte>, es: int, n: nat, E: seq<Elem>)
    requires Holds(s, es, E) && |E| == n && |s| == Off(n, es)
    ensures Elems(s, es, n) == E
  {
    hide Off;
    forall k | 0 <= k < n ensures Elems(s, es, n)[k] == E[k] { assert InRange(s, es, k) && ElemAt(s, es, k) == E[k]; }
  }

  /** qsort */
  method QSort(m: array<byte>, n: nat, es: int, cmp: (Elem, Elem) -> int) returns (ghost depth: nat)
    requires es > 0 && m.Length == Off(n, es) && Preorder(cmp)
    modifies m
    ensures var E0, E := old(Elems(m[..], es, n)), Elems(m[..], es, n);
            multiset(E) == multiset(E0) && Sorted(E, cmp, 0, n)
    ensures depth <= Log2(n) + 1
  {
    hide Off, Preorder, Sorted, Holds;
    ElemsHold(m[..], es, n);
    ghost var E0 := Elems(m[..], es, n);
    OffZero(es);
    ghost var E;
    E, depth := Qs1(m, 0, m.Length, es, cmp, E0, 0, n);
    HeldElems(m[..], es, n, E);
  }

  lemma OffZero(es: int)
    ensures Off(0, es) == 0
  {
  }
}
