// All process lists of the kernel live in one table of doubly linked nodes: one
// node for each process and a head and a tail for each list.  The operations
// relink nodes in place; each is proved to do to the linked lists what the
// corresponding operation does to plain sequences of process IDs.
module QueueTable {

  const NPROC := 100
  const NSEM := 100
  const NQ := NSEM + 2
  const NQENT := NPROC + 4 + NSEM + NSEM
  const EMPTY := -1
  const MAXKEY := 0x7FFF_FFFF
  const MINKEY := -0x8000_0000

  datatype QEntry = QEntry(key: int, next: int, prev: int)

  /** The k-th list created by newqueue has its head at QId(k), its tail behind it. */
  function QId(k: int): int { NPROC + 2 * k }

  // ------------------------------------------------ lists as plain sequences

  /** Node i on the way from the head of list q to its tail. */
  function At(q: int, l: seq<int>, i: int): int
    requires 0 <= i <= |l| + 1
  {
    if i == 0 then q else if i == |l| + 1 then q + 1 else l[i - 1]
  }

  ghost predicate NoDup(l: seq<int>) { forall i, j :: 0 <= i < j < |l| ==> l[i] != l[j] }

  function Inserted(l: seq<int>, i: int, p: int): seq<int>
    requires 0 <= i <= |l|
  {
    l[..i] + [p] + l[i..]
  }

  function Removed(l: seq<int>, i: int): seq<int>
    requires 0 <= i < |l|
  {
    l[..i] + l[i + 1..]
  }

  // --------------------------------------------------------- linked lists

  ghost predicate LinkAt(t: seq<QEntry>, a: int, b: int) {
    0 <= a < |t| && 0 <= b < |t| && t[a].next == b && t[b].prev == a
  }

  ghost predicate Linked(t: seq<QEntry>, q: int, l: seq<int>) {
    forall i :: 0 <= i <= |l| ==> LinkAt(t, At(q, l, i), At(q, l, i + 1))
  }

  /** The nodes of list q. */
  ghost predicate OnList(q: int, l: seq<int>, x: int) {
    x == q || x == q + 1 || x in l
  }

  /** The three writes that put node p between neighbours a and b. */
  function Spliced(t: seq<QEntry>, a: int, b: int, p: int, key: int): (r: seq<QEntry>)
    requires 0 <= a < |t| && 0 <= b < |t| && 0 <= p < |t|
    ensures |r| == |t|
  {
    var t1 := t[p := QEntry(key, b, a)];
    var t2 := t1[a := t1[a].(next := p)];
    t2[b := t2[b].(prev := p)]
  }

  /** The two writes that take the node between a and b out. */
  function Unspliced(t: seq<QEntry>, a: int, b: int): (r: seq<QEntry>)
    requires 0 <= a < |t| && 0 <= b < |t|
    ensures |r| == |t|
  {
    var t1 := t[a := t[a].(next := b)];
    t1[b := t1[b].(prev := a)]
  }

  lemma LinkedFrame(t: seq<QEntry>, t': seq<QEntry>, q: int, l: seq<int>)
    requires Linked(t, q, l) && |t'| == |t|
    requires forall x :: 0 <= x < |t| && OnList(q, l, x) ==> t'[x].next == t[x].next && t'[x].prev == t[x].prev
    ensures Linked(t', q, l)
  {
    forall i | 0 <= i <= |l| ensures LinkAt(t', At(q, l, i), At(q, l, i + 1)) {
      assert LinkAt(t, At(q, l, i), At(q, l, i + 1));
    }
  }

  lemma AtInserted(q: int, l: seq<int>, i: int, p: int, j: int)
    requires 0 <= i <= |l| && 0 <= j <= |l| + 2
    ensures At(q, Inserted(l, i, p), j) == if j <= i then At(q, l, j) else if j == i + 1 then p else At(q, l, j - 1)
  {
  }

  lemma AtInjective(q: int, l: seq<int>, i: int, j: int)
    requires NoDup(l) && 0 <= i <= |l| + 1 && 0 <= j <= |l| + 1 && i != j
    requires forall k :: 0 <= k < |l| ==> l[k] != q && l[k] != q + 1
    ensures At(q, l, i) != At(q, l, j)
  {
  }

  lemma LinkInsert(t: seq<QEntry>, q: int, l: seq<int>, i: int, p: int, key: int)
    requires Linked(t, q, l) && NoDup(l) && 0 <= i <= |l| && 0 <= p < |t| && !OnList(q, l, p)
    requires forall k :: 0 <= k < |l| ==> l[k] != q && l[k] != q + 1
    ensures 0 <= At(q, l, i) < |t| && 0 <= At(q, l, i + 1) < |t|
    ensures Linked(Spliced(t, At(q, l, i), At(q, l, i + 1), p, key), q, Inserted(l, i, p))
  {
    assert LinkAt(t, At(q, l, i), At(q, l, i + 1));
    var a, b := At(q, l, i), At(q, l, i + 1);
    var t', l' := Spliced(t, a, b, p, key), Inserted(l, i, p);
    AtInjective(q, l, i, i + 1);
    forall j | 0 <= j <= |l'| ensures LinkAt(t', At(q, l', j), At(q, l', j + 1)) {
      AtInserted(q, l, i, p, j);
      AtInserted(q, l, i, p, j + 1);
      if j < i {
        assert LinkAt(t, At(q, l, j), At(q, l, j + 1));
        AtInjective(q, l, j, i);
        AtInjective(q, l, j + 1, i + 1);
      } else if j > i + 1 {
        assert LinkAt(t, At(q, l, j - 1), At(q, l, j));
        AtInjective(q, l, j - 1, i);
        AtInjective(q, l, j, i + 1);
      }
    }
  }

  lemma AtRemoved(q: int, l: seq<int>, i: int, j: int)
    requires 0 <= i < |l| && 0 <= j <= |l|
    ensures At(q, Removed(l, i), j) == if j <= i then At(q, l, j) else At(q, l, j + 1)
  {
  }

  lemma LinkRemove(t: seq<QEntry>, q: int, l: seq<int>, i: int)
    requires Linked(t, q, l) && NoDup(l) && 0 <= i < |l|
    requires forall k :: 0 <= k < |l| ==> l[k] != q && l[k] != q + 1
    ensures 0 <= At(q, l, i) < |t| && 0 <= At(q, l, i + 2) < |t|
    ensures Linked(Unspliced(t, At(q, l, i), At(q, l, i + 2)), q, Removed(l, i))
  {
    assert LinkAt(t, At(q, l, i), At(q, l, i + 1)) && LinkAt(t, At(q, l, i + 1), At(q, l, i + 1 + 1));
    var a, b := At(q, l, i), At(q, l, i + 2);
    var t', l' := Unspliced(t, a, b), Removed(l, i);
    AtInjective(q, l, i, i + 2);
    forall j | 0 <= j <= |l'| ensures LinkAt(t', At(q, l', j), At(q, l', j + 1)) {
      AtRemoved(q, l, i, j);
      AtRemoved(q, l, i, j + 1);
      if j < i {
        assert LinkAt(t, At(q, l, j), At(q, l, j + 1));
        AtInjective(q, l, j, i);
        AtInjective(q, l, j + 1, i + 2);
      } else if j > i {
        assert LinkAt(t, At(q, l, j + 1), At(q, l, j + 2));
        AtInjective(q, l, j + 1, i);
        AtInjective(q, l, j + 2, i + 2);
      }
    }
  }

  // ------------------------------------------------------- the whole table

  /** The lists, the list each process is on (or EMPTY), and the keys. */
  datatype Qs = Qs(lists: seq<seq<int>>, home: seq<int>, keys: seq<int>)

  ghost predicate Homed(lists: seq<seq<int>>, home: seq<int>) {
    && (forall k, i :: 0 <= k < |lists| && 0 <= i < |lists[k]| ==>
          0 <= lists[k][i] < |home| && home[lists[k][i]] == k)
    && (forall p :: 0 <= p < |home| ==>
          home[p] == EMPTY || (0 <= home[p] < |lists| && p in lists[home[p]]))
  }

  ghost predicate WfQ(s: Qs) {
    && |s.lists| == NQ && |s.home| == |s.keys| == NPROC
    && Homed(s.lists, s.home)
    && (forall k :: 0 <= k < NQ ==> NoDup(s.lists[k]))
  }

  ghost predicate ListOK(t: seq<QEntry>, k: int, l: seq<int>) {
    && Linked(t, QId(k), l)
    && 0 <= QId(k) < |t| - 1 && t[QId(k)].key == MAXKEY && t[QId(k) + 1].key == MINKEY
  }

  ghost predicate TableOK(t: seq<QEntry>, s: Qs) {
    && |t| == NQENT && |s.keys| == NPROC
    && (forall k :: 0 <= k < |s.lists| ==> ListOK(t, k, s.lists[k]))
    && (forall p :: 0 <= p < NPROC ==> t[p].key == s.keys[p])
  }

  function InsertAt(s: Qs, k: int, i: int, p: int, key: int): Qs
    requires 0 <= k < |s.lists| && 0 <= i <= |s.lists[k]| && 0 <= p < |s.home| == |s.keys|
  {
    Qs(s.lists[k := Inserted(s.lists[k], i, p)], s.home[p := k], s.keys[p := key])
  }

  function RemoveAt(s: Qs, k: int, i: int): Qs
    requires 0 <= k < |s.lists| && 0 <= i < |s.lists[k]| && 0 <= s.lists[k][i] < |s.home|
  {
    Qs(s.lists[k := Removed(s.lists[k], i)], s.home[s.lists[k][i] := EMPTY], s.keys)
  }

  lemma InsertedElems(l: seq<int>, i: int, p: int)
    requires 0 <= i <= |l|
    ensures forall x :: x in Inserted(l, i, p) <==> x == p || x in l
    ensures NoDup(l) && p !in l ==> NoDup(Inserted(l, i, p))
  {
    var r := Inserted(l, i, p);
    assert forall j :: 0 <= j < |r| ==> r[j] == if j < i then l[j] else if j == i then p else l[j - 1];
    forall x | x in l ensures x in r {
      var j :| 0 <= j < |l| && l[j] == x;
      assert r[if j < i then j else j + 1] == x;
    }
    assert r[i] == p;
  }

  lemma RemovedElems(l: seq<int>, i: int)
    requires 0 <= i < |l| && NoDup(l)
    ensures forall x :: x in Removed(l, i) <==> x in l && x != l[i]
    ensures NoDup(Removed(l, i))
  {
    var r := Removed(l, i);
    assert forall j :: 0 <= j < |r| ==> r[j] == if j < i then l[j] else l[j + 1];
    forall x | x in l && x != l[i] ensures x in r {
      var j :| 0 <= j < |l| && l[j] == x;
      assert r[if j < i then j else j - 1] == x;
    }
  }

  lemma InsertAtWf(s: Qs, k: int, i: int, p: int, key: int)
    requires WfQ(s) && 0 <= k < NQ && 0 <= i <= |s.lists[k]| && 0 <= p < NPROC && s.home[p] == EMPTY
    ensures p !in s.lists[k]
    ensures WfQ(InsertAt(s, k, i, p, key))
  {
    hide Inserted;
    InsertedElems(s.lists[k], i, p);
    var s' := InsertAt(s, k, i, p, key);
    forall m, j | 0 <= m < NQ && 0 <= j < |s'.lists[m]| ensures 0 <= s'.lists[m][j] < NPROC && s'.home[s'.lists[m][j]] == m {
      assert s'.lists[m][j] in s'.lists[m];
      if m != k { assert s'.lists[m][j] == s.lists[m][j]; }
    }
  }

  lemma RemoveAtWf(s: Qs, k: int, i: int)
    requires WfQ(s) && 0 <= k < NQ && 0 <= i < |s.lists[k]|
    ensures WfQ(RemoveAt(s, k, i))
  {
    hide Removed;
    RemovedElems(s.lists[k], i);
    var s' := RemoveAt(s, k, i);
    forall m, j | 0 <= m < NQ && 0 <= j < |s'.lists[m]| ensures 0 <= s'.lists[m][j] < NPROC && s'.home[s'.lists[m][j]] == m {
      assert s'.lists[m][j] in s'.lists[m];
      if m != k { assert s'.lists[m][j] == s.lists[m][j]; }
    }
  }

  /** A list other than k has none of the nodes of list k. */
  lemma ListsApart(s: Qs, k: int, m: int, x: int)
    requires WfQ(s) && 0 <= k < NQ && 0 <= m < NQ && k != m && OnList(QId(k), s.lists[k], x)
    ensures !OnList(QId(m), s.lists[m], x)
  {
  }

  lemma TableInsert(t: seq<QEntry>, s: Qs, k: int, i: int, p: int, key: int)
    requires WfQ(s) && TableOK(t, s) && 0 <= k < NQ && 0 <= i <= |s.lists[k]| && 0 <= p < NPROC && s.home[p] == EMPTY
    ensures
      var a, b := At(QId(k), s.lists[k], i), At(QId(k), s.lists[k], i + 1);
      0 <= a < |t| && 0 <= b < |t| && TableOK(Spliced(t, a, b, p, key), InsertAt(s, k, i, p, key))
  {
    hide Inserted, Linked, At, Homed;
    InsertAtWf(s, k, i, p, key);
    NotNodes(s, k);
    assert ListOK(t, k, s.lists[k]);
    LinkInsert(t, QId(k), s.lists[k], i, p, key);
    NeighboursOn(QId(k), s.lists[k], i);
    NeighboursOn(QId(k), s.lists[k], i + 1);
    var a, b := At(QId(k), s.lists[k], i), At(QId(k), s.lists[k], i + 1);
    var t', s' := Spliced(t, a, b, p, key), InsertAt(s, k, i, p, key);
    forall m | 0 <= m < |s'.lists| ensures ListOK(t', m, s'.lists[m]) {
      assert ListOK(t, m, s.lists[m]);
      if m != k {
        ListsApart(s, k, m, a);
        ListsApart(s, k, m, b);
        NotOn(s, m, p);
        LinkedFrame(t, t', QId(m), s.lists[m]);
      }
    }
  }

  lemma NotOn(s: Qs, m: int, p: int)
    requires WfQ(s) && 0 <= m < NQ && 0 <= p < NPROC && s.home[p] == EMPTY
    ensures !OnList(QId(m), s.lists[m], p)
  {
  }

  lemma NotNodes(s: Qs, k: int)
    requires WfQ(s) && 0 <= k < NQ
    ensures forall i :: 0 <= i < |s.lists[k]| ==> s.lists[k][i] != QId(k) && s.lists[k][i] != QId(k) + 1
  {
  }

  lemma NeighboursOn(q: int, l: seq<int>, i: int)
    requires 0 <= i <= |l| + 1
    ensures OnList(q, l, At(q, l, i))
  {
  }

  lemma TableRemove(t: seq<QEntry>, s: Qs, k: int, i: int)
    requires WfQ(s) && TableOK(t, s) && 0 <= k < NQ && 0 <= i < |s.lists[k]|
    ensures
      var a, b := At(QId(k), s.lists[k], i), At(QId(k), s.lists[k], i + 2);
      0 <= a < |t| && 0 <= b < |t| && TableOK(Unspliced(t, a, b), RemoveAt(s, k, i))
  {
    hide Removed, Linked, At;
    RemoveAtWf(s, k, i);
    NotNodes(s, k);
    assert ListOK(t, k, s.lists[k]);
    LinkRemove(t, QId(k), s.lists[k], i);
    NeighboursOn(QId(k), s.lists[k], i);
    NeighboursOn(QId(k), s.lists[k], i + 2);
    var a, b := At(QId(k), s.lists[k], i), At(QId(k), s.lists[k], i + 2);
    var t', s' := Unspliced(t, a, b), RemoveAt(s, k, i);
    forall m | 0 <= m < |s'.lists| ensures ListOK(t', m, s'.lists[m]) {
      assert ListOK(t, m, s.lists[m]);
      if m != k {
        ListsApart(s, k, m, a);
        ListsApart(s, k, m, b);
        LinkedFrame(t, t', QId(m), s.lists[m]);
      }
    }
  }

  /** A node off every list may have its links overwritten. */
  lemma TableLoose(t: seq<QEntry>, s: Qs, p: int, e: QEntry)
    requires WfQ(s) && TableOK(t, s) && 0 <= p < NPROC && s.home[p] == EMPTY && e.key == t[p].key
    ensures TableOK(t[p := e], s)
  {
    hide Homed;
    var t' := t[p := e];
    forall m | 0 <= m < |s.lists| ensures ListOK(t', m, s.lists[m]) {
      assert ListOK(t, m, s.lists[m]);
      NotOn(s, m, p);
      LinkedFrame(t, t', QId(m), s.lists[m]);
    }
  }

  /** Changing a key changes no list. */
  lemma TableKey(t: seq<QEntry>, s: Qs, p: int, key: int)
    requires WfQ(s) && TableOK(t, s) && 0 <= p < NPROC
    ensures TableOK(t[p := t[p].(key := key)], s.(keys := s.keys[p := key]))
  {
    hide Homed;
    var t' := t[p := t[p].(key := key)];
    forall m | 0 <= m < |s.lists| ensures ListOK(t', m, s.lists[m]) {
      assert ListOK(t, m, s.lists[m]);
      LinkedFrame(t, t', QId(m), s.lists[m]);
    }
  }

  // -------------------------------------------------- the specified calls

  function IndexOf(l: seq<int>, p: int): (i: nat)
    requires p in l
    ensures i < |l| && l[i] == p
  {
    if l[0] == p then 0 else 1 + IndexOf(l[1..], p)
  }

  /** Where insert puts a key into a descending list: behind all that are as large. */
  function InsPos(keys: seq<int>, l: seq<int>, key: int): (i: nat)
    requires forall j :: 0 <= j < |l| ==> 0 <= l[j] < |keys|
    ensures i <= |l|
    ensures forall j :: 0 <= j < i ==> keys[l[j]] >= key
    ensures i < |l| ==> keys[l[i]] < key
  {
    if l == [] || keys[l[0]] < key then 0 else 1 + InsPos(keys, l[1..], key)
  }

  /** Where insertd puts a delay into a delta list, and what remains of it there. */
  function DPos(keys: seq<int>, l: seq<int>, key: int): (r: (nat, int))
    requires forall j :: 0 <= j < |l| ==> 0 <= l[j] < |keys|
    ensures r.0 <= |l|
  {
    if l == [] || keys[l[0]] > key then (0, key)
    else var (i, rest) := DPos(keys, l[1..], key - keys[l[0]]); (i + 1, rest)
  }

  /** The search of insertd has passed i processes and key is what remains. */
  ghost predicate Searched(keys: seq<int>, l: seq<int>, delay: int, i: int, key: int)
    requires forall j :: 0 <= j < |l| ==> 0 <= l[j] < |keys|
  {
    0 <= i <= |l| && var (a, b) := DPos(keys, l, delay); var (c, d) := DPos(keys, l[i..], key); a == i + c && b == d
  }

  lemma SearchStarts(keys: seq<int>, l: seq<int>, delay: int)
    requires forall j :: 0 <= j < |l| ==> 0 <= l[j] < |keys|
    ensures Searched(keys, l, delay, 0, delay)
  {
    assert l[0..] == l;
  }

  lemma SearchOn(keys: seq<int>, l: seq<int>, delay: int, i: int, key: int)
    requires forall j :: 0 <= j < |l| ==> 0 <= l[j] < |keys|
    requires Searched(keys, l, delay, i, key) && i < |l| && keys[l[i]] <= key
    ensures Searched(keys, l, delay, i + 1, key - keys[l[i]])
  {
    assert l[i..][0] == l[i] && l[i..][1..] == l[i + 1..];
  }

  lemma SearchEnds(keys: seq<int>, l: seq<int>, delay: int, i: int, key: int)
    requires forall j :: 0 <= j < |l| ==> 0 <= l[j] < |keys|
    requires Searched(keys, l, delay, i, key) && (i < |l| ==> keys[l[i]] > key)
    ensures DPos(keys, l, delay) == (i, key)
  {
    assert i < |l| ==> l[i..][0] == l[i];
  }

  function EnqueueQ(s: Qs, p: int, k: int): Qs
    requires 0 <= k < |s.lists| && 0 <= p < |s.home| == |s.keys|
  {
    InsertAt(s, k, |s.lists[k]|, p, s.keys[p])
  }

  ghost function InsertQ(s: Qs, p: int, k: int, key: int): Qs
    requires WfQ(s) && 0 <= k < NQ && 0 <= p < NPROC
  {
    InsertAt(s, k, InsPos(s.keys, s.lists[k], key), p, key)
  }

  ghost function InsertDQ(s: Qs, p: int, k: int, key: int): Qs
    requires WfQ(s) && 0 <= k < NQ && 0 <= p < NPROC
  {
    var (i, rest) := DPos(s.keys, s.lists[k], key);
    var s' := InsertAt(s, k, i, p, rest);
    if i == |s.lists[k]| then s' else var n := s.lists[k][i]; s'.(keys := s'.keys[n := s'.keys[n] - rest])
  }

  ghost function RemoveQ(s: Qs, p: int): Qs
    requires WfQ(s) && 0 <= p < NPROC && s.home[p] != EMPTY
  {
    RemoveAt(s, s.home[p], IndexOf(s.lists[s.home[p]], p))
  }

  ghost function DequeueQ(s: Qs, k: int): Qs
    requires WfQ(s) && 0 <= k < NQ && s.lists[k] != []
  {
    RemoveAt(s, k, 0)
  }

  // ------------------------------------------------------------ the table

  class QueueTab {
    const queuetab: array<QEntry>
    ghost var qs: Qs

    ghost predicate Valid()
      reads this, queuetab
    {
      queuetab.Length == NQENT && WfQ(qs) && TableOK(queuetab[..], qs)
    }

    /** newqueue, called for every list as sysinit does. */
    constructor ()
      ensures Valid() && fresh(queuetab) && fresh(this)
      ensures qs.lists == seq(NQ, _ => []) && qs.home == seq(NPROC, _ => EMPTY)
    {
      queuetab := new QEntry[NQENT](_ => QEntry(0, EMPTY, EMPTY));
      qs := Qs(seq(NQ, _ => []), seq(NPROC, _ => EMPTY), seq(NPROC, _ => 0));
      new;
      for k := 0 to NQ
        invariant queuetab.Length == NQENT && forall m :: 0 <= m < k ==> ListOK(queuetab[..], m, [])
        invariant forall p :: 0 <= p < NPROC ==> queuetab[p].key == 0
        invariant qs == Qs(seq(NQ, _ => []), seq(NPROC, _ => EMPTY), seq(NPROC, _ => 0))
      {
        ghost var t := queuetab[..];
        var q := QId(k);
        queuetab[q] := QEntry(MAXKEY, q + 1, EMPTY);
        queuetab[q + 1] := QEntry(MINKEY, EMPTY, q);
        ghost var t' := queuetab[..];
        assert forall x :: 0 <= x < NQENT && x != q && x != q + 1 ==> t'[x] == t[x];
        forall m | 0 <= m < k + 1 ensures ListOK(t', m, []) {
          if m < k { assert ListOK(t, m, []); LinkedFrame(t, t', QId(m), []); }
        }
      }
    }

    /** insert, enqueue and insertd end by linking p between prev and next. */
    method Link(p: int, prev: int, next: int, key: int, ghost k: int, ghost i: int)
      requires Valid() && 0 <= k < NQ && 0 <= i <= |qs.lists[k]| && 0 <= p < NPROC && qs.home[p] == EMPTY
      requires prev == At(QId(k), qs.lists[k], i) && next == At(QId(k), qs.lists[k], i + 1)
      modifies this, queuetab
      ensures Valid() && qs == old(InsertAt(qs, k, i, p, key))
    {
      hide TableOK;
      ghost var t := queuetab[..];
      TableInsert(t, qs, k, i, p, key);
      InsertAtWf(qs, k, i, p, key);
      queuetab[p] := QEntry(key, next, prev);
      queuetab[prev] := queuetab[prev].(next := p);
      queuetab[next] := queuetab[next].(prev := p);
      assert queuetab[..] == Spliced(t, prev, next, p, key);
      qs := InsertAt(qs, k, i, p, key);
    }

    method Enqueue(pid: int, k: int)
      requires Valid() && 0 <= k < NQ && 0 <= pid < NPROC && qs.home[pid] == EMPTY
      modifies this, queuetab
      ensures Valid() && qs == old(EnqueueQ(qs, pid, k))
    {
      var tail := QId(k) + 1;
      ghost var n := |qs.lists[k]|;
      LinkOf(queuetab[..], qs, k, n);
      var prev := queuetab[tail].prev;
      Link(pid, prev, tail, queuetab[pid].key, k, n);
    }

    method GetItem(pid: int)
      requires Valid() && 0 <= pid < NPROC && qs.home[pid] != EMPTY
      modifies this, queuetab
      ensures Valid() && qs == old(RemoveQ(qs, pid))
    {
      hide TableOK;
      ghost var t, k := queuetab[..], qs.home[pid];
      ghost var i := IndexOf(qs.lists[k], pid);
      LinkOf(t, qs, k, i);
      LinkOf(t, qs, k, i + 1);
      TableRemove(t, qs, k, i);
      RemoveAtWf(qs, k, i);
      var next := queuetab[pid].next;
      var prev := queuetab[pid].prev;
      queuetab[prev] := queuetab[prev].(next := next);
      queuetab[next] := queuetab[next].(prev := prev);
      assert queuetab[..] == Unspliced(t, prev, next);
      qs := RemoveAt(qs, k, i);
    }

    method IsEmpty(k: int) returns (r: bool)
      requires Valid() && 0 <= k < NQ
      ensures r <==> qs.lists[k] == []
    {
      LinkOf(queuetab[..], qs, k, 0);
      r := queuetab[QId(k)].next >= NPROC;
    }

    method FirstKey(k: int) returns (key: int)
      requires Valid() && 0 <= k < NQ
      ensures key == if qs.lists[k] == [] then MINKEY else qs.keys[qs.lists[k][0]]
    {
      LinkOf(queuetab[..], qs, k, 0);
      key := queuetab[queuetab[QId(k)].next].key;
    }

    method FirstId(k: int) returns (id: int)
      requires Valid() && 0 <= k < NQ
      ensures if qs.lists[k] == [] then id >= NPROC else id == qs.lists[k][0] && 0 <= id < NPROC
    {
      LinkOf(queuetab[..], qs, k, 0);
      id := queuetab[QId(k)].next;
    }

    /** getfirst: EMPTY if there is none. */
    method GetFirst(k: int) returns (pid: int)
      requires Valid() && 0 <= k < NQ
      modifies this, queuetab
      ensures Valid()
      ensures if old(qs.lists[k]) == [] then pid == EMPTY && qs == old(qs)
              else pid == old(qs.lists[k][0]) && qs == old(DequeueQ(qs, k))
    {
      var empty := IsEmpty(k);
      if empty {
        return EMPTY;
      }
      LinkOf(queuetab[..], qs, k, 0);
      FirstIs(qs, k);
      pid := queuetab[QId(k)].next;
      GetItem(pid);
    }

    method Dequeue(k: int) returns (pid: int)
      requires Valid() && 0 <= k < NQ
      modifies this, queuetab
      ensures Valid()
      ensures if old(qs.lists[k]) == [] then pid == EMPTY && qs == old(qs)
              else pid == old(qs.lists[k][0]) && qs == old(DequeueQ(qs, k))
    {
      ghost var s := qs;
      pid := GetFirst(k);
      if pid != EMPTY {
        Loosened(s, k);
        TableLoose(queuetab[..], qs, pid, queuetab[pid].(prev := EMPTY, next := EMPTY));
        ghost var t := queuetab[..];
        queuetab[pid] := queuetab[pid].(prev := EMPTY);
        queuetab[pid] := queuetab[pid].(next := EMPTY);
        assert queuetab[..] == t[pid := t[pid].(prev := EMPTY, next := EMPTY)];
      }
    }

    /** getlast */
    method GetLast(k: int) returns (pid: int)
      requires Valid() && 0 <= k < NQ
      modifies this, queuetab
      ensures Valid()
      ensures var l := old(qs.lists[k]);
              if l == [] then pid == EMPTY && qs == old(qs)
              else pid == l[|l| - 1] && qs == old(RemoveAt(qs, k, |qs.lists[k]| - 1))
    {
      var empty := IsEmpty(k);
      if empty {
        return EMPTY;
      }
      ghost var n := |qs.lists[k]|;
      LinkOf(queuetab[..], qs, k, n);
      LastIs(qs, k);
      pid := queuetab[QId(k) + 1].prev;
      GetItem(pid);
    }

    method Insert(pid: int, k: int, key: int)
      requires Valid() && 0 <= k < NQ && 0 <= pid < NPROC && qs.home[pid] == EMPTY && MINKEY < key
      modifies this, queuetab
      ensures Valid() && qs == old(InsertQ(qs, pid, k, key))
    {
      ghost var t, l := queuetab[..], qs.lists[k];
      ghost var i := 0;
      ghost var n := InsPos(qs.keys, l, key);
      LinkOf(t, qs, k, 0);
      var curr := queuetab[QId(k)].next;
      while queuetab[curr].key >= key
        invariant 0 <= i <= n <= |l| && curr == At(QId(k), l, i + 1) && 0 <= curr < NQENT
        invariant queuetab[..] == t && qs == old(qs)
        decreases n - i
      {
        NodeKey(t, qs, k, i);
        LinkOf(t, qs, k, i + 1);
        curr := queuetab[curr].next;
        i := i + 1;
      }
      NodeKey(t, qs, k, i);
      LinkOf(t, qs, k, i);
      var prev := queuetab[curr].prev;
      Link(pid, prev, curr, key, k, i);
    }

    /** The search loop of insertd. */
    method FindDelta(k: int, delay: int) returns (prev: int, next: int, key: int, ghost i: int)
      requires Valid() && 0 <= k < NQ
      ensures 0 <= i <= |qs.lists[k]| && (i, key) == DPos(qs.keys, qs.lists[k], delay)
      ensures prev == At(QId(k), qs.lists[k], i) && next == At(QId(k), qs.lists[k], i + 1)
    {
      hide TableOK, Searched, DPos;
      ghost var t, l := queuetab[..], qs.lists[k];
      i, key := 0, delay;
      LinkOf(t, qs, k, 0);
      prev := QId(k);
      next := queuetab[prev].next;
      SearchStarts(qs.keys, l, delay);
      while next != QId(k) + 1 && queuetab[next].key <= key
        invariant 0 <= i <= |l| && prev == At(QId(k), l, i) && next == At(QId(k), l, i + 1) && 0 <= next < NQENT
        invariant Searched(qs.keys, l, delay, i, key)
        decreases |l| - i
      {
        NodeKey(t, qs, k, i);
        LinkOf(t, qs, k, i + 1);
        SearchOn(qs.keys, l, delay, i, key);
        key := key - queuetab[next].key;
        prev := next;
        next := queuetab[next].next;
        i := i + 1;
      }
      NodeKey(t, qs, k, i);
      SearchEnds(qs.keys, l, delay, i, key);
    }

    method InsertD(pid: int, k: int, delay: int)
      requires Valid() && 0 <= k < NQ && 0 <= pid < NPROC && qs.home[pid] == EMPTY
      modifies this, queuetab
      ensures Valid() && qs == old(InsertDQ(qs, pid, k, delay))
    {
      hide TableOK;
      var prev, next, key; ghost var i;
      prev, next, key, i := FindDelta(k, delay);
      LinkOf(queuetab[..], qs, k, i);
      Link(pid, prev, next, key, k, i);
      if next != QId(k) + 1 {
        NextNode(old(qs), k, i, pid);
        AddKey(next, -key);
      }
    }

    /** Adds to the key of a process, as unsleep and clkhandler do. */
    method AddKey(pid: int, x: int)
      requires Valid() && 0 <= pid < NPROC
      modifies this, queuetab
      ensures Valid() && qs == old(qs).(keys := old(qs).keys[pid := old(qs).keys[pid] + x])
    {
      ghost var t := queuetab[..];
      TableKey(t, qs, pid, queuetab[pid].key + x);
      queuetab[pid] := queuetab[pid].(key := queuetab[pid].key + x);
      assert queuetab[..] == t[pid := t[pid].(key := t[pid].key + x)];
      qs := qs.(keys := qs.keys[pid := qs.keys[pid] + x]);
    }

    method KeyOf(pid: int) returns (key: int)
      requires Valid() && 0 <= pid < NPROC
      ensures key == qs.keys[pid]
    {
      key := queuetab[pid].key;
    }

    /** The process behind pid on its list, or a number that is no process. */
    method NextOf(pid: int) returns (next: int)
      requires Valid() && 0 <= pid < NPROC && qs.home[pid] != EMPTY
      ensures var l := qs.lists[qs.home[pid]]; var i := IndexOf(l, pid);
              if i + 1 < |l| then next == l[i + 1] && 0 <= next < NPROC else next >= NPROC
    {
      ghost var k := qs.home[pid];
      LinkOf(queuetab[..], qs, k, IndexOf(qs.lists[k], pid) + 1);
      next := queuetab[pid].next;
    }
  }

  lemma LinkOf(t: seq<QEntry>, s: Qs, k: int, i: int)
    requires WfQ(s) && TableOK(t, s) && 0 <= k < NQ && 0 <= i <= |s.lists[k]|
    ensures LinkAt(t, At(QId(k), s.lists[k], i), At(QId(k), s.lists[k], i + 1))
    ensures forall j :: 0 <= j < |s.lists[k]| ==> 0 <= s.lists[k][j] < NPROC
    ensures QId(k) >= NPROC
  {
    assert ListOK(t, k, s.lists[k]);
  }

  /** The key found at the node behind position i of list k. */
  lemma NodeKey(t: seq<QEntry>, s: Qs, k: int, i: int)
    requires WfQ(s) && TableOK(t, s) && 0 <= k < NQ && 0 <= i <= |s.lists[k]|
    ensures
      var x := At(QId(k), s.lists[k], i + 1);
      0 <= x < |t| && t[x].key == (if i < |s.lists[k]| then s.keys[s.lists[k][i]] else MINKEY)
  {
    assert ListOK(t, k, s.lists[k]);
    if i < |s.lists[k]| { assert 0 <= s.lists[k][i] < NPROC; }
  }

  lemma FirstIs(s: Qs, k: int)
    requires WfQ(s) && 0 <= k < NQ && s.lists[k] != []
    ensures s.home[s.lists[k][0]] == k && IndexOf(s.lists[k], s.lists[k][0]) == 0
  {
  }

  lemma LastIs(s: Qs, k: int)
    requires WfQ(s) && 0 <= k < NQ && s.lists[k] != []
    ensures var l := s.lists[k]; s.home[l[|l| - 1]] == k && IndexOf(l, l[|l| - 1]) == |l| - 1
  {
  }

  lemma Loosened(s: Qs, k: int)
    requires WfQ(s) && 0 <= k < NQ && s.lists[k] != []
    ensures 0 <= s.lists[k][0] < NPROC && DequeueQ(s, k).home[s.lists[k][0]] == EMPTY
  {
  }

  lemma NextNode(s: Qs, k: int, i: int, p: int)
    requires WfQ(s) && 0 <= k < NQ && 0 <= i < |s.lists[k]| && 0 <= p < NPROC && s.home[p] == EMPTY
    ensures 0 <= s.lists[k][i] < NPROC && s.lists[k][i] != p
  {
  }
}
