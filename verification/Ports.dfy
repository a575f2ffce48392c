// The message lists of the ports as the kernel keeps them: nodes linked through
// ptnext, one free list, and a head and a tail for each port.
module Ports {
  import opened QueueTable
  import opened PortModel

  const NULL := -1

  datatype PtEntry = PtEntry(ptstate: PtState, ptmaxcnt: int, ptseq: int, pthead: int, pttail: int)

  // ---------------------------------------------------------------- chains

  function First(l: seq<int>): int { if l == [] then NULL else l[0] }

  function Last(l: seq<int>): int { if l == [] then NULL else l[|l| - 1] }

  /** Node i of list l points to the node behind it, the last one nowhere. */
  ghost predicate NextIs(next: seq<int>, l: seq<int>, i: int)
    requires 0 <= i < |l|
  {
    0 <= l[i] < |next| && next[l[i]] == if i + 1 < |l| then l[i + 1] else NULL
  }

  ghost predicate Chain(next: seq<int>, head: int, l: seq<int>) {
    head == First(l) && forall i :: 0 <= i < |l| ==> NextIs(next, l, i)
  }

  /** Node x is on list `owner[x]` and on no other; the free list counts as -1. */
  ghost predicate Owned(owner: seq<int>, l: seq<int>, k: int) {
    NoDup(l) && forall i :: 0 <= i < |l| ==> 0 <= l[i] < |owner| && owner[l[i]] == k
  }

  lemma ChainFrame(next: seq<int>, next': seq<int>, head: int, l: seq<int>)
    requires Chain(next, head, l) && |next'| == |next|
    requires forall i :: 0 <= i < |l| && 0 <= l[i] < |next| ==> next'[l[i]] == next[l[i]]
    ensures Chain(next', head, l)
  {
    forall i | 0 <= i < |l| ensures NextIs(next', l, i) { assert NextIs(next, l, i); }
  }

  lemma ChainTail(next: seq<int>, head: int, l: seq<int>)
    requires Chain(next, head, l) && l != []
    ensures 0 <= head < |next| && Chain(next, next[head], l[1..])
  {
    assert NextIs(next, l, 0);
    forall i | 0 <= i < |l| - 1 ensures NextIs(next, l[1..], i) { assert NextIs(next, l, i + 1); }
  }

  lemma OwnedTail(owner: seq<int>, l: seq<int>, k: int, m: int)
    requires Owned(owner, l, k) && l != []
    ensures Owned(owner[l[0] := m], l[1..], k)
  {
    assert forall i :: 0 <= i < |l| - 1 ==> l[1..][i] == l[i + 1];
    forall i | 0 <= i < |l| - 1 ensures l[1..][i] != l[0] { assert l[1..][i] == l[i + 1]; }
  }

  /** The last node of l is made to point to the first of m. */
  lemma ChainConcat(next: seq<int>, owner: seq<int>, h: int, l: seq<int>, k: int, f: int, m: seq<int>, j: int)
    requires Chain(next, h, l) && Chain(next, f, m) && Owned(owner, l, k) && Owned(owner, m, j) && k != j
    requires |owner| == |next| && l != []
    ensures 0 <= Last(l) < |next| && Chain(next[Last(l) := f], h, l + m)
  {
    assert NextIs(next, l, |l| - 1);
    var r, next' := l + m, next[Last(l) := f];
    forall i | 0 <= i < |r| ensures NextIs(next', r, i) {
      if i < |l| {
        assert NextIs(next, l, i);
        assert i < |l| - 1 ==> l[i] != l[|l| - 1];
      } else {
        assert NextIs(next, m, i - |l|);
        assert owner[m[i - |l|]] == j && owner[l[|l| - 1]] == k;
      }
    }
  }

  lemma OwnedAppend(owner: seq<int>, l: seq<int>, k: int, x: int)
    requires Owned(owner, l, k) && 0 <= x < |owner| && owner[x] != k
    ensures Owned(owner[x := k], l + [x], k)
  {
    var r := l + [x];
    forall i | 0 <= i < |l| ensures l[i] != x { assert owner[l[i]] == k; }
  }

  lemma OwnedPrepend(owner: seq<int>, l: seq<int>, k: int, x: int)
    requires Owned(owner, l, k) && 0 <= x < |owner| && owner[x] != k
    ensures Owned(owner[x := k], [x] + l, k)
  {
    forall i | 0 <= i < |l| ensures l[i] != x { assert owner[l[i]] == k; }
  }

  /** Every node of l passes to list j. */
  function Passed(owner: seq<int>, l: seq<int>, j: int): (r: seq<int>)
    ensures |r| == |owner| && forall x :: 0 <= x < |owner| ==> r[x] == if x in l then j else owner[x]
  {
    seq(|owner|, x requires 0 <= x < |owner| => if x in l then j else owner[x])
  }

  lemma OwnedConcat(owner: seq<int>, l: seq<int>, k: int, m: seq<int>, j: int)
    requires Owned(owner, l, k) && Owned(owner, m, j) && k != j
    ensures Owned(Passed(owner, l, j), l + m, j)
  {
    hide Passed;
    var r := l + m;
    forall a, b | 0 <= a < b < |r| ensures r[a] != r[b] {
      if a < |l| <= b { assert owner[l[a]] == k && owner[m[b - |l|]] == j; }
    }
    forall i | 0 <= i < |r| ensures 0 <= r[i] < |owner| && Passed(owner, l, j)[r[i]] == j {
      if i < |l| { assert l[i] in l; }
    }
  }

  // ---------------------------------------------------- messages in a list

  function ItemsOf(l: seq<int>, msgs: seq<int>): (r: seq<Item>)
    requires forall i :: 0 <= i < |l| ==> 0 <= l[i] < |msgs|
    ensures |r| == |l| && forall i :: 0 <= i < |l| ==> r[i] == Item(l[i], msgs[l[i]])
  {
    seq(|l|, i requires 0 <= i < |l| => Item(l[i], msgs[l[i]]))
  }

  lemma ItemsAppend(l: seq<int>, msgs: seq<int>, x: int, msg: int)
    requires (forall i :: 0 <= i < |l| ==> 0 <= l[i] < |msgs| && l[i] != x) && 0 <= x < |msgs|
    ensures ItemsOf(l + [x], msgs[x := msg]) == ItemsOf(l, msgs) + [Item(x, msg)]
    ensures ItemsOf(l, msgs[x := msg]) == ItemsOf(l, msgs)
  {
  }

  lemma ItemsTail(l: seq<int>, msgs: seq<int>)
    requires (forall i :: 0 <= i < |l| ==> 0 <= l[i] < |msgs|) && l != []
    ensures ItemsOf(l[1..], msgs) == ItemsOf(l, msgs)[1..]
  {
  }

  // ------------------------------------------------------------- the table

  /** Head and tail mean something while the port is in use or has messages. */
  ghost predicate EntryOK(e: PtEntry, next: seq<int>, l: seq<int>) {
    e.ptstate.PtAlloc? || l != [] ==> Chain(next, e.pthead, l) && e.pttail == Last(l)
  }

  /** Only the head and the tail of port p may differ. */
  ghost predicate SameBut(tab: seq<PtEntry>, tab': seq<PtEntry>, p: int)
    requires 0 <= p < |tab|
  {
    |tab'| == |tab| && tab' == tab[p := tab[p].(pthead := tab'[p].pthead, pttail := tab'[p].pttail)]
  }

  class PortTab {
    const ptnext: array<int>
    const ptmsg: array<int>
    var ptfree: int
    var porttab: seq<PtEntry>
    var ptnextid: int
    ghost var free: seq<int>
    ghost var lists: seq<seq<int>>
    ghost var owner: seq<int>

    ghost predicate Valid()
      reads this, ptnext, ptmsg
    {
      && ptnext != ptmsg && ptmsg.Length == ptnext.Length == |owner| && |porttab| == |lists| == NPORTS
      && 0 <= ptnextid < NPORTS
      && Chain(ptnext[..], ptfree, free) && Owned(owner, free, NULL)
      && (forall p :: 0 <= p < NPORTS ==> EntryOK(porttab[p], ptnext[..], lists[p]) && Owned(owner, lists[p], p))
      && (forall p :: 0 <= p < NPORTS && porttab[p].ptstate.PtFree? ==> lists[p] == [])
    }

    ghost function Items(p: int): seq<Item>
      requires 0 <= p < |lists| && forall i :: 0 <= i < |lists[p]| ==> 0 <= lists[p][i] < ptmsg.Length
      reads this, ptmsg
    {
      ItemsOf(lists[p], ptmsg[..])
    }

    /** ptinit: every node on the free list, in order. */
    constructor (maxmsgs: int)
      requires maxmsgs > 0
      ensures Valid() && fresh(ptnext) && fresh(ptmsg)
      ensures free == seq(maxmsgs, i => i) && forall p :: 0 <= p < NPORTS ==> lists[p] == []
      ensures porttab == seq(NPORTS, _ => PtEntry(PtFree, 0, 0, NULL, NULL))
    {
      ptnext := new int[maxmsgs](_ => NULL);
      ptmsg := new int[maxmsgs](_ => 0);
      ptfree, ptnextid := 0, 0;
      porttab := seq(NPORTS, _ => PtEntry(PtFree, 0, 0, NULL, NULL));
      free, lists, owner := seq(maxmsgs, i => i), seq(NPORTS, _ => []), seq(maxmsgs, _ => NULL);
      new;
      var left, curr, next := maxmsgs - 1, 0, 0;
      while left > 0
        invariant 0 <= left < maxmsgs && curr == next == maxmsgs - 1 - left
        invariant ptfree == 0 && ptnextid == 0 && ptnext.Length == ptmsg.Length == maxmsgs && ptnext != ptmsg
        invariant porttab == seq(NPORTS, _ => PtEntry(PtFree, 0, 0, NULL, NULL)) && free == seq(maxmsgs, i => i)
        invariant lists == seq(NPORTS, _ => []) && owner == seq(maxmsgs, _ => NULL)
        invariant forall i :: 0 <= i < curr ==> ptnext[i] == i + 1
      {
        next := next + 1;
        ptnext[curr] := next;
        curr := next;
        left := left - 1;
      }
      ptnext[curr] := NULL;
    }

    /** The end of ptsend: false if the system has run out of nodes. */
    method Append(p: int, msg: int) returns (ok: bool)
      requires Valid() && 0 <= p < NPORTS && porttab[p].ptstate.PtAlloc?
      modifies this, ptnext, ptmsg
      ensures Valid() && ok == (old(free) != [])
      ensures !ok ==> lists == old(lists) && free == old(free) && Items(p) == old(Items(p))
      ensures ok ==> free == old(free)[1..] && Items(p) == old(Items(p)) + [Item(old(free)[0], msg)]
      ensures ok ==> lists == old(lists)[p := old(lists)[p] + [old(free)[0]]]
      ensures forall q :: 0 <= q < NPORTS && q != p ==> Items(q) == old(Items(q))
      ensures SameBut(old(porttab), porttab, p) && ptnextid == old(ptnextid)
    {
      hide Chain, Owned;
      NodesOf();
      if ptfree == NULL {
        FreeNull(ptnext[..], ptfree, free);
        return false;
      }
      FreeNull(ptnext[..], ptfree, free);
      MoveNode(p, msg);
      return true;
    }

    /** The first free node, with the message, goes to the end of the port's list. */
    method MoveNode(p: int, msg: int)
      requires Valid() && 0 <= p < NPORTS && porttab[p].ptstate.PtAlloc? && free != []
      modifies this, ptnext, ptmsg
      ensures Valid() && free == old(free)[1..] && Items(p) == old(Items(p)) + [Item(old(free)[0], msg)]
      ensures lists == old(lists)[p := old(lists)[p] + [old(free)[0]]]
      ensures forall q :: 0 <= q < NPORTS && q != p ==> Items(q) == old(Items(q))
      ensures SameBut(old(porttab), porttab, p) && ptnextid == old(ptnextid)
    {
      hide Chain, Owned, ItemsOf, Appended, EntryOK;
      NodesOf();
      FreeNull(ptnext[..], ptfree, free);
      ghost var n0, l, x := ptnext[..], lists[p], free[0];
      AppendStep(n0, owner, free, lists, porttab, ptfree, p);
      var msgnode := ptfree;
      ptfree := ptnext[msgnode];
      ptnext[msgnode] := NULL;
      ptmsg[msgnode] := msg;
      var tailnode := porttab[p].pttail;
      if tailnode == NULL {
        porttab := porttab[p := porttab[p].(pttail := msgnode, pthead := msgnode)];
      } else {
        ptnext[tailnode] := msgnode;
        porttab := porttab[p := porttab[p].(pttail := msgnode)];
      }
      AppendedIs(n0, l, x);
      assert ptnext[..] == Appended(n0, l, x);
      assert ptmsg[..] == old(ptmsg[..])[x := msg];
      ItemsMoved(lists, old(ptmsg[..]), p, x, msg);
      EntryMade(porttab[p], ptnext[..], l + [x]);
      free, lists, owner := free[1..], lists[p := l + [x]], owner[x := p];
    }

    /** The end of ptrecv: the first message leaves and its node is free. */
    method Remove(p: int) returns (msg: int)
      requires Valid() && 0 <= p < NPORTS && porttab[p].ptstate.PtAlloc? && lists[p] != []
      modifies this, ptnext
      ensures Valid() && free == [old(lists)[p][0]] + old(free) && lists == old(lists)[p := old(lists)[p][1..]]
      ensures msg == old(Items(p))[0].msg && Items(p) == old(Items(p))[1..]
      ensures forall q :: 0 <= q < NPORTS && q != p ==> Items(q) == old(Items(q))
      ensures SameBut(old(porttab), porttab, p) && ptnextid == old(ptnextid)
    {
      hide Chain, Owned, ItemsOf;
      NodesOf();
      ghost var n0, l, x := ptnext[..], lists[p], lists[p][0];
      RemoveStep(n0, owner, free, lists, porttab, ptfree, p);
      var msgnode := porttab[p].pthead;
      msg := ptmsg[msgnode];
      if porttab[p].pthead == porttab[p].pttail {
        porttab := porttab[p := porttab[p].(pthead := NULL, pttail := NULL)];
      } else {
        porttab := porttab[p := porttab[p].(pthead := ptnext[msgnode])];
      }
      ptnext[msgnode] := ptfree;
      ptfree := msgnode;
      assert ptnext[..] == n0[x := First(free)];
      ItemsTail(l, ptmsg[..]);
      free, lists, owner := [x] + free, lists[p := l[1..]], owner[x := NULL];
    }

    /** The walk of _ptclear over the messages it disposes of. */
    method DisposeAll(p: int) returns (gone: seq<int>)
      requires Valid() && 0 <= p < NPORTS && Chain(ptnext[..], porttab[p].pthead, lists[p])
      ensures gone == Msgs(Items(p))
    {
      NodesOf();
      ghost var l := lists[p];
      gone := [];
      ghost var j := 0;
      var walk := porttab[p].pthead;
      while walk != NULL
        invariant 0 <= j <= |l| && walk == (if j < |l| then l[j] else NULL) && gone == Msgs(Items(p))[..j]
        decreases |l| - j
      {
        assert NextIs(ptnext[..], l, j);
        assert Msgs(Items(p))[..j + 1] == Msgs(Items(p))[..j] + [ptmsg[l[j]]];
        gone := gone + [ptmsg[walk]];
        walk := ptnext[walk];
        j := j + 1;
      }
    }

    /** _ptclear between the disposal and the first semaphore: the whole list
        goes to the head of the free list. */
    method Release(p: int, reset: bool)
      requires Valid() && 0 <= p < NPORTS && porttab[p].ptstate.PtLimbo?
      requires Chain(ptnext[..], porttab[p].pthead, lists[p]) && porttab[p].pttail == Last(lists[p])
      modifies this, ptnext
      ensures Valid() && free == old(lists)[p] + old(free) && lists == old(lists)[p := []] && ptnextid == old(ptnextid)
      ensures var e := old(porttab)[p];
              porttab == old(porttab)[p := if reset then e.(pttail := NULL, pthead := NULL) else e]
    {
      hide Chain, Owned;
      NodesOf();
      ghost var n0, l := ptnext[..], lists[p];
      ReleaseStep(n0, owner, free, lists, porttab, ptfree, p);
      if porttab[p].pthead != NULL {
        ptnext[porttab[p].pttail] := ptfree;
        ptfree := porttab[p].pthead;
        assert ptnext[..] == n0[Last(l) := First(free)];
      }
      if reset {
        porttab := porttab[p := porttab[p].(pttail := NULL, pthead := NULL)];
      }
      free, lists, owner := l + free, lists[p := []], Passed(owner, l, NULL);
      EmptyEntry(porttab[p], ptnext[..]);
      assert forall q :: 0 <= q < NPORTS ==> EntryOK(porttab[q], ptnext[..], lists[q]) && Owned(owner, lists[q], q);
    }

    /** _ptclear as a whole, but for its semaphores. */
    method PtClear(p: int, reset: bool) returns (gone: seq<int>)
      requires Valid() && 0 <= p < NPORTS && porttab[p].ptstate.PtAlloc?
      modifies this, ptnext
      ensures Valid() && gone == Msgs(old(Items(p)))
      ensures free == old(lists)[p] + old(free) && lists == old(lists)[p := []] && ptnextid == old(ptnextid)
      ensures porttab == old(porttab)[p := porttab[p]] && porttab[p].ptstate == (if reset then PtAlloc else PtFree)
      ensures porttab[p].ptseq == old(porttab)[p].ptseq + 1 && porttab[p].ptmaxcnt == old(porttab)[p].ptmaxcnt
      ensures forall q :: 0 <= q < NPORTS && q != p ==> Items(q) == old(Items(q))
    {
      hide Chain, Owned;
      NodesOf();
      porttab := porttab[p := porttab[p].(ptstate := PtLimbo, ptseq := porttab[p].ptseq + 1)];
      gone := DisposeAll(p);
      Release(p, reset);
      porttab := porttab[p := porttab[p].(ptstate := if reset then PtAlloc else PtFree)];
      EmptyEntry(porttab[p], ptnext[..]);
    }

    /** ptdelete and ptreset: SYSERR unless the port is in use. */
    method PtReset(p: int) returns (ok: bool, gone: seq<int>)
      requires Valid()
      modifies this, ptnext
      ensures Valid() && ok == (0 <= p < NPORTS && old(porttab)[p].ptstate.PtAlloc?) && ptnextid == old(ptnextid)
      ensures forall q :: 0 <= q < NPORTS && q != p ==> Items(q) == old(Items(q))
      ensures if ok then gone == Msgs(old(Items(p))) && lists == old(lists)[p := []] && free == old(lists)[p] + old(free)
                         && porttab == old(porttab)[p := porttab[p]] && porttab[p].ptstate.PtAlloc?
                         && porttab[p].ptseq == old(porttab)[p].ptseq + 1 && porttab[p].ptmaxcnt == old(porttab)[p].ptmaxcnt
              else lists == old(lists) && free == old(free) && porttab == old(porttab)
    {
      if p < 0 || p >= NPORTS || !porttab[p].ptstate.PtAlloc? {
        return false, [];
      }
      gone := PtClear(p, true);
      return true, gone;
    }

    method PtDelete(p: int) returns (ok: bool, gone: seq<int>)
      requires Valid()
      modifies this, ptnext
      ensures Valid() && ok == (0 <= p < NPORTS && old(porttab)[p].ptstate.PtAlloc?)
      ensures forall q :: 0 <= q < NPORTS && q != p ==> Items(q) == old(Items(q))
      ensures if ok then gone == Msgs(old(Items(p))) && lists == old(lists)[p := []] && free == old(lists)[p] + old(free)
                         && porttab == old(porttab)[p := porttab[p]] && porttab[p].ptstate.PtFree? && ptnextid == p
                         && porttab[p].ptseq == old(porttab)[p].ptseq + 1 && porttab[p].ptmaxcnt == old(porttab)[p].ptmaxcnt
              else lists == old(lists) && free == old(free) && porttab == old(porttab) && ptnextid == old(ptnextid)
    {
      if p < 0 || p >= NPORTS || !porttab[p].ptstate.PtAlloc? {
        return false, [];
      }
      gone := PtClear(p, false);
      ptnextid := p;
      return true, gone;
    }

    /** ptcreate: the next free entry, round robin, or SYSERR. */
    method NewPort(count: int) returns (id: int)
      requires Valid()
      modifies this
      ensures Valid() && free == old(free) && lists == old(lists)
      ensures id == NULL <==> count < 0 || forall p :: 0 <= p < NPORTS ==> !old(porttab)[p].ptstate.PtFree?
      ensures id != NULL ==> ptnextid == if id + 1 == NPORTS then 0 else id + 1
      ensures id != NULL ==>
                forall p :: 0 <= p < NPORTS && Steps(old(ptnextid), p) < Steps(old(ptnextid), id) ==> !old(porttab)[p].ptstate.PtFree?
      ensures if id == NULL then porttab == old(porttab)
              else && 0 <= id < NPORTS && old(porttab)[id].ptstate.PtFree?
                   && porttab == old(porttab)[id := PtEntry(PtAlloc, count % M16, old(porttab)[id].ptseq + 1, NULL, NULL)]
    {
      hide Chain, Owned;
      if count < 0 {
        return NULL;
      }
      ghost var start := ptnextid;
      for i := 0 to NPORTS
        invariant Valid() && porttab == old(porttab) && free == old(free) && lists == old(lists)
        invariant i < NPORTS ==> Steps(start, ptnextid) == i
        invariant forall p :: 0 <= p < NPORTS && Steps(start, p) < i ==> !porttab[p].ptstate.PtFree?
      {
        id := ptnextid;
        ptnextid := if ptnextid + 1 >= NPORTS then 0 else ptnextid + 1;
        if porttab[id].ptstate.PtFree? {
          porttab := porttab[id := PtEntry(PtAlloc, count % M16, porttab[id].ptseq + 1, NULL, NULL)];
          EmptyEntry(porttab[id], ptnext[..]);
          return;
        }
      }
      return NULL;
    }

    lemma NodesOf()
      requires Valid()
      ensures forall i :: 0 <= i < |free| ==> 0 <= free[i] < ptnext.Length && owner[free[i]] == NULL
      ensures forall p, i :: 0 <= p < NPORTS && 0 <= i < |lists[p]| ==> 0 <= lists[p][i] < ptnext.Length && owner[lists[p][i]] == p
    {
    }
  }

  lemma FreeNull(next: seq<int>, head: int, l: seq<int>)
    requires Chain(next, head, l)
    ensures head == NULL <==> l == []
    ensures l != [] ==> 0 <= l[0] < |next| && head == l[0]
  {
    if l != [] { assert NextIs(next, l, 0); }
  }

  /** The links once x has been taken off the free list and put behind l. */
  function Appended(next: seq<int>, l: seq<int>, x: int): (r: seq<int>)
    requires 0 <= x < |next| && (l != [] ==> 0 <= Last(l) < |next|)
    ensures |r| == |next|
  {
    if l == [] then next[x := NULL] else next[x := NULL][Last(l) := x]
  }

  lemma ItemsMoved(lists: seq<seq<int>>, msgs: seq<int>, p: int, x: int, msg: int)
    requires |lists| == NPORTS && 0 <= p < NPORTS && 0 <= x < |msgs|
    requires forall q, i :: 0 <= q < NPORTS && 0 <= i < |lists[q]| ==> 0 <= lists[q][i] < |msgs| && lists[q][i] != x
    ensures ItemsOf(lists[p] + [x], msgs[x := msg]) == ItemsOf(lists[p], msgs) + [Item(x, msg)]
    ensures forall q :: 0 <= q < NPORTS ==> ItemsOf(lists[q], msgs[x := msg]) == ItemsOf(lists[q], msgs)
  {
    forall q | 0 <= q < NPORTS
      ensures ItemsOf(lists[q] + [x], msgs[x := msg]) == ItemsOf(lists[q], msgs) + [Item(x, msg)]
      ensures ItemsOf(lists[q], msgs[x := msg]) == ItemsOf(lists[q], msgs)
    {
      ItemsAppend(lists[q], msgs, x, msg);
    }
  }

  lemma EntryMade(e: PtEntry, next: seq<int>, l: seq<int>)
    requires Chain(next, e.pthead, l) && e.pttail == Last(l)
    ensures EntryOK(e, next, l)
  {
  }

  lemma AppendedIs(next: seq<int>, l: seq<int>, x: int)
    requires 0 <= x < |next| && (l != [] ==> 0 <= Last(l) < |next|)
    ensures Appended(next, l, x) == if l == [] then next[x := NULL] else next[x := NULL][Last(l) := x]
  {
  }

  lemma AppendStep(next: seq<int>, owner: seq<int>, free: seq<int>, lists: seq<seq<int>>, tab: seq<PtEntry>, head: int, p: int)
    requires |next| == |owner| && |lists| == |tab| == NPORTS && Chain(next, head, free) && Owned(owner, free, NULL) && free != []
    requires forall q :: 0 <= q < NPORTS ==> EntryOK(tab[q], next, lists[q]) && Owned(owner, lists[q], q)
    requires 0 <= p < NPORTS && tab[p].ptstate.PtAlloc?
    ensures var x, l := free[0], lists[p];
            && 0 <= x < |next| && (l != [] ==> 0 <= Last(l) < |next| && Last(l) != x) && tab[p].pttail == Last(l)
            && (l != [] ==> tab[p].pthead == l[0])
            && var n := Appended(next, l, x);
               && Chain(n, next[x], free[1..]) && Owned(owner[x := p], free[1..], NULL)
               && Chain(n, First(l + [x]), l + [x]) && Owned(owner[x := p], l + [x], p)
               && forall q :: 0 <= q < NPORTS && q != p ==> EntryOK(tab[q], n, lists[q]) && Owned(owner[x := p], lists[q], q)
  {
    var x, l := free[0], lists[p];
    var n := Appended(next, l, x);
    ChainTail(next, head, free);
    OwnedTail(owner, free, NULL, p);
    OwnedAppend(owner, l, p, x);
    TailApart(owner, l, p, x, free);
    ChainFrame(next, n, next[x], free[1..]);
    AppendChain(next, l, x);
    forall q | 0 <= q < NPORTS && q != p ensures EntryOK(tab[q], n, lists[q]) && Owned(owner[x := p], lists[q], q) {
      OtherList(next, owner, tab[q], lists[q], q, l, p, x);
    }
  }

  lemma TailApart(owner: seq<int>, l: seq<int>, p: int, x: int, free: seq<int>)
    requires Owned(owner, l, p) && Owned(owner, free, NULL) && free != [] && x == free[0] && p >= 0
    ensures l != [] ==> Last(l) != x
    ensures forall i :: 0 <= i < |free[1..]| ==> free[1..][i] != x && (l != [] ==> free[1..][i] != Last(l))
    ensures forall i :: 0 <= i < |l| ==> l[i] != x
  {
    assert forall i :: 0 <= i < |free| - 1 ==> free[1..][i] == free[i + 1];
  }

  lemma AppendChain(next: seq<int>, l: seq<int>, x: int)
    requires Chain(next, First(l), l) && 0 <= x < |next| && NoDup(l) && forall i :: 0 <= i < |l| ==> l[i] != x
    requires l != [] ==> 0 <= Last(l) < |next|
    ensures Chain(Appended(next, l, x), First(l + [x]), l + [x])
  {
    var r, n := l + [x], Appended(next, l, x);
    forall i | 0 <= i < |r| ensures NextIs(n, r, i) {
      if i < |l| {
        assert NextIs(next, l, i);
        assert i < |l| - 1 ==> l[i] != l[|l| - 1];
      }
    }
  }

  lemma OtherList(next: seq<int>, owner: seq<int>, e: PtEntry, m: seq<int>, q: int, l: seq<int>, p: int, x: int)
    requires |owner| == |next| && EntryOK(e, next, m) && Owned(owner, m, q) && Owned(owner, l, p) && p != q && q >= 0
    requires 0 <= x < |next| && owner[x] == NULL && (l != [] ==> 0 <= Last(l) < |next|)
    ensures EntryOK(e, Appended(next, l, x), m) && Owned(owner[x := p], m, q)
  {
    forall i | 0 <= i < |m| ensures m[i] != x && (l != [] ==> m[i] != Last(l)) {
      assert owner[m[i]] == q;
    }
    if e.ptstate.PtAlloc? || m != [] { ChainFrame(next, Appended(next, l, x), e.pthead, m); }
  }

  function Steps(start: int, p: int): int { if p >= start then p - start else p - start + NPORTS }

  lemma EmptyEntry(e: PtEntry, next: seq<int>)
    requires e.ptstate.PtAlloc? ==> e.pthead == e.pttail == NULL
    ensures EntryOK(e, next, [])
  {
  }

  lemma RemoveStep(next: seq<int>, owner: seq<int>, free: seq<int>, lists: seq<seq<int>>, tab: seq<PtEntry>, head: int, p: int)
    requires |next| == |owner| && |lists| == |tab| == NPORTS && Chain(next, head, free) && Owned(owner, free, NULL)
    requires forall q :: 0 <= q < NPORTS ==> EntryOK(tab[q], next, lists[q]) && Owned(owner, lists[q], q)
    requires 0 <= p < NPORTS && lists[p] != []
    ensures var x, l := lists[p][0], lists[p];
            && 0 <= x < |next| && tab[p].pthead == x && tab[p].pttail == Last(l) && (x == Last(l) <==> |l| == 1) && head == First(free)
            && var n := next[x := First(free)];
               && Chain(n, x, [x] + free) && Owned(owner[x := NULL], [x] + free, NULL)
               && Chain(n, if |l| == 1 then NULL else next[x], l[1..]) && Owned(owner[x := NULL], l[1..], p)
               && Last(l[1..]) == (if |l| == 1 then NULL else Last(l))
               && forall q :: 0 <= q < NPORTS && q != p ==> EntryOK(tab[q], n, lists[q]) && Owned(owner[x := NULL], lists[q], q)
  {
    var x, l := lists[p][0], lists[p];
    assert EntryOK(tab[p], next, l) && Owned(owner, l, p);
    var n := next[x := First(free)];
    OwnedPrepend(owner, free, NULL, x);
    ChainFirst(next, free, x, head);
    ChainTail(next, x, l);
    OwnedTail(owner, l, p, NULL);
    TailFrame(next, n, owner, l, p);
    forall q | 0 <= q < NPORTS && q != p ensures EntryOK(tab[q], n, lists[q]) && Owned(owner[x := NULL], lists[q], q) {
      Untouched(next, n, owner, owner[x := NULL], tab[q], lists[q], q, l, p);
    }
  }

  lemma ChainFirst(next: seq<int>, free: seq<int>, x: int, head: int)
    requires Chain(next, head, free) && 0 <= x < |next| && forall i :: 0 <= i < |free| ==> free[i] != x
    ensures Chain(next[x := First(free)], x, [x] + free)
  {
    var r, n := [x] + free, next[x := First(free)];
    forall i | 0 <= i < |r| ensures NextIs(n, r, i) {
      if i > 0 { assert NextIs(next, free, i - 1); }
    }
  }

  lemma TailFrame(next: seq<int>, n: seq<int>, owner: seq<int>, l: seq<int>, p: int)
    requires Chain(next, First(l), l) && l != [] && 0 <= l[0] < |next| == |n| && Owned(owner, l, p)
    requires forall y :: 0 <= y < |next| && y != l[0] ==> n[y] == next[y]
    ensures Chain(n, if |l| == 1 then NULL else next[l[0]], l[1..])
  {
    ChainTail(next, l[0], l);
    forall i | 0 <= i < |l| - 1 ensures l[1..][i] != l[0] { assert l[1..][i] == l[i + 1]; }
    ChainFrame(next, n, next[l[0]], l[1..]);
  }

  /** A list none of whose nodes is in l does not notice what happens to l. */
  lemma Untouched(next: seq<int>, n: seq<int>, owner: seq<int>, owner': seq<int>, e: PtEntry, m: seq<int>, q: int, l: seq<int>, p: int)
    requires |owner| == |next| == |n| == |owner'| && EntryOK(e, next, m) && Owned(owner, m, q) && Owned(owner, l, p) && p != q
    requires forall y :: 0 <= y < |next| && y !in l ==> n[y] == next[y] && owner'[y] == owner[y]
    ensures EntryOK(e, n, m) && Owned(owner', m, q)
  {
    forall i | 0 <= i < |m| ensures m[i] !in l {
      assert owner[m[i]] == q;
    }
    if e.ptstate.PtAlloc? || m != [] { ChainFrame(next, n, e.pthead, m); }
  }

  lemma ReleaseStep(next: seq<int>, owner: seq<int>, free: seq<int>, lists: seq<seq<int>>, tab: seq<PtEntry>, head: int, p: int)
    requires |next| == |owner| && |lists| == |tab| == NPORTS && Chain(next, head, free) && Owned(owner, free, NULL)
    requires forall q :: 0 <= q < NPORTS ==> EntryOK(tab[q], next, lists[q]) && Owned(owner, lists[q], q)
    requires 0 <= p < NPORTS && Chain(next, tab[p].pthead, lists[p]) && tab[p].pttail == Last(lists[p])
    ensures var l := lists[p];
            && tab[p].pthead == First(l) && head == First(free) && (l != [] ==> 0 <= Last(l) < |next| && 0 <= l[0])
            && var n := if l == [] then next else next[Last(l) := First(free)];
               && Chain(n, First(l + free), l + free) && Owned(Passed(owner, l, NULL), l + free, NULL)
               && Owned(Passed(owner, l, NULL), [], p)
               && forall q :: 0 <= q < NPORTS && q != p ==> EntryOK(tab[q], n, lists[q]) && Owned(Passed(owner, l, NULL), lists[q], q)
  {
    var l := lists[p];
    assert Owned(owner, l, p);
    var n := if l == [] then next else next[Last(l) := First(free)];
    OwnedConcat(owner, l, p, free, NULL);
    if l == [] {
      assert l + free == free;
    } else {
      ChainConcat(next, owner, First(l), l, p, head, free, NULL);
      assert Last(l) in l;
    }
    forall q | 0 <= q < NPORTS && q != p ensures EntryOK(tab[q], n, lists[q]) && Owned(Passed(owner, l, NULL), lists[q], q) {
      Untouched(next, n, owner, Passed(owner, l, NULL), tab[q], lists[q], q, l, p);
    }
  }
}
