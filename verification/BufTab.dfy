// The buffer pools in memory: the first word of a buffer is a link while the
// buffer is free and the ID of its pool while a caller has it.
module BufTab {
  import opened QueueTable
  import opened BufferPools

  const NULL := 0
  const SYSERR := -1
  const BP_MINB := 8
  const BP_MAXB := 8192
  const BP_MAXN := 2048

  datatype BpEntry = BpEntry(bpnext: int, bpsize: int)

  // ----------------------------------------------------- lists in memory

  function First(l: seq<int>): int { if l == [] then NULL else l[0] }

  ghost predicate NextIs(mem: map<int, int>, l: seq<int>, i: int)
    requires 0 <= i < |l|
  {
    l[i] in mem && mem[l[i]] == if i + 1 < |l| then l[i + 1] else NULL
  }

  ghost predicate Chain(mem: map<int, int>, head: int, l: seq<int>) {
    head == First(l) && forall i :: 0 <= i < |l| ==> NextIs(mem, l, i)
  }

  /** The free list of pool p: its own buffers, none twice, none in use. */
  ghost predicate FreeListOK(mem: map<int, int>, head: int, l: seq<int>, owner: map<int, int>, held: set<int>, p: int) {
    Chain(mem, head, l) && NoDup(l) && forall i :: 0 <= i < |l| ==> l[i] in owner && owner[l[i]] == p && l[i] !in held
  }

  /** A buffer in use carries the ID of its pool. */
  ghost predicate HeldOK(mem: map<int, int>, owner: map<int, int>, held: set<int>, pools: int) {
    forall a :: a in held ==> a in owner && a in mem && mem[a] == owner[a] && 0 <= owner[a] < pools
  }

  lemma ChainFrame(mem: map<int, int>, mem': map<int, int>, head: int, l: seq<int>)
    requires Chain(mem, head, l)
    requires forall i :: 0 <= i < |l| ==> l[i] in mem' && (l[i] in mem ==> mem'[l[i]] == mem[l[i]])
    ensures Chain(mem', head, l)
  {
    forall i | 0 <= i < |l| ensures NextIs(mem', l, i) { assert NextIs(mem, l, i); }
  }

  lemma ChainIn(mem: map<int, int>, head: int, l: seq<int>)
    requires Chain(mem, head, l)
    ensures forall i :: 0 <= i < |l| ==> l[i] in mem
  {
    forall i | 0 <= i < |l| ensures l[i] in mem { assert NextIs(mem, l, i); }
  }

  /** One buffer's first word changes; lists without that buffer do not notice. */
  lemma ListFrame(mem: map<int, int>, head: int, l: seq<int>, owner: map<int, int>, held: set<int>, held': set<int>, p: int, a: int, v: int)
    requires FreeListOK(mem, head, l, owner, held, p) && (forall i :: 0 <= i < |l| ==> l[i] != a)
    requires forall x :: x in held' ==> x in held || x == a
    ensures FreeListOK(mem[a := v], head, l, owner, held', p)
  {
    hide NoDup;
    ChainIn(mem, head, l);
    ChainFrame(mem, mem[a := v], head, l);
  }

  lemma PopList(mem: map<int, int>, head: int, l: seq<int>, owner: map<int, int>, held: set<int>, p: int)
    requires FreeListOK(mem, head, l, owner, held, p) && l != []
    ensures head == l[0] && head in mem && head in owner && owner[head] == p && head !in held
    ensures FreeListOK(mem[head := p], mem[head], l[1..], owner, held + {head}, p)
  {
    assert NextIs(mem, l, 0);
    var r := l[1..];
    forall i | 0 <= i < |r| ensures NextIs(mem, r, i) && r[i] != head && r[i] in owner && owner[r[i]] == p && r[i] !in held {
      assert r[i] == l[i + 1];
      assert NextIs(mem, l, i + 1);
    }
    forall i, j | 0 <= i < j < |r| ensures r[i] != r[j] { assert r[i] == l[i + 1] && r[j] == l[j + 1]; }
    ChainFrame(mem, mem[head := p], mem[head], r);
  }

  lemma PushList(mem: map<int, int>, head: int, l: seq<int>, owner: map<int, int>, held: set<int>, p: int, a: int)
    requires FreeListOK(mem, head, l, owner, held, p) && a in held && a in owner && owner[a] == p
    ensures FreeListOK(mem[a := head], a, [a] + l, owner, held - {a}, p)
  {
    var r, mem' := [a] + l, mem[a := head];
    ChainIn(mem, head, l);
    forall i | 0 <= i < |r| ensures NextIs(mem', r, i) {
      if i > 0 { assert NextIs(mem, l, i - 1); }
    }
  }

  // ------------------------------------------------------ slots of a pool

  /** The addresses of n buffers of the given size, one behind the other. */
  function Slots(buf: int, size: int, n: nat): (r: seq<int>)
    ensures |r| == n
    decreases n
  {
    if n == 0 then [] else [buf] + Slots(buf + size, size, n - 1)
  }

  lemma {:induction false} SlotsRise(buf: int, size: int, n: nat)
    requires size > 0
    ensures forall i :: 0 <= i < n ==> Slots(buf, size, n)[i] >= buf
    ensures NoDup(Slots(buf, size, n))
    decreases n
  {
    if n > 0 {
      SlotsRise(buf + size, size, n - 1);
      var r := Slots(buf, size, n);
      assert forall i :: 1 <= i < n ==> r[i] == Slots(buf + size, size, n - 1)[i - 1];
    }
  }

  lemma {:induction false} SlotsSplit(buf: int, size: int, n: nat, k: nat, at: int)
    requires k < n && at == SlotAt(buf, size, k)
    ensures Slots(buf, size, n)[k] == at && (k + 1 < n ==> Slots(buf, size, n)[k + 1] == at + size)
    decreases k
  {
    if k > 0 { SlotsSplit(buf + size, size, n - 1, k - 1, at); }
  }

  function SlotAt(buf: int, size: int, k: nat): int
    decreases k
  {
    if k == 0 then buf else SlotAt(buf + size, size, k - 1)
  }

  lemma {:induction false} SlotAtNext(buf: int, size: int, k: nat)
    ensures SlotAt(buf, size, k + 1) == SlotAt(buf, size, k) + size
    decreases k
  {
    if k > 0 { SlotAtNext(buf + size, size, k - 1); }
  }

  /** Rounded up to whole words, as mkbufpool does. */
  function Words(n: int): (r: int)
    ensures r % 4 == 0 && n <= r < n + 4
  {
    (n + 3) / 4 * 4
  }

  /** All slots lie below the end of the memory that getmem returned, so pools made
      from disjoint memory have no slot in common. */
  lemma {:induction false} SlotsBelow(buf: int, size: int, n: nat)
    requires size > 0
    ensures forall x :: x in Slots(buf, size, n) ==> buf <= x < SlotAt(buf, size, n)
    decreases n
  {
    if n > 0 {
      SlotsBelow(buf + size, size, n - 1);
      SlotAtRises(buf + size, size, n - 1);
      assert Slots(buf, size, n) == [buf] + Slots(buf + size, size, n - 1);
    }
  }

  lemma {:induction false} SlotAtRises(buf: int, size: int, n: nat)
    requires size > 0
    ensures SlotAt(buf, size, n) >= buf
    decreases n
  {
    if n > 0 { SlotAtRises(buf + size, size, n - 1); }
  }

  /** A second pool may be made from memory above that of the first. */
  lemma StaysUnowned(owner: map<int, int>, l: seq<int>, p: int, buf: int, size: int, n: nat)
    requires size > 0 && Unowned(Slots(buf, size, n), owner) && forall x :: x in l ==> x < buf || x >= SlotAt(buf, size, n)
    ensures Unowned(Slots(buf, size, n), Adding(owner, l, p))
  {
    SlotsBelow(buf, size, n);
  }

  /** New memory: none of these addresses belongs to a pool. */
  ghost predicate Unowned(l: seq<int>, owner: map<int, int>) { forall x :: x in l ==> x !in owner }

  class BufTable {
    var mem: map<int, int>
    var buftab: seq<BpEntry>
    ghost var lists: seq<seq<int>>
    ghost var owner: map<int, int>
    ghost var held: set<int>

    ghost predicate Valid()
      reads this
    {
      && |lists| == |buftab| <= NBPOOLS
      && HeldOK(mem, owner, held, |buftab|)
      && (forall p :: 0 <= p < |buftab| ==> FreeListOK(mem, buftab[p].bpnext, lists[p], owner, held, p))
    }

    constructor ()
      ensures Valid() && buftab == [] && lists == [] && owner == map[] && held == {}
    {
      mem, buftab, lists, owner, held := map[], [], [], map[], {};
    }

    /** mkbufpool, given what getmem returned and whether semcreate succeeded. */
    method MkBufPool(bufsiz: int, numbufs: int, buf: int, semok: bool) returns (id: int)
      requires Valid() && (buf != SYSERR ==> buf > 0)
      requires buf != SYSERR && numbufs > 0 ==>
                 Unowned(Slots(buf, Words(bufsiz) + 4, numbufs), owner)
      modifies this
      ensures Valid() && held == old(held)
      ensures id == SYSERR <==> bufsiz < BP_MINB || bufsiz > BP_MAXB || numbufs < 1 || numbufs > BP_MAXN
                                || |old(buftab)| >= NBPOOLS || buf == SYSERR || !semok
      ensures if id == SYSERR then lists == old(lists) && buftab == old(buftab) && owner == old(owner)
              else && id == |old(buftab)| && owner == Adding(old(owner), Slots(buf, Words(bufsiz) + 4, numbufs), id)
                   && lists == old(lists) + [Slots(buf, Words(bufsiz) + 4, numbufs)]
                   && buftab == old(buftab) + [BpEntry(buf, Words(bufsiz))]
    {
      hide FreeListOK, HeldOK, Slots, Chain, NoDup, Adding;
      if bufsiz < BP_MINB || bufsiz > BP_MAXB || numbufs < 1 || numbufs > BP_MAXN || |buftab| >= NBPOOLS {
        return SYSERR;
      }
      var size := Words(bufsiz);
      if buf == SYSERR || !semok {
        return SYSERR;
      }
      var p := |buftab|;
      ghost var l, mem0 := Slots(buf, size + 4, numbufs), mem;
      LinkSlots(buf, size + 4, numbufs);
      SlotsRise(buf, size + 4, numbufs);
      PoolAdded(mem0, mem, buftab, lists, owner, held, buf, l, size);
      buftab := buftab + [BpEntry(buf, size)];
      lists, owner := lists + [l], Adding(owner, l, p);
      return p;
    }

    /** The loop of mkbufpool. */
    method LinkSlots(buf0: int, size: int, n: int)
      requires n > 0 && size > 0 && buf0 > 0
      modifies this`mem
      ensures Chain(mem, buf0, Slots(buf0, size, n))
      ensures forall x :: x in old(mem) && x !in Slots(buf0, size, n) ==> x in mem && mem[x] == old(mem)[x]
    {
      ghost var l, k := Slots(buf0, size, n), 0;
      SlotsRise(buf0, size, n);
      var buf, left := buf0, n - 1;
      while left > 0
        invariant 0 <= left < n && k == n - 1 - left && buf == SlotAt(buf0, size, k)
        invariant forall i :: 0 <= i < k ==> NextIs(mem, l, i)
        invariant forall x :: x in old(mem) && x !in l ==> x in mem && mem[x] == old(mem)[x]
      {
        SlotsSplit(buf0, size, n, k, buf);
        SlotAtNext(buf0, size, k);
        ghost var m := mem;
        mem := mem[buf := buf + size];
        LinkOne(m, mem, l, k, buf + size);
        buf := buf + size;
        left := left - 1;
        k := k + 1;
      }
      SlotsSplit(buf0, size, n, k, buf);
      LinkOne(mem, mem[buf := NULL], l, k, NULL);
      mem := mem[buf := NULL];
    }

    /** getbuf once its wait is over. */
    method GetBuf(poolid: int) returns (a: int)
      requires Valid() && (0 <= poolid < |buftab| ==> lists[poolid] != [])
      modifies this
      ensures Valid() && |buftab| == |old(buftab)| && owner == old(owner)
      ensures forall q :: 0 <= q < |buftab| ==> buftab[q].bpsize == old(buftab)[q].bpsize
      ensures if poolid < 0 || poolid >= |buftab| then a == SYSERR && lists == old(lists) && held == old(held)
              else && a == old(lists)[poolid][0] + 4 && lists == old(lists)[poolid := old(lists)[poolid][1..]]
                   && held == old(held) + {a - 4} && a - 4 !in old(held)
    {
      if poolid < 0 || poolid >= |buftab| {
        return SYSERR;
      }
      hide FreeListOK, HeldOK;
      ghost var mem0, l := mem, lists[poolid];
      PopList(mem, buftab[poolid].bpnext, l, owner, held, poolid);
      var bufptr := buftab[poolid].bpnext;
      Others(mem, buftab, lists, owner, held, held + {bufptr}, poolid, bufptr, poolid);
      HeldMore(mem, owner, held, |buftab|, bufptr);
      buftab := buftab[poolid := buftab[poolid].(bpnext := mem[bufptr])];
      mem := mem[bufptr := poolid];
      lists, held := lists[poolid := l[1..]], held + {bufptr};
      return bufptr + 4;
    }

    /** freebuf of a buffer from getbuf: it finds its pool by itself. */
    method FreeBuf(bufaddr: int) returns (ok: bool)
      requires Valid() && bufaddr - 4 in mem && (0 <= mem[bufaddr - 4] < |buftab| ==> bufaddr - 4 in held)
      modifies this
      ensures Valid() && |buftab| == |old(buftab)| && owner == old(owner)
      ensures forall q :: 0 <= q < |buftab| ==> buftab[q].bpsize == old(buftab)[q].bpsize
      ensures ok <==> bufaddr - 4 in old(held)
      ensures if !ok then lists == old(lists) && held == old(held)
              else && bufaddr - 4 in owner && 0 <= owner[bufaddr - 4] < |lists|
                   && lists == old(lists)[owner[bufaddr - 4] := [bufaddr - 4] + old(lists)[owner[bufaddr - 4]]]
                   && held == old(held) - {bufaddr - 4}
    {
      var b := bufaddr - 4;
      var poolid := mem[b];
      if poolid < 0 || poolid >= |buftab| {
        return false;
      }
      HeldPool(mem, owner, held, |buftab|, b);
      hide FreeListOK, HeldOK;
      ghost var l := lists[poolid];
      PushList(mem, buftab[poolid].bpnext, l, owner, held, poolid, b);
      Others(mem, buftab, lists, owner, held, held - {b}, poolid, b, buftab[poolid].bpnext);
      HeldLess(mem, owner, held, |buftab|, b, buftab[poolid].bpnext);
      mem := mem[b := buftab[poolid].bpnext];
      buftab := buftab[poolid := buftab[poolid].(bpnext := b)];
      lists, held := lists[poolid := [b] + l], held - {b};
      return true;
    }
  }

  lemma LinkOne(m: map<int, int>, m': map<int, int>, l: seq<int>, k: int, v: int)
    requires 0 <= k < |l| && NoDup(l) && (forall i :: 0 <= i < k ==> NextIs(m, l, i)) && v == (if k + 1 < |l| then l[k + 1] else NULL)
    requires m' == m[l[k] := v]
    ensures forall i :: 0 <= i <= k ==> NextIs(m', l, i)
  {
    forall i | 0 <= i <= k ensures NextIs(m', l, i) {
      if i < k { assert NextIs(m, l, i); }
    }
  }

  function Adding(owner: map<int, int>, l: seq<int>, p: int): map<int, int> { owner + map x | x in l :: p }

  /** All lists, the new one and the old ones, once a pool has been added. */
  lemma PoolAdded(mem: map<int, int>, mem': map<int, int>, buftab: seq<BpEntry>, lists: seq<seq<int>>, owner: map<int, int>,
                  held: set<int>, buf: int, l: seq<int>, size: int)
    requires |lists| == |buftab| && HeldOK(mem, owner, held, |buftab|) && Unowned(l, owner) && Chain(mem', buf, l) && NoDup(l)
    requires forall q :: 0 <= q < |buftab| ==> FreeListOK(mem, buftab[q].bpnext, lists[q], owner, held, q)
    requires forall x :: x in mem && x !in l ==> x in mem' && mem'[x] == mem[x]
    ensures var o, tab, ls := Adding(owner, l, |buftab|), buftab + [BpEntry(buf, size)], lists + [l];
            && HeldOK(mem', o, held, |tab|)
            && forall q :: 0 <= q < |tab| ==> FreeListOK(mem', tab[q].bpnext, ls[q], o, held, q)
  {
    hide Chain, FreeListOK;
    var p, o := |buftab|, Adding(owner, l, |buftab|);
    forall q | 0 <= q < p ensures FreeListOK(mem', buftab[q].bpnext, lists[q], o, held, q) {
      OldList(mem, mem', buftab[q].bpnext, lists[q], owner, o, held, q, l);
    }
    HeldKept(mem, mem', owner, o, held, p, l);
    forall i | 0 <= i < |l| ensures l[i] in o && o[l[i]] == p && l[i] !in held { assert l[i] in l; }
    NewList(mem', buf, l, o, held, p);
  }

  lemma OldList(mem: map<int, int>, mem': map<int, int>, head: int, l: seq<int>, owner: map<int, int>, owner': map<int, int>,
                held: set<int>, p: int, added: seq<int>)
    requires FreeListOK(mem, head, l, owner, held, p) && Unowned(added, owner)
    requires forall x :: x in mem && x !in added ==> x in mem' && mem'[x] == mem[x]
    requires forall x :: x in owner && x !in added ==> x in owner' && owner'[x] == owner[x]
    ensures FreeListOK(mem', head, l, owner', held, p)
  {
    hide NoDup;
    ChainIn(mem, head, l);
    forall i | 0 <= i < |l|
      ensures l[i] in mem && l[i] in mem' && mem'[l[i]] == mem[l[i]] && l[i] in owner' && owner'[l[i]] == p && l[i] !in held
    {
      var x := l[i];
      assert x in mem && x in owner && x !in held && owner[x] == p;
      NotNew(x, added, owner);
    }
    ChainFrame(mem, mem', head, l);
  }

  lemma NotNew(x: int, added: seq<int>, owner: map<int, int>)
    requires Unowned(added, owner) && x in owner
    ensures x !in added
  {
  }

  lemma HeldKept(mem: map<int, int>, mem': map<int, int>, owner: map<int, int>, owner': map<int, int>,
                 held: set<int>, pools: int, added: seq<int>)
    requires HeldOK(mem, owner, held, pools) && Unowned(added, owner)
    requires forall x :: x in mem && x !in added ==> x in mem' && mem'[x] == mem[x]
    requires forall x :: x in owner && x !in added ==> x in owner' && owner'[x] == owner[x]
    ensures HeldOK(mem', owner', held, pools + 1)
    ensures forall x :: x in added ==> x !in held
  {
    forall a | a in held ensures a !in added { assert a in owner; }
  }

  lemma NewList(mem: map<int, int>, head: int, l: seq<int>, owner: map<int, int>, held: set<int>, p: int)
    requires Chain(mem, head, l) && NoDup(l) && forall i :: 0 <= i < |l| ==> l[i] in owner && owner[l[i]] == p && l[i] !in held
    ensures FreeListOK(mem, head, l, owner, held, p)
  {
  }

  /** The other pools' lists when buffer a of pool p changes hands. */
  lemma Others(mem: map<int, int>, buftab: seq<BpEntry>, lists: seq<seq<int>>, owner: map<int, int>, held: set<int>, held': set<int>,
               p: int, a: int, v: int)
    requires |lists| == |buftab| && 0 <= p < |buftab| && a in owner && owner[a] == p
    requires forall q :: 0 <= q < |buftab| ==> FreeListOK(mem, buftab[q].bpnext, lists[q], owner, held, q)
    requires forall x :: x in held' ==> x in held || x == a
    ensures forall q :: 0 <= q < |buftab| && q != p ==> FreeListOK(mem[a := v], buftab[q].bpnext, lists[q], owner, held', q)
  {
    forall q | 0 <= q < |buftab| && q != p ensures FreeListOK(mem[a := v], buftab[q].bpnext, lists[q], owner, held', q) {
      ListFrame(mem, buftab[q].bpnext, lists[q], owner, held, held', q, a, v);
    }
  }

  lemma HeldMore(mem: map<int, int>, owner: map<int, int>, held: set<int>, pools: int, a: int)
    requires HeldOK(mem, owner, held, pools) && a in owner && 0 <= owner[a] < pools && a !in held
    ensures HeldOK(mem[a := owner[a]], owner, held + {a}, pools)
  {
  }

  lemma HeldLess(mem: map<int, int>, owner: map<int, int>, held: set<int>, pools: int, a: int, v: int)
    requires HeldOK(mem, owner, held, pools)
    ensures HeldOK(mem[a := v], owner, held - {a}, pools)
  {
  }

  lemma HeldPool(mem: map<int, int>, owner: map<int, int>, held: set<int>, pools: int, a: int)
    requires HeldOK(mem, owner, held, pools) && a in held
    ensures a in owner && a in mem && owner[a] == mem[a] && 0 <= owner[a] < pools
  {
  }
}
