// The linked lists of ports and buffer pools against the state machines: each
// list operation takes a table that matches a state to one that matches the next.
module Tables {
  import opened QueueTable
  import opened PortModel
  import opened PortSteps
  import PortRuns
  import Ports
  import BufferPools
  import BufTab

  // ----------------------------------------------------------------- ports

  ghost predicate EntryIs(e: Ports.PtEntry, pt: Port) {
    e.ptstate == pt.state && e.ptseq == pt.ptseq && e.ptmaxcnt == pt.maxcnt
  }

  /** The table holds the ports, messages and free nodes of state ps. */
  ghost predicate PortsMatch(t: Ports.PortTab, ports: seq<Port>, free: seq<int>)
    reads t, t.ptnext, t.ptmsg
  {
    && t.Valid() && |ports| == NPORTS && t.free == free
    && forall p :: 0 <= p < NPORTS ==> EntryIs(t.porttab[p], ports[p]) && t.Items(p) == ports[p].items
  }

  /** ptinit */
  method InitTable(n: int, nproc: nat) returns (t: Ports.PortTab)
    requires n > 0
    ensures fresh(t) && fresh(t.ptnext) && fresh(t.ptmsg)
    ensures PortsMatch(t, PortRuns.Init(n, nproc).ports, PortRuns.Init(n, nproc).free)
  {
    t := new Ports.PortTab(n);
  }

  /** The end of ptsend is the end of it in the machine, panic included. */
  method SendEnd(t: Ports.PortTab, p: int, msg: int, ghost ps: PortRuns.Ps, ghost pt: Port, ghost pcs: seq<Pc>) returns (ok: bool)
    requires PortsMatch(t, ps.ports, ps.free) && 0 <= p < NPORTS && EntryIs(t.porttab[p], pt)
    requires pt.state.PtAlloc? && pt.items == ps.ports[p].items
    modifies t, t.ptnext, t.ptmsg
    ensures ok <==> ps.free != []
    ensures var ps' := PortRuns.Finish(ps, p, pt, pcs, Sender, msg); PortsMatch(t, ps'.ports, ps'.free)
  {
    hide Ports.Chain, Ports.Owned, Ports.EntryOK, SignalPcs;
    ok := t.Append(p, msg);
  }

  /** The end of ptrecv returns the first message and gives its node back. */
  method RecvEnd(t: Ports.PortTab, p: int, ghost ps: PortRuns.Ps, ghost pt: Port, ghost pcs: seq<Pc>) returns (msg: int)
    requires PortsMatch(t, ps.ports, ps.free) && 0 <= p < NPORTS && EntryIs(t.porttab[p], pt)
    requires pt.state.PtAlloc? && pt.items == ps.ports[p].items && pt.items != []
    modifies t, t.ptnext
    ensures msg == pt.items[0].msg
    ensures var ps' := PortRuns.Finish(ps, p, pt, pcs, Receiver, 0); PortsMatch(t, ps'.ports, ps'.free)
  {
    hide Ports.Chain, Ports.Owned, Ports.EntryOK, SignalPcs;
    FirstNode(t, p);
    msg := t.Remove(p);
  }

  lemma FirstNode(t: Ports.PortTab, p: int)
    requires t.Valid() && 0 <= p < NPORTS
    ensures |t.Items(p)| == |t.lists[p]| && (t.lists[p] != [] ==> t.Items(p)[0].node == t.lists[p][0])
  {
    hide Ports.Chain, Ports.EntryOK;
  }

  /** All of _ptclear on one port, as the machine does it in pieces. */
  function Cleared(pt: Port, reset: bool): Port {
    Finished(Silenced(Emptied(ClearBegin(pt), reset), reset), reset)
  }

  method ClearAll(t: Ports.PortTab, p: int, reset: bool, ghost ps: PortRuns.Ps) returns (gone: seq<int>)
    requires PortsMatch(t, ps.ports, ps.free) && 0 <= p < NPORTS && ps.ports[p].state.PtAlloc?
    modifies t, t.ptnext
    ensures gone == Msgs(ps.ports[p].items)
    ensures PortsMatch(t, ps.ports[p := Cleared(ps.ports[p], reset)], Nodes(ps.ports[p].items) + ps.free)
  {
    hide Ports.Chain, Ports.Owned, Ports.EntryOK;
    ListNodes(t, p);
    gone := t.PtClear(p, reset);
    NoItems(t, p);
  }

  lemma ListNodes(t: Ports.PortTab, p: int)
    requires t.Valid() && 0 <= p < NPORTS
    ensures Nodes(t.Items(p)) == t.lists[p]
  {
    hide Ports.Chain, Ports.EntryOK;
  }

  lemma NoItems(t: Ports.PortTab, p: int)
    requires t.Valid() && 0 <= p < NPORTS && t.lists[p] == []
    ensures t.Items(p) == []
  {
  }

  /** ptcreate */
  method CreateEntry(t: Ports.PortTab, count: int, ghost ps: PortRuns.Ps) returns (id: int)
    requires PortsMatch(t, ps.ports, ps.free)
    modifies t
    ensures id == Ports.NULL ==> PortsMatch(t, ps.ports, ps.free)
    ensures id != Ports.NULL ==>
              && 0 <= id < NPORTS && ps.ports[id].state.PtFree? && count >= 0
              && PortsMatch(t, PortRuns.Create(ps, id, count).ports, ps.free)
  {
    hide Ports.Chain, Ports.Owned, Ports.EntryOK;
    ghost var lists := t.lists;
    id := t.NewPort(count);
    if id != Ports.NULL { NoItems(t, id); }
  }

  // ---------------------------------------------------------- buffer pools

  /** The buffers that callers have, by the list and by the table. */
  ghost predicate OutIs(out: seq<BufferPools.Buf>, held: set<int>, owner: map<int, int>) {
    && (forall i, j :: 0 <= i < j < |out| ==> out[i].addr != out[j].addr)
    && (forall i :: 0 <= i < |out| ==> out[i].addr in held && out[i].addr in owner && owner[out[i].addr] == out[i].pool)
    && (forall a :: a in held ==> exists i :: 0 <= i < |out| && out[i].addr == a)
  }

  ghost predicate PoolsMatch(t: BufTab.BufTable, pools: seq<BufferPools.Pool>, out: seq<BufferPools.Buf>)
    reads t
  {
    && t.Valid() && |pools| == |t.buftab| && OutIs(out, t.held, t.owner)
    && forall p :: 0 <= p < |pools| ==> pools[p].free == t.lists[p]
  }

  lemma OutGrows(out: seq<BufferPools.Buf>, held: set<int>, owner: map<int, int>, b: BufferPools.Buf)
    requires OutIs(out, held, owner) && b.addr !in held && b.addr in owner && owner[b.addr] == b.pool
    ensures OutIs(out + [b], held + {b.addr}, owner)
  {
    var r := out + [b];
    forall a | a in held + {b.addr} ensures exists i :: 0 <= i < |r| && r[i].addr == a {
      if a in held {
        var i :| 0 <= i < |out| && out[i].addr == a;
        assert r[i].addr == a;
      } else {
        assert r[|out|].addr == a;
      }
    }
  }

  lemma OutShrinks(out: seq<BufferPools.Buf>, held: set<int>, owner: map<int, int>, j: int)
    requires OutIs(out, held, owner) && 0 <= j < |out|
    ensures OutIs(BufferPools.CutOut(out, j), held - {out[j].addr}, owner)
  {
    var r, x := BufferPools.CutOut(out, j), out[j].addr;
    CutAt(out, j);
    hide BufferPools.CutOut;
    forall i | 0 <= i < |r| ensures r[i].addr != x {
      if i < j { assert out[i].addr != x; } else { assert out[i + 1].addr != x; }
    }
    forall a | a in held - {x} ensures exists i :: 0 <= i < |r| && r[i].addr == a {
      var i :| 0 <= i < |out| && out[i].addr == a;
      assert r[if i < j then i else i - 1].addr == a;
    }
  }

  lemma CutAt(out: seq<BufferPools.Buf>, j: int)
    requires 0 <= j < |out|
    ensures |BufferPools.CutOut(out, j)| == |out| - 1
    ensures forall i :: 0 <= i < |out| - 1 ==> BufferPools.CutOut(out, j)[i] == if i < j then out[i] else out[i + 1]
  {
  }

  lemma OutKeeps(out: seq<BufferPools.Buf>, held: set<int>, owner: map<int, int>, l: seq<int>, p: int)
    requires OutIs(out, held, owner) && BufTab.Unowned(l, owner)
    ensures OutIs(out, held, BufTab.Adding(owner, l, p))
  {
    forall i | 0 <= i < |out| ensures out[i].addr !in l { BufTab.NotNew(out[i].addr, l, owner); }
  }

  /** mkbufpool makes the pool of the machine, or neither does. */
  method MakePool(t: BufTab.BufTable, bufsiz: int, numbufs: int, buf: int, ghost b: BufferPools.Bs) returns (id: int)
    requires PoolsMatch(t, b.pools, b.out) && BufTab.BP_MINB <= bufsiz <= BufTab.BP_MAXB && 1 <= numbufs <= BufTab.BP_MAXN
    requires buf > 0 && BufTab.Unowned(BufTab.Slots(buf, BufTab.Words(bufsiz) + 4, numbufs), t.owner)
    modifies t
    ensures var b' := BufferPools.Make(b, BufTab.Slots(buf, BufTab.Words(bufsiz) + 4, numbufs)); PoolsMatch(t, b'.pools, b'.out)
    ensures id == BufTab.SYSERR <==> |b.pools| >= BufferPools.NBPOOLS
  {
    hide OutIs, BufTab.FreeListOK, BufTab.HeldOK, BufTab.Slots, BufTab.Words, BufTab.Unowned;
    OutKeeps(b.out, t.held, t.owner, BufTab.Slots(buf, BufTab.Words(bufsiz) + 4, numbufs), |t.buftab|);
    id := t.MkBufPool(bufsiz, numbufs, buf, true);
  }

  /** getbuf past its wait hands out the buffer that the machine does. */
  method GetPool(t: BufTab.BufTable, p: int, ghost b: BufferPools.Bs, ghost pl: BufferPools.Pool, ghost pcs: seq<Pc>) returns (a: int)
    requires PoolsMatch(t, b.pools, b.out) && 0 <= p < |b.pools| && pl.free == b.pools[p].free && pl.free != []
    modifies t
    ensures a == pl.free[0] + 4
    ensures var b' := BufferPools.Grab(b, p, pl, pcs); PoolsMatch(t, b'.pools, b'.out)
  {
    hide OutIs, BufTab.FreeListOK, BufTab.HeldOK;
    FirstOf(t, p);
    ghost var x := t.lists[p][0];
    OutGrows(b.out, t.held, t.owner, BufferPools.Buf(p, x));
    a := t.GetBuf(p);
  }

  lemma FirstOf(t: BufTab.BufTable, p: int)
    requires t.Valid() && 0 <= p < |t.buftab| && t.lists[p] != []
    ensures var x := t.lists[p][0]; x !in t.held && x in t.owner && t.owner[x] == p
  {
  }

  /** freebuf puts the buffer back where the machine does. */
  method FreePool(t: BufTab.BufTable, a: int, ghost b: BufferPools.Bs, ghost j: int) returns (ok: bool)
    requires PoolsMatch(t, b.pools, b.out) && 0 <= j < |b.out| && a == b.out[j].addr + 4
    modifies t
    ensures ok && 0 <= b.out[j].pool < |b.pools|
    ensures var b' := BufferPools.Free(b, j); PoolsMatch(t, b'.pools, b'.out)
  {
    HeldBuf(t, b.out, j);
    hide OutIs, BufTab.FreeListOK, BufTab.HeldOK;
    OutShrinks(b.out, t.held, t.owner, j);
    ok := t.FreeBuf(a);
  }

  lemma HeldBuf(t: BufTab.BufTable, out: seq<BufferPools.Buf>, j: int)
    requires t.Valid() && OutIs(out, t.held, t.owner) && 0 <= j < |out|
    ensures var x := out[j].addr; x in t.held && x in t.owner && t.owner[x] == out[j].pool && 0 <= out[j].pool < |t.buftab| && x in t.mem
  {
    BufTab.HeldPool(t.mem, t.owner, t.held, |t.buftab|, out[j].addr);
  }
}
