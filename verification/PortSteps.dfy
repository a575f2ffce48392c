// What the pieces of the port calls do to one port, each shown to keep its
// accounts of slots, messages and processes.
module PortSteps {
  import opened KernelModel
  import opened QueueTable
  import opened PortModel

  // ------------------------------------------------------------ wait

  lemma WaitTakes(pt: Port, p: int, pcs: seq<Pc>, kind: Kind, i: int)
    requires PortOK(pt, p, pcs, 0, 0) && pt.state.PtAlloc? && SideOf(pt, kind).sem.count > 0
    ensures PortOK(WithSide(pt, kind, WaitSide(SideOf(pt, kind), i)), p, pcs, One(kind.Sender?), One(kind.Receiver?))
  {
    hide WaitList, SeqsOK, Held, Msgs;
    ClearsNone(pt, p, pcs);
    hide ClearsOK;
    ClearsVacuous(WithSide(pt, kind, WaitSide(SideOf(pt, kind), i)), p, pcs);
  }

  lemma JoinWaitList(pcs: seq<Pc>, l: seq<int>, kind: Kind, p: int, i: int, pc: Pc)
    requires WaitList(pcs, l, kind, p) && 0 <= i < |pcs| && pcs[i].Outside? && Blocked(pc, kind, p)
    ensures WaitList(pcs[i := pc], l + [i], kind, p)
  {
    var pcs', l' := pcs[i := pc], l + [i];
    assert i !in l by { assert i in l <==> Blocked(pcs[i], kind, p); }
    forall a, b | 0 <= a < b < |l'| ensures l'[a] != l'[b] {
      if b == |l| { assert l[a] in l; }
    }
    forall j | 0 <= j < |pcs'| ensures j in l' <==> Blocked(pcs'[j], kind, p) {
      assert j in l <==> Blocked(pcs[j], kind, p);
    }
  }

  /** A process of another kind, or none, comes or goes. */
  lemma SameWaitList(pcs: seq<Pc>, l: seq<int>, kind: Kind, p: int, i: int, pc: Pc)
    requires WaitList(pcs, l, kind, p) && 0 <= i < |pcs| && !Blocked(pcs[i], kind, p) && !Blocked(pc, kind, p)
    ensures WaitList(pcs[i := pc], l, kind, p)
  {
    var pcs' := pcs[i := pc];
    forall j | 0 <= j < |pcs'| ensures j in l <==> Blocked(pcs'[j], kind, p) {
      assert j in l <==> Blocked(pcs[j], kind, p);
    }
  }

  lemma HeldBoth(pcs: seq<Pc>, i: int, pc: Pc, p: int, ptseq: int)
    requires 0 <= i < |pcs|
    ensures forall kind: Kind :: Held(pcs[i := pc], kind, p, ptseq) ==
              Held(pcs, kind, p, ptseq) - One(Holder(pcs[i], kind, p, ptseq)) + One(Holder(pc, kind, p, ptseq))
  {
    HeldUpdate(pcs, i, pc, Sender, p, ptseq);
    HeldUpdate(pcs, i, pc, Receiver, p, ptseq);
    forall kind: Kind ensures Held(pcs[i := pc], kind, p, ptseq) ==
              Held(pcs, kind, p, ptseq) - One(Holder(pcs[i], kind, p, ptseq)) + One(Holder(pc, kind, p, ptseq)) {
      match kind case Sender => case Receiver =>
    }
  }

  lemma SeqsUpdate(pcs: seq<Pc>, i: int, pc: Pc, p: int, ptseq: int, alloc: bool)
    requires SeqsOK(pcs, p, ptseq, alloc) && 0 <= i < |pcs| && SeqOK(pc, p, ptseq, alloc)
    ensures SeqsOK(pcs[i := pc], p, ptseq, alloc)
  {
  }

  lemma BlockQueues(pt: Port, p: int, pcs: seq<Pc>, kind: Kind, i: int, pc: Pc)
    requires Queues(pt, p, pcs) && 0 <= i < |pcs| && pcs[i].Outside? && Blocked(pc, kind, p)
    requires SideOf(pt, kind).sem.used && SideOf(pt, kind).sem.count <= 0
    ensures Queues(WithSide(pt, kind, WaitSide(SideOf(pt, kind), i)), p, pcs[i := pc])
  {
    hide WaitList;
    JoinWaitList(pcs, SideOf(pt, kind).queue, kind, p, i, pc);
    var other := if kind.Sender? then Receiver else Sender;
    SameWaitList(pcs, SideOf(pt, other).queue, other, p, i, pc);
  }

  lemma WaitBlocks(pt: Port, p: int, pcs: seq<Pc>, kind: Kind, i: int, msg: int)
    requires PortOK(pt, p, pcs, 0, 0) && pt.state.PtAlloc? && SideOf(pt, kind).sem.count <= 0
    requires 0 <= i < |pcs| && pcs[i].Outside?
    ensures PortOK(WithSide(pt, kind, WaitSide(SideOf(pt, kind), i)), p, pcs[i := At(kind, p, pt.ptseq, msg, false)], 0, 0)
  {
    hide Queues, SeqsOK, Held, Msgs, ClearsOK;
    var pc := At(kind, p, pt.ptseq, msg, false);
    BlockQueues(pt, p, pcs, kind, i, pc);
    SeqsUpdate(pcs, i, pc, p, pt.ptseq, true);
    HeldBoth(pcs, i, pc, p, pt.ptseq);
    ClearsNone(pt, p, pcs);
    ClearsVacuous(WithSide(pt, kind, WaitSide(SideOf(pt, kind), i)), p, pcs[i := pc]);
  }

  // ---------------------------------------------------- a released process

  lemma LeaveQueues(pt: Port, p: int, pcs: seq<Pc>, i: int)
    requires Queues(pt, p, pcs) && 0 <= i < |pcs| && pcs[i].At? && pcs[i].woken
    ensures Queues(pt, p, pcs[i := Outside])
  {
    hide WaitList;
    SameWaitList(pcs, pt.send.queue, Sender, p, i, Outside);
    SameWaitList(pcs, pt.recv.queue, Receiver, p, i, Outside);
  }

  lemma LeaveClears(pt: Port, p: int, pcs: seq<Pc>, i: int)
    requires ClearsOK(pt, p, pcs) && 0 <= i < |pcs|
    ensures ClearsOK(pt, p, pcs[i := Outside])
  {
    hide ClearOK;
    var pcs' := pcs[i := Outside];
    assert forall j :: 0 <= j < |pcs'| && pcs'[j].Clearing? ==> pcs'[j] == pcs[j];
  }

  /** It takes its unit with it if it is up to date, and nothing otherwise. */
  lemma Leaves(pt: Port, p: int, pcs: seq<Pc>, i: int)
    requires PortOK(pt, p, pcs, 0, 0) && 0 <= i < |pcs| && pcs[i].At? && pcs[i].port == p && pcs[i].woken
    ensures var current := pt.state.PtAlloc? && pcs[i].ptseq == pt.ptseq;
            PortOK(pt, p, pcs[i := Outside], One(current && pcs[i].kind.Sender?), One(current && pcs[i].kind.Receiver?))
  {
    hide Queues, SeqsOK, Held, Msgs, ClearsOK;
    LeaveQueues(pt, p, pcs, i);
    LeaveClears(pt, p, pcs, i);
    SeqsUpdate(pcs, i, Outside, p, pt.ptseq, pt.state.PtAlloc?);
    HeldBoth(pcs, i, Outside, p, pt.ptseq);
  }

  // ------------------------------------------------------------ the list

  function PutPort(pt: Port, node: int, msg: int): Port {
    pt.(items := pt.items + [Item(node, msg)], sent := pt.sent + [msg])
  }

  function TakePort(pt: Port): Port
    requires pt.items != []
  {
    pt.(items := pt.items[1..], received := pt.received + [pt.items[0].msg])
  }

  lemma MsgsPut(items: seq<Item>, x: Item)
    ensures Msgs(items + [x]) == Msgs(items) + [x.msg]
  {
  }

  lemma MsgsTake(items: seq<Item>, before: seq<int>)
    requires items != []
    ensures before + [items[0].msg] + Msgs(items[1..]) == before + Msgs(items)
  {
    assert Msgs(items) == [items[0].msg] + Msgs(items[1..]);
  }

  lemma PutKeeps(pt: Port, p: int, pcs: seq<Pc>, node: int, msg: int)
    requires PortOK(pt, p, pcs, 1, 0) && pt.state.PtAlloc?
    ensures PortOK(PutPort(pt, node, msg), p, pcs, 0, 1)
  {
    hide WaitList, SeqsOK, Held, Msgs, ClearsOK;
    ClearsNone(pt, p, pcs);
    ClearsVacuous(PutPort(pt, node, msg), p, pcs);
    MsgsPut(pt.items, Item(node, msg));
  }

  /** A receiver with a unit in its hands always finds a message. */
  lemma TakeKeeps(pt: Port, p: int, pcs: seq<Pc>)
    requires PortOK(pt, p, pcs, 0, 1) && pt.state.PtAlloc?
    ensures pt.items != [] && PortOK(TakePort(pt), p, pcs, 1, 0)
  {
    hide WaitList, SeqsOK, Held, Msgs, ClearsOK;
    ClearsNone(pt, p, pcs);
    ClearsVacuous(TakePort(pt), p, pcs);
    MsgsTake(pt.items, pt.received);
  }

  /** ptsend once it has a slot, and ptrecv once it has a message: the list
      operation and the signal on the other side. */
  function Put(pt: Port, node: int, msg: int): Port {
    var pt1 := PutPort(pt, node, msg);
    pt1.(recv := SignalSide(pt1.recv))
  }

  function Take(pt: Port): Port
    requires pt.items != []
  {
    var pt1 := TakePort(pt);
    pt1.(send := SignalSide(pt1.send))
  }

  lemma PutOK(pt: Port, p: int, pcs: seq<Pc>, node: int, msg: int)
    requires PortOK(pt, p, pcs, 1, 0) && pt.state.PtAlloc?
    ensures PortOK(Put(pt, node, msg), p, SignalPcs(pt.recv, pcs), 0, 0)
  {
    hide PortOK;
    PutKeeps(pt, p, pcs, node, msg);
    SignalOK(PutPort(pt, node, msg), p, pcs, Receiver, 0, 1);
  }

  lemma TakeOK(pt: Port, p: int, pcs: seq<Pc>)
    requires PortOK(pt, p, pcs, 0, 1) && pt.state.PtAlloc?
    ensures pt.items != [] && PortOK(Take(pt), p, SignalPcs(pt.send, pcs), 0, 0)
  {
    hide PortOK;
    TakeKeeps(pt, p, pcs);
    SignalOK(TakePort(pt), p, pcs, Sender, 1, 0);
  }

  // ------------------------------------------------------------ _ptclear

  function ClearBegin(pt: Port): Port { pt.(state := PtLimbo, ptseq := pt.ptseq + 1, disposed := []) }

  lemma BeginClears(pt: Port, p: int, pcs: seq<Pc>, i: int, reset: bool)
    requires ClearsOK(pt, p, pcs) && pt.state.PtAlloc? && 0 <= i < |pcs| && pt.received + Msgs(pt.items) == pt.sent
    ensures ClearsOK(ClearBegin(pt), p, pcs[i := Clearing(p, reset, 0, 0)])
  {
    ClearsNone(pt, p, pcs);
    assert Msgs(pt.items[..0]) == [];
  }

  lemma BeginOK(pt: Port, p: int, pcs: seq<Pc>, i: int, reset: bool)
    requires PortOK(pt, p, pcs, 0, 0) && pt.state.PtAlloc? && 0 <= i < |pcs| && pcs[i].Outside?
    ensures PortOK(ClearBegin(pt), p, pcs[i := Clearing(p, reset, 0, 0)], 0, 0)
  {
    hide WaitList, Held, Msgs, ClearsOK;
    var pc := Clearing(p, reset, 0, 0);
    BeginClears(pt, p, pcs, i, reset);
    SameWaitList(pcs, pt.send.queue, Sender, p, i, pc);
    SameWaitList(pcs, pt.recv.queue, Receiver, p, i, pc);
  }

  /** The next message is handed to the disposal function. */
  function Disposed(pt: Port, k: int): Port
    requires 0 <= k < |pt.items|
  {
    pt.(disposed := pt.disposed + [pt.items[k].msg])
  }

  /** The port's nodes go back to the free list, and its first semaphore is
      reset or deleted. */
  function Emptied(pt: Port, reset: bool): Port {
    if reset then pt.(items := [], send := Side(Sem(true, pt.maxcnt), [], 0), cap := pt.maxcnt, sent := [], received := [])
    else pt.(items := [], send := Side(Sem(false, 0), [], 0))
  }

  function Silenced(pt: Port, reset: bool): Port {
    pt.(recv := Side(Sem(reset, 0), [], 0))
  }

  function Finished(pt: Port, reset: bool): Port { pt.(state := if reset then PtAlloc else PtFree) }

  lemma WakeAllList(pcs: seq<Pc>, l: seq<int>, kind: Kind, p: int)
    requires WaitList(pcs, l, kind, p)
    ensures WaitList(WakeAll(pcs, l), [], kind, p)
  {
    forall i | 0 <= i < |pcs| ensures !Blocked(WakeAll(pcs, l)[i], kind, p) {
      assert i in l <==> Blocked(pcs[i], kind, p);
    }
  }

  lemma WakeAllOther(pcs: seq<Pc>, l: seq<int>, kind: Kind, other: Kind, l': seq<int>, p: int)
    requires WaitList(pcs, l, kind, p) && WaitList(pcs, l', other, p) && other != kind
    ensures WaitList(WakeAll(pcs, l), l', other, p)
  {
    forall i | 0 <= i < |pcs| ensures i in l' <==> Blocked(WakeAll(pcs, l)[i], other, p) {
      assert i in l <==> Blocked(pcs[i], kind, p);
      assert i in l' <==> Blocked(pcs[i], other, p);
    }
  }

  lemma WakeAllSeqs(pcs: seq<Pc>, l: seq<int>, p: int, ptseq: int)
    requires SeqsOK(pcs, p, ptseq, false)
    ensures SeqsOK(WakeAll(pcs, l), p, ptseq, false)
  {
    forall i | 0 <= i < |pcs| ensures SeqOK(WakeAll(pcs, l)[i], p, ptseq, false) {
      assert SeqOK(pcs[i], p, ptseq, false);
    }
  }

  lemma WakeAllOnly(pcs: seq<Pc>, l: seq<int>, kind: Kind, p: int)
    requires WaitList(pcs, l, kind, p)
    ensures forall i :: 0 <= i < |pcs| ==>
              WakeAll(pcs, l)[i] == pcs[i] || (pcs[i].At? && pcs[i].port == p && WakeAll(pcs, l)[i] == pcs[i].(woken := true))
  {
    forall i | 0 <= i < |pcs|
      ensures WakeAll(pcs, l)[i] == pcs[i] || (pcs[i].At? && pcs[i].port == p && WakeAll(pcs, l)[i] == pcs[i].(woken := true))
    {
      assert i in l <==> Blocked(pcs[i], kind, p);
    }
  }

  /** The one process that clears port p moves on. */
  lemma ClearMoves(pt: Port, pt': Port, p: int, pcs: seq<Pc>, pcs': seq<Pc>, i: int)
    requires ClearsOK(pt, p, pcs) && 0 <= i < |pcs| == |pcs'| && pcs[i].Clearing? && pcs[i].port == p
    requires forall j :: 0 <= j < |pcs| && j != i && pcs'[j].Clearing? ==> pcs'[j] == pcs[j]
    requires pcs'[i].Outside? || (pcs'[i].Clearing? && pcs'[i].port == p && ClearOK(pt', pcs'[i]))
    ensures ClearsOK(pt', p, pcs')
  {
    hide ClearOK;
    forall j | 0 <= j < |pcs| && j != i && pcs'[j].Clearing? ensures pcs'[j].port != p {
      assert pcs'[j] == pcs[j];
    }
  }

  lemma DisposeOK(pt: Port, p: int, pcs: seq<Pc>, i: int)
    requires PortOK(pt, p, pcs, 0, 0) && 0 <= i < |pcs| && pcs[i].Clearing? && pcs[i].port == p && pcs[i].phase == 0
    requires pcs[i].k < |pt.items|
    ensures PortOK(Disposed(pt, pcs[i].k), p, pcs[i := pcs[i].(k := pcs[i].k + 1)], 0, 0)
  {
    hide WaitList, Held, SeqsOK;
    assert ClearOK(pt, pcs[i]);
    var pc := pcs[i].(k := pcs[i].k + 1);
    var pt' := Disposed(pt, pcs[i].k);
    MsgsPut(pt.items[..pcs[i].k], pt.items[pcs[i].k]);
    assert pt.items[..pc.k] == pt.items[..pcs[i].k] + [pt.items[pcs[i].k]];
    ClearMoves(pt, pt', p, pcs, pcs[i := pc], i);
    SameWaitList(pcs, pt.send.queue, Sender, p, i, pc);
    SameWaitList(pcs, pt.recv.queue, Receiver, p, i, pc);
    SeqsUpdate(pcs, i, pc, p, pt.ptseq, false);
  }

  lemma EmptyQueues(pt: Port, p: int, pcs: seq<Pc>, i: int, pc: Pc, reset: bool)
    requires Queues(pt, p, pcs) && 0 <= i < |pcs| && pcs[i].Clearing? && pc.Clearing? && pt.maxcnt >= 0
    ensures Queues(Emptied(pt, reset), p, WakeAll(pcs, pt.send.queue)[i := pc])
  {
    hide WaitList, WakeAll;
    var l := pt.send.queue;
    WakeAllList(pcs, l, Sender, p);
    WakeAllOther(pcs, l, Sender, Receiver, pt.recv.queue, p);
    WakeAllOnly(pcs, l, Sender, p);
    SameWaitList(WakeAll(pcs, l), [], Sender, p, i, pc);
    SameWaitList(WakeAll(pcs, l), pt.recv.queue, Receiver, p, i, pc);
  }

  lemma EmptyOK(pt: Port, p: int, pcs: seq<Pc>, i: int)
    requires PortOK(pt, p, pcs, 0, 0) && 0 <= i < |pcs| && pcs[i].Clearing? && pcs[i].port == p && pcs[i].phase == 0
    ensures PortOK(Emptied(pt, pcs[i].reset), p, WakeAll(pcs, pt.send.queue)[i := pcs[i].(phase := 1)], 0, 0)
  {
    hide Queues, Held, SeqsOK, WakeAll, Msgs;
    assert ClearOK(pt, pcs[i]);
    var pc := pcs[i].(phase := 1);
    var pcs1 := WakeAll(pcs, pt.send.queue);
    EmptyQueues(pt, p, pcs, i, pc, pcs[i].reset);
    WakeAllSeqs(pcs, pt.send.queue, p, pt.ptseq);
    SeqsUpdate(pcs1, i, pc, p, pt.ptseq, false);
    QueuesSend(pt, p, pcs);
    WakeAllOnly(pcs, pt.send.queue, Sender, p);
    ClearMoves(pt, Emptied(pt, pcs[i].reset), p, pcs, pcs1[i := pc], i);
  }

  lemma QueuesSend(pt: Port, p: int, pcs: seq<Pc>)
    requires Queues(pt, p, pcs)
    ensures WaitList(pcs, pt.send.queue, Sender, p) && WaitList(pcs, pt.recv.queue, Receiver, p)
  {
  }

  lemma SilenceQueues(pt: Port, p: int, pcs: seq<Pc>, i: int, pc: Pc, reset: bool)
    requires Queues(pt, p, pcs) && 0 <= i < |pcs| && pcs[i].Clearing? && pc.Clearing?
    ensures Queues(Silenced(pt, reset), p, WakeAll(pcs, pt.recv.queue)[i := pc])
  {
    hide WaitList, WakeAll;
    var l := pt.recv.queue;
    WakeAllList(pcs, l, Receiver, p);
    WakeAllOther(pcs, l, Receiver, Sender, pt.send.queue, p);
    WakeAllOnly(pcs, l, Receiver, p);
    SameWaitList(WakeAll(pcs, l), [], Receiver, p, i, pc);
    SameWaitList(WakeAll(pcs, l), pt.send.queue, Sender, p, i, pc);
  }

  lemma SilenceOK(pt: Port, p: int, pcs: seq<Pc>, i: int)
    requires PortOK(pt, p, pcs, 0, 0) && 0 <= i < |pcs| && pcs[i].Clearing? && pcs[i].port == p && pcs[i].phase == 1
    ensures PortOK(Silenced(pt, pcs[i].reset), p, WakeAll(pcs, pt.recv.queue)[i := pcs[i].(phase := 2)], 0, 0)
  {
    hide Queues, Held, SeqsOK, WakeAll, Msgs;
    assert ClearOK(pt, pcs[i]);
    var pc := pcs[i].(phase := 2);
    var pcs1 := WakeAll(pcs, pt.recv.queue);
    SilenceQueues(pt, p, pcs, i, pc, pcs[i].reset);
    WakeAllSeqs(pcs, pt.recv.queue, p, pt.ptseq);
    SeqsUpdate(pcs1, i, pc, p, pt.ptseq, false);
    QueuesSend(pt, p, pcs);
    WakeAllOnly(pcs, pt.recv.queue, Receiver, p);
    ClearMoves(pt, Silenced(pt, pcs[i].reset), p, pcs, pcs1[i := pc], i);
  }

  lemma FinishSeqs(pcs: seq<Pc>, p: int, ptseq: int)
    requires SeqsOK(pcs, p, ptseq, false) && WaitList(pcs, [], Sender, p) && WaitList(pcs, [], Receiver, p)
    ensures SeqsOK(pcs, p, ptseq, true) && Held(pcs, Sender, p, ptseq) == 0 && Held(pcs, Receiver, p, ptseq) == 0
  {
    hide Held;
    forall i | 0 <= i < |pcs|
      ensures SeqOK(pcs[i], p, ptseq, true) && !Holder(pcs[i], Sender, p, ptseq) && !Holder(pcs[i], Receiver, p, ptseq)
    {
      assert SeqOK(pcs[i], p, ptseq, false) && !Blocked(pcs[i], Sender, p) && !Blocked(pcs[i], Receiver, p);
    }
    HeldNone(pcs, Sender, p, ptseq);
    HeldNone(pcs, Receiver, p, ptseq);
  }

  lemma FinishOK(pt: Port, p: int, pcs: seq<Pc>, i: int)
    requires PortOK(pt, p, pcs, 0, 0) && 0 <= i < |pcs| && pcs[i].Clearing? && pcs[i].port == p && pcs[i].phase >= 2
    ensures PortOK(Finished(pt, pcs[i].reset), p, pcs[i := Outside], 0, 0)
  {
    hide WaitList, Held, SeqsOK;
    assert ClearOK(pt, pcs[i]);
    var pcs' := pcs[i := Outside];
    SameWaitList(pcs, pt.send.queue, Sender, p, i, Outside);
    SameWaitList(pcs, pt.recv.queue, Receiver, p, i, Outside);
    SeqsUpdate(pcs, i, Outside, p, pt.ptseq, false);
    FinishSeqs(pcs', p, pt.ptseq);
    ClearMoves(pt, Finished(pt, pcs[i].reset), p, pcs, pcs', i);
  }

  // ------------------------------------------------------ create and kill

  /** ptcreate; ptmaxcnt has 16 bits. */
  function Created(pt: Port, count: int): Port {
    Port(PtAlloc, pt.ptseq + 1, count % M16, Side(Sem(true, count), [], 0), Side(Sem(true, 0), [], 0), [], count, [], [], [])
  }

  lemma CreateOK(pt: Port, p: int, pcs: seq<Pc>, count: int)
    requires PortOK(pt, p, pcs, 0, 0) && pt.state.PtFree? && count >= 0
    ensures PortOK(Created(pt, count), p, pcs, 0, 0)
  {
    hide WaitList, Held, SeqsOK;
    ClearsNone(pt, p, pcs);
    OlderSeqs(pcs, p, pt.ptseq);
    FinishSeqs(pcs, p, pt.ptseq + 1);
    ClearsVacuous(Created(pt, count), p, pcs);
  }

  lemma OlderSeqs(pcs: seq<Pc>, p: int, ptseq: int)
    requires SeqsOK(pcs, p, ptseq, false)
    ensures SeqsOK(pcs, p, ptseq + 1, false)
  {
    forall i | 0 <= i < |pcs| ensures SeqOK(pcs[i], p, ptseq + 1, false) { assert SeqOK(pcs[i], p, ptseq, false); }
  }

  /** kill of a process in the queue: it leaves, and the count goes up. */
  function Unqueued(s: Side, i: int): Side
    requires i in s.queue
  {
    s.(sem := s.sem.(count := s.sem.count + 1), queue := Removed(s.queue, IndexOf(s.queue, i)))
  }

  lemma LeaveWaitList(pcs: seq<Pc>, l: seq<int>, kind: Kind, p: int, i: int)
    requires WaitList(pcs, l, kind, p) && 0 <= i < |pcs| && i in l
    ensures WaitList(pcs[i := Outside], Removed(l, IndexOf(l, i)), kind, p)
  {
    hide Removed;
    RemovedElems(l, IndexOf(l, i));
    var r, pcs' := Removed(l, IndexOf(l, i)), pcs[i := Outside];
    forall j | 0 <= j < |r| ensures 0 <= r[j] < |pcs'| { assert r[j] in r; }
    forall j | 0 <= j < |pcs'| ensures j in r <==> Blocked(pcs'[j], kind, p) {
      assert j in l <==> Blocked(pcs[j], kind, p);
    }
  }

  lemma UnqueueQueues(pt: Port, p: int, pcs: seq<Pc>, kind: Kind, i: int)
    requires Queues(pt, p, pcs) && 0 <= i < |pcs| && Blocked(pcs[i], kind, p)
    ensures i in SideOf(pt, kind).queue && SideOf(pt, kind).sem.used && SideOf(pt, kind).sem.count < 0
    ensures Queues(WithSide(pt, kind, Unqueued(SideOf(pt, kind), i)), p, pcs[i := Outside])
  {
    var other := if kind.Sender? then Receiver else Sender;
    InQueue(pt, p, pcs, kind, i);
    hide WaitList;
    LeaveWaitList(pcs, SideOf(pt, kind).queue, kind, p, i);
    SameWaitList(pcs, SideOf(pt, other).queue, other, p, i, Outside);
  }

  lemma InQueue(pt: Port, p: int, pcs: seq<Pc>, kind: Kind, i: int)
    requires Queues(pt, p, pcs) && 0 <= i < |pcs| && Blocked(pcs[i], kind, p)
    ensures i in SideOf(pt, kind).queue && SideOf(pt, kind).sem.used && SideOf(pt, kind).sem.count < 0
  {
    assert i in SideOf(pt, kind).queue;
  }

  lemma KillBlockedOK(pt: Port, p: int, pcs: seq<Pc>, kind: Kind, i: int)
    requires PortOK(pt, p, pcs, 0, 0) && 0 <= i < |pcs| && Blocked(pcs[i], kind, p)
    ensures i in SideOf(pt, kind).queue
    ensures PortOK(WithSide(pt, kind, Unqueued(SideOf(pt, kind), i)), p, pcs[i := Outside], 0, 0)
  {
    hide Queues, Held, SeqsOK, Msgs;
    UnqueueQueues(pt, p, pcs, kind, i);
    SeqsUpdate(pcs, i, Outside, p, pt.ptseq, pt.state.PtAlloc?);
    HeldBoth(pcs, i, Outside, p, pt.ptseq);
    QueueNonempty(pt, p, pcs, kind, i);
    KillClears(pt, p, pcs, kind, i);
  }

  lemma QueueNonempty(pt: Port, p: int, pcs: seq<Pc>, kind: Kind, i: int)
    requires i in SideOf(pt, kind).queue
    ensures SideOf(pt, kind).queue != []
  {
  }

  lemma KillClears(pt: Port, p: int, pcs: seq<Pc>, kind: Kind, i: int)
    requires ClearsOK(pt, p, pcs) && 0 <= i < |pcs| && pcs[i].At? && i in SideOf(pt, kind).queue && SideOf(pt, kind).queue != []
    ensures ClearsOK(WithSide(pt, kind, Unqueued(SideOf(pt, kind), i)), p, pcs[i := Outside])
  {
    var pt', pcs' := WithSide(pt, kind, Unqueued(SideOf(pt, kind), i)), pcs[i := Outside];
    forall j | 0 <= j < |pcs'| && pcs'[j].Clearing? && pcs'[j].port == p ensures ClearOK(pt', pcs'[j]) {
      assert ClearOK(pt, pcs[j]);
    }
  }

  /** kill of a released process: if it held a unit, that unit is lost. */
  function Lost(pt: Port, pc: Pc): Port
    requires pc.At?
  {
    if pt.state.PtAlloc? && pc.ptseq == pt.ptseq then
      var s := SideOf(pt, pc.kind);
      WithSide(pt, pc.kind, s.(lost := s.lost + 1))
    else pt
  }

  lemma KillWokenOK(pt: Port, p: int, pcs: seq<Pc>, i: int)
    requires PortOK(pt, p, pcs, 0, 0) && 0 <= i < |pcs| && pcs[i].At? && pcs[i].port == p && pcs[i].woken
    ensures PortOK(Lost(pt, pcs[i]), p, pcs[i := Outside], 0, 0)
  {
    hide WaitList, Held, SeqsOK, Msgs, ClearOK;
    Leaves(pt, p, pcs, i);
    if pt.state.PtAlloc? {
      ClearsNone(pt, p, pcs);
      ClearsVacuous(Lost(pt, pcs[i]), p, pcs[i := Outside]);
    }
  }
}
