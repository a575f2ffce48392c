// Whole runs of the port calls by any number of processes, in any interleaving.
module PortRuns {
  import opened KernelModel
  import opened PortModel
  import opened PortSteps

  /** panic stops the system; following a null pointer must never happen. */
  datatype Fault = NoFault | OutOfNodes | NullPointer

  datatype Ps = Ps(ports: seq<Port>, free: seq<int>, pcs: seq<Pc>, fault: Fault)

  // ---------------------------------------------------------- conservation

  function Count(l: seq<int>, x: int): nat { multiset(l)[x] }

  /** How often node x is in the lists of the ports. */
  function Queued(ports: seq<Port>, x: int): nat {
    if ports == [] then 0 else Count(Nodes(ports[0].items), x) + Queued(ports[1..], x)
  }

  lemma {:induction false} QueuedUpdate(ports: seq<Port>, p: int, pt: Port, x: int)
    requires 0 <= p < |ports|
    ensures Queued(ports[p := pt], x) == Queued(ports, x) - Count(Nodes(ports[p].items), x) + Count(Nodes(pt.items), x)
    decreases p
  {
    hide Nodes, Count;
    if p > 0 {
      assert ports[p := pt][1..] == ports[1..][p - 1 := pt];
      QueuedUpdate(ports[1..], p - 1, pt, x);
    }
  }

  /** How often node x is on the free list or in a port. */
  function Copies(ps: Ps, x: int): nat { Count(ps.free, x) + Queued(ps.ports, x) }

  lemma CountConcat(a: seq<int>, b: seq<int>, x: int)
    ensures Count(a + b, x) == Count(a, x) + Count(b, x)
  {
  }

  // ------------------------------------------------------------- invariant

  ghost predicate PcOK(pc: Pc) { pc.Outside? || 0 <= pc.port < NPORTS }

  ghost predicate PInv(ps: Ps) {
    && |ps.ports| == NPORTS && !ps.fault.NullPointer?
    && (forall i :: 0 <= i < |ps.pcs| ==> PcOK(ps.pcs[i]))
    && (forall p :: 0 <= p < NPORTS ==> PortOK(ps.ports[p], p, ps.pcs, 0, 0))
  }

  /** Only processes at port p, coming to it or leaving it have moved. */
  ghost predicate OnlyAt(pcs: seq<Pc>, pcs': seq<Pc>, p: int) {
    && |pcs'| == |pcs|
    && (forall i :: 0 <= i < |pcs| ==>
          pcs'[i] == pcs[i] || ((pcs[i].Outside? || pcs[i].port == p) && (pcs'[i].Outside? || pcs'[i].port == p)))
  }

  lemma OnePort(ps: Ps, p: int, pt: Port, pcs: seq<Pc>, free: seq<int>)
    requires PInv(ps) && 0 <= p < NPORTS && PortOK(pt, p, pcs, 0, 0) && OnlyAt(ps.pcs, pcs, p)
    ensures PInv(ps.(ports := ps.ports[p := pt], pcs := pcs, free := free))
  {
    hide PortOK;
    forall q | 0 <= q < NPORTS && q != p ensures PortOK(ps.ports[q], q, pcs, 0, 0) {
      PortFrame(ps.ports[q], q, ps.pcs, pcs, 0, 0);
    }
    forall i | 0 <= i < |pcs| ensures PcOK(pcs[i]) { assert PcOK(ps.pcs[i]); }
  }

  // ----------------------------------------------------------------- steps

  /** A process that has its unit finishes ptsend or ptrecv; pt and pcs are the
      port and the processes without the unit. */
  function Finish(ps: Ps, p: int, pt: Port, pcs: seq<Pc>, kind: Kind, msg: int): Ps
    requires 0 <= p < |ps.ports|
  {
    if kind.Sender? then
      if ps.free == [] then ps.(fault := OutOfNodes)
      else ps.(ports := ps.ports[p := Put(pt, ps.free[0], msg)], free := ps.free[1..], pcs := SignalPcs(pt.recv, pcs))
    else
      if pt.items == [] then ps.(fault := NullPointer)
      else ps.(ports := ps.ports[p := Take(pt)], free := [pt.items[0].node] + ps.free, pcs := SignalPcs(pt.send, pcs))
  }

  predicate BadPort(ps: Ps, p: int) { !(0 <= p < NPORTS) || p >= |ps.ports| || !ps.ports[p].state.PtAlloc? }

  /** ptsend and ptrecv up to the end or to the point where wait blocks. */
  function Enter(ps: Ps, i: int, kind: Kind, p: int, msg: int): Ps
    requires 0 <= i < |ps.pcs|
  {
    if BadPort(ps, p) then ps
    else
      var pt := ps.ports[p];
      var pt1 := WithSide(pt, kind, WaitSide(SideOf(pt, kind), i));
      if SideOf(pt, kind).sem.count > 0 then Finish(ps, p, pt1, ps.pcs, kind, msg)
      else ps.(ports := ps.ports[p := pt1], pcs := ps.pcs[i := At(kind, p, pt.ptseq, msg, false)])
  }

  predicate Stale(ps: Ps, pc: Pc)
    requires pc.At? && 0 <= pc.port < |ps.ports|
  {
    !ps.ports[pc.port].state.PtAlloc? || ps.ports[pc.port].ptseq != pc.ptseq
  }

  /** The rest of ptsend and ptrecv after a wait that blocked. */
  function Resume(ps: Ps, i: int): Ps
    requires 0 <= i < |ps.pcs| && ps.pcs[i].At? && 0 <= ps.pcs[i].port < |ps.ports|
  {
    var pc := ps.pcs[i];
    if Stale(ps, pc) then ps.(pcs := ps.pcs[i := Outside])
    else Finish(ps, pc.port, ps.ports[pc.port], ps.pcs[i := Outside], pc.kind, pc.msg)
  }

  /** ptdelete and ptreset, up to the first message. */
  function Clear(ps: Ps, i: int, p: int, reset: bool): Ps
    requires 0 <= i < |ps.pcs|
  {
    if BadPort(ps, p) then ps
    else ps.(ports := ps.ports[p := ClearBegin(ps.ports[p])], pcs := ps.pcs[i := Clearing(p, reset, 0, 0)])
  }

  /** The next piece of _ptclear. */
  function ClearMore(ps: Ps, i: int): Ps
    requires 0 <= i < |ps.pcs| && ps.pcs[i].Clearing? && 0 <= ps.pcs[i].port < |ps.ports|
  {
    var pc := ps.pcs[i];
    var p, pt := pc.port, ps.ports[pc.port];
    if pc.phase == 0 && pc.k < |pt.items| then
      ps.(ports := ps.ports[p := Disposed(pt, pc.k)], pcs := ps.pcs[i := pc.(k := pc.k + 1)])
    else if pc.phase == 0 then
      ps.(ports := ps.ports[p := Emptied(pt, pc.reset)], free := Nodes(pt.items) + ps.free,
          pcs := WakeAll(ps.pcs, pt.send.queue)[i := pc.(phase := 1)])
    else if pc.phase == 1 then
      ps.(ports := ps.ports[p := Silenced(pt, pc.reset)], pcs := WakeAll(ps.pcs, pt.recv.queue)[i := pc.(phase := 2)])
    else
      ps.(ports := ps.ports[p := Finished(pt, pc.reset)], pcs := ps.pcs[i := Outside])
  }

  /** ptcreate, in the entry p that it found free. */
  function Create(ps: Ps, p: int, count: int): Ps
    requires 0 <= p < |ps.ports|
  {
    if count < 0 || !ps.ports[p].state.PtFree? then ps else ps.(ports := ps.ports[p := Created(ps.ports[p], count)])
  }

  /** kill of a process inside ptsend or ptrecv. */
  function Kill(ps: Ps, i: int): Ps
    requires 0 <= i < |ps.pcs| && ps.pcs[i].At? && 0 <= ps.pcs[i].port < |ps.ports|
    requires !ps.pcs[i].woken ==> i in SideOf(ps.ports[ps.pcs[i].port], ps.pcs[i].kind).queue
  {
    var pc := ps.pcs[i];
    var pt := ps.ports[pc.port];
    var pt' := if pc.woken then Lost(pt, pc) else WithSide(pt, pc.kind, Unqueued(SideOf(pt, pc.kind), i));
    ps.(ports := ps.ports[pc.port := pt'], pcs := ps.pcs[i := Outside])
  }

  datatype Step =
    | DoEnter(i: int, kind: Kind, p: int, msg: int) | DoResume(i: int)
    | DoClear(i: int, p: int, reset: bool) | DoClearMore(i: int)
    | DoCreate(p: int, count: int) | DoKill(i: int)

  ghost predicate Enabled(ps: Ps, st: Step) {
    && ps.fault.NoFault?
    && match st
       case DoEnter(i, kind, p, msg) => 0 <= i < |ps.pcs| && ps.pcs[i].Outside?
       case DoResume(i) => 0 <= i < |ps.pcs| && ps.pcs[i].At? && ps.pcs[i].woken
       case DoClear(i, p, reset) => 0 <= i < |ps.pcs| && ps.pcs[i].Outside?
       case DoClearMore(i) => 0 <= i < |ps.pcs| && ps.pcs[i].Clearing?
       case DoCreate(p, count) => 0 <= p < NPORTS
       case DoKill(i) => 0 <= i < |ps.pcs| && ps.pcs[i].At?
  }

  lemma EnabledFacts(ps: Ps, i: int)
    requires PInv(ps) && 0 <= i < |ps.pcs| && !ps.pcs[i].Outside?
    ensures var pc := ps.pcs[i];
            && 0 <= pc.port < |ps.ports| == NPORTS && PortOK(ps.ports[pc.port], pc.port, ps.pcs, 0, 0)
            && (pc.At? && !pc.woken ==> i in SideOf(ps.ports[pc.port], pc.kind).queue)
  {
    hide SeqsOK, Accounts, ClearsOK;
    var pc := ps.pcs[i];
    assert PcOK(pc);
    assert PortOK(ps.ports[pc.port], pc.port, ps.pcs, 0, 0);
    if pc.At? && !pc.woken { InQueue(ps.ports[pc.port], pc.port, ps.pcs, pc.kind, i); }
  }

  ghost function Next(ps: Ps, st: Step): Ps
    requires PInv(ps) && Enabled(ps, st)
  {
    match st
    case DoEnter(i, kind, p, msg) => Enter(ps, i, kind, p, msg)
    case DoResume(i) => EnabledFacts(ps, i); Resume(ps, i)
    case DoClear(i, p, reset) => Clear(ps, i, p, reset)
    case DoClearMore(i) => EnabledFacts(ps, i); ClearMore(ps, i)
    case DoCreate(p, count) => Create(ps, p, count)
    case DoKill(i) => EnabledFacts(ps, i); Kill(ps, i)
  }

  // ------------------------------------------------- every step keeps it all

  lemma FinishInv(ps: Ps, p: int, pt: Port, pcs: seq<Pc>, kind: Kind, msg: int)
    requires PInv(ps) && ps.fault.NoFault? && 0 <= p < NPORTS && pt.state.PtAlloc? && pt.items == ps.ports[p].items
    requires PortOK(pt, p, pcs, One(kind.Sender?), One(kind.Receiver?)) && OnlyAt(ps.pcs, pcs, p)
    ensures var ps' := Finish(ps, p, pt, pcs, kind, msg); PInv(ps') && (forall x :: Copies(ps', x) == Copies(ps, x))
  {
    hide PortOK, PInv;
    PortCount(ps);
    FirstAt(pt, p, pcs, kind);
    if kind.Sender? {
      if ps.free == [] {
        Halted(ps);
      } else {
        PutOK(pt, p, pcs, ps.free[0], msg);
        OnePort(ps, p, Put(pt, ps.free[0], msg), SignalPcs(pt.recv, pcs), ps.free[1..]);
        forall x ensures Copies(Finish(ps, p, pt, pcs, kind, msg), x) == Copies(ps, x) { PutNodes(ps, p, pt, msg, x); }
      }
    } else {
      TakeOK(pt, p, pcs);
      OnePort(ps, p, Take(pt), SignalPcs(pt.send, pcs), [pt.items[0].node] + ps.free);
      forall x ensures Copies(Finish(ps, p, pt, pcs, kind, msg), x) == Copies(ps, x) { TakeNodes(ps, p, pt, x); }
    }
  }

  lemma PortCount(ps: Ps)
    requires PInv(ps)
    ensures |ps.ports| == NPORTS
  {
  }

  lemma Halted(ps: Ps)
    requires PInv(ps)
    ensures PInv(ps.(fault := OutOfNodes))
  {
    hide PortOK;
  }

  /** The process that signal releases is one at the same port. */
  lemma FirstAt(pt: Port, p: int, pcs: seq<Pc>, kind: Kind)
    requires PortOK(pt, p, pcs, One(kind.Sender?), One(kind.Receiver?))
    ensures OnlyAt(pcs, SignalPcs(pt.recv, pcs), p) && OnlyAt(pcs, SignalPcs(pt.send, pcs), p)
  {
    hide SeqsOK, Accounts, ClearsOK;
    if pt.recv.queue != [] { FirstWaits(pcs, pt.recv.queue, Receiver, p); }
    if pt.send.queue != [] { FirstWaits(pcs, pt.send.queue, Sender, p); }
  }

  lemma PutNodes(ps: Ps, p: int, pt: Port, msg: int, x: int)
    requires 0 <= p < |ps.ports| && pt.items == ps.ports[p].items && ps.free != []
    ensures Count(ps.free[1..], x) + Queued(ps.ports[p := Put(pt, ps.free[0], msg)], x) == Copies(ps, x)
  {
    hide Count, Queued;
    var pt' := Put(pt, ps.free[0], msg);
    QueuedUpdate(ps.ports, p, pt', x);
    assert Nodes(pt'.items) == Nodes(pt.items) + [ps.free[0]];
    CountConcat(Nodes(pt.items), [ps.free[0]], x);
    CountConcat([ps.free[0]], ps.free[1..], x);
    assert ps.free == [ps.free[0]] + ps.free[1..];
  }

  lemma TakeNodes(ps: Ps, p: int, pt: Port, x: int)
    requires 0 <= p < |ps.ports| && pt.items == ps.ports[p].items && pt.items != []
    ensures Count([pt.items[0].node] + ps.free, x) + Queued(ps.ports[p := Take(pt)], x) == Copies(ps, x)
  {
    hide Count, Queued;
    QueuedUpdate(ps.ports, p, Take(pt), x);
    var n := [pt.items[0].node];
    assert Nodes(pt.items) == n + Nodes(pt.items[1..]);
    CountConcat(n, Nodes(pt.items[1..]), x);
    CountConcat(n, ps.free, x);
  }

  lemma SameNodes(ps: Ps, p: int, pt: Port)
    requires 0 <= p < |ps.ports| && pt.items == ps.ports[p].items
    ensures forall x :: Queued(ps.ports[p := pt], x) == Queued(ps.ports, x)
  {
    forall x ensures Queued(ps.ports[p := pt], x) == Queued(ps.ports, x) { QueuedUpdate(ps.ports, p, pt, x); }
  }

  lemma EnterInv(ps: Ps, i: int, kind: Kind, p: int, msg: int)
    requires PInv(ps) && ps.fault.NoFault? && 0 <= i < |ps.pcs| && ps.pcs[i].Outside?
    ensures var ps' := Enter(ps, i, kind, p, msg); PInv(ps') && (forall x :: Copies(ps', x) == Copies(ps, x))
  {
    hide PortOK;
    if !BadPort(ps, p) {
      var pt := ps.ports[p];
      assert PortOK(pt, p, ps.pcs, 0, 0);
      var pt1 := WithSide(pt, kind, WaitSide(SideOf(pt, kind), i));
      if SideOf(pt, kind).sem.count > 0 {
        WaitTakes(pt, p, ps.pcs, kind, i);
        FinishInv(ps, p, pt1, ps.pcs, kind, msg);
      } else {
        WaitBlocks(pt, p, ps.pcs, kind, i, msg);
        OnePort(ps, p, pt1, ps.pcs[i := At(kind, p, pt.ptseq, msg, false)], ps.free);
        SameNodes(ps, p, pt1);
      }
    }
  }

  lemma ResumeInv(ps: Ps, i: int)
    requires PInv(ps) && ps.fault.NoFault? && 0 <= i < |ps.pcs| && ps.pcs[i].At? && ps.pcs[i].woken && 0 <= ps.pcs[i].port < |ps.ports|
    ensures PInv(Resume(ps, i)) && (forall x :: Copies(Resume(ps, i), x) == Copies(ps, x))
  {
    hide PortOK;
    EnabledFacts(ps, i);
    var pc := ps.pcs[i];
    Leaves(ps.ports[pc.port], pc.port, ps.pcs, i);
    if Stale(ps, pc) {
      OnePort(ps, pc.port, ps.ports[pc.port], ps.pcs[i := Outside], ps.free);
      assert ps.ports[pc.port := ps.ports[pc.port]] == ps.ports;
    } else {
      FinishInv(ps, pc.port, ps.ports[pc.port], ps.pcs[i := Outside], pc.kind, pc.msg);
    }
  }

  lemma ClearInv(ps: Ps, i: int, p: int, reset: bool)
    requires PInv(ps) && ps.fault.NoFault? && 0 <= i < |ps.pcs| && ps.pcs[i].Outside?
    ensures var ps' := Clear(ps, i, p, reset); PInv(ps') && (forall x :: Copies(ps', x) == Copies(ps, x))
  {
    hide PortOK;
    if !BadPort(ps, p) {
      assert PortOK(ps.ports[p], p, ps.pcs, 0, 0);
      BeginOK(ps.ports[p], p, ps.pcs, i, reset);
      OnePort(ps, p, ClearBegin(ps.ports[p]), ps.pcs[i := Clearing(p, reset, 0, 0)], ps.free);
      SameNodes(ps, p, ClearBegin(ps.ports[p]));
    }
  }

  lemma EmptyNodes(ps: Ps, p: int, reset: bool, x: int)
    requires 0 <= p < |ps.ports|
    ensures Count(Nodes(ps.ports[p].items) + ps.free, x) + Queued(ps.ports[p := Emptied(ps.ports[p], reset)], x) == Copies(ps, x)
  {
    hide Queued;
    QueuedUpdate(ps.ports, p, Emptied(ps.ports[p], reset), x);
    CountConcat(Nodes(ps.ports[p].items), ps.free, x);
  }

  lemma WakeOnlyAt(pcs: seq<Pc>, l: seq<int>, kind: Kind, p: int, i: int, pc: Pc)
    requires WaitList(pcs, l, kind, p) && 0 <= i < |pcs| && pcs[i].Clearing? && pcs[i].port == p && pc.Clearing? && pc.port == p
    ensures OnlyAt(pcs, WakeAll(pcs, l)[i := pc], p)
  {
    hide WaitList, WakeAll;
    WakeAllOnly(pcs, l, kind, p);
  }

  lemma ClearMoreInv(ps: Ps, i: int)
    requires PInv(ps) && ps.fault.NoFault? && 0 <= i < |ps.pcs| && ps.pcs[i].Clearing? && 0 <= ps.pcs[i].port < |ps.ports|
    ensures PInv(ClearMore(ps, i)) && (forall x :: Copies(ClearMore(ps, i), x) == Copies(ps, x))
  {
    hide PortOK, WakeAll, Nodes, Queued;
    EnabledFacts(ps, i);
    var pc := ps.pcs[i];
    var p, pt := pc.port, ps.ports[pc.port];
    ListsOf(pt, p, ps.pcs);
    if pc.phase == 0 && pc.k < |pt.items| {
      DisposeOK(pt, p, ps.pcs, i);
      OnePort(ps, p, Disposed(pt, pc.k), ps.pcs[i := pc.(k := pc.k + 1)], ps.free);
      SameNodes(ps, p, Disposed(pt, pc.k));
    } else if pc.phase == 0 {
      EmptyOK(pt, p, ps.pcs, i);
      WakeOnlyAt(ps.pcs, pt.send.queue, Sender, p, i, pc.(phase := 1));
      OnePort(ps, p, Emptied(pt, pc.reset), WakeAll(ps.pcs, pt.send.queue)[i := pc.(phase := 1)], Nodes(pt.items) + ps.free);
      forall x ensures Copies(ClearMore(ps, i), x) == Copies(ps, x) { EmptyNodes(ps, p, pc.reset, x); }
    } else if pc.phase == 1 {
      SilenceOK(pt, p, ps.pcs, i);
      WakeOnlyAt(ps.pcs, pt.recv.queue, Receiver, p, i, pc.(phase := 2));
      OnePort(ps, p, Silenced(pt, pc.reset), WakeAll(ps.pcs, pt.recv.queue)[i := pc.(phase := 2)], ps.free);
      SameNodes(ps, p, Silenced(pt, pc.reset));
    } else {
      FinishOK(pt, p, ps.pcs, i);
      OnePort(ps, p, Finished(pt, pc.reset), ps.pcs[i := Outside], ps.free);
      SameNodes(ps, p, Finished(pt, pc.reset));
    }
  }

  lemma ListsOf(pt: Port, p: int, pcs: seq<Pc>)
    requires PortOK(pt, p, pcs, 0, 0)
    ensures WaitList(pcs, pt.send.queue, Sender, p) && WaitList(pcs, pt.recv.queue, Receiver, p)
  {
  }

  lemma CreateInv(ps: Ps, p: int, count: int)
    requires PInv(ps) && 0 <= p < NPORTS
    ensures PInv(Create(ps, p, count)) && (forall x :: Copies(Create(ps, p, count), x) == Copies(ps, x))
  {
    hide PortOK;
    if count >= 0 && ps.ports[p].state.PtFree? {
      assert PortOK(ps.ports[p], p, ps.pcs, 0, 0);
      CreateOK(ps.ports[p], p, ps.pcs, count);
      OnePort(ps, p, Created(ps.ports[p], count), ps.pcs, ps.free);
      FreeEmpty(ps.ports[p], p, ps.pcs);
      SameNodes(ps, p, Created(ps.ports[p], count));
    }
  }

  lemma FreeEmpty(pt: Port, p: int, pcs: seq<Pc>)
    requires PortOK(pt, p, pcs, 0, 0) && pt.state.PtFree?
    ensures pt.items == []
  {
  }

  lemma KillInv(ps: Ps, i: int)
    requires PInv(ps) && 0 <= i < |ps.pcs| && ps.pcs[i].At? && 0 <= ps.pcs[i].port < |ps.ports|
    requires !ps.pcs[i].woken ==> i in SideOf(ps.ports[ps.pcs[i].port], ps.pcs[i].kind).queue
    ensures PInv(Kill(ps, i)) && (forall x :: Copies(Kill(ps, i), x) == Copies(ps, x))
  {
    hide PortOK;
    EnabledFacts(ps, i);
    var pc := ps.pcs[i];
    var p, pt := pc.port, ps.ports[pc.port];
    if pc.woken {
      KillWokenOK(pt, p, ps.pcs, i);
    } else {
      KillBlockedOK(pt, p, ps.pcs, pc.kind, i);
    }
    var pt' := Kill(ps, i).ports[p];
    OnePort(ps, p, pt', ps.pcs[i := Outside], ps.free);
    SameNodes(ps, p, pt');
  }

  lemma StepInv(ps: Ps, st: Step)
    requires PInv(ps) && Enabled(ps, st)
    ensures PInv(Next(ps, st)) && (forall x :: Copies(Next(ps, st), x) == Copies(ps, x))
  {
    hide PInv, Copies, Enter, Resume, Clear, ClearMore, Create, Kill;
    match st
    case DoEnter(i, kind, p, msg) => EnterInv(ps, i, kind, p, msg);
    case DoResume(i) => EnabledFacts(ps, i); ResumeInv(ps, i);
    case DoClear(i, p, reset) => ClearInv(ps, i, p, reset);
    case DoClearMore(i) => EnabledFacts(ps, i); ClearMoreInv(ps, i);
    case DoCreate(p, count) => CreateInv(ps, p, count);
    case DoKill(i) => EnabledFacts(ps, i); KillInv(ps, i);
  }

  // ------------------------------------------------------------ whole runs

  /** ptinit, with n message nodes. */
  function Init(n: nat, nproc: nat): Ps {
    var side := Side(Sem(false, 0), [], 0);
    Ps(seq(NPORTS, _ => Port(PtFree, 0, 0, side, side, [], 0, [], [], [])),
       seq(n, i => i), seq(nproc, _ => Outside), NoFault)
  }

  lemma InitInv(n: nat, nproc: nat)
    ensures PInv(Init(n, nproc))
    ensures forall x :: Copies(Init(n, nproc), x) == if 0 <= x < n then 1 else 0
  {
    InitPorts(n, nproc);
    forall x ensures Copies(Init(n, nproc), x) == if 0 <= x < n then 1 else 0 {
      hide PInv;
      CountUpTo(n, x);
      NothingQueued(Init(n, nproc).ports, x);
    }
  }

  lemma InitPorts(n: nat, nproc: nat)
    ensures PInv(Init(n, nproc))
  {
    var ps := Init(n, nproc);
    forall p | 0 <= p < NPORTS ensures PortOK(ps.ports[p], p, ps.pcs, 0, 0) {
      assert WaitList(ps.pcs, [], Sender, p) && WaitList(ps.pcs, [], Receiver, p);
    }
  }

  lemma {:induction false} CountUpTo(n: nat, x: int)
    ensures Count(seq(n, i => i), x) == if 0 <= x < n then 1 else 0
    decreases n
  {
    if n > 0 {
      assert seq(n, i => i) == seq(n - 1, i => i) + [n - 1];
      CountConcat(seq(n - 1, i => i), [n - 1], x);
      CountUpTo(n - 1, x);
    }
  }

  lemma {:induction false} NothingQueued(ports: seq<Port>, x: int)
    requires forall p :: 0 <= p < |ports| ==> ports[p].items == []
    ensures Queued(ports, x) == 0
    decreases |ports|
  {
    if ports != [] { NothingQueued(ports[1..], x); }
  }

  ghost predicate CanRun(ps: Ps, steps: seq<Step>)
    requires PInv(ps)
    decreases |steps|
  {
    steps == [] || (Enabled(ps, steps[0]) && (StepInv(ps, steps[0]); CanRun(Next(ps, steps[0]), steps[1..])))
  }

  ghost function Run(ps: Ps, steps: seq<Step>): (r: Ps)
    requires PInv(ps) && CanRun(ps, steps)
    ensures PInv(r)
    decreases |steps|
  {
    if steps == [] then ps else StepInv(ps, steps[0]); Run(Next(ps, steps[0]), steps[1..])
  }

  lemma {:induction false} RunCopies(ps: Ps, steps: seq<Step>, x: int)
    requires PInv(ps) && CanRun(ps, steps)
    ensures Copies(Run(ps, steps), x) == Copies(ps, x)
    decreases |steps|
  {
    hide PInv, Next, Enabled, Copies;
    if steps != [] {
      StepInv(ps, steps[0]);
      RunCopies(Next(ps, steps[0]), steps[1..], x);
    }
  }

  /** What holds at the end of any run from ptinit. */
  lemma RunSafety(n: nat, nproc: nat, steps: seq<Step>)
    requires PInv(Init(n, nproc)) && CanRun(Init(n, nproc), steps)
    ensures var ps := Run(Init(n, nproc), steps);
            && |ps.ports| == NPORTS
            // no null pointer was followed
            && !ps.fault.NullPointer?
            // every node is on the free list or in one port, exactly once
            && (forall x :: Copies(ps, x) == if 0 <= x < n then 1 else 0)
            // ports are bounded and first-in first-out
            && (forall p :: 0 <= p < NPORTS && ps.ports[p].state.PtAlloc? ==>
                  |ps.ports[p].items| <= ps.ports[p].cap && ps.ports[p].received + Msgs(ps.ports[p].items) == ps.ports[p].sent)
            // a receiver that will pass the sequence check finds a message
            && (forall i :: 0 <= i < |ps.pcs| && ps.pcs[i].At? && ps.pcs[i].woken && ps.pcs[i].kind.Receiver? ==>
                  0 <= ps.pcs[i].port < NPORTS && (!Stale(ps, ps.pcs[i]) ==> ps.ports[ps.pcs[i].port].items != []))
  {
    hide Run, CanRun, PInv, Init, Copies;
    InitInv(n, nproc);
    var ps := Run(Init(n, nproc), steps);
    forall x ensures Copies(ps, x) == if 0 <= x < n then 1 else 0 { RunCopies(Init(n, nproc), steps, x); }
    Holds(ps);
  }

  lemma Holds(ps: Ps)
    requires PInv(ps)
    ensures |ps.ports| == NPORTS && !ps.fault.NullPointer?
    ensures forall p :: 0 <= p < NPORTS && ps.ports[p].state.PtAlloc? ==>
              |ps.ports[p].items| <= ps.ports[p].cap && ps.ports[p].received + Msgs(ps.ports[p].items) == ps.ports[p].sent
    ensures forall i :: 0 <= i < |ps.pcs| && ps.pcs[i].At? && ps.pcs[i].woken && ps.pcs[i].kind.Receiver? ==>
              0 <= ps.pcs[i].port < NPORTS && (!Stale(ps, ps.pcs[i]) ==> ps.ports[ps.pcs[i].port].items != [])
  {
    hide Queues, SeqsOK, ClearsOK, Held;
    forall p | 0 <= p < NPORTS && ps.ports[p].state.PtAlloc?
      ensures |ps.ports[p].items| <= ps.ports[p].cap && ps.ports[p].received + Msgs(ps.ports[p].items) == ps.ports[p].sent
    {
      assert PortOK(ps.ports[p], p, ps.pcs, 0, 0);
    }
    forall i | 0 <= i < |ps.pcs| && ps.pcs[i].At? && ps.pcs[i].woken && ps.pcs[i].kind.Receiver?
      ensures 0 <= ps.pcs[i].port < NPORTS && (!Stale(ps, ps.pcs[i]) ==> ps.ports[ps.pcs[i].port].items != [])
    {
      var pc := ps.pcs[i];
      assert PcOK(pc);
      assert PortOK(ps.ports[pc.port], pc.port, ps.pcs, 0, 0);
      if !Stale(ps, pc) { HeldSome(ps.pcs, i, Receiver, pc.port, pc.ptseq); }
    }
  }

  // -------------------------------------------- waiting across a reset

  /** Process i waits, or has waited, for an earlier incarnation of its port. */
  ghost predicate Behind(ps: Ps, i: int) {
    && 0 <= i < |ps.pcs| && ps.pcs[i].At? && 0 <= ps.pcs[i].port < |ps.ports|
    && ps.pcs[i].ptseq < ps.ports[ps.pcs[i].port].ptseq
  }

  /** When it runs, it returns an error and touches neither lists nor semaphores. */
  lemma BehindHarmless(ps: Ps, i: int)
    requires Behind(ps, i)
    ensures Resume(ps, i) == ps.(pcs := ps.pcs[i := Outside])
  {
  }

  /** A reset or delete puts everybody waiting at the port behind. */
  lemma ClearLeavesBehind(ps: Ps, i: int, j: int, p: int, reset: bool)
    requires PInv(ps) && 0 <= i < |ps.pcs| && ps.pcs[i].Outside? && !BadPort(ps, p)
    requires 0 <= j < |ps.pcs| && ps.pcs[j].At? && ps.pcs[j].port == p
    ensures Behind(Clear(ps, i, p, reset), j)
  {
    hide Queues, Accounts, ClearsOK;
    assert PortOK(ps.ports[p], p, ps.pcs, 0, 0);
    assert SeqOK(ps.pcs[j], p, ps.ports[p].ptseq, true);
  }

  lemma SignalSame(s: Side, pcs: seq<Pc>, i: int)
    requires 0 <= i < |pcs| && pcs[i].At?
    ensures |SignalPcs(s, pcs)| == |pcs| && SignalPcs(s, pcs)[i].At?
    ensures SignalPcs(s, pcs)[i].port == pcs[i].port && SignalPcs(s, pcs)[i].ptseq == pcs[i].ptseq
  {
  }

  /** Whatever others do, it stays behind until it runs or is killed. */
  lemma BehindStays(ps: Ps, st: Step, i: int)
    requires PInv(ps) && Enabled(ps, st) && Behind(ps, i) && st != DoResume(i) && st != DoKill(i)
    ensures Behind(Next(ps, st), i)
  {
    hide PInv, Behind, Enter, Resume, Clear, ClearMore, Create, Kill;
    PortCount(ps);
    match st
    case DoEnter(j, kind, p, msg) => EnterBehind(ps, j, kind, p, msg, i);
    case DoResume(j) =>
      EnabledFacts(ps, j);
      ResumeBehind(ps, j, i);
    case DoClear(j, p, reset) => ClearBehind(ps, j, p, reset, i);
    case DoClearMore(j) =>
      EnabledFacts(ps, j);
      MoreBehind(ps, j, i);
    case DoCreate(p, count) => CreateBehind(ps, p, count, i);
    case DoKill(j) =>
      EnabledFacts(ps, j);
      KillBehind(ps, j, i);
  }

  lemma EnterBehind(ps: Ps, j: int, kind: Kind, p: int, msg: int, i: int)
    requires Behind(ps, i) && 0 <= j < |ps.pcs| && ps.pcs[j].Outside?
    ensures Behind(Enter(ps, j, kind, p, msg), i)
  {
    hide Finish;
    if !BadPort(ps, p) {
      var pt1 := WithSide(ps.ports[p], kind, WaitSide(SideOf(ps.ports[p], kind), j));
      FinishBehind(ps, p, pt1, ps.pcs, kind, msg, i);
    }
  }

  lemma ResumeBehind(ps: Ps, j: int, i: int)
    requires Behind(ps, i) && 0 <= j < |ps.pcs| && ps.pcs[j].At? && 0 <= ps.pcs[j].port < |ps.ports| && i != j
    ensures Behind(Resume(ps, j), i)
  {
    hide Finish;
    var pc := ps.pcs[j];
    FinishBehind(ps, pc.port, ps.ports[pc.port], ps.pcs[j := Outside], pc.kind, pc.msg, i);
  }

  lemma ClearBehind(ps: Ps, j: int, p: int, reset: bool, i: int)
    requires Behind(ps, i) && 0 <= j < |ps.pcs| && ps.pcs[j].Outside?
    ensures Behind(Clear(ps, j, p, reset), i)
  {
  }

  lemma MoreBehind(ps: Ps, j: int, i: int)
    requires Behind(ps, i) && 0 <= j < |ps.pcs| && ps.pcs[j].Clearing? && 0 <= ps.pcs[j].port < |ps.ports|
    ensures Behind(ClearMore(ps, j), i)
  {
    hide WakeAll, Nodes;
  }

  lemma CreateBehind(ps: Ps, p: int, count: int, i: int)
    requires Behind(ps, i) && 0 <= p < |ps.ports|
    ensures Behind(Create(ps, p, count), i)
  {
  }

  lemma KillBehind(ps: Ps, j: int, i: int)
    requires Behind(ps, i) && 0 <= j < |ps.pcs| && ps.pcs[j].At? && 0 <= ps.pcs[j].port < |ps.ports| && i != j
    requires !ps.pcs[j].woken ==> j in SideOf(ps.ports[ps.pcs[j].port], ps.pcs[j].kind).queue
    ensures Behind(Kill(ps, j), i)
  {
  }

  lemma FinishBehind(ps: Ps, p: int, pt: Port, pcs: seq<Pc>, kind: Kind, msg: int, i: int)
    requires 0 <= p < |ps.ports| && Behind(ps, i) && pt.ptseq == ps.ports[p].ptseq && i < |pcs| && pcs[i] == ps.pcs[i]
    ensures Behind(Finish(ps, p, pt, pcs, kind, msg), i)
  {
    hide SignalPcs;
    SignalSame(pt.recv, pcs, i);
    SignalSame(pt.send, pcs, i);
  }

  /** A process that waited across a reset or delete never touches the list,
      however much happens before it runs. */
  lemma {:induction false} BehindRun(ps: Ps, steps: seq<Step>, i: int)
    requires PInv(ps) && CanRun(ps, steps) && Behind(ps, i)
    requires forall j :: 0 <= j < |steps| ==> steps[j] != DoResume(i) && steps[j] != DoKill(i)
    ensures var ps' := Run(ps, steps); Behind(ps', i) && Resume(ps', i) == ps'.(pcs := ps'.pcs[i := Outside])
    decreases |steps|
  {
    hide PInv, Next, Enabled, Behind, Resume;
    if steps == [] {
      BehindIsAt(ps, i);
      BehindHarmless(ps, i);
    } else {
      StepInv(ps, steps[0]);
      BehindStays(ps, steps[0], i);
      BehindRun(Next(ps, steps[0]), steps[1..], i);
    }
  }

  lemma BehindIsAt(ps: Ps, i: int)
    requires Behind(ps, i)
    ensures 0 <= i < |ps.pcs| && ps.pcs[i].At? && 0 <= ps.pcs[i].port < |ps.ports|
  {
  }

  // ------------------------------------------------------ clearing a port

  /** By the time a clear returns the nodes, every message sent to the port was
      received or disposed of, once, in order. */
  lemma ClearDisposes(ps: Ps, i: int)
    requires PInv(ps) && 0 <= i < |ps.pcs| && ps.pcs[i].Clearing? && ps.pcs[i].phase == 0
    requires 0 <= ps.pcs[i].port < |ps.ports| && ps.pcs[i].k >= |ps.ports[ps.pcs[i].port].items|
    ensures var pt := ps.ports[ps.pcs[i].port]; pt.received + pt.disposed == pt.sent
  {
    hide Queues, SeqsOK, Accounts;
    var pc := ps.pcs[i];
    var pt := ps.ports[pc.port];
    assert PortOK(pt, pc.port, ps.pcs, 0, 0);
    assert ClearOK(pt, pc);
    assert pt.items[..pc.k] == pt.items;
  }

  /** At any point of any run, the reset of a port leaves it with as many slots as
      16 bits hold of its size, and so with the same size exactly if they hold it. */
  lemma ResetKeepsSize(ps: Ps, i: int)
    requires PInv(ps) && ps.fault.NoFault? && 0 <= i < |ps.pcs| && ps.pcs[i].Clearing? && ps.pcs[i].phase == 0 && ps.pcs[i].reset
    requires 0 <= ps.pcs[i].port < |ps.ports| && ps.pcs[i].k >= |ps.ports[ps.pcs[i].port].items|
    ensures var pt, pt' := ps.ports[ps.pcs[i].port], ClearMore(ps, i).ports[ps.pcs[i].port];
            && pt'.cap == pt'.send.sem.count == pt.cap % M16
            && (pt'.cap == pt.cap <==> 0 <= pt.cap < M16)
  {
    hide Queues, SeqsOK, Accounts, ClearsOK;
    assert PortOK(ps.ports[ps.pcs[i].port], ps.pcs[i].port, ps.pcs, 0, 0);
  }

  /** A port created with 65536 slots and then reset has none: it can no longer be
      sent to without blocking. */
  lemma ResetShrinks(n: nat)
    ensures PInv(Init(n, 1))
    ensures var ps1 := Create(Init(n, 1), 0, M16);
            var ps2 := Clear(ps1, 0, 0, true);
            && PInv(ps1) && PInv(ps2) && ps1.ports[0].cap == M16 && ps2.pcs[0] == Clearing(0, true, 0, 0)
            && ClearMore(ps2, 0).ports[0].cap == 0 && ClearMore(ps2, 0).ports[0].send.sem == Sem(true, 0)
  {
    hide PInv;
    InitInv(n, 1);
    var ps1 := Create(Init(n, 1), 0, M16);
    CreateInv(Init(n, 1), 0, M16);
    ClearInv(ps1, 0, 0, true);
    ResetKeepsSize(Clear(ps1, 0, 0, true), 0);
  }

  /** Nothing but a creation and the reset itself changes the size of a port. */
  lemma SizeStays(ps: Ps, st: Step, p: int)
    requires PInv(ps) && Enabled(ps, st) && 0 <= p < NPORTS && !(st.DoCreate? && st.p == p)
    requires !(st.DoClearMore? && ps.pcs[st.i].port == p && ps.pcs[st.i].reset)
    ensures |Next(ps, st).ports| == |ps.ports| == NPORTS && Next(ps, st).ports[p].cap == ps.ports[p].cap
  {
    hide PInv, WakeAll, Nodes, SignalPcs;
    PortCount(ps);
    match st
    case DoResume(j) => EnabledFacts(ps, j);
    case DoClearMore(j) => EnabledFacts(ps, j);
    case DoKill(j) => EnabledFacts(ps, j);
    case _ =>
  }

  // --------------------------------------------------------- without kill

  ghost predicate NothingLost(ps: Ps) {
    forall p :: 0 <= p < |ps.ports| ==> ps.ports[p].send.lost == 0 && ps.ports[p].recv.lost == 0
  }

  /** The step does not kill a process that was released and has not run. */
  predicate Spares(ps: Ps, st: Step) { st.DoKill? ==> 0 <= st.i < |ps.pcs| && ps.pcs[st.i].At? && !ps.pcs[st.i].woken }

  /** Units are lost only when a process that was released and has not run is killed. */
  lemma OnlyKillLoses(ps: Ps, st: Step)
    requires PInv(ps) && Enabled(ps, st) && NothingLost(ps) && Spares(ps, st)
    ensures NothingLost(Next(ps, st))
  {
    hide PInv, Enter, Resume, ClearMore, Kill;
    PortCount(ps);
    match st
    case DoEnter(j, kind, p, msg) => EnterLoses(ps, j, kind, p, msg);
    case DoResume(j) =>
      EnabledFacts(ps, j);
      ResumeLoses(ps, j);
    case DoClearMore(j) =>
      EnabledFacts(ps, j);
      MoreLoses(ps, j);
    case DoKill(j) =>
      EnabledFacts(ps, j);
      KillLoses(ps, j);
    case _ =>
  }

  lemma FinishLoses(ps: Ps, p: int, pt: Port, pcs: seq<Pc>, kind: Kind, msg: int)
    requires NothingLost(ps) && 0 <= p < |ps.ports| && pt.send.lost == 0 && pt.recv.lost == 0
    ensures NothingLost(Finish(ps, p, pt, pcs, kind, msg))
  {
    hide SignalPcs;
  }

  lemma EnterLoses(ps: Ps, j: int, kind: Kind, p: int, msg: int)
    requires NothingLost(ps) && 0 <= j < |ps.pcs|
    ensures NothingLost(Enter(ps, j, kind, p, msg))
  {
    hide Finish;
    if !BadPort(ps, p) {
      FinishLoses(ps, p, WithSide(ps.ports[p], kind, WaitSide(SideOf(ps.ports[p], kind), j)), ps.pcs, kind, msg);
    }
  }

  lemma ResumeLoses(ps: Ps, j: int)
    requires NothingLost(ps) && 0 <= j < |ps.pcs| && ps.pcs[j].At? && 0 <= ps.pcs[j].port < |ps.ports|
    ensures NothingLost(Resume(ps, j))
  {
    hide Finish;
    var pc := ps.pcs[j];
    FinishLoses(ps, pc.port, ps.ports[pc.port], ps.pcs[j := Outside], pc.kind, pc.msg);
  }

  lemma MoreLoses(ps: Ps, j: int)
    requires NothingLost(ps) && 0 <= j < |ps.pcs| && ps.pcs[j].Clearing? && 0 <= ps.pcs[j].port < |ps.ports|
    ensures NothingLost(ClearMore(ps, j))
  {
    hide WakeAll, Nodes;
  }

  lemma KillLoses(ps: Ps, j: int)
    requires NothingLost(ps) && 0 <= j < |ps.pcs| && ps.pcs[j].At? && 0 <= ps.pcs[j].port < |ps.ports| && !ps.pcs[j].woken
    requires j in SideOf(ps.ports[ps.pcs[j].port], ps.pcs[j].kind).queue
    ensures NothingLost(Kill(ps, j))
  {
  }

  /** No step of the run kills a process that was released and has not run. */
  ghost predicate SparesAll(ps: Ps, steps: seq<Step>)
    requires PInv(ps) && CanRun(ps, steps)
    decreases |steps|
  {
    steps == [] || (Spares(ps, steps[0]) && (StepInv(ps, steps[0]); SparesAll(Next(ps, steps[0]), steps[1..])))
  }

  ghost predicate Exactly(pt: Port, p: int, pcs: seq<Pc>) {
    && Pos(pt.send.sem.count) + Held(pcs, Sender, p, pt.ptseq) + |pt.items| == pt.cap
    && Pos(pt.recv.sem.count) + Held(pcs, Receiver, p, pt.ptseq) == |pt.items|
  }

  ghost predicate Exact(ps: Ps) {
    forall p :: 0 <= p < |ps.ports| && ps.ports[p].state.PtAlloc? ==> Exactly(ps.ports[p], p, ps.pcs)
  }

  /** In runs that kill no released process before it has run, the semaphore count, the released senders and the
      queued messages add up to the size of the port; likewise for receivers. */
  lemma {:induction false} ExactAccounts(ps: Ps, steps: seq<Step>)
    requires PInv(ps) && CanRun(ps, steps) && NothingLost(ps) && SparesAll(ps, steps)
    ensures Exact(Run(ps, steps))
    decreases |steps|
  {
    hide PInv, Next, Enabled, NothingLost, Exact, Spares;
    if steps == [] {
      ExactNow(ps);
    } else {
      StepInv(ps, steps[0]);
      OnlyKillLoses(ps, steps[0]);
      ExactAccounts(Next(ps, steps[0]), steps[1..]);
    }
  }

  lemma ExactNow(ps: Ps)
    requires PInv(ps) && NothingLost(ps)
    ensures Exact(ps)
  {
    hide Queues, SeqsOK, ClearsOK, Held, Msgs;
    forall p | 0 <= p < |ps.ports| && ps.ports[p].state.PtAlloc? ensures Exactly(ps.ports[p], p, ps.pcs) {
      assert PortOK(ps.ports[p], p, ps.pcs, 0, 0);
    }
  }
}
