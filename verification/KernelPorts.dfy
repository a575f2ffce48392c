// The semaphores of the port and pool machines are the semaphores of the kernel:
// each piece of a port call does to a port's two semaphores what the kernel's own
// wait, signal, semreset and semdelete do.
module KernelPorts {
  import opened QueueTable
  import opened KernelModel
  import opened KernelSteps
  import opened KernelCalls
  import opened KernelTurns
  import opened PortModel
  import opened PortSteps

  /** The side of a port is semaphore s of the kernel; the count of a free one
      means nothing. */
  ghost predicate SideIs(side: Side, k: Ks, s: int) {
    && 0 <= s < NSEM <= |k.q.lists| && s < |k.sems|
    && side.sem.used == k.sems[s].used && (side.sem.used ==> side.sem.count == k.sems[s].count)
    && side.queue == k.q.lists[s]
  }

  /** Port pt is run by semaphores ss and rs of the kernel. */
  ghost predicate PortIs(pt: Port, k: Ks, ss: int, rs: int) {
    ss != rs && SideIs(pt.send, k, ss) && SideIs(pt.recv, k, rs)
  }

  // ------------------------------------------------- one semaphore at a time

  /** All semaphores but s are as they were. */
  ghost predicate OnlySem(k: Ks, k': Ks, s: int) {
    && |k'.sems| == |k.sems| == NSEM && |k'.q.lists| == |k.q.lists| == NQ
    && forall m :: 0 <= m < NSEM && m != s ==> k'.sems[m] == k.sems[m] && k'.q.lists[m] == k.q.lists[m]
  }

  lemma WaitAgrees(k: Ks, s: int, side: Side)
    requires KInv(k) && !BadSem(k, s) && SideIs(side, k, s) && (k.sems[s].count <= 0 ==> k.curr != NULLPROC && k.ndefers == 0)
    ensures SideIs(WaitSide(side, k.curr), WaitK(k, s), s) && OnlySem(k, WaitK(k, s), s)
  {
    hide Core, Future, TopPriority, SemOK;
    CoreFacts(k, -1);
    if k.sems[s].count <= 0 {
      WaitCore(k, s);
      var k1 := BlockOn(SetCount(k, s, k.sems[s].count - 1), s);
      CoreFacts(k1, -1);
      assert k1.q.lists[s] == k.q.lists[s] + [k.curr];
      ReschedLists(k1);
      ReschedSems(k1);
    }
  }

  lemma ReleasedLists(k: Ks, s: int)
    requires WfQ(k.q) && |k.procs| == NPROC && 0 <= s < NSEM && k.q.lists[s] != []
    ensures |Released(k, s).q.lists| == NQ && Released(k, s).sems == k.sems
    ensures forall m :: 0 <= m < NSEM && m != s ==> Released(k, s).q.lists[m] == k.q.lists[m]
  {
    hide Without, InsertQ, NoDup;
    var p := k.q.lists[s][0];
    OnOwn(k.q, s);
    WithoutOK(k.q, p);
    InsertKeepsLists(Without(k.q, p), p, k.procs[p].prio);
  }

  lemma SignalAgrees(k: Ks, s: int, side: Side)
    requires KInv(k) && !BadSem(k, s) && SideIs(side, k, s)
    ensures SideIs(SignalSide(side), SignalK(k, s), s) && OnlySem(k, SignalK(k, s), s)
    ensures k.sems[s].count < 0 ==> side.queue != []
  {
    hide Core, Future, TopPriority, SemOK, Released;
    CoreFacts(k, -1);
    if k.sems[s].count < 0 {
      SignalCore(k, s);
      var k1 := SetCount(k, s, k.sems[s].count + 1);
      ReleasedLists(k1, s);
      ReschedLists(Released(k1, s));
      ReschedSems(Released(k1, s));
    }
  }

  lemma ReleaseAgrees(k: Ks, s: int, n: nat, x: Sem)
    requires KInv(k) && 0 <= s < NSEM && n <= |k.q.lists[s]| && SemOK(x, k.q.lists[s][n..])
    ensures var k' := ReleaseK(k, s, n, x);
            OnlySem(k, k', s) && k'.sems[s] == x && k'.q.lists[s] == k.q.lists[s][n..]
  {
    hide Core, Future, TopPriority, SemOK;
    CoreFacts(k, -1);
    ReleaseStart(k, s);
    var k1 := Drain(DeferStart(k), s, n);
    CloseEx(k1, s, x);
    var k2 := k1.(sems := k1.sems[s := x]);
    CoreFacts(k2, -1);
    StopAgrees(k2);
  }

  lemma StopAgrees(k: Ks)
    requires Core(k, -1)
    ensures |DeferStop(k).q.lists| == NQ == |k.q.lists| && DeferStop(k).sems == k.sems
    ensures forall m :: 0 <= m < NSEM ==> DeferStop(k).q.lists[m] == k.q.lists[m]
  {
    hide Delta, ReadyKeys, SemOK, Placed, SemsOK, Homed, NoDup;
    if k.ndefers == 1 && k.attempt {
      ReschedLists(k.(ndefers := 0));
      ReschedSems(k.(ndefers := 0));
    }
  }

  lemma ResetAgrees(k: Ks, s: int, count: nat)
    requires KInv(k) && !BadSem(k, s)
    ensures SideIs(Side(Sem(true, count), [], 0), SemResetK(k, s, count), s) && OnlySem(k, SemResetK(k, s, count), s)
  {
    ReleaseAgrees(k, s, |k.q.lists[s]|, Sem(true, count));
  }

  lemma DeleteAgrees(k: Ks, s: int)
    requires KInv(k) && !BadSem(k, s)
    ensures SideIs(Side(Sem(false, 0), [], 0), SemDeleteK(k, s), s) && OnlySem(k, SemDeleteK(k, s), s)
  {
    var c := k.sems[s].count;
    ReleaseAgrees(k, s, |k.q.lists[s]|, Sem(false, if c < 0 then 1 else c + 1));
  }

  // --------------------------------------------------- the pieces of a call

  lemma SideFrame(side: Side, k: Ks, k': Ks, s: int, m: int)
    requires SideIs(side, k, m) && OnlySem(k, k', s) && m != s
    ensures SideIs(side, k', m)
  {
  }

  /** ptsend and ptrecv that do not block: wait on one side, the list operation,
      signal on the other. */
  lemma SendPasses(pt: Port, k: Ks, ss: int, rs: int, node: int, msg: int)
    requires PortIs(pt, k, ss, rs) && KInv(k) && !BadSem(k, ss) && !BadSem(k, rs) && k.sems[ss].count > 0
    ensures KInv(WaitK(k, ss))
    ensures PortIs(Put(pt.(send := WaitSide(pt.send, k.curr)), node, msg), SignalK(WaitK(k, ss), rs), ss, rs)
  {
    hide KInv, SideIs, OnlySem, WaitK, SignalK, WaitSide, SignalSide;
    SemFacts(k, ss);
    WaitInv(k, ss);
    WaitAgrees(k, ss, pt.send);
    var k1 := WaitK(k, ss);
    SideFrame(pt.recv, k, k1, ss, rs);
    StillGood(k, k1, ss, rs);
    SignalAgrees(k1, rs, pt.recv);
    SideFrame(WaitSide(pt.send, k.curr), k1, SignalK(k1, rs), rs, ss);
  }

  lemma RecvPasses(pt: Port, k: Ks, ss: int, rs: int)
    requires PortIs(pt, k, ss, rs) && KInv(k) && !BadSem(k, ss) && !BadSem(k, rs) && k.sems[rs].count > 0 && pt.items != []
    ensures KInv(WaitK(k, rs))
    ensures PortIs(Take(pt.(recv := WaitSide(pt.recv, k.curr))), SignalK(WaitK(k, rs), ss), ss, rs)
  {
    hide KInv, SideIs, OnlySem, WaitK, SignalK, WaitSide, SignalSide;
    SemFacts(k, rs);
    WaitInv(k, rs);
    WaitAgrees(k, rs, pt.recv);
    var k1 := WaitK(k, rs);
    SideFrame(pt.send, k, k1, rs, ss);
    StillGood(k, k1, rs, ss);
    SignalAgrees(k1, ss, pt.send);
    SideFrame(WaitSide(pt.recv, k.curr), k1, SignalK(k1, ss), ss, rs);
  }

  lemma SemFacts(k: Ks, s: int)
    requires KInv(k) && !BadSem(k, s)
    ensures 0 <= s < NSEM == |k.sems| && k.sems[s].used
  {
  }

  lemma StillGood(k: Ks, k': Ks, s: int, m: int)
    requires OnlySem(k, k', s) && m != s && !BadSem(k, m)
    ensures !BadSem(k', m)
  {
  }

  /** Either of them when it must block. */
  lemma EnterBlocks(pt: Port, k: Ks, ss: int, rs: int, kind: Kind)
    requires PortIs(pt, k, ss, rs) && KInv(k) && !BadSem(k, ss) && !BadSem(k, rs) && k.curr != NULLPROC && k.ndefers == 0
    requires SideOf(pt, kind).sem.used && SideOf(pt, kind).sem.count <= 0
    ensures var s := if kind.Sender? then ss else rs;
            && k.sems[s].count <= 0
            && PortIs(WithSide(pt, kind, WaitSide(SideOf(pt, kind), k.curr)), WaitK(k, s), ss, rs)
  {
    hide KInv, OnlySem, WaitK, WaitSide;
    var s, m := if kind.Sender? then ss else rs, if kind.Sender? then rs else ss;
    WaitAgrees(k, s, SideOf(pt, kind));
    SideFrame(if kind.Sender? then pt.recv else pt.send, k, WaitK(k, s), s, m);
  }

  /** The rest of either after a wait that blocked: only the signal is left.  The
      process that the port machine marks as woken is the one the kernel readies. */
  lemma ResumeAgrees(pt: Port, k: Ks, ss: int, rs: int, kind: Kind, node: int, msg: int)
    requires PortIs(pt, k, ss, rs) && KInv(k) && !BadSem(k, ss) && !BadSem(k, rs) && (kind.Receiver? ==> pt.items != [])
    ensures if kind.Sender? then PortIs(Put(pt, node, msg), SignalK(k, rs), ss, rs) else PortIs(Take(pt), SignalK(k, ss), ss, rs)
    ensures var s, q := if kind.Sender? then rs else ss, if kind.Sender? then pt.recv.queue else pt.send.queue;
            k.sems[s].count < 0 ==>
              q != [] && var k' := SignalK(k, s); 0 <= q[0] < |k'.procs| && (k'.procs[q[0]].state.PrReady? || k'.procs[q[0]].state.PrCurr?)
  {
    hide KInv, OnlySem, SignalK, SignalSide;
    var s, m := if kind.Sender? then rs else ss, if kind.Sender? then ss else rs;
    SignalAgrees(k, s, if kind.Sender? then pt.recv else pt.send);
    SideFrame(if kind.Sender? then pt.send else pt.recv, k, SignalK(k, s), s, m);
    if k.sems[s].count < 0 { SignalReleases(k, s); }
  }

  /** The two semaphore calls of _ptclear. */
  lemma ClearAgrees(pt: Port, k: Ks, ss: int, rs: int, reset: bool)
    requires PortIs(pt, k, ss, rs) && KInv(k) && !BadSem(k, ss) && !BadSem(k, rs) && pt.maxcnt >= 0
    ensures PortIs(Emptied(pt, reset), if reset then SemResetK(k, ss, pt.maxcnt) else SemDeleteK(k, ss), ss, rs)
    ensures PortIs(Silenced(pt, reset), if reset then SemResetK(k, rs, 0) else SemDeleteK(k, rs), ss, rs)
  {
    hide KInv, SideIs, OnlySem, SemResetK, SemDeleteK;
    if reset {
      ResetAgrees(k, ss, pt.maxcnt);
      ResetAgrees(k, rs, 0);
      SideFrame(pt.recv, k, SemResetK(k, ss, pt.maxcnt), ss, rs);
      SideFrame(pt.send, k, SemResetK(k, rs, 0), rs, ss);
    } else {
      DeleteAgrees(k, ss);
      DeleteAgrees(k, rs);
      SideFrame(pt.recv, k, SemDeleteK(k, ss), ss, rs);
      SideFrame(pt.send, k, SemDeleteK(k, rs), rs, ss);
    }
  }
}
