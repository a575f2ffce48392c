// The process manager as the kernel runs it: tables updated in place, one method
// for each system call.  Every method is proved to do to the tables what the
// step of the same name does to the value model.
module ProcessManager {
  import opened QueueTable
  import opened KernelModel
  import opened KernelSteps
  import opened KernelCalls
  import opened KernelClock
  import opened KernelRuns
  import opened KernelLaws

  const DEFER_START := 1
  const DEFER_STOP := 2

  /** newsem tries table entries round robin. */
  type SemIndex = s: int | 0 <= s < NSEM witness 0

  /** newpid may have stepped one beyond the end of the table. */
  type PidIndex = p: int | 0 <= p <= NPROC witness 0

  /** How far a round-robin search from start has to go to reach x. */
  function Ahead(start: int, x: int, size: int): int { if x >= start then x - start else x - start + size }

  class Kernel {
    const qt: QueueTab
    var proctab: seq<Proc>
    var semtab: seq<Sem>
    var currpid: int
    var preempt: int
    var ndefers: nat
    var attempt: bool
    var prcount: int
    var nextsem: SemIndex
    var nextpid: PidIndex
    ghost var now: int
    ghost var due: seq<int>

    ghost function K(): Ks
      reads this, qt
    {
      Ks(proctab, semtab, qt.qs, currpid, preempt, ndefers, attempt, prcount, now, due)
    }

    ghost predicate Valid()
      reads this, qt, qt.queuetab
    {
      qt.Valid() && KInv(K())
    }

    /** sysinit */
    constructor ()
      ensures Valid() && fresh(qt) && fresh(qt.queuetab)
      ensures WfQ(qt.qs) && qt.qs.lists == seq(NQ, _ => []) && qt.qs.home == seq(NPROC, _ => EMPTY) && K() == InitK(qt.qs)
      ensures |proctab| == NPROC && currpid == NULLPROC && proctab[NULLPROC].state.PrCurr? && proctab[NULLPROC].prio == 0
      ensures forall p :: 0 < p < NPROC ==> proctab[p].state.PrFree?
      ensures |semtab| == NSEM && (forall s :: 0 <= s < NSEM ==> !semtab[s].used) && prcount == 1 && ndefers == 0
    {
      var table := new QueueTab();
      qt := table;
      proctab := seq(NPROC, p => Proc(if p == NULLPROC then PrCurr else PrFree, 0, 0, 0, 0, false));
      semtab := seq(NSEM, _ => Sem(false, 0));
      currpid, preempt, ndefers, attempt, prcount := NULLPROC, QUANTUM, 0, false, 1;
      nextsem, nextpid := 0, 1;
      now, due := 0, seq(NPROC, _ => 0);
      new;
      InitInv(qt.qs);
      assert proctab == InitK(qt.qs).procs && semtab == InitK(qt.qs).sems && due == InitK(qt.qs).due;
      assert K() == InitK(qt.qs);
    }

    // ------------------------------------------------------- rescheduling

    method Resched()
      requires qt.Valid() && (ndefers == 0 ==> Core(K(), -1))
      modifies this, qt, qt.queuetab
      ensures nextsem == old(nextsem) && nextpid == old(nextpid)
      ensures qt.Valid()
      ensures K() == if old(ndefers) > 0 then old(K()).(attempt := true) else old(ReschedK(K()))
    {
      hide Core, TableOK, InsertQ;
      if ndefers > 0 {
        attempt := true;
        return;
      }
      ghost var k := K();
      CoreFacts(k, -1);
      if proctab[currpid].state.PrCurr? {
        var first := qt.FirstKey(READYQ);
        if proctab[currpid].prio > first {
          return;
        }
        MakeReadyCore(k, k.curr, -1);
        InsertedNonempty(k);
        proctab := proctab[currpid := proctab[currpid].(state := PrReady)];
        qt.Insert(currpid, READYQ, proctab[currpid].prio);
        assert K() == MakeReady(k, k.curr);
      } else {
        ReadyNonempty(k, -1);
      }
      Dispatch();
    }

    /** The second half of resched, up to the context switch. */
    method Dispatch()
      requires qt.Valid() && |proctab| == NPROC && qt.qs.lists[READYQ] != []
      modifies this, qt, qt.queuetab
      ensures nextsem == old(nextsem) && nextpid == old(nextpid)
      ensures qt.Valid() && K() == old(Switch(K()))
    {
      hide Linked, TableOK;
      OnOwn(qt.qs, READYQ);
      currpid := qt.Dequeue(READYQ);
      proctab := proctab[currpid := proctab[currpid].(state := PrCurr)];
      preempt := QUANTUM;
    }

    /** resched_cntl: SYSERR for an unmatched stop or an unknown request. */
    method ReschedCntl(defer: int) returns (ok: bool)
      requires qt.Valid() && (defer == DEFER_STOP ==> Core(K(), -1))
      modifies this, qt, qt.queuetab
      ensures nextsem == old(nextsem) && nextpid == old(nextpid)
      ensures qt.Valid()
      ensures ok <==> defer == DEFER_START || (defer == DEFER_STOP && old(ndefers) > 0)
      ensures K() == if defer == DEFER_START then old(DeferStart(K()))
                     else if defer == DEFER_STOP then old(DeferStop(K())) else old(K())
    {
      hide Core;
      match defer
      case 1 =>
        if ndefers == 0 { attempt := false; }
        ndefers := ndefers + 1;
        return true;
      case 2 =>
        if ndefers == 0 {
          return false;
        }
        ghost var k := K();
        ndefers := ndefers - 1;
        if ndefers == 0 && attempt {
          FewerDefers(k);
          Resched();
        }
        return true;
      case _ =>
        return false;
    }

    method Ready(pid: int)
      requires qt.Valid() && |proctab| == NPROC && 0 <= pid < NPROC && qt.qs.home[pid] == EMPTY
      requires MINKEY < proctab[pid].prio && (ndefers == 0 ==> Core(MakeReady(K(), pid), -1))
      modifies this, qt, qt.queuetab
      ensures nextsem == old(nextsem) && nextpid == old(nextpid)
      ensures qt.Valid()
      ensures K() == if old(ndefers) > 0 then old(MakeReady(K(), pid)).(attempt := true) else old(ReschedK(MakeReady(K(), pid)))
    {
      hide Core, Linked, TableOK;
      ghost var k := K();
      proctab := proctab[pid := proctab[pid].(state := PrReady)];
      qt.Insert(pid, READYQ, proctab[pid].prio);
      assert K() == MakeReady(k, pid);
      Resched();
    }

    /** ready(dequeue(l)) while rescheduling is deferred. */
    method ReleaseFirst(l: int)
      requires qt.Valid() && 0 <= l < NQ && l != READYQ && |proctab| == NPROC && ndefers > 0 && qt.qs.lists[l] != []
      requires forall p :: 0 <= p < NPROC ==> MINKEY < proctab[p].prio
      requires l == SLEEPQ ==> qt.qs.keys[qt.qs.lists[l][0]] == 0
      modifies this, qt, qt.queuetab
      ensures nextsem == old(nextsem) && nextpid == old(nextpid)
      ensures qt.Valid() && K() == old(WakeFirst(K(), l))
    {
      hide TableOK, Linked;
      ghost var k := K();
      SameRelease(k, l);
      var pid := qt.Dequeue(l);
      Ready(pid);
    }

    // -------------------------------------------------------- semaphores

    method Wait(sem: int) returns (ok: bool)
      requires Valid() && Allowed(K(), Step.Wait(sem))
      modifies this, qt, qt.queuetab
      ensures nextsem == old(nextsem) && nextpid == old(nextpid)
      ensures Valid() && K() == old(WaitK(K(), sem)) && ok == old(!BadSem(K(), sem))
    {
      hide Core, TableOK, TopPriority, Future;
      ghost var k := K();
      CoreFacts(k, -1);
      WaitInv(k, sem);
      if !(0 <= sem < NSEM) || !semtab[sem].used {
        return false;
      }
      semtab := semtab[sem := semtab[sem].(count := semtab[sem].count - 1)];
      if semtab[sem].count < 0 {
        WaitCore(k, sem);
        Block(sem);
        Resched();
      }
      return true;
    }

    /** The caller of wait joins the queue of the semaphore. */
    method Block(sem: int)
      requires qt.Valid() && 0 <= sem < NSEM && |proctab| == NPROC && 0 <= currpid < NPROC && qt.qs.home[currpid] == EMPTY
      modifies this, qt, qt.queuetab
      ensures nextsem == old(nextsem) && nextpid == old(nextpid)
      ensures qt.Valid() && K() == old(BlockOn(K(), sem))
    {
      hide TableOK, Homed, NoDup;
      proctab := proctab[currpid := proctab[currpid].(state := PrWait, sem := sem)];
      qt.Enqueue(currpid, sem);
    }

    method Signal(sem: int) returns (ok: bool)
      requires Valid()
      modifies this, qt, qt.queuetab
      ensures nextsem == old(nextsem) && nextpid == old(nextpid)
      ensures Valid() && K() == old(SignalK(K(), sem)) && ok == old(!BadSem(K(), sem))
    {
      hide Core, TableOK, TopPriority, Future, SemOK;
      ghost var k := K();
      CoreFacts(k, -1);
      SignalInv(k, sem);
      if !(0 <= sem < NSEM) || !semtab[sem].used {
        return false;
      }
      var was := semtab[sem].count;
      semtab := semtab[sem := semtab[sem].(count := was + 1)];
      if was < 0 {
        SignalMoves(k, sem);
        ReadyFirst(sem);
      }
      return true;
    }

    /** ready(dequeue(sem)), in the middle of signal. */
    method ReadyFirst(sem: int)
      requires qt.Valid() && 0 <= sem < NSEM && |proctab| == NPROC && qt.qs.lists[sem] != []
      requires var p, q := qt.qs.lists[sem][0], DequeueQ(qt.qs, sem);
               && 0 <= p < NPROC && WfQ(q) && q.home[p] == EMPTY && MINKEY < proctab[p].prio
               && Core(MakeReady(K().(q := q), p), -1)
      modifies this, qt, qt.queuetab
      ensures nextsem == old(nextsem) && nextpid == old(nextpid) && qt.Valid()
      ensures var k2 := old(MakeReady(K().(q := DequeueQ(qt.qs, sem)), qt.qs.lists[sem][0]));
              K() == if old(ndefers) > 0 then k2.(attempt := true) else ReschedK(k2)
    {
      hide TableOK, Homed, NoDup, Core, MakeReady, ReschedK;
      var pid := qt.Dequeue(sem);
      Ready(pid);
    }

    method SignalN(sem: int, count: int) returns (ok: bool)
      requires Valid()
      modifies this, qt, qt.queuetab
      ensures nextsem == old(nextsem) && nextpid == old(nextpid)
      ensures Valid() && K() == old(SignalNK(K(), sem, count)) && ok == (old(!BadSem(K(), sem)) && count >= 0)
    {
      hide Core, TableOK, TopPriority, Future, SemOK, Drain, Draining, DeferStart, DeferStop;
      ghost var k := K();
      CoreFacts(k, -1);
      SignalNInv(k, sem, count);
      if !(0 <= sem < NSEM) || count < 0 || !semtab[sem].used {
        return false;
      }
      SignalNOk(k, sem, count);
      ReleaseStart(k, sem);
      WaitersLen(k, sem);
      DeferKeeps(k);
      var started := ReschedCntl(DEFER_START);
      SignalLoop(sem, count);
      ReleaseAs(k, sem, Min(count, |k.q.lists[sem]|), Sem(true, k.sems[sem].count + count));
      var stopped := ReschedCntl(DEFER_STOP);
      return true;
    }

    /** The loop of signaln. */
    method SignalLoop(sem: int, count: nat)
      requires qt.Valid() && 0 <= sem < NSEM && Draining(K(), sem) && |semtab| == NSEM && semtab[sem].used
      requires |qt.qs.lists[sem]| == if semtab[sem].count < 0 then -semtab[sem].count else 0
      modifies this, qt, qt.queuetab
      ensures nextsem == old(nextsem) && nextpid == old(nextpid)
      ensures qt.Valid()
      ensures K() == old(Drained(K(), sem, Min(count, |qt.qs.lists[sem]|), Sem(true, semtab[sem].count + count)))
    {
      hide Core, TableOK, Drain, WakeFirst, Draining;
      ghost var k0, c, len := K(), semtab[sem].count, |qt.qs.lists[sem]|;
      var left := count;
      DrainNone(k0, sem);
      while left > 0
        invariant nextsem == old(nextsem) && nextpid == old(nextpid)
        invariant 0 <= left <= count && qt.Valid()
        invariant K() == Drained(k0, sem, Min(count - left, len), Sem(true, c + count - left))
      {
        ghost var n, x := Min(count - left, len), c + count - left;
        DrainedNext(k0, sem, n, Sem(true, x), Sem(true, x + 1));
        var was := semtab[sem].count;
        semtab := semtab[sem := semtab[sem].(count := was + 1)];
        assert K() == Drained(k0, sem, n, Sem(true, x + 1));
        if was < 0 {
          ReleaseFirst(sem);
        }
        left := left - 1;
      }
    }

    /** ready(getfirst(l)) while rescheduling is deferred; false if l is empty. */
    method ReleaseIfAny(l: int) returns (some: bool)
      requires qt.Valid() && 0 <= l < NSEM && |proctab| == NPROC && ndefers > 0
      requires forall p :: 0 <= p < NPROC ==> MINKEY < proctab[p].prio
      modifies this, qt, qt.queuetab
      ensures nextsem == old(nextsem) && nextpid == old(nextpid)
      ensures qt.Valid() && some == (old(qt.qs.lists[l]) != [])
      ensures K() == if some then old(WakeFirst(K(), l)) else old(K())
    {
      hide TableOK, Linked;
      ghost var k := K();
      if qt.qs.lists[l] != [] { SameRelease(k, l); }
      var pid := qt.GetFirst(l);
      some := pid != EMPTY;
      if some {
        Ready(pid);
      }
    }

    method SemDelete(sem: int) returns (ok: bool)
      requires Valid()
      modifies this, qt, qt.queuetab
      ensures nextsem == old(nextsem) && nextpid == old(nextpid)
      ensures Valid() && K() == old(SemDeleteK(K(), sem)) && ok == old(!BadSem(K(), sem))
    {
      hide Core, TableOK, TopPriority, Future, SemOK, Drain, Draining, DeferStart, DeferStop;
      ghost var k := K();
      CoreFacts(k, -1);
      SemDeleteInv(k, sem);
      if !(0 <= sem < NSEM) || !semtab[sem].used {
        return false;
      }
      ghost var c := semtab[sem].count;
      DeleteOk(k, sem);
      ReleaseStart(k, sem);
      WaitersLen(k, sem);
      DeferKeeps(k);
      semtab := semtab[sem := semtab[sem].(used := false)];
      DeferSems(k, semtab);
      var started := ReschedCntl(DEFER_START);
      DrainNone(DeferStart(k), sem);
      DeleteLoop(sem, DeferStart(k));
      ReleaseAs(k, sem, |k.q.lists[sem]|, Sem(false, if c < 0 then 1 else c + 1));
      var stopped := ReschedCntl(DEFER_STOP);
      return true;
    }

    /** The loop of semdelete, which counts once more than it releases. */
    method DeleteLoop(sem: int, ghost k0: Ks)
      requires qt.Valid() && 0 <= sem < NSEM && Draining(k0, sem) && |k0.sems| == NSEM && |k0.q.lists| == NQ
      requires |k0.q.lists[sem]| == if k0.sems[sem].count < 0 then -k0.sems[sem].count else 0
      requires K() == Drained(k0, sem, 0, Sem(false, k0.sems[sem].count))
      modifies this, qt, qt.queuetab
      ensures nextsem == old(nextsem) && nextpid == old(nextpid)
      ensures qt.Valid()
      ensures var c := k0.sems[sem].count; K() == Drained(k0, sem, |k0.q.lists[sem]|, Sem(false, if c < 0 then 1 else c + 1))
    {
      hide Core, TableOK, Drain, WakeFirst, Draining;
      ghost var c, len, n := k0.sems[sem].count, |k0.q.lists[sem]|, 0;
      DrainedNext(k0, sem, 0, Sem(false, c), Sem(false, c + 1));
      var was := semtab[sem].count;
      semtab := semtab[sem := semtab[sem].(count := was + 1)];
      while was < 0
        invariant nextsem == old(nextsem) && nextpid == old(nextpid)
        invariant 0 <= n <= len && qt.Valid() && was == c + n && (was < 0 <==> n < len)
        invariant K() == Drained(k0, sem, n, Sem(false, c + n + 1)) && |semtab| == NSEM
        decreases -was
      {
        DrainedNext(k0, sem, n, Sem(false, c + n + 1), Sem(false, c + n + 1));
        var some := ReleaseIfAny(sem);
        n := n + 1;
        DrainedNext(k0, sem, n, Sem(false, c + n), Sem(false, c + n + 1));
        was := semtab[sem].count;
        semtab := semtab[sem := semtab[sem].(count := was + 1)];
        assert K() == Drained(k0, sem, n, Sem(false, c + n + 1));
      }
    }

    method SemReset(sem: int, count: int) returns (ok: bool)
      requires Valid()
      modifies this, qt, qt.queuetab
      ensures nextsem == old(nextsem) && nextpid == old(nextpid)
      ensures Valid() && K() == old(SemResetK(K(), sem, count)) && ok == (old(!BadSem(K(), sem)) && count >= 0)
    {
      hide Core, TableOK, TopPriority, Future, SemOK, Drain, Draining, DeferStart, DeferStop;
      ghost var k := K();
      CoreFacts(k, -1);
      SemResetInv(k, sem, count);
      if count < 0 || !(0 <= sem < NSEM) || !semtab[sem].used {
        return false;
      }
      ResetOk(k, sem, count);
      ReleaseStart(k, sem);
      DeferKeeps(k);
      var started := ReschedCntl(DEFER_START);
      ghost var x := semtab[sem];
      ResetLoop(sem);
      DrainedNext(DeferStart(k), sem, |k.q.lists[sem]|, x, Sem(true, count));
      semtab := semtab[sem := semtab[sem].(count := count)];
      assert K() == Drained(DeferStart(k), sem, |k.q.lists[sem]|, Sem(true, count));
      ReleaseAs(k, sem, |k.q.lists[sem]|, Sem(true, count));
      var stopped := ReschedCntl(DEFER_STOP);
      return true;
    }

    /** The loop of semreset. */
    method ResetLoop(sem: int)
      requires qt.Valid() && 0 <= sem < NSEM && Draining(K(), sem) && |semtab| == NSEM
      modifies this, qt, qt.queuetab
      ensures nextsem == old(nextsem) && nextpid == old(nextpid)
      ensures qt.Valid() && K() == old(Drained(K(), sem, |qt.qs.lists[sem]|, semtab[sem]))
    {
      hide Core, TableOK, Drain, WakeFirst, Draining;
      ghost var k0, x, n := K(), semtab[sem], 0;
      DrainNone(k0, sem);
      var some := true;
      while some
        invariant nextsem == old(nextsem) && nextpid == old(nextpid)
        invariant 0 <= n <= |k0.q.lists[sem]| && qt.Valid() && (!some ==> n == |k0.q.lists[sem]|)
        invariant K() == Drained(k0, sem, n, x)
        decreases |k0.q.lists[sem]| - n, some
      {
        DrainedNext(k0, sem, n, x, x);
        some := ReleaseIfAny(sem);
        if some { n := n + 1; }
      }
    }

    /** newsem: the next free entry, round robin, or SYSERR. */
    method NewSem() returns (sem: int)
      requires |semtab| == NSEM
      modifies this`nextsem, this`semtab
      ensures 0 <= sem < NSEM ==> nextsem == if sem + 1 == NSEM then 0 else sem + 1
      ensures 0 <= sem < NSEM ==>
                forall s :: 0 <= s < NSEM && Ahead(old(nextsem), s, NSEM) < Ahead(old(nextsem), sem, NSEM) ==> old(semtab)[s].used
      ensures if 0 <= sem < NSEM then !old(semtab)[sem].used && semtab == old(semtab)[sem := old(semtab)[sem].(used := true)]
              else sem == -1 && semtab == old(semtab) && forall s :: 0 <= s < NSEM ==> semtab[s].used
    {
      ghost var start := nextsem;
      for i := 0 to NSEM
        invariant semtab == old(semtab) && (i < NSEM ==> Ahead(start, nextsem, NSEM) == i)
        invariant forall s :: 0 <= s < NSEM && Ahead(start, s, NSEM) < i ==> semtab[s].used
      {
        sem := nextsem;
        nextsem := if nextsem + 1 >= NSEM then 0 else nextsem + 1;
        if !semtab[sem].used {
          semtab := semtab[sem := semtab[sem].(used := true)];
          return;
        }
      }
      return -1;
    }

    method SemCreate(count: int) returns (sem: int)
      requires Valid()
      modifies this, qt, qt.queuetab
      ensures nextpid == old(nextpid)
      ensures Valid()
      ensures sem == -1 <==> count < 0 || old(forall s :: 0 <= s < |semtab| ==> semtab[s].used)
      ensures if sem == -1 then K() == old(K())
              else 0 <= sem < NSEM && !old(semtab)[sem].used && K() == SemCreateK(old(K()), sem, count)
    {
      hide Core, TableOK, TopPriority, Future;
      ghost var k := K();
      CoreFacts(k, -1);
      if count < 0 {
        return -1;
      }
      sem := NewSem();
      if sem == -1 {
        return;
      }
      SemCreateInv(k, sem, count);
      semtab := semtab[sem := semtab[sem].(count := count)];
      assert K() == SemCreateK(k, sem, count);
    }

    // ---------------------------------------------- suspending and resuming

    /** suspend: the priority of the process, or SYSERR. */
    method Suspend(pid: int) returns (prio: int)
      requires Valid() && Allowed(K(), Step.Suspend(pid))
      modifies this, qt, qt.queuetab
      ensures nextsem == old(nextsem) && nextpid == old(nextpid)
      ensures Valid() && K() == old(SuspendK(K(), pid))
      ensures prio == old(if BadPid(K(), pid) || pid == NULLPROC then -1
                          else if !proctab[pid].state.PrCurr? && !proctab[pid].state.PrReady? then -1
                          else proctab[pid].prio)
    {
      hide Core, TableOK, TopPriority, Future;
      ghost var k := K();
      CoreFacts(k, -1);
      SuspendInv(k, pid);
      if !(0 <= pid < NPROC) || proctab[pid].state.PrFree? || pid == NULLPROC {
        return -1;
      }
      if !proctab[pid].state.PrCurr? && !proctab[pid].state.PrReady? {
        return -1;
      }
      prio := proctab[pid].prio;
      if proctab[pid].state.PrReady? {
        qt.GetItem(pid);
        proctab := proctab[pid := proctab[pid].(state := PrSusp)];
        assert K() == Detach(k, pid, PrSusp);
      } else {
        OnlyCurr(k, pid);
        OffCore(k, PrSusp);
        proctab := proctab[pid := proctab[pid].(state := PrSusp)];
        assert K() == SetState(k, pid, PrSusp);
        Resched();
      }
    }

    method Resume(pid: int) returns (prio: int)
      requires Valid()
      modifies this, qt, qt.queuetab
      ensures nextsem == old(nextsem) && nextpid == old(nextpid)
      ensures Valid() && K() == old(ResumeK(K(), pid))
      ensures prio == old(if BadPid(K(), pid) || !proctab[pid].state.PrSusp? then -1 else proctab[pid].prio)
    {
      hide Core, TableOK, TopPriority, Future;
      ghost var k := K();
      CoreFacts(k, -1);
      ResumeInv(k, pid);
      if !(0 <= pid < NPROC) || proctab[pid].state.PrFree? || !proctab[pid].state.PrSusp? {
        return -1;
      }
      prio := proctab[pid].prio;
      ResumeMoves(k, pid);
      Ready(pid);
    }

    method Yield()
      requires Valid()
      modifies this, qt, qt.queuetab
      ensures nextsem == old(nextsem) && nextpid == old(nextpid)
      ensures Valid() && K() == old(if ndefers > 0 then K().(attempt := true) else ReschedK(K()))
    {
      hide Core, TableOK, TopPriority, Future;
      YieldInv(K());
      Resched();
    }

    // ------------------------------------------------------ sleep and clock

    /** insertd on the sleep queue and the new state, as sleepms and recvtime do. */
    method FallAsleep(d: int, st: PrState)
      requires qt.Valid() && Core(K(), -1) && Running(K())
      modifies this, qt, qt.queuetab
      ensures nextsem == old(nextsem) && nextpid == old(nextpid)
      ensures qt.Valid() && K() == old(Doze(K(), d, st))
    {
      hide TableOK, Core, InsertDQ;
      CoreFacts(K(), -1);
      qt.InsertD(currpid, SLEEPQ, d);
      due := due[currpid := now + d];
      proctab := proctab[currpid := proctab[currpid].(state := st)];
    }

    method SleepMs(delay: int)
      requires Valid() && Allowed(K(), Step.Sleep(delay))
      modifies this, qt, qt.queuetab
      ensures nextsem == old(nextsem) && nextpid == old(nextpid)
      ensures Valid() && K() == old(SleepK(K(), delay))
    {
      hide Core, TableOK, TopPriority, Future, InsertDQ;
      ghost var k := K();
      if delay == 0 {
        YieldInv(k);
        Resched();
        return;
      }
      DozeCore(k, delay, PrSleep);
      DozeInv(k, delay, PrSleep);
      FallAsleep(delay, PrSleep);
      Resched();
    }

    /** unsleep: the next sleeper takes over the delay of the one that leaves. */
    method Unsleep(pid: int) returns (ok: bool)
      requires qt.Valid() && Placed(proctab, qt.qs.home)
      modifies this, qt, qt.queuetab
      ensures nextsem == old(nextsem) && nextpid == old(nextpid)
      ensures qt.Valid()
      ensures ok <==> 0 <= pid < NPROC && (old(proctab)[pid].state.PrSleep? || old(proctab)[pid].state.PrRectim?)
      ensures K() == if ok then old(K()).(q := old(UnsleepQ(qt.qs, pid))) else old(K())
    {
      hide TableOK, Homed, NoDup;
      if !(0 <= pid < NPROC) || proctab[pid].state.PrFree? {
        return false;
      }
      if !proctab[pid].state.PrSleep? && !proctab[pid].state.PrRectim? {
        return false;
      }
      ghost var q := qt.qs;
      var next := qt.NextOf(pid);
      var key := qt.KeyOf(pid);
      if next < NPROC {
        NextIs(q, pid);
        qt.AddKey(next, key);
      }
      qt.GetItem(pid);
      return true;
    }

    method Wakeup()
      requires qt.Valid() && Core(K(), -1) && Running(K())
      requires forall i :: 0 <= i < |qt.qs.lists[SLEEPQ]| ==> 0 <= qt.qs.lists[SLEEPQ][i] < |qt.qs.keys|
      modifies this, qt, qt.queuetab
      ensures nextsem == old(nextsem) && nextpid == old(nextpid)
      ensures qt.Valid() && Draining(old(DeferStart(K())), SLEEPQ)
      ensures K() == old(DeferStop(Drain(DeferStart(K()), SLEEPQ, LeadZero(qt.qs.keys, qt.qs.lists[SLEEPQ]))))
    {
      hide Core, TableOK, Drain, WakeFirst, DeferStart, DeferStop, LeadZero, Running;
      ghost var k := K();
      CoreFacts(k, -1);
      SleepDraining(k);
      DeferKeeps(k);
      var started := ReschedCntl(DEFER_START);
      WakeLoop(k);
      DrainedSleepers(k, LeadZero(k.q.keys, k.q.lists[SLEEPQ]));
      var stopped := ReschedCntl(DEFER_STOP);
    }

    /** The loop of wakeup; k is the state before it. */
    method WakeLoop(ghost k: Ks)
      requires qt.Valid() && Core(k, -1) && Running(k) && K() == DeferStart(k) && Draining(K(), SLEEPQ)
      requires forall i :: 0 <= i < |k.q.lists[SLEEPQ]| ==> 0 <= k.q.lists[SLEEPQ][i] < |k.q.keys|
      requires DeferStart(k).q == k.q
      modifies this, qt, qt.queuetab
      ensures nextsem == old(nextsem) && nextpid == old(nextpid)
      ensures qt.Valid() && K() == Drain(DeferStart(k), SLEEPQ, LeadZero(k.q.keys, k.q.lists[SLEEPQ]))
    {
      hide Core, TableOK, Drain, WakeFirst, DeferStart, LeadZero, Draining, Running, Homed, NoDup;
      ghost var k0, n, m := DeferStart(k), 0, LeadZero(k.q.keys, k.q.lists[SLEEPQ]);
      DrainZero(k0, SLEEPQ);
      DrainedSleepers(k, 0);
      var empty := qt.IsEmpty(SLEEPQ);
      var first := qt.FirstKey(SLEEPQ);
      while !empty && first <= 0
        invariant nextsem == old(nextsem) && nextpid == old(nextpid)
        invariant 0 <= n <= m && qt.Valid() && K() == Drain(k0, SLEEPQ, n)
        invariant empty == (qt.qs.lists[SLEEPQ] == []) && first == if empty then MINKEY else qt.qs.keys[qt.qs.lists[SLEEPQ][0]]
        invariant !empty && first <= 0 <==> n < m
        decreases m - n
      {
        DrainedSleepers(k, n);
        DrainNext(k0, SLEEPQ, n);
        ReleaseFirst(SLEEPQ);
        n := n + 1;
        DrainedSleepers(k, n);
        empty := qt.IsEmpty(SLEEPQ);
        first := qt.FirstKey(SLEEPQ);
      }
    }

    /** clkhandler up to the end of its wakeup. */
    method ClkTick()
      requires Valid()
      modifies this, qt, qt.queuetab
      ensures nextsem == old(nextsem) && nextpid == old(nextpid)
      ensures Valid() && K() == old(TickK(K()))
    {
      hide Core, TableOK, TopPriority, Drain, DeferStop, Homed, NoDup, Draining, LeadZero;
      ghost var k := K();
      CoreFacts(k, -1);
      OnOwn(k.q, SLEEPQ);
      TickInv(k);
      ElapseCore(k);
      now := now + 1;
      var empty := qt.IsEmpty(SLEEPQ);
      if !empty {
        var first := qt.FirstId(SLEEPQ);
        qt.AddKey(first, -1);
        assert K() == Elapse(k);
        FirstLead(Elapse(k));
        var key := qt.FirstKey(SLEEPQ);
        if key == 0 {
          Wakeup();
        }
      }
    }

    /** The end of clkhandler. */
    method ClkPreempt()
      requires Valid()
      modifies this, qt, qt.queuetab
      ensures nextsem == old(nextsem) && nextpid == old(nextpid)
      ensures Valid() && K() == old(PreemptK(K()))
    {
      hide TableOK, Delta, ReadyKeys, WfQ, SemOK, Placed, SemsOK, Future;
      PreemptInv(K());
      preempt := preempt - 1;
      if preempt == 0 {
        preempt := QUANTUM;
        Resched();
      }
    }

    // ------------------------------------------------------------- messages

    method Send(pid: int, msg: int) returns (ok: bool)
      requires Valid()
      modifies this, qt, qt.queuetab
      ensures nextsem == old(nextsem) && nextpid == old(nextpid)
      ensures Valid() && K() == old(SendK(K(), pid, msg)) && ok == old(!BadPid(K(), pid) && !proctab[pid].hasmsg)
    {
      hide Core, TableOK, TopPriority, Future, UnsleepQ;
      ghost var k := K();
      CoreFacts(k, -1);
      SendInv(k, pid, msg);
      if !(0 <= pid < NPROC) || proctab[pid].state.PrFree? || proctab[pid].hasmsg {
        return false;
      }
      proctab := proctab[pid := proctab[pid].(msg := msg, hasmsg := true)];
      assert K() == Deliver(k, pid, msg);
      if proctab[pid].state.PrRecv? {
        SendMoves(k, pid, msg);
        Ready(pid);
      } else if proctab[pid].state.PrRectim? {
        SendMoves(k, pid, msg);
        PlacedIs(k, pid, msg);
        var off := Unsleep(pid);
        Ready(pid);
      }
      return true;
    }

    /** receive up to the point where it blocks or has its message. */
    method Receive() returns (blocked: bool, msg: int)
      requires Valid() && Allowed(K(), Step.Receive)
      modifies this, qt, qt.queuetab
      ensures nextsem == old(nextsem) && nextpid == old(nextpid)
      ensures Valid() && K() == old(ReceiveK(K()))
      ensures blocked == old(!proctab[currpid].hasmsg) && (!blocked ==> msg == old(proctab[currpid].msg))
    {
      hide Core, TableOK, TopPriority, Future;
      ghost var k := K();
      CoreFacts(k, -1);
      ReceiveInv(k);
      if !proctab[currpid].hasmsg {
        OffCore(k, PrRecv);
        proctab := proctab[currpid := proctab[currpid].(state := PrRecv)];
        assert K() == SetState(k, k.curr, PrRecv);
        Resched();
        return true, 0;
      }
      msg := proctab[currpid].msg;
      proctab := proctab[currpid := proctab[currpid].(hasmsg := false)];
      return false, msg;
    }

    /** recvtime up to the point where it blocks or has its message. */
    method RecvTime(maxwait: int) returns (blocked: bool, msg: int)
      requires Valid() && Allowed(K(), Step.RecvTime(maxwait))
      modifies this, qt, qt.queuetab
      ensures nextsem == old(nextsem) && nextpid == old(nextpid)
      ensures Valid() && K() == old(RecvTimeK(K(), maxwait))
      ensures blocked == (maxwait >= 0 && old(!proctab[currpid].hasmsg))
      ensures !blocked ==> msg == if maxwait < 0 then -1 else old(proctab[currpid].msg)
    {
      hide Core, TableOK, TopPriority, Future, InsertDQ;
      if maxwait < 0 {
        return false, -1;
      }
      ghost var k := K();
      CoreFacts(k, -1);
      if !proctab[currpid].hasmsg {
        DozeCore(k, maxwait, PrRectim);
        DozeInv(k, maxwait, PrRectim);
        FallAsleep(maxwait, PrRectim);
        Resched();
        return true, 0;
      }
      ClearMsgInv(k);
      msg := proctab[currpid].msg;
      proctab := proctab[currpid := proctab[currpid].(hasmsg := false)];
      return false, msg;
    }

    /** recvclr, and the end of recvtime: the message, if there is one. */
    method RecvClr(none: int) returns (msg: int)
      requires Valid()
      modifies this, qt, qt.queuetab
      ensures nextsem == old(nextsem) && nextpid == old(nextpid)
      ensures Valid() && K() == old(ClearMsg(K()))
      ensures msg == if old(proctab[currpid].hasmsg) then old(proctab[currpid].msg) else none
    {
      hide Core, TableOK, TopPriority, Future;
      CoreFacts(K(), -1);
      ClearMsgInv(K());
      if proctab[currpid].hasmsg {
        msg := proctab[currpid].msg;
        proctab := proctab[currpid := proctab[currpid].(hasmsg := false)];
      } else {
        assert proctab[currpid := proctab[currpid].(hasmsg := false)] == proctab;
        msg := none;
      }
    }

    // -------------------------------------------------- killing and creating

    /** kill up to and including its message to the parent. */
    method KillNotify(pid: int) returns (ok: bool)
      requires Valid()
      modifies this, qt, qt.queuetab
      ensures nextsem == old(nextsem) && nextpid == old(nextpid)
      ensures Valid() && K() == old(KillNotifyK(K(), pid)) && ok == old(!BadPid(K(), pid) && pid != NULLPROC)
    {
      hide Core, TableOK, TopPriority, Future;
      ghost var k := K();
      CoreFacts(k, -1);
      if !(0 <= pid < NPROC) || proctab[pid].state.PrFree? || pid == NULLPROC {
        return false;
      }
      CountOnly(k, k.prcount - 1);
      prcount := prcount - 1;
      var sent := Send(proctab[pid].parent, pid);
      return true;
    }

    /** The rest of kill. */
    method KillRemove(pid: int)
      requires Valid() && Allowed(K(), Step.KillRemove(pid)) && 0 < pid < NPROC
      modifies this, qt, qt.queuetab
      ensures nextsem == old(nextsem) && nextpid == old(nextpid)
      ensures Valid() && K() == old(KillRemoveK(K(), pid))
    {
      hide Core, TableOK, TopPriority, Future, Without, Detach;
      ghost var k := K();
      CoreFacts(k, -1);
      KillRemoveInv(k, pid);
      match proctab[pid].state {
        case PrCurr =>
          OnlyCurr(k, pid);
          OffCore(k, PrFree);
          proctab := proctab[pid := proctab[pid].(state := PrFree)];
          assert K() == SetState(k, pid, PrFree);
          Resched();
        case PrWait =>
          WaitsOn(k, pid);
          PlacedK(k);
          DiscardWaiter(pid);
        case _ =>
          PlacedK(k);
          Discard(pid);
      }
    }

    method DiscardWaiter(pid: int)
      requires qt.Valid() && Placed(proctab, qt.qs.home) && 0 < pid < NPROC && proctab[pid].state.PrWait?
      requires 0 <= proctab[pid].sem < |semtab|
      modifies this, qt, qt.queuetab
      ensures nextsem == old(nextsem) && nextpid == old(nextpid) && qt.Valid()
      ensures var s := old(proctab[pid].sem); K() == old(Detach(SetCount(K(), s, semtab[s].count + 1), pid, PrFree))
    {
      hide TableOK, Homed, NoDup, Detach;
      var sem := proctab[pid].sem;
      semtab := semtab[sem := semtab[sem].(count := semtab[sem].count + 1)];
      Discard(pid);
    }

    /** The cases of kill for a process that is not running: it leaves its list. */
    method Discard(pid: int)
      requires qt.Valid() && Placed(proctab, qt.qs.home) && 0 < pid < NPROC && !proctab[pid].state.PrCurr?
      modifies this, qt, qt.queuetab
      ensures nextsem == old(nextsem) && nextpid == old(nextpid)
      ensures qt.Valid() && K() == old(Detach(K(), pid, PrFree))
    {
      hide TableOK, UnsleepQ, RemoveQ, Homed, NoDup;
      match proctab[pid].state {
        case PrSleep =>
          var off := Unsleep(pid);
        case PrRectim =>
          var off := Unsleep(pid);
        case PrWait =>
          qt.GetItem(pid);
        case PrReady =>
          qt.GetItem(pid);
        case _ =>
      }
      proctab := proctab[pid := proctab[pid].(state := PrFree)];
    }

    /** newpid: the next free slot, round robin, or SYSERR. */
    method NewPid() returns (pid: int)
      requires |proctab| == NPROC
      modifies this`nextpid
      ensures var start := if old(nextpid) == NPROC then 0 else old(nextpid);
              0 <= pid < NPROC ==> nextpid == pid + 1 && forall p :: 0 <= p < NPROC && Ahead(start, p, NPROC) < Ahead(start, pid, NPROC) ==>
                                                               !proctab[p].state.PrFree?
      ensures if 0 <= pid < NPROC then proctab[pid].state.PrFree?
              else pid == -1 && forall p :: 0 <= p < NPROC ==> !proctab[p].state.PrFree?
    {
      ghost var start := if nextpid == NPROC then 0 else nextpid as int;
      for i := 0 to NPROC
        invariant i < NPROC ==> Ahead(start, if nextpid == NPROC then 0 else nextpid, NPROC) == i
        invariant forall p :: 0 <= p < NPROC && Ahead(start, p, NPROC) < i ==> !proctab[p].state.PrFree?
      {
        nextpid := nextpid % NPROC;
        pid := nextpid;
        nextpid := nextpid + 1;
        if proctab[pid].state.PrFree? {
          return;
        }
      }
      return -1;
    }

    /** create, once getstk has or has not found a stack. */
    method Create(stack: bool, prio: int) returns (pid: int)
      requires Valid() && prio < 0x8000
      modifies this, qt, qt.queuetab
      ensures nextsem == old(nextsem)
      ensures Valid()
      ensures pid == -1 <==> !stack || prio < 1 || old(forall p :: 0 <= p < |proctab| ==> !proctab[p].state.PrFree?)
      ensures if pid == -1 then K() == old(K())
              else 0 <= pid < NPROC && old(proctab)[pid].state.PrFree? && K() == CreateK(old(K()), pid, prio)
    {
      hide Core, TableOK, TopPriority, Future;
      ghost var k := K();
      CoreFacts(k, -1);
      if !stack {
        return -1;
      }
      pid := NewPid();
      if pid == -1 || prio < 1 {
        return -1;
      }
      CreateInv(k, pid, prio);
      prcount := prcount + 1;
      proctab := proctab[pid := Proc(PrSusp, prio, -1, currpid, proctab[pid].msg, false)];
      assert K() == CreateK(k, pid, prio);
    }

    // ----------------------------------------------------------- whole runs

    /** Whether a step may be made now: nobody blocks who must not. */
    method MayCall(st: Step) returns (ok: bool)
      requires Valid()
      ensures ok <==> Allowed(K(), st)
    {
      hide Core, TableOK, TopPriority, Future;
      CoreFacts(K(), -1);
      var may := currpid != NULLPROC && ndefers == 0;
      match st
      case Wait(s) => return !(0 <= s < NSEM) || !semtab[s].used || semtab[s].count > 0 || may;
      case Suspend(p) => return p != currpid || ndefers == 0;
      case KillRemove(p) => return p != currpid || ndefers == 0;
      case Sleep(d) => return 0 <= d < 0x8000_0000 && (d == 0 || may);
      case Receive => return proctab[currpid].hasmsg || may;
      case RecvTime(d) => return d < 0x8000_0000 && (d < 0 || proctab[currpid].hasmsg || (d > 0 && may));
      case SemCreate(s, n) => return 0 <= s < NSEM && !semtab[s].used && n >= 0;
      case Create(p, prio) => return 0 <= p < NPROC && proctab[p].state.PrFree? && 1 <= prio < 0x8000;
      case _ => return true;
    }

    /** One step on the semaphores; semcreate picks its entry by itself. */
    method CallSem(st: Step) returns (did: Step)
      requires Valid() && Allowed(K(), st)
      requires st.Wait? || st.Signal? || st.SignalN? || st.SemCreate? || st.SemDelete? || st.SemReset?
      modifies this, qt, qt.queuetab
      ensures Valid() && SameCall(st, did) && old(Allowed(K(), did)) && K() == old(StepK(K(), did))
    {
      hide KInv, TableOK, WaitK, SignalK, SignalNK, SemDeleteK, SemResetK;
      did := st;
      match st
      case Wait(s) => var r := Wait(s);
      case Signal(s) => var r := Signal(s);
      case SignalN(s, n) => var r := SignalN(s, n);
      case SemDelete(s) => var r := SemDelete(s);
      case SemReset(s, n) => var r := SemReset(s, n);
      case SemCreate(s, n) =>
        SemsLen(K());
        var id := SemCreate(n);
        did := Step.SemCreate(id, n);
    }

    /** One step on processes and messages; create picks its slot by itself. */
    method CallProc(st: Step) returns (did: Step)
      requires Valid() && Allowed(K(), st)
      requires st.Suspend? || st.Resume? || st.Send? || st.KillNotify? || st.KillRemove? || st.Create? || st.Receive? || st.TakeMsg?
      modifies this, qt, qt.queuetab
      ensures Valid() && SameCall(st, did) && old(Allowed(K(), did)) && K() == old(StepK(K(), did))
    {
      hide KInv, TableOK, SuspendK, ResumeK, SendK, KillNotifyK, StopK, Detach, ClearMsg;
      did := st;
      match st
      case Suspend(p) => var r := Suspend(p);
      case Resume(p) => var r := Resume(p);
      case Send(p, msg) => var r := Send(p, msg);
      case KillNotify(p) => var r := KillNotify(p);
      case KillRemove(p) => if 0 < p < NPROC { KillRemove(p); }
      case Receive => var b, m := Receive();
      case TakeMsg => var m := RecvClr(0);
      case Create(p, prio) =>
        SemsLen(K());
        var id := Create(true, prio);
        did := Step.Create(id, prio);
    }

    method CallSleep(st: Step) returns (did: Step)
      requires Valid() && Allowed(K(), st) && (st.Yield? || st.Sleep? || st.RecvTime?)
      modifies this, qt, qt.queuetab
      ensures Valid() && SameCall(st, did) && old(Allowed(K(), did)) && K() == old(StepK(K(), did))
    {
      hide Core, TableOK, TopPriority, Future, DozeK, ClearMsg, ReschedK;
      did := st;
      match st
      case Yield =>
        YieldDefers(K());
        Yield();
      case Sleep(d) => SleepMs(d);
      case RecvTime(d) => var b, m := RecvTime(d);
    }

    method CallTime(st: Step) returns (did: Step)
      requires Valid() && Allowed(K(), st) && (st.StartDefer? || st.StopDefer? || st.Tick? || st.Preempt?)
      modifies this, qt, qt.queuetab
      ensures Valid() && SameCall(st, did) && old(Allowed(K(), did)) && K() == old(StepK(K(), did))
    {
      hide Core, TableOK, TopPriority, Future, TickK, PreemptK, DeferStop, DeferStart;
      did := st;
      match st
      case StartDefer =>
        DeferStartInv(K());
        var r := ReschedCntl(DEFER_START);
      case StopDefer =>
        DeferStopInv(K());
        var r := ReschedCntl(DEFER_STOP);
      case Tick => ClkTick();
      case Preempt => ClkPreempt();
    }

    method Call(st: Step) returns (did: Step)
      requires Valid() && Allowed(K(), st)
      modifies this, qt, qt.queuetab
      ensures Valid() && SameCall(st, did) && old(Allowed(K(), did)) && K() == old(StepK(K(), did))
    {
      hide KInv, TableOK, Allowed, StepK;
      if st.Wait? || st.Signal? || st.SignalN? || st.SemCreate? || st.SemDelete? || st.SemReset? {
        did := CallSem(st);
      } else if st.Suspend? || st.Resume? || st.Send? || st.KillNotify? || st.KillRemove? || st.Create? || st.Receive? || st.TakeMsg? {
        did := CallProc(st);
      } else if st.Yield? || st.Sleep? || st.RecvTime? {
        did := CallSleep(st);
      } else {
        did := CallTime(st);
      }
    }

    /** Any sequence of calls and ticks, up to the first one that must not be made:
        the linked tables go through a run of the value model. */
    method Run(steps: seq<Step>) returns (done: seq<Step>)
      requires Valid()
      modifies this, qt, qt.queuetab
      ensures Valid() && |done| <= |steps| && (forall i :: 0 <= i < |done| ==> SameCall(steps[i], done[i]))
      ensures old(CanRun(K(), done)) && K() == old(After(K(), done, |done|))
      ensures |done| < |steps| ==> !Allowed(K(), steps[|done|])
    {
      hide KInv, TableOK, Allowed, StepK, CanRun, After;
      ghost var k := K();
      done := [];
      NoSteps(k);
      while |done| < |steps|
        invariant |done| <= |steps| && Valid() && (forall i :: 0 <= i < |done| ==> SameCall(steps[i], done[i]))
        invariant CanRun(k, done) && K() == After(k, done, |done|)
        decreases |steps| - |done|
      {
        var may := MayCall(steps[|done|]);
        if !may {
          return;
        }
        ghost var k1 := K();
        var did := Call(steps[|done|]);
        OneMoreStep(k, done, did);
        done := done + [did];
      }
    }

    /** A message is sent, anything at all happens, and if then the receiver runs it
        asks for its message: it gets the one that was sent, unless it has already
        taken a message or was killed. */
    method SendAndCollect(pid: int, msg: int, steps: seq<Step>, none: int) returns (ok: bool, done: seq<Step>, got: int)
      requires Valid()
      modifies this, qt, qt.queuetab
      ensures Valid() && ok == old(CanGet(K(), pid))
      ensures old(KInv(SendK(K(), pid, msg)) && CanRun(SendK(K(), pid, msg), done))
      ensures ok && currpid == pid && old(Untaken(SendK(K(), pid, msg), done, |done|, pid)) ==> got == msg
    {
      hide KInv, TableOK, Allowed, StepK, CanRun, After, SendK, Untaken;
      ghost var k := K();
      SendArrives(k, pid, msg);
      SemsLen(k);
      ok := Send(pid, msg);
      ghost var k1 := K();
      done := Run(steps);
      if ok && Untaken(k1, done, |done|, pid) { SendReceive(k, pid, msg, done, |done|); }
      got := RecvClr(none);
    }
  }

  /** The same call; only the entry or slot of something new may differ. */
  predicate SameCall(a: Step, b: Step) {
    if a.SemCreate? then b.SemCreate? && b.n == a.n
    else if a.Create? then b.Create? && b.prio == a.prio
    else b == a
  }

  lemma SemsLen(k: Ks)
    requires KInv(k)
    ensures |k.sems| == NSEM && |k.procs| == NPROC
  {
  }

  lemma YieldDefers(k: Ks)
    requires KInv(k)
    ensures ReschedK(k) == if k.ndefers > 0 then k.(attempt := true) else ReschedK(k)
  {
  }

  lemma NoSteps(k: Ks)
    requires KInv(k)
    ensures CanRun(k, []) && After(k, [], 0) == k
  {
  }

  lemma {:induction false} OneMoreStep(k: Ks, steps: seq<Step>, st: Step)
    requires KInv(k) && CanRun(k, steps) && Allowed(After(k, steps, |steps|), st)
    ensures CanRun(k, steps + [st])
    ensures After(k, steps + [st], |steps| + 1) == StepK(After(k, steps, |steps|), st)
    decreases |steps|
  {
    hide KInv, Allowed, StepK;
    var all := steps + [st];
    if steps == [] {
      StepInv(k, st);
      assert all[0] == st && all[1..] == [];
      NoSteps(StepK(k, st));
      assert After(k, all, 1) == After(StepK(k, st), all[1..], 0);
    } else {
      StepInv(k, steps[0]);
      assert all[0] == steps[0] && all[1..] == steps[1..] + [st];
      OneMoreStep(StepK(k, steps[0]), steps[1..], st);
    }
  }

  lemma FewerDefers(k: Ks)
    requires Core(k, -1) && k.ndefers > 0
    ensures Core(k.(ndefers := k.ndefers - 1), -1)
  {
    hide Delta, ReadyKeys, WfQ, SemOK, Placed, SemsOK;
  }

  /** Dequeuing the first process of a list is what WakeFirst starts with. */
  lemma SameRelease(k: Ks, l: int)
    requires WfQ(k.q) && |k.procs| == NPROC && 0 <= l < NQ && l != READYQ && k.q.lists[l] != []
    requires l == SLEEPQ ==> k.q.keys[k.q.lists[l][0]] == 0
    ensures var p, q := k.q.lists[l][0], DequeueQ(k.q, l);
            && 0 <= p < NPROC && WfQ(q) && q.home[p] == EMPTY
            && MakeReady(k.(q := q), p).(attempt := true) == WakeFirst(k, l)
  {
    hide NoDup, InsPos;
    var p := k.q.lists[l][0];
    OnOwn(k.q, l);
    FirstIs(k.q, l);
    RemoveAtWf(k.q, l, 0);
    WithoutOK(k.q, p);
    var q := DequeueQ(k.q, l);
    assert Without(k.q, p).keys == q.keys;
    assert Without(k.q, p) == q;
    var a, b := MakeReady(k.(q := q), p), MakeReady(Detach(k, p, PrSusp), p);
    assert a.procs == b.procs;
  }

  /** What signal does between taking its count up and returning. */
  lemma SignalMoves(k: Ks, s: int)
    requires KInv(k) && !BadSem(k, s) && k.sems[s].count < 0
    ensures WfQ(k.q) && |k.procs| == NPROC && k.q.lists[s] != []
    ensures var k1, p := SetCount(k, s, k.sems[s].count + 1), k.q.lists[s][0];
            var k2 := k1.(q := DequeueQ(k.q, s));
            && 0 <= p < NPROC && WfQ(k2.q) && k2.q.home[p] == EMPTY && MINKEY < k.procs[p].prio
            && Core(MakeReady(k2, p), -1)
            && SignalK(k, s) == ReschedK(MakeReady(k2, p))
  {
    hide Core, TopPriority, Future, WakeFirst, MakeReady;
    CoreFacts(k, -1);
    SignalCore(k, s);
    SameRelease(SetCount(k, s, k.sems[s].count + 1), s);
    ReadyAttempt(SetCount(k, s, k.sems[s].count + 1).(q := DequeueQ(k.q, s)), k.q.lists[s][0]);
  }

  lemma ReadyAttempt(k: Ks, p: int)
    requires WfQ(k.q) && 0 <= p < NPROC == |k.procs|
    ensures MakeReady(k, p).(attempt := true).(attempt := k.attempt) == MakeReady(k, p)
  {
  }

  lemma DeferKeeps(k: Ks)
    ensures DeferStart(k).q == k.q && DeferStart(k).sems == k.sems
  {
  }

  lemma DrainZero(k: Ks, l: int)
    requires Draining(k, l)
    ensures Drain(k, l, 0) == k
  {
  }

  lemma DrainNone(k: Ks, s: int)
    requires Draining(k, s) && 0 <= s < NSEM && |k.sems| == NSEM
    ensures Drained(k, s, 0, k.sems[s]) == k
  {
    hide Draining;
    assert k.sems[s := k.sems[s]] == k.sems;
  }

  lemma WaitersLen(k: Ks, s: int)
    requires KInv(k) && !BadSem(k, s)
    ensures |k.q.lists[s]| == if k.sems[s].count < 0 then -k.sems[s].count else 0
  {
    hide Delta, ReadyKeys, Placed, MsgsOK, WfQ;
    assert SemOK(k.sems[s], k.q.lists[s]);
  }

  /** n waiters released and the entry set to x, with rescheduling still deferred. */
  ghost function Drained(k: Ks, s: int, n: nat, x: Sem): Ks
    requires Draining(k, s) && n <= |k.q.lists[s]| && 0 <= s < NSEM
  {
    Drain(k, s, n).(sems := k.sems[s := x])
  }

  /** One more waiter released is one more step of Drain. */
  lemma {:induction false} DrainNext(k: Ks, l: int, n: nat)
    requires Draining(k, l) && n < |k.q.lists[l]|
    ensures Drain(k, l, n).q.lists[l] != [] && Drain(k, l, n + 1) == WakeFirst(Drain(k, l, n), l)
    decreases n
  {
    hide Core, WakeFirst;
    CoreFacts(k, if l < NSEM then l else -1);
    WakeFirstCore(k, l);
    if n > 0 { DrainNext(WakeFirst(k, l), l, n - 1); }
  }

  lemma DrainedNext(k: Ks, s: int, n: nat, x: Sem, y: Sem)
    requires Draining(k, s) && n <= |k.q.lists[s]| && 0 <= s < NSEM
    ensures var d := Drained(k, s, n, y);
            && WfQ(d.q) && |d.procs| == NPROC && |d.sems| == NSEM && d.ndefers > 0
            && d == Drained(k, s, n, x).(sems := Drained(k, s, n, x).sems[s := y])
            && (forall p :: 0 <= p < NPROC ==> MINKEY < d.procs[p].prio)
            && (n < |k.q.lists[s]| ==> d.q.lists[s] != [] && Drained(k, s, n + 1, y) == WakeFirst(d, s))
  {
    hide Core, Drain;
    CoreFacts(k, s);
    CoreFacts(Drain(k, s, n), s);
    if n < |k.q.lists[s]| { DrainNext(k, s, n); }
  }

  lemma DeferSems(k: Ks, sems: seq<Sem>)
    ensures DeferStart(k.(sems := sems)) == DeferStart(k).(sems := sems)
  {
  }

  /** The end of signaln, semdelete and semreset. */
  lemma ReleaseAs(k: Ks, s: int, n: nat, x: Sem)
    requires KInv(k) && 0 <= s < NSEM && n <= |k.q.lists[s]| && SemOK(x, k.q.lists[s][n..])
    ensures Draining(DeferStart(k), s) && DeferStart(k).q == k.q
    ensures Core(Drained(DeferStart(k), s, n, x), -1)
    ensures ReleaseK(k, s, n, x) == DeferStop(Drained(DeferStart(k), s, n, x))
  {
    hide Core, SemOK, TopPriority, Future, DeferStop;
    ReleaseStart(k, s);
    CloseEx(Drain(DeferStart(k), s, n), s, x);
  }

  lemma DeleteOk(k: Ks, s: int)
    requires KInv(k) && 0 <= s < NSEM
    ensures s < |k.q.lists| && forall c :: SemOK(Sem(false, c), k.q.lists[s][|k.q.lists[s]|..])
  {
  }

  lemma ResetOk(k: Ks, s: int, count: nat)
    requires KInv(k) && 0 <= s < NSEM
    ensures s < |k.q.lists| && SemOK(Sem(true, count), k.q.lists[s][|k.q.lists[s]|..])
  {
  }

  lemma OnlyCurr(k: Ks, p: int)
    requires KInv(k) && 0 <= p < NPROC && k.procs[p].state.PrCurr?
    ensures p == k.curr
  {
  }

  lemma ResumeMoves(k: Ks, p: int)
    requires KInv(k) && 0 <= p < NPROC && k.procs[p].state.PrSusp?
    ensures k.q.home[p] == EMPTY && Core(MakeReady(k, p), -1) && ResumeK(k, p) == ReschedK(MakeReady(k, p))
  {
    hide Core, TopPriority, Future;
    CoreFacts(k, -1);
    MakeReadyCore(k, p, -1);
    assert k.procs[p := k.procs[p].(state := PrSusp)] == k.procs;
    assert Detach(k, p, PrSusp) == k;
  }

  lemma NextIs(q: Qs, p: int)
    requires WfQ(q) && 0 <= p < NPROC && q.home[p] != EMPTY
    ensures var l := q.lists[q.home[p]]; var i := IndexOf(l, p); i + 1 < |l| ==> l[i + 1] != p
  {
  }

  /** While wakeup runs, the first sleeper has no time left exactly if it is one
      of those that had none at the start. */
  lemma DrainedSleepers(k: Ks, n: nat)
    requires Core(k, -1) && Draining(DeferStart(k), SLEEPQ)
    requires forall i :: 0 <= i < |k.q.lists[SLEEPQ]| ==> 0 <= k.q.lists[SLEEPQ][i] < |k.q.keys|
    requires n <= LeadZero(k.q.keys, k.q.lists[SLEEPQ])
    ensures var d := Drain(DeferStart(k), SLEEPQ, n);
            && Core(d, -1) && WfQ(d.q) && |d.procs| == NPROC && d.ndefers > 0
            && (forall p :: 0 <= p < NPROC ==> MINKEY < d.procs[p].prio)
            && |k.q.lists[SLEEPQ]| >= LeadZero(k.q.keys, k.q.lists[SLEEPQ])
            && var l := d.q.lists[SLEEPQ];
               && (n < LeadZero(k.q.keys, k.q.lists[SLEEPQ]) ==> l != [] && d.q.keys[l[0]] == 0)
               && (n == LeadZero(k.q.keys, k.q.lists[SLEEPQ]) && l != [] ==> d.q.keys[l[0]] > 0)
  {
    hide Drain, Core;
    CoreFacts(k, -1);
    var d := Drain(DeferStart(k), SLEEPQ, n);
    CoreFacts(d, -1);
    SleepKeys(k);
    SleepKeys(d);
    LeadDue(k.q.keys, k.due, k.q.lists[SLEEPQ], k.now);
  }

  lemma SleepKeys(k: Ks)
    requires Core(k, -1)
    ensures Delta(k.q.keys, k.due, k.q.lists[SLEEPQ], k.now)
    ensures var l := k.q.lists[SLEEPQ]; l != [] ==> 0 <= l[0] < |k.q.keys| && k.due[l[0]] == k.now + k.q.keys[l[0]]
  {
    hide ReadyKeys, Placed, SemsOK, MsgsOK, Homed, NoDup;
  }

  lemma FirstLead(k: Ks)
    requires Core(k, -1) && forall i :: 0 <= i < |k.q.lists[SLEEPQ]| ==> 0 <= k.q.lists[SLEEPQ][i] < |k.q.keys|
    ensures var l := k.q.lists[SLEEPQ]; l != [] ==> (k.q.keys[l[0]] == 0 <==> LeadZero(k.q.keys, l) > 0)
  {
    hide Core;
    SleepKeys(k);
  }

  lemma PlacedK(k: Ks)
    requires KInv(k)
    ensures Placed(k.procs, k.q.home)
  {
  }

  lemma PlacedIs(k: Ks, p: int, msg: int)
    requires KInv(k) && 0 <= p < NPROC
    ensures Placed(Deliver(k, p, msg).procs, k.q.home)
  {
    hide Delta, ReadyKeys, SemsOK, MsgsOK, Homed, NoDup, TopPriority;
  }

  /** What send does to a process that waits for a message. */
  lemma SendMoves(k: Ks, p: int, msg: int)
    requires KInv(k) && 0 <= p < NPROC && !k.procs[p].hasmsg && (k.procs[p].state.PrRecv? || k.procs[p].state.PrRectim?)
    ensures WfQ(k.q) && |k.procs| == NPROC && WfQ(Without(k.q, p)) && MINKEY < k.procs[p].prio
    ensures var k1 := Deliver(k, p, msg).(q := Without(k.q, p));
            && k1.q.home[p] == EMPTY && Core(MakeReady(k1, p), -1) && SendK(k, p, msg) == ReschedK(MakeReady(k1, p))
    ensures Without(k.q, p) == if k.procs[p].state.PrRecv? then k.q else UnsleepQ(k.q, p)
  {
    hide Core, TopPriority, Future, InsertQ, UnsleepQ;
    CoreFacts(k, -1);
    SendCore(k, p, msg);
    WithoutOK(k.q, p);
    var k1 := Deliver(k, p, msg).(q := Without(k.q, p));
    assert MakeReady(k1, p).procs == Delivered(k, p, msg).procs;
    assert MakeReady(k1, p) == Delivered(k, p, msg);
  }
}
