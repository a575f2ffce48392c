// Whole runs of the kernel: any sequence of system calls and clock ticks.
module KernelRuns {
  import opened QueueTable
  import opened KernelModel
  import opened KernelSteps
  import opened KernelCalls
  import opened KernelClock

  datatype Step =
    | Wait(s: int) | Signal(s: int) | SignalN(s: int, n: int)
    | SemCreate(s: int, n: int) | SemDelete(s: int) | SemReset(s: int, n: int)
    | Suspend(p: int) | Resume(p: int) | Yield | Sleep(d: int)
    | Send(p: int, msg: int) | Receive | RecvTime(d: int) | TakeMsg
    | KillNotify(p: int) | KillRemove(p: int) | Create(p: int, prio: int)
    | StartDefer | StopDefer | Tick | Preempt

  /** A call that may block is not made by the null process, nor while
      rescheduling is deferred. */
  ghost predicate MayBlock(k: Ks) { k.curr != NULLPROC && k.ndefers == 0 }

  ghost predicate Allowed(k: Ks, st: Step)
    requires KInv(k)
  {
    match st
    case Wait(s) => BadSem(k, s) || k.sems[s].count > 0 || MayBlock(k)
    case Suspend(p) => p == k.curr ==> k.ndefers == 0
    case KillRemove(p) => p == k.curr ==> k.ndefers == 0
    case Sleep(d) => 0 <= d < 0x8000_0000 && (d > 0 ==> MayBlock(k))
    case Receive => k.procs[k.curr].hasmsg || MayBlock(k)
    case RecvTime(d) => d < 0x8000_0000 && (d < 0 || k.procs[k.curr].hasmsg || (d > 0 && MayBlock(k)))
    case SemCreate(s, n) => 0 <= s < NSEM == |k.sems| && !k.sems[s].used && n >= 0
    case Create(p, prio) => 0 <= p < NPROC && k.procs[p].state.PrFree? && 1 <= prio < 0x8000
    case _ => true
  }

  ghost function StepK(k: Ks, st: Step): Ks
    requires KInv(k) && Allowed(k, st)
  {
    match st
    case Wait(s) => WaitK(k, s)
    case Signal(s) => SignalK(k, s)
    case SignalN(s, n) => SignalNK(k, s, n)
    case SemCreate(s, n) => SemCreateK(k, s, n)
    case SemDelete(s) => SemDeleteK(k, s)
    case SemReset(s, n) => SemResetK(k, s, n)
    case Suspend(p) => SuspendK(k, p)
    case Resume(p) => ResumeK(k, p)
    case Yield => ReschedK(k)
    case Sleep(d) => SleepK(k, d)
    case Send(p, msg) => SendK(k, p, msg)
    case Receive => ReceiveK(k)
    case RecvTime(d) => RecvTimeK(k, d)
    case TakeMsg => ClearMsg(k)
    case KillNotify(p) => KillNotifyK(k, p)
    case KillRemove(p) => KillRemoveK(k, p)
    case Create(p, prio) => CreateK(k, p, prio)
    case StartDefer => DeferStart(k)
    case StopDefer => DeferStop(k)
    case Tick => TickK(k)
    case Preempt => PreemptK(k)
  }

  lemma SemStepInv(k: Ks, st: Step)
    requires KInv(k) && Allowed(k, st)
    requires st.Wait? || st.Signal? || st.SignalN? || st.SemCreate? || st.SemDelete? || st.SemReset?
    ensures KInv(StepK(k, st))
  {
    hide Core, Future, TopPriority, WaitK, SignalK, SignalNK, SemCreateK, SemDeleteK, SemResetK;
    match st
    case Wait(s) => WaitInv(k, s);
    case Signal(s) => SignalInv(k, s);
    case SignalN(s, n) => SignalNInv(k, s, n);
    case SemCreate(s, n) => SemCreateInv(k, s, n);
    case SemDelete(s) => SemDeleteInv(k, s);
    case SemReset(s, n) => SemResetInv(k, s, n);
  }

  lemma ProcStepInv(k: Ks, st: Step)
    requires KInv(k) && Allowed(k, st)
    requires st.Suspend? || st.Resume? || st.Send? || st.KillNotify? || st.KillRemove? || st.Create? || st.Receive? || st.TakeMsg?
    ensures KInv(StepK(k, st))
  {
    hide Core, Future, TopPriority, SuspendK, ResumeK, SendK, ReceiveK, KillNotifyK, KillRemoveK, CreateK, ClearMsg;
    match st
    case Suspend(p) => SuspendInv(k, p);
    case Resume(p) => ResumeInv(k, p);
    case Send(p, msg) => SendInv(k, p, msg);
    case Receive => ReceiveInv(k);
    case TakeMsg => ClearMsgInv(k);
    case KillNotify(p) => KillNotifyInv(k, p);
    case KillRemove(p) => KillRemoveInv(k, p);
    case Create(p, prio) => CreateInv(k, p, prio);
  }

  lemma TimeStepInv(k: Ks, st: Step)
    requires KInv(k) && Allowed(k, st)
    requires st.Yield? || st.Sleep? || st.RecvTime? || st.StartDefer? || st.StopDefer? || st.Tick? || st.Preempt?
    ensures KInv(StepK(k, st))
  {
    hide Core, Future, TopPriority, ReschedK, DeferStart, DeferStop, TickK, PreemptK, DozeK, ClearMsg;
    match st
    case Yield => YieldInv(k);
    case Sleep(d) => if d == 0 { YieldInv(k); } else { DozeInv(k, d, PrSleep); }
    case RecvTime(d) =>
      if d >= 0 { if k.procs[k.curr].hasmsg { ClearMsgInv(k); } else { DozeInv(k, d, PrRectim); } }
    case StartDefer => DeferStartInv(k);
    case StopDefer => DeferStopInv(k);
    case Tick => TickInv(k);
    case Preempt => PreemptInv(k);
  }

  /** Every call and every tick keeps the invariant. */
  lemma StepInv(k: Ks, st: Step)
    requires KInv(k) && Allowed(k, st)
    ensures KInv(StepK(k, st))
  {
    hide KInv, Allowed, StepK;
    if st.Wait? || st.Signal? || st.SignalN? || st.SemCreate? || st.SemDelete? || st.SemReset? {
      SemStepInv(k, st);
    } else if st.Suspend? || st.Resume? || st.Send? || st.KillNotify? || st.KillRemove? || st.Create? || st.Receive? || st.TakeMsg? {
      ProcStepInv(k, st);
    } else {
      TimeStepInv(k, st);
    }
  }

  // ------------------------------------------------------------ any run

  ghost predicate CanRun(k: Ks, steps: seq<Step>)
    requires KInv(k)
    decreases |steps|
  {
    steps == [] ||
    (Allowed(k, steps[0]) && (StepInv(k, steps[0]); CanRun(StepK(k, steps[0]), steps[1..])))
  }

  /** The state after the first i steps. */
  ghost function After(k: Ks, steps: seq<Step>, i: nat): (r: Ks)
    requires KInv(k) && CanRun(k, steps) && i <= |steps|
    ensures KInv(r)
    decreases i
  {
    if i == 0 then k
    else StepInv(k, steps[0]); After(StepK(k, steps[0]), steps[1..], i - 1)
  }

  /** The state sysinit leaves: the null process runs, every list is empty. */
  ghost function InitK(q: Qs): Ks {
    Ks(seq(NPROC, p => Proc(if p == NULLPROC then PrCurr else PrFree, 0, 0, 0, 0, false)),
       seq(NSEM, _ => Sem(false, 0)), q, NULLPROC, QUANTUM, 0, false, 1, 0, seq(NPROC, _ => 0))
  }

  lemma InitInv(q: Qs)
    requires WfQ(q) && q.lists == seq(NQ, _ => []) && q.home == seq(NPROC, _ => EMPTY)
    ensures KInv(InitK(q))
  {
    hide Homed, NoDup;
  }

  /** What the invariant says at every point of every run from boot. */
  lemma RunSafety(q: Qs, steps: seq<Step>, i: nat)
    requires WfQ(q) && q.lists == seq(NQ, _ => []) && q.home == seq(NPROC, _ => EMPTY)
    requires KInv(InitK(q)) && CanRun(InitK(q), steps) && i <= |steps|
    ensures var k := After(InitK(q), steps, i);
            && WfQ(k.q) && |k.procs| == NPROC && |k.sems| == NSEM && 0 <= k.curr < NPROC
            // lists are disjoint, and state decides membership
            && (forall p, m :: 0 <= p < NPROC && 0 <= m < NQ ==> (p in k.q.lists[m] <==> Place(k.procs[p]) == m))
            // exactly one process is current
            && (forall p :: 0 <= p < NPROC ==> (k.procs[p].state.PrCurr? <==> p == k.curr))
            // a negative count is minus the number of waiters
            && (forall s :: 0 <= s < NSEM ==> SemOK(k.sems[s], k.q.lists[s]))
            // a process waiting for a message has none
            && (forall p :: 0 <= p < NPROC && (k.procs[p].state.PrRecv? || k.procs[p].state.PrRectim?) ==> !k.procs[p].hasmsg)
            // the running process is a best one, unless a reschedule is pending
            && (k.ndefers == 0 || !k.attempt ==> TopPriority(k))
  {
    var k := After(InitK(q), steps, i);
    hide After, CanRun, Delta, Sorted, Future, TopPriority, InitK, NoDup;
    forall p, m | 0 <= p < NPROC && 0 <= m < NQ ensures p in k.q.lists[m] <==> Place(k.procs[p]) == m {
      assert k.q.home[p] == Place(k.procs[p]);
    }
  }
}
