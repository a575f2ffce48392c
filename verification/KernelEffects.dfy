// What each step does to each process, one process at a time and without lists:
// who stops, who may go on, and what is stored in its table entry.  Over whole
// runs this gives the laws of messages, of killed, created and suspended
// processes, and of semaphore counts.
module KernelEffects {
  import opened QueueTable
  import opened KernelModel
  import opened KernelSteps
  import opened KernelCalls
  import opened KernelClock
  import opened KernelRuns
  import opened KernelSleep

  /** y is x, but for the processor that it may have been given or may have lost. */
  predicate Dispatched(x: Proc, y: Proc) {
    y == x.(state := y.state) && (y.state == x.state || (IsAwake(x) && IsAwake(y)))
  }

  // ------------------------------------------------------ the moves of a call

  lemma SwitchProc(k: Ks, p: int)
    requires WfQ(k.q) && Placed(k.procs, k.q.home) && k.q.lists[READYQ] != [] && 0 <= p < NPROC
    ensures |Switch(k).procs| == NPROC && Dispatched(k.procs[p], Switch(k).procs[p])
  {
    hide NoDup;
    OnOwn(k.q, READYQ);
  }

  lemma RotateProc(k: Ks, p: int)
    requires Core(k, -1) && 0 <= p < NPROC && k.procs[k.curr].state.PrCurr?
    requires var k1 := MakeReady(k, k.curr); Core(k1, -1) && k1.q.lists[READYQ] != []
    ensures |Switch(MakeReady(k, k.curr)).procs| == NPROC
    ensures Dispatched(k.procs[p], Switch(MakeReady(k, k.curr)).procs[p])
  {
    hide Delta, ReadyKeys, SemsOK, MsgsOK, Homed, NoDup, InsertQ, Switch;
    SwitchProc(MakeReady(k, k.curr), p);
  }

  lemma ReschedProc(k: Ks, p: int)
    requires Core(k, -1) && 0 <= p < NPROC
    ensures |ReschedK(k).procs| == NPROC && Dispatched(k.procs[p], ReschedK(k).procs[p])
  {
    hide Delta, ReadyKeys, SemsOK, MsgsOK, Homed, NoDup, InsertQ, Switch;
    if k.ndefers == 0 && k.procs[k.curr].state.PrCurr? && !Stays(k) {
      MakeReadyCore(k, k.curr, -1);
      InsertedNonempty(k);
      RotateProc(k, p);
    } else if k.ndefers == 0 && !k.procs[k.curr].state.PrCurr? {
      ReadyNonempty(k, -1);
      SwitchProc(k, p);
    }
  }

  lemma DeferStopProc(k: Ks, p: int)
    requires Core(k, -1) && 0 <= p < NPROC
    ensures |DeferStop(k).procs| == NPROC && Dispatched(k.procs[p], DeferStop(k).procs[p])
  {
    hide Delta, ReadyKeys, NoDup, SemOK, SemsOK, MsgsOK, Homed;
    if k.ndefers == 1 && k.attempt { ReschedProc(k.(ndefers := 0), p); }
  }

  lemma StopProc(k: Ks, st: PrState, p: int)
    requires KInv(k) && k.curr != NULLPROC && (st.PrSusp? || st.PrFree? || (st.PrRecv? && !k.procs[k.curr].hasmsg)) && 0 <= p < NPROC
    ensures |StopK(k, st).procs| == NPROC == |k.procs|
    ensures Dispatched(if p == k.curr then k.procs[p].(state := st) else k.procs[p], StopK(k, st).procs[p])
  {
    hide Core, Future, TopPriority;
    CoreFacts(k, -1);
    OffCore(k, st);
    ReschedProc(SetState(k, k.curr, st), p);
  }

  lemma DozeProc(k: Ks, d: int, st: PrState, p: int)
    requires KInv(k) && k.curr != NULLPROC && d >= 0 && (st.PrSleep? || (st.PrRectim? && !k.procs[k.curr].hasmsg)) && 0 <= p < NPROC
    ensures |DozeK(k, d, st).procs| == NPROC == |k.procs|
    ensures Dispatched(if p == k.curr then k.procs[p].(state := st) else k.procs[p], DozeK(k, d, st).procs[p])
  {
    hide Core, Future, TopPriority, InsertDQ;
    CoreFacts(k, -1);
    DozeCore(k, d, st);
    ReschedProc(Doze(k, d, st), p);
  }

  lemma WakeProc(k: Ks, r: int, p: int)
    requires KInv(k) && 0 <= p < NPROC && 0 < r < NPROC && k.procs[r].state.PrSusp? && !(0 <= k.q.home[r] < NSEM)
    ensures |Wake(k, r).procs| == NPROC == |k.procs|
    ensures Dispatched(if p == r then k.procs[p].(state := PrReady) else k.procs[p], Wake(k, r).procs[p])
  {
    hide Core, Future, TopPriority, Without, InsertQ;
    CoreFacts(k, -1);
    DetachCore(k, r, PrSusp, -1);
    CoreFacts(Detach(k, r, PrSusp), -1);
    MakeReadyCore(Detach(k, r, PrSusp), r, -1);
    ReschedProc(MakeReady(Detach(k, r, PrSusp), r), p);
  }

  lemma ReleaseProc(k: Ks, s: int, n: nat, x: Sem, p: int)
    requires KInv(k) && 0 <= s < NSEM && n <= |k.q.lists[s]| && SemOK(x, k.q.lists[s][n..]) && 0 <= p < NPROC
    ensures |ReleaseK(k, s, n, x).procs| == NPROC == |k.procs|
    ensures Dispatched(if p in k.q.lists[s][..n] then k.procs[p].(state := PrReady) else k.procs[p], ReleaseK(k, s, n, x).procs[p])
  {
    hide Core, Future, SemOK;
    CoreFacts(k, -1);
    ReleaseStart(k, s);
    var k0 := DeferStart(k);
    DrainProcs(k0, s, n);
    var k1 := Drain(k0, s, n);
    CloseEx(k1, s, x);
    DeferStopProc(k1.(sems := k1.sems[s := x]), p);
  }

  // ------------------------------------------------- what becomes of a process

  /** A message arrives at process x, if it exists and has none. */
  function Given(x: Proc, msg: int): Proc {
    if x.state.PrFree? || x.hasmsg then x
    else x.(msg := msg, hasmsg := true, state := if x.state.PrRecv? || x.state.PrRectim? then PrReady else x.state)
  }

  /** Table entry p after a step, up to dispatching. */
  ghost function Becomes(k: Ks, st: Step, p: int): Proc
    requires 0 <= p < |k.procs| && |k.q.lists| == NQ && |k.due| == |k.procs|
  {
    var x := k.procs[p];
    match st
    case Wait(s) => if p == k.curr && !BadSem(k, s) && k.sems[s].count <= 0 then x.(state := PrWait, sem := s) else x
    case Signal(s) => if !BadSem(k, s) && k.q.lists[s] != [] && p == k.q.lists[s][0] then x.(state := PrReady) else x
    case SignalN(s, n) =>
      if !BadSem(k, s) && n >= 0 && p in k.q.lists[s][..Min(n, |k.q.lists[s]|)] then x.(state := PrReady) else x
    case SemDelete(s) => if !BadSem(k, s) && p in k.q.lists[s] then x.(state := PrReady) else x
    case SemReset(s, n) => if !BadSem(k, s) && n >= 0 && p in k.q.lists[s] then x.(state := PrReady) else x
    case Suspend(r) => if p == r && p != NULLPROC && IsAwake(x) then x.(state := PrSusp) else x
    case Resume(r) => if p == r && x.state.PrSusp? then x.(state := PrReady) else x
    case Sleep(d) => if p == k.curr && d > 0 then x.(state := PrSleep) else x
    case Send(r, msg) => if p == r then Given(x, msg) else x
    case Receive => if p != k.curr then x else if x.hasmsg then x.(hasmsg := false) else x.(state := PrRecv)
    case RecvTime(d) => if p != k.curr || d < 0 then x else if x.hasmsg then x.(hasmsg := false) else x.(state := PrRectim)
    case TakeMsg => if p == k.curr then x.(hasmsg := false) else x
    case KillNotify(r) => if !BadPid(k, r) && r != NULLPROC && k.procs[r].parent == p then Given(x, r) else x
    case KillRemove(r) => if p == r && p != NULLPROC then x.(state := PrFree) else x
    case Create(r, prio) => if p == r then Proc(PrSusp, prio, -1, k.curr, x.msg, false) else x
    case Tick => if IsAsleep(x) && k.due[p] == k.now + 1 then x.(state := PrReady) else x
    case _ => x
  }

  /** The step st turns entry p into y, up to dispatching. */
  ghost predicate Effect(k: Ks, k': Ks, st: Step, p: int)
    requires 0 <= p < NPROC == |k.procs| == |k.due| && |k.q.lists| == NQ
  {
    |k'.procs| == NPROC && Dispatched(Becomes(k, st, p), k'.procs[p])
  }

  lemma SignalEffect(k: Ks, s: int, p: int)
    requires KInv(k) && 0 <= p < NPROC && |k.procs| == |k.due| == NPROC && |k.q.lists| == NQ
    ensures Effect(k, SignalK(k, s), Signal(s), p)
  {
    hide Core, Future, TopPriority, Without, InsertQ;
    CoreFacts(k, -1);
    if !BadSem(k, s) {
      QueueIff(k, s);
      if k.sems[s].count < 0 {
        SignalCore(k, s);
        OnOwn(k.q, s);
        ReschedProc(Released(SetCount(k, s, k.sems[s].count + 1), s), p);
      }
    }
  }

  lemma QueueIff(k: Ks, s: int)
    requires KInv(k) && !BadSem(k, s)
    ensures |k.q.lists| == NQ && (k.q.lists[s] != [] <==> k.sems[s].count < 0)
  {
    hide Delta, ReadyKeys, Placed, MsgsOK, TopPriority, Homed, NoDup, Future;
    assert SemOK(k.sems[s], k.q.lists[s]);
  }

  lemma WaitEffect(k: Ks, s: int, p: int)
    requires KInv(k) && Allowed(k, Wait(s)) && 0 <= p < NPROC && |k.procs| == |k.due| == NPROC && |k.q.lists| == NQ
    ensures Effect(k, WaitK(k, s), Wait(s), p)
  {
    hide Core, Future, TopPriority, SemOK;
    CoreFacts(k, -1);
    if !BadSem(k, s) && k.sems[s].count <= 0 {
      WaitCore(k, s);
      ReschedProc(BlockOn(SetCount(k, s, k.sems[s].count - 1), s), p);
    }
  }

  lemma QueueEffect(k: Ks, st: Step, p: int)
    requires KInv(k) && 0 <= p < NPROC && |k.procs| == |k.due| == NPROC && |k.q.lists| == NQ && Allowed(k, st)
    requires st.SignalN? || st.SemDelete? || st.SemReset?
    ensures Effect(k, StepK(k, st), st, p)
  {
    hide Core, Future, TopPriority, ReleaseK, Balanced;
    CoreFacts(k, -1);
    var s := st.s;
    if !BadSem(k, s) {
      var l, c := k.q.lists[s], k.sems[s].count;
      assert l[..|l|] == l;
      match st
      case SignalN(_, n) =>
        if n >= 0 {
          SignalNOk(k, s, n);
          ReleaseProc(k, s, Min(n, |l|), k.sems[s].(count := c + n), p);
        }
      case SemDelete(_) => ReleaseProc(k, s, |l|, Sem(false, if c < 0 then 1 else c + 1), p);
      case SemReset(_, n) => if n >= 0 { ResetOk(k, s, n); ReleaseProc(k, s, |l|, Sem(true, n), p); }
    }
  }

  lemma ResetOk(k: Ks, s: int, n: nat)
    requires 0 <= s < |k.q.lists|
    ensures SemOK(Sem(true, n), k.q.lists[s][|k.q.lists[s]|..])
  {
  }

  lemma SendEffect(k: Ks, r: int, msg: int, p: int)
    requires KInv(k) && 0 <= p < NPROC && |k.procs| == NPROC
    ensures |SendK(k, r, msg).procs| == NPROC
    ensures Dispatched(if p == r then Given(k.procs[p], msg) else k.procs[p], SendK(k, r, msg).procs[p])
  {
    hide Core, Future, TopPriority, Without, InsertQ;
    CoreFacts(k, -1);
    if !BadPid(k, r) && !k.procs[r].hasmsg && (k.procs[r].state.PrRecv? || k.procs[r].state.PrRectim?) {
      SendCore(k, r, msg);
      ReschedProc(Delivered(k, r, msg), p);
    }
  }

  lemma ParentEffect(k: Ks, r: int, p: int)
    requires KInv(k) && 0 <= p < NPROC && |k.procs| == |k.due| == NPROC && |k.q.lists| == NQ
    ensures Effect(k, KillNotifyK(k, r), KillNotify(r), p)
  {
    hide Core, Future, TopPriority, SendK, Given;
    if !BadPid(k, r) && r != NULLPROC {
      CountOnly(k, k.prcount - 1);
      SendEffect(k.(prcount := k.prcount - 1), k.procs[r].parent, r, p);
    }
  }

  lemma KillEffect(k: Ks, r: int, p: int)
    requires KInv(k) && 0 <= p < NPROC && |k.procs| == |k.due| == NPROC && |k.q.lists| == NQ
    ensures Effect(k, KillRemoveK(k, r), KillRemove(r), p)
  {
    hide Core, Future, TopPriority, Without, StopK;
    CoreFacts(k, -1);
    if 0 < r < NPROC && k.procs[r].state.PrCurr? {
      OneRuns(k, r);
      StopProc(k, PrFree, p);
    } else if 0 < r < NPROC && k.procs[r].state.PrWait? {
      WaitsOn(k, r);
    }
  }

  /** The sleepers at the head without time left are those due on this tick. */
  lemma DueNow(k: Ks, p: int)
    requires KInv(k) && 0 <= p < NPROC && |k.procs| == |k.due| == NPROC && |k.q.lists| == NQ
    ensures var k1 := Elapse(k);
            var l := k1.q.lists[SLEEPQ];
            && k1.procs == k.procs && (forall i :: 0 <= i < |l| ==> 0 <= l[i] < |k1.q.keys|)
            && (p in l[..LeadZero(k1.q.keys, l)] <==> IsAsleep(k.procs[p]) && k.due[p] == k.now + 1)
  {
    hide Core, TopPriority, Future, LeadZero;
    CoreFacts(k, -1);
    ElapseCore(k);
    TickDue(k);
    var k1 := Elapse(k);
    var l := k1.q.lists[SLEEPQ];
    if IsAsleep(k.procs[p]) {
      InPrefix(l, LeadZero(k1.q.keys, l), IndexOf(l, p));
    } else {
      if k.procs[p].state.PrWait? { WaitsOn(k, p); }
      OnOwn(k.q, SLEEPQ);
      assert p !in l;
    }
  }

  lemma TickEffect(k: Ks, p: int)
    requires KInv(k) && 0 <= p < NPROC && |k.procs| == |k.due| == NPROC && |k.q.lists| == NQ
    ensures Effect(k, TickK(k), Tick, p)
  {
    hide Core, TopPriority, Future, LeadZero, Elapse, WfQ;
    CoreFacts(k, -1);
    DueNow(k, p);
    ElapseCore(k);
    var k1 := Elapse(k);
    var n := LeadZero(k1.q.keys, k1.q.lists[SLEEPQ]);
    SleepDraining(k1);
    if n > 0 {
      var k2 := DeferStart(k1);
      DrainProcs(k2, SLEEPQ, n);
      DeferStopProc(Drain(k2, SLEEPQ, n), p);
    }
  }

  lemma SuspendEffect(k: Ks, r: int, p: int)
    requires KInv(k) && 0 <= p < NPROC && |k.procs| == |k.due| == NPROC && |k.q.lists| == NQ && Allowed(k, Suspend(r))
    ensures Effect(k, SuspendK(k, r), Suspend(r), p)
  {
    hide Core, Future, TopPriority, Without, StopK;
    CoreFacts(k, -1);
    if !BadPid(k, r) && r != NULLPROC && k.procs[r].state.PrCurr? {
      OneRuns(k, r);
      StopProc(k, PrSusp, p);
    }
  }

  lemma ResumeEffect(k: Ks, r: int, p: int)
    requires KInv(k) && 0 <= p < NPROC && |k.procs| == |k.due| == NPROC && |k.q.lists| == NQ
    ensures Effect(k, ResumeK(k, r), Resume(r), p)
  {
    hide Core, Future, TopPriority, Wake;
    CoreFacts(k, -1);
    if !BadPid(k, r) && k.procs[r].state.PrSusp? { WakeProc(k, r, p); }
  }

  lemma BlockEffect(k: Ks, st: Step, p: int)
    requires KInv(k) && 0 <= p < NPROC && |k.procs| == |k.due| == NPROC && |k.q.lists| == NQ && Allowed(k, st)
    requires st.Sleep? || st.Receive? || st.RecvTime?
    ensures Effect(k, StepK(k, st), st, p)
  {
    hide Core, Future, TopPriority, StopK, DozeK, ReschedK;
    match st
    case Sleep(d) => if d == 0 { ReschedProc(k, p); } else { DozeProc(k, d, PrSleep, p); }
    case Receive => if !k.procs[k.curr].hasmsg { StopProc(k, PrRecv, p); }
    case RecvTime(d) => if d >= 0 && !k.procs[k.curr].hasmsg { DozeProc(k, d, PrRectim, p); }
  }

  lemma RestEffect(k: Ks, st: Step, p: int)
    requires KInv(k) && 0 <= p < NPROC && |k.procs| == |k.due| == NPROC && |k.q.lists| == NQ && Allowed(k, st)
    requires st.Yield? || st.TakeMsg? || st.StartDefer? || st.StopDefer? || st.Preempt? || st.SemCreate? || st.Create?
    ensures Effect(k, StepK(k, st), st, p)
  {
    hide Core, Future, TopPriority, Given;
    match st
    case Yield => ReschedProc(k, p);
    case StopDefer => DeferStopProc(k, p);
    case Preempt => if k.preempt == 1 { PreemptProc(k, p); }
    case _ =>
  }

  lemma PreemptProc(k: Ks, p: int)
    requires KInv(k) && 0 <= p < NPROC && k.preempt == 1
    ensures |PreemptK(k).procs| == NPROC == |k.procs| && Dispatched(k.procs[p], PreemptK(k).procs[p])
  {
    hide Delta, ReadyKeys, NoDup, SemOK, SemsOK, MsgsOK, Homed, Future, TopPriority;
    ReschedProc(k.(preempt := QUANTUM), p);
  }

  lemma Sizes(k: Ks)
    requires KInv(k)
    ensures |k.procs| == |k.due| == NPROC && |k.q.lists| == NQ && |k.sems| == NSEM && 0 <= k.curr < NPROC
  {
  }

  /** Every step turns every table entry into what Becomes says. */
  lemma StepProc(k: Ks, st: Step, p: int)
    requires KInv(k) && Allowed(k, st) && 0 <= p < NPROC
    ensures |k.procs| == |k.due| == NPROC && |k.q.lists| == NQ && Effect(k, StepK(k, st), st, p)
  {
    hide KInv, Allowed, Effect;
    Sizes(k);
    match st
    case Wait(s) => WaitEffect(k, s, p);
    case Signal(s) => SignalEffect(k, s, p);
    case Send(r, msg) => StepSend(k, r, msg, p);
    case Suspend(r) => SuspendEffect(k, r, p);
    case Resume(r) => ResumeEffect(k, r, p);
    case KillNotify(r) => ParentEffect(k, r, p);
    case KillRemove(r) => KillEffect(k, r, p);
    case Tick => TickEffect(k, p);
    case _ =>
      hide StepK;
      if st.SignalN? || st.SemDelete? || st.SemReset? {
        QueueEffect(k, st, p);
      } else if st.Sleep? || st.Receive? || st.RecvTime? {
        BlockEffect(k, st, p);
      } else {
        RestEffect(k, st, p);
      }
  }

  lemma StepSend(k: Ks, r: int, msg: int, p: int)
    requires KInv(k) && 0 <= p < NPROC && |k.procs| == |k.due| == NPROC && |k.q.lists| == NQ
    ensures Effect(k, SendK(k, r, msg), Send(r, msg), p)
  {
    hide KInv, SendK, Given;
    SendEffect(k, r, msg, p);
  }
}
