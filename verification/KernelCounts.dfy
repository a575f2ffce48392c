// The counters of the kernel over whole runs: semaphore counts, the number of
// processes and the depth of deferral.
module KernelCounts {
  import opened QueueTable
  import opened KernelModel
  import opened KernelSteps
  import opened KernelCalls
  import opened KernelClock
  import opened KernelRuns
  import opened KernelSleep

  /** Semaphores and counters are as they were, and while rescheduling is deferred
      so is the running process. */
  ghost predicate SameCounts(k: Ks, k': Ks) {
    k'.sems == k.sems && k'.prcount == k.prcount && k'.ndefers == k.ndefers && (k.ndefers > 0 ==> k'.curr == k.curr)
  }

  lemma ReschedCounts(k: Ks)
    requires Core(k, -1)
    ensures SameCounts(k, ReschedK(k))
  {
    hide Delta, SemOK, SemsOK, MsgsOK, Placed, NoDup, Homed, ReadyKeys;
  }

  /** One level of deferral ends. */
  lemma StopCounts(k: Ks)
    requires Core(k, -1)
    ensures DeferStop(k).sems == k.sems && DeferStop(k).prcount == k.prcount
    ensures DeferStop(k).ndefers == (if k.ndefers == 0 then 0 else k.ndefers - 1) && (k.ndefers > 1 ==> DeferStop(k).curr == k.curr)
  {
    hide Delta, ReadyKeys, SemOK, Placed, SemsOK, Homed, NoDup;
    if k.ndefers == 1 && k.attempt { ReschedCounts(k.(ndefers := 0)); }
  }

  lemma ReleaseCounts(k: Ks, s: int, n: nat, x: Sem)
    requires KInv(k) && 0 <= s < NSEM && n <= |k.q.lists[s]| && SemOK(x, k.q.lists[s][n..])
    ensures |k.sems| == NSEM && SameCounts(k.(sems := k.sems[s := x]), ReleaseK(k, s, n, x))
  {
    hide Core, Future, SemOK, TopPriority;
    CoreFacts(k, -1);
    ReleaseStart(k, s);
    var k1 := Drain(DeferStart(k), s, n);
    CloseEx(k1, s, x);
    StopCounts(k1.(sems := k1.sems[s := x]));
  }

  lemma DetachCounts(k: Ks, p: int, st: PrState)
    requires WfQ(k.q) && 0 <= p < NPROC == |k.procs|
    ensures SameCounts(k, Detach(k, p, st))
  {
  }

  lemma StopProcCounts(k: Ks, st: PrState)
    requires KInv(k) && k.curr != NULLPROC && (st.PrSusp? || st.PrFree? || (st.PrRecv? && !k.procs[k.curr].hasmsg))
    ensures SameCounts(k, StopK(k, st))
  {
    hide Core, Future, TopPriority;
    OffCore(k, st);
    ReschedCounts(SetState(k, k.curr, st));
  }

  lemma DozeCounts(k: Ks, d: int, st: PrState)
    requires KInv(k) && k.curr != NULLPROC && d >= 0 && (st.PrSleep? || (st.PrRectim? && !k.procs[k.curr].hasmsg))
    ensures SameCounts(k, DozeK(k, d, st))
  {
    hide Core, Future, TopPriority, InsertDQ;
    CoreFacts(k, -1);
    DozeCore(k, d, st);
    ReschedCounts(Doze(k, d, st));
  }

  lemma SendCounts(k: Ks, r: int, msg: int)
    requires KInv(k)
    ensures SameCounts(k, SendK(k, r, msg))
  {
    hide Core, Future, TopPriority, Without, InsertQ;
    CoreFacts(k, -1);
    if !BadPid(k, r) && !k.procs[r].hasmsg && (k.procs[r].state.PrRecv? || k.procs[r].state.PrRectim?) {
      SendCore(k, r, msg);
      ReschedCounts(Delivered(k, r, msg));
    }
  }

  lemma WakeCounts(k: Ks, r: int)
    requires KInv(k) && 0 < r < NPROC && !(0 <= k.q.home[r] < NSEM)
    ensures SameCounts(k, Wake(k, r))
  {
    hide Core, Future, TopPriority, Without, InsertQ;
    CoreFacts(k, -1);
    DetachCore(k, r, PrSusp, -1);
    CoreFacts(Detach(k, r, PrSusp), -1);
    MakeReadyCore(Detach(k, r, PrSusp), r, -1);
    ReschedCounts(MakeReady(Detach(k, r, PrSusp), r));
  }

  lemma TickCounts(k: Ks)
    requires KInv(k)
    ensures SameCounts(k, TickK(k))
  {
    hide Core, TopPriority, Future, LeadZero, WfQ;
    CoreFacts(k, -1);
    ElapseCore(k);
    TickDue(k);
    var k1 := Elapse(k);
    var n := LeadZero(k1.q.keys, k1.q.lists[SLEEPQ]);
    SleepDraining(k1);
    if n > 0 { StopCounts(Drain(DeferStart(k1), SLEEPQ, n)); }
  }

  // ------------------------------------------------------- one step of a run

  /** The units that a step gives to semaphore s, or takes from it.  Killing a
      process that waits gives its unit back. */
  function Units(k: Ks, st: Step, s: int): int {
    match st
    case Wait(r) => if r == s then -1 else 0
    case Signal(r) => if r == s then 1 else 0
    case SignalN(r, n) => if r == s && n >= 0 then n else 0
    case KillRemove(p) => if 0 < p < |k.procs| && k.procs[p].state.PrWait? && k.procs[p].sem == s then 1 else 0
    case _ => 0
  }

  /** The step makes semaphore s anew or does away with it. */
  predicate Remakes(st: Step, s: int) { (st.SemCreate? || st.SemDelete? || (st.SemReset? && st.n >= 0)) && st.s == s }

  /** Every semaphore but r keeps its entry, and semaphore r gets x. */
  ghost predicate OneCount(k: Ks, k': Ks, r: int, x: Sem) {
    0 <= r < |k.sems| && SameCounts(k.(sems := k.sems[r := x]), k')
  }

  /** wait, signal and signaln move the count of one semaphore. */
  lemma UnitStep(k: Ks, st: Step)
    requires KInv(k) && Allowed(k, st) && (st.Wait? || st.Signal? || st.SignalN?)
    ensures if BadSem(k, st.s) then StepK(k, st) == k
            else OneCount(k, StepK(k, st), st.s, Sem(true, k.sems[st.s].count + Units(k, st, st.s)))
  {
    hide Core, Future, TopPriority, ReleaseK, Released;
    CoreFacts(k, -1);
    if !BadSem(k, st.s) {
      var l, c := k.q.lists[st.s], k.sems[st.s].count;
      match st
      case Wait(r) =>
        if c <= 0 { WaitCore(k, r); ReschedCounts(BlockOn(SetCount(k, r, c - 1), r)); }
      case Signal(r) =>
        if c < 0 { SignalCore(k, r); ReleasedCounts(SetCount(k, r, c + 1), r); ReschedCounts(Released(SetCount(k, r, c + 1), r)); }
      case SignalN(r, n) =>
        if n >= 0 { SignalNOk(k, r, n); ReleaseCounts(k, r, Min(n, |l|), k.sems[r].(count := c + n)); }
        else { assert k.sems[r := Sem(true, c)] == k.sems; }
    }
  }

  /** semcreate, semdelete and semreset make one semaphore anew. */
  lemma RemakeStep(k: Ks, st: Step)
    requires KInv(k) && Allowed(k, st) && (st.SemCreate? || st.SemDelete? || st.SemReset?)
    ensures if !st.SemCreate? && (BadSem(k, st.s) || !Remakes(st, st.s)) then StepK(k, st) == k
            else if st.SemDelete? then exists c :: OneCount(k, StepK(k, st), st.s, Sem(false, c))
            else OneCount(k, StepK(k, st), st.s, Sem(true, st.n))
  {
    hide Core, Future, TopPriority, ReleaseK;
    CoreFacts(k, -1);
    if !BadSem(k, st.s) {
      var l, c := k.q.lists[st.s], k.sems[st.s].count;
      match st
      case SemDelete(r) => ReleaseCounts(k, r, |l|, Sem(false, if c < 0 then 1 else c + 1));
      case SemReset(r, n) => if n >= 0 { ReleaseCounts(k, r, |l|, Sem(true, n)); }
      case SemCreate(r, n) =>
    }
  }

  lemma SemStep(k: Ks, st: Step, s: int)
    requires KInv(k) && Allowed(k, st) && 0 <= s < NSEM
    requires st.Wait? || st.Signal? || st.SignalN? || st.SemCreate? || st.SemDelete? || st.SemReset?
    ensures SameCounts(k.(sems := StepK(k, st).sems), StepK(k, st)) && |StepK(k, st).sems| == |k.sems| == NSEM
    ensures !Remakes(st, s) ==>
              StepK(k, st).sems[s] == if k.sems[s].used then Sem(true, k.sems[s].count + Units(k, st, s)) else k.sems[s]
  {
    hide Core, Future, TopPriority, StepK, Allowed;
    CoreFacts(k, -1);
    if st.Wait? || st.Signal? || st.SignalN? { UnitStep(k, st); } else { RemakeStep(k, st); }
  }

  lemma ReleasedCounts(k: Ks, s: int)
    requires WfQ(k.q) && |k.procs| == NPROC && 0 <= s < NQ && k.q.lists[s] != []
    ensures SameCounts(k, Released(k, s))
  {
    hide Without, InsertQ;
  }

  lemma ProcStep(k: Ks, st: Step)
    requires KInv(k) && Allowed(k, st)
    requires || st.Suspend? || st.Resume? || st.Send? || st.Sleep? || st.Receive? || st.RecvTime? || st.TakeMsg?
             || st.Tick? || st.Yield? || st.Preempt?
    ensures SameCounts(k, StepK(k, st))
  {
    hide Core, Future, TopPriority, StopK, DozeK, SendK, Wake, Without, TickK, ReschedK;
    CoreFacts(k, -1);
    match st
    case Suspend(r) => if !BadPid(k, r) && k.procs[r].state.PrCurr? && r != NULLPROC { OneRuns(k, r); StopProcCounts(k, PrSusp); }
    case Resume(r) => if !BadPid(k, r) && k.procs[r].state.PrSusp? { WakeCounts(k, r); }
    case Send(r, msg) => SendCounts(k, r, msg);
    case Sleep(d) => if d == 0 { ReschedCounts(k); } else { DozeCounts(k, d, PrSleep); }
    case Receive => if !k.procs[k.curr].hasmsg { StopProcCounts(k, PrRecv); }
    case RecvTime(d) => if d >= 0 && !k.procs[k.curr].hasmsg { DozeCounts(k, d, PrRectim); }
    case Tick => TickCounts(k);
    case Yield => ReschedCounts(k);
    case Preempt => PreemptCounts(k);
    case TakeMsg =>
  }

  lemma PreemptCounts(k: Ks)
    requires KInv(k)
    ensures SameCounts(k, PreemptK(k))
  {
    hide Delta, ReadyKeys, NoDup, SemOK, SemsOK, MsgsOK, Homed, Future, TopPriority, Placed;
    if k.preempt == 1 { ReschedCounts(k.(preempt := QUANTUM)); }
  }

  lemma KillStepCounts(k: Ks, r: int, s: int)
    requires KInv(k) && Allowed(k, KillRemove(r)) && 0 <= s < NSEM
    ensures var k' := KillRemoveK(k, r);
            && |k'.sems| == |k.sems| == NSEM && SameCounts(k.(sems := k'.sems), k')
            && k'.sems[s] == k.sems[s].(count := k.sems[s].count + Units(k, KillRemove(r), s))
            && (Units(k, KillRemove(r), s) != 0 ==> k.sems[s].used)
  {
    hide Core, Future, TopPriority, StopK, Without;
    CoreFacts(k, -1);
    if 0 < r < NPROC {
      if k.procs[r].state.PrCurr? {
        OneRuns(k, r);
        StopProcCounts(k, PrFree);
      } else if k.procs[r].state.PrWait? {
        WaitsOn(k, r);
      }
    }
  }

  /** The number of processes and the depth of deferral after a step. */
  function Procs(k: Ks, st: Step): int {
    if st.Create? then 1 else if st.KillNotify? && !BadPid(k, st.p) && st.p != NULLPROC then -1 else 0
  }

  lemma TableStep(k: Ks, st: Step)
    requires KInv(k) && Allowed(k, st) && (st.Create? || st.KillNotify? || st.StartDefer? || st.StopDefer?)
    ensures StepK(k, st).sems == k.sems && StepK(k, st).prcount == k.prcount + Procs(k, st)
    ensures StepK(k, st).ndefers ==
            if st.StartDefer? then k.ndefers + 1 else if st.StopDefer? && k.ndefers > 0 then k.ndefers - 1 else k.ndefers
    ensures k.ndefers > 0 && !(st.StopDefer? && k.ndefers == 1) ==> StepK(k, st).curr == k.curr
  {
    hide Core, Future, TopPriority, SendK;
    match st
    case KillNotify(r) =>
      if !BadPid(k, r) && r != NULLPROC {
        CountOnly(k, k.prcount - 1);
        SendCounts(k.(prcount := k.prcount - 1), k.procs[r].parent, r);
      }
    case StopDefer => StopCounts(k);
    case _ =>
  }

  /** What any step does to the counters. */
  lemma StepCounts(k: Ks, st: Step, s: int)
    requires KInv(k) && Allowed(k, st) && 0 <= s < NSEM
    ensures var k' := StepK(k, st);
            && |k'.sems| == |k.sems| == NSEM && k'.prcount == k.prcount + Procs(k, st)
            && (!Remakes(st, s) ==> k'.sems[s].used == k.sems[s].used)
            && (!Remakes(st, s) && k.sems[s].used ==> k'.sems[s].count == k.sems[s].count + Units(k, st, s))
            && k'.ndefers ==
               (if st.StartDefer? then k.ndefers + 1 else if st.StopDefer? && k.ndefers > 0 then k.ndefers - 1 else k.ndefers)
            && (k.ndefers > 0 && !(st.StopDefer? && k.ndefers == 1) ==> k'.curr == k.curr)
  {
    hide Core, Future, TopPriority, StepK, Allowed;
    CoreFacts(k, -1);
    if st.Wait? || st.Signal? || st.SignalN? || st.SemCreate? || st.SemDelete? || st.SemReset? {
      SemStep(k, st, s);
    } else if st.Create? || st.KillNotify? || st.StartDefer? || st.StopDefer? {
      TableStep(k, st);
    } else if st.KillRemove? {
      KillIs(k, st.p);
      KillStepCounts(k, st.p, s);
    } else {
      ProcStep(k, st);
    }
  }

  lemma KillIs(k: Ks, p: int)
    requires KInv(k) && Allowed(k, KillRemove(p))
    ensures StepK(k, KillRemove(p)) == KillRemoveK(k, p)
  {
  }

  // ------------------------------------------------------------ whole runs

  /** The units that the first n steps of a run give to semaphore s, less those they take. */
  ghost function Net(k: Ks, steps: seq<Step>, s: int, n: nat): int
    requires KInv(k) && CanRun(k, steps) && n <= |steps|
  {
    if n == 0 then 0 else Net(k, steps, s, n - 1) + Units(After(k, steps, n - 1), steps[n - 1], s)
  }

  ghost function NetProcs(k: Ks, steps: seq<Step>, n: nat): int
    requires KInv(k) && CanRun(k, steps) && n <= |steps|
  {
    if n == 0 then 0 else NetProcs(k, steps, n - 1) + Procs(After(k, steps, n - 1), steps[n - 1])
  }

  /** Semaphores neither lose nor make up units: over any run that does not make
      it anew the count is what it was, plus signals, less waits, plus the waiters
      killed; and as many processes wait as it is below zero. */
  lemma {:induction false} UnitsConserved(k: Ks, steps: seq<Step>, s: int, n: nat)
    requires KInv(k) && CanRun(k, steps) && n <= |steps| && !BadSem(k, s)
    requires forall i :: 0 <= i < n ==> !Remakes(steps[i], s)
    ensures var k' := After(k, steps, n);
            && !BadSem(k', s) && k'.sems[s].count == k.sems[s].count + Net(k, steps, s, n)
            && |k'.q.lists| == NQ && |k'.q.lists[s]| == (if k'.sems[s].count < 0 then -k'.sems[s].count else 0)
  {
    hide KInv, StepK, Allowed, After, CanRun, Units, Remakes;
    if n == 0 {
      FirstState(k, steps);
    } else {
      UnitsConserved(k, steps, s, n - 1);
      AfterStep(k, steps, n - 1);
      StepCounts(After(k, steps, n - 1), steps[n - 1], s);
    }
    Waiters(After(k, steps, n), s);
  }

  lemma Waiters(k: Ks, s: int)
    requires KInv(k) && !BadSem(k, s)
    ensures |k.q.lists| == NQ && |k.q.lists[s]| == if k.sems[s].count < 0 then -k.sems[s].count else 0
  {
    hide Delta, ReadyKeys, Placed, MsgsOK, TopPriority, Homed, NoDup, Future;
    assert SemOK(k.sems[s], k.q.lists[s]);
  }

  /** Each of the three calls, by itself. */
  lemma CallUnits(k: Ks, s: int, n: nat)
    requires KInv(k) && !BadSem(k, s)
    ensures s < |SignalK(k, s).sems| && SignalK(k, s).sems[s] == Sem(true, k.sems[s].count + 1)
    ensures s < |SignalNK(k, s, n).sems| && SignalNK(k, s, n).sems[s] == Sem(true, k.sems[s].count + n)
    ensures Allowed(k, Wait(s)) ==> s < |WaitK(k, s).sems| && WaitK(k, s).sems[s] == Sem(true, k.sems[s].count - 1)
  {
    hide Core, Future, TopPriority, SignalK, SignalNK, WaitK;
    UnitStep(k, Signal(s));
    UnitStep(k, SignalN(s, n));
    if Allowed(k, Wait(s)) { UnitStep(k, Wait(s)); }
  }

  /** A semaphore starts with the count given to semcreate or semreset. */
  lemma StartsWith(k: Ks, st: Step, s: int, c: int)
    requires KInv(k) && Allowed(k, st) && 0 <= s < NSEM && c >= 0
    requires st == SemCreate(s, c) || (st == SemReset(s, c) && !BadSem(k, s))
    ensures !BadSem(StepK(k, st), s) && StepK(k, st).sems[s].count == c
  {
    hide Core, Future, TopPriority, StepK, Allowed;
    RemakeStep(k, st);
  }

  /** prcount follows creations and kills. */
  lemma {:induction false} ProcsCounted(k: Ks, steps: seq<Step>, n: nat)
    requires KInv(k) && CanRun(k, steps) && n <= |steps|
    ensures After(k, steps, n).prcount == k.prcount + NetProcs(k, steps, n)
  {
    hide KInv, StepK, Allowed, After, CanRun, Procs;
    if n == 0 {
      FirstState(k, steps);
    } else {
      ProcsCounted(k, steps, n - 1);
      AfterStep(k, steps, n - 1);
      StepCounts(After(k, steps, n - 1), steps[n - 1], 0);
    }
  }

  lemma CallProcs(k: Ks, p: int, prio: int)
    requires KInv(k)
    ensures 0 < p < NPROC && !BadPid(k, p) ==> KillNotifyK(k, p).prcount == k.prcount - 1
    ensures 0 <= p < |k.procs| ==> CreateK(k, p, prio).prcount == k.prcount + 1
  {
    hide Core, Future, TopPriority, KillNotifyK;
    TableStep(k, KillNotify(p));
  }

  /** Starts of deferral less stops, among the first n steps. */
  function Depth(steps: seq<Step>, n: nat): int
    requires n <= |steps|
  {
    if n == 0 then 0
    else Depth(steps, n - 1) + (if steps[n - 1].StartDefer? then 1 else if steps[n - 1].StopDefer? then -1 else 0)
  }

  /** While rescheduling is deferred nobody else runs, and the deferral ends with
      the stop that balances its start. */
  lemma {:induction false} DeferredStays(k: Ks, steps: seq<Step>, n: nat)
    requires KInv(k) && CanRun(k, steps) && n <= |steps|
    requires forall i :: 0 <= i <= n ==> k.ndefers + Depth(steps, i) > 0
    ensures After(k, steps, n).ndefers == k.ndefers + Depth(steps, n) && After(k, steps, n).curr == k.curr
  {
    hide KInv, StepK, Allowed, After, CanRun;
    if n == 0 {
      FirstState(k, steps);
    } else {
      DeferredStays(k, steps, n - 1);
      AfterStep(k, steps, n - 1);
      assert k.ndefers + Depth(steps, n) > 0 && k.ndefers + Depth(steps, n - 1) > 0;
      StepCounts(After(k, steps, n - 1), steps[n - 1], 0);
    }
  }

  /** A deferral during which nothing happens leaves everything as it was. */
  lemma DeferNothing(k: Ks)
    requires KInv(k) && k.ndefers == 0
    ensures KInv(StepK(k, StartDefer)) && StepK(StepK(k, StartDefer), StopDefer) == k.(attempt := false)
  {
    hide Core, Future, TopPriority;
    DeferStartInv(k);
  }
}
