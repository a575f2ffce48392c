// Timing over whole runs: a sleeper is released on exactly the tick it asked
// for, whatever else happens in between.
module KernelSleep {
  import opened QueueTable
  import opened KernelModel
  import opened KernelSteps
  import opened KernelCalls
  import opened KernelClock
  import opened KernelRuns

  predicate IsAsleep(p: Proc) { p.state.PrSleep? || p.state.PrRectim? }

  ghost predicate Asleep(k: Ks, p: int) { 0 <= p < |k.procs| && p < |k.due| && IsAsleep(k.procs[p]) }

  /** p keeps its state and its due time. */
  ghost predicate Same(k: Ks, k': Ks, p: int) {
    && 0 <= p < |k.procs| == |k'.procs| && p < |k.due| == |k'.due|
    && k'.procs[p].state == k.procs[p].state && k'.due[p] == k.due[p] && k'.now == k.now
  }

  lemma SwitchSame(k: Ks, p: int)
    requires WfQ(k.q) && Placed(k.procs, k.q.home) && k.q.lists[READYQ] != [] && Asleep(k, p)
    ensures Same(k, Switch(k), p)
  {
    hide NoDup;
    OnOwn(k.q, READYQ);
  }

  lemma RotateSame(k: Ks, p: int)
    requires Core(k, -1) && Asleep(k, p) && k.procs[k.curr].state.PrCurr?
    requires var k1 := MakeReady(k, k.curr); Core(k1, -1) && k1.q.lists[READYQ] != []
    ensures Same(k, Switch(MakeReady(k, k.curr)), p)
  {
    hide Delta, ReadyKeys, SemsOK, MsgsOK, Homed, NoDup, InsertQ, Switch;
    SwitchSame(MakeReady(k, k.curr), p);
  }

  lemma ReschedSame(k: Ks, p: int)
    requires Core(k, -1) && Asleep(k, p)
    ensures Same(k, ReschedK(k), p)
  {
    hide Delta, ReadyKeys, SemsOK, MsgsOK, Homed, NoDup, InsertQ, Switch;
    if k.ndefers == 0 && k.procs[k.curr].state.PrCurr? && !Stays(k) {
      MakeReadyCore(k, k.curr, -1);
      InsertedNonempty(k);
      RotateSame(k, p);
    } else if k.ndefers == 0 && !k.procs[k.curr].state.PrCurr? {
      ReadyNonempty(k, -1);
      SwitchSame(k, p);
    }
  }

  lemma DeferStopSame(k: Ks, p: int)
    requires Core(k, -1) && Asleep(k, p)
    ensures Same(k, DeferStop(k), p)
  {
    hide Delta, ReadyKeys, NoDup, SemOK, SemsOK, MsgsOK, Placed, Homed;
    if k.ndefers == 1 && k.attempt { ReschedSame(k.(ndefers := 0), p); }
  }

  lemma ReleaseSame(k: Ks, s: int, n: nat, x: Sem, p: int)
    requires KInv(k) && 0 <= s < NSEM && n <= |k.q.lists[s]| && SemOK(x, k.q.lists[s][n..]) && Asleep(k, p)
    ensures Same(k, ReleaseK(k, s, n, x), p)
  {
    hide Core, Future, SemOK;
    CoreFacts(k, -1);
    ReleaseStart(k, s);
    var k0 := DeferStart(k);
    DrainProcs(k0, s, n);
    var k1 := Drain(k0, s, n);
    OnOwn(k.q, s);
    assert p !in k.q.lists[s][..n];
    CloseEx(k1, s, x);
    DeferStopSame(k1.(sems := k1.sems[s := x]), p);
  }

  /** The step takes p off the sleep queue before its time. */
  ghost predicate EarlyWake(k: Ks, st: Step, p: int)
    requires 0 <= p < |k.procs|
  {
    || st == KillRemove(p)
    || (k.procs[p].state.PrRectim? && st.Send? && st.p == p)
    || (k.procs[p].state.PrRectim? && st.KillNotify? && !BadPid(k, st.p) && st.p != NULLPROC && k.procs[st.p].parent == p)
  }

  lemma SendSame(k: Ks, r: int, msg: int, p: int)
    requires KInv(k) && Asleep(k, p) && !(r == p && k.procs[p].state.PrRectim?)
    ensures Same(k, SendK(k, r, msg), p)
  {
    hide Core, Future, TopPriority, Delivered;
    CoreFacts(k, -1);
    if !BadPid(k, r) && !k.procs[r].hasmsg && (k.procs[r].state.PrRecv? || k.procs[r].state.PrRectim?) {
      SendCore(k, r, msg);
      DeliveredSame(k, r, msg, p);
    }
  }

  lemma DeliveredSame(k: Ks, r: int, msg: int, p: int)
    requires KInv(k) && Asleep(k, p) && r != p && !BadPid(k, r)
    requires WfQ(k.q) && |k.procs| == NPROC && Core(Delivered(k, r, msg), -1)
    ensures Same(k, ReschedK(Delivered(k, r, msg)), p)
  {
    hide Core, Future, TopPriority, Without, InsertQ;
    ReschedSame(Delivered(k, r, msg), p);
  }

  lemma StopSame(k: Ks, st: PrState, p: int)
    requires KInv(k) && k.curr != NULLPROC && (st.PrSusp? || st.PrFree? || (st.PrRecv? && !k.procs[k.curr].hasmsg)) && Asleep(k, p)
    ensures Same(k, StopK(k, st), p)
  {
    hide Core, Future, TopPriority;
    CoreFacts(k, -1);
    OffCore(k, st);
    ReschedSame(SetState(k, k.curr, st), p);
  }

  lemma DozeSame(k: Ks, d: int, st: PrState, p: int)
    requires KInv(k) && k.curr != NULLPROC && d >= 0 && (st.PrSleep? || (st.PrRectim? && !k.procs[k.curr].hasmsg)) && Asleep(k, p)
    ensures Same(k, DozeK(k, d, st), p)
  {
    hide Core, Future, TopPriority, InsertDQ;
    CoreFacts(k, -1);
    DozeCore(k, d, st);
    ReschedSame(Doze(k, d, st), p);
  }

  lemma SemSame(k: Ks, st: Step, p: int)
    requires KInv(k) && Allowed(k, st) && Asleep(k, p)
    requires st.Wait? || st.Signal? || st.SignalN? || st.SemCreate? || st.SemDelete? || st.SemReset?
    ensures Same(k, StepK(k, st), p)
  {
    hide Core, Future, TopPriority, SemOK, WaitK, SignalK, SignalNK, SemDeleteK, SemResetK;
    CoreFacts(k, -1);
    match st
    case Wait(s) => WaitSame(k, s, p);
    case Signal(s) => SignalSame(k, s, p);
    case SignalN(s, n) => SignalNSame(k, s, n, p);
    case SemDelete(s) => DeleteSame(k, s, p);
    case SemReset(s, n) => ResetSame(k, s, n, p);
    case SemCreate(s, n) =>
  }

  lemma WaitSame(k: Ks, s: int, p: int)
    requires KInv(k) && Asleep(k, p) && Allowed(k, Wait(s))
    ensures Same(k, WaitK(k, s), p)
  {
    hide Core, Future, TopPriority, SemOK;
    CoreFacts(k, -1);
    if !BadSem(k, s) && k.sems[s].count <= 0 {
      WaitCore(k, s);
      ReschedSame(BlockOn(SetCount(k, s, k.sems[s].count - 1), s), p);
    }
  }

  lemma SignalNSame(k: Ks, s: int, n: int, p: int)
    requires KInv(k) && Asleep(k, p)
    ensures Same(k, SignalNK(k, s, n), p)
  {
    hide Core, Future, TopPriority, SemOK, ReleaseK;
    CoreFacts(k, -1);
    if !BadSem(k, s) && n >= 0 {
      SignalNOk(k, s, n);
      ReleaseSame(k, s, Min(n, |k.q.lists[s]|), k.sems[s].(count := k.sems[s].count + n), p);
    }
  }

  lemma DeleteSame(k: Ks, s: int, p: int)
    requires KInv(k) && Asleep(k, p)
    ensures Same(k, SemDeleteK(k, s), p)
  {
    if !BadSem(k, s) {
      var c := k.sems[s].count;
      ReleaseSame(k, s, |k.q.lists[s]|, Sem(false, if c < 0 then 1 else c + 1), p);
    }
  }

  lemma ResetSame(k: Ks, s: int, n: int, p: int)
    requires KInv(k) && Asleep(k, p)
    ensures Same(k, SemResetK(k, s, n), p)
  {
    if !BadSem(k, s) && n >= 0 { ReleaseSame(k, s, |k.q.lists[s]|, Sem(true, n), p); }
  }

  lemma SignalSame(k: Ks, s: int, p: int)
    requires KInv(k) && Asleep(k, p)
    ensures Same(k, SignalK(k, s), p)
  {
    hide Core, Future, TopPriority, Without, InsertQ;
    CoreFacts(k, -1);
    if !BadSem(k, s) && k.sems[s].count < 0 {
      SignalCore(k, s);
      OnOwn(k.q, s);
      ReschedSame(Released(SetCount(k, s, k.sems[s].count + 1), s), p);
    }
  }

  lemma ProcSame(k: Ks, st: Step, p: int)
    requires KInv(k) && Allowed(k, st) && Asleep(k, p) && !EarlyWake(k, st, p)
    requires st.Suspend? || st.Resume? || st.KillRemove? || st.Create? || st.KillNotify? || st.Send?
    ensures Same(k, StepK(k, st), p)
  {
    hide Core, Future, TopPriority, Without, StopK, SendK, Wake, KillRemoveK, KillNotifyK;
    CoreFacts(k, -1);
    match st
    case Suspend(r) =>
      if !BadPid(k, r) && r != NULLPROC && k.procs[r].state.PrCurr? { OneRuns(k, r); StopSame(k, PrSusp, p); }
    case Resume(r) =>
      if !BadPid(k, r) && k.procs[r].state.PrSusp? { WakeSame(k, r, p); }
    case KillRemove(r) =>
      KillSame(k, r, p);
    case Send(r, msg) => SendSame(k, r, msg, p);
    case KillNotify(r) =>
      NotifySame(k, r, p);
    case Create(r, prio) =>
  }

  lemma KillSame(k: Ks, r: int, p: int)
    requires KInv(k) && Allowed(k, KillRemove(r)) && Asleep(k, p) && r != p
    ensures Same(k, KillRemoveK(k, r), p)
  {
    hide Core, Future, TopPriority, Without, StopK;
    CoreFacts(k, -1);
    if 0 < r < NPROC && k.procs[r].state.PrCurr? {
      OneRuns(k, r);
      StopSame(k, PrFree, p);
    } else if 0 < r < NPROC && k.procs[r].state.PrWait? {
      WaitsOn(k, r);
    }
  }

  lemma NotifySame(k: Ks, r: int, p: int)
    requires KInv(k) && Asleep(k, p) && !EarlyWake(k, KillNotify(r), p)
    ensures Same(k, KillNotifyK(k, r), p)
  {
    hide Core, Future, TopPriority, SendK;
    CoreFacts(k, -1);
    if !BadPid(k, r) && r != NULLPROC {
      CountOnly(k, k.prcount - 1);
      SendSame(k.(prcount := k.prcount - 1), k.procs[r].parent, r, p);
    }
  }

  lemma OneRuns(k: Ks, r: int)
    requires KInv(k) && 0 <= r < NPROC && k.procs[r].state.PrCurr?
    ensures r == k.curr
  {
  }

  lemma WakeSame(k: Ks, r: int, p: int)
    requires KInv(k) && Asleep(k, p) && 0 < r < NPROC && k.procs[r].state.PrSusp? && !(0 <= k.q.home[r] < NSEM)
    ensures Same(k, Wake(k, r), p)
  {
    hide Core, Future, TopPriority, Without, InsertQ;
    CoreFacts(k, -1);
    DetachCore(k, r, PrSusp, -1);
    CoreFacts(Detach(k, r, PrSusp), -1);
    MakeReadyCore(Detach(k, r, PrSusp), r, -1);
    ReschedSame(MakeReady(Detach(k, r, PrSusp), r), p);
  }

  lemma OtherSame(k: Ks, st: Step, p: int)
    requires KInv(k) && Allowed(k, st) && Asleep(k, p)
    requires st.Yield? || st.Sleep? || st.Receive? || st.RecvTime? || st.TakeMsg? || st.StartDefer? || st.StopDefer? || st.Preempt?
    ensures Same(k, StepK(k, st), p)
  {
    hide Core, Future, TopPriority, DozeK, StopK;
    CoreFacts(k, -1);
    match st
    case Yield => ReschedSame(k, p);
    case Sleep(d) => if d == 0 { ReschedSame(k, p); } else { DozeSame(k, d, PrSleep, p); }
    case Receive => if !k.procs[k.curr].hasmsg { StopSame(k, PrRecv, p); }
    case RecvTime(d) => if d >= 0 && !k.procs[k.curr].hasmsg { DozeSame(k, d, PrRectim, p); }
    case StopDefer => DeferStopSame(k, p);
    case Preempt => if k.preempt == 1 { PreemptSame(k, p); }
    case _ =>
  }

  lemma PreemptSame(k: Ks, p: int)
    requires KInv(k) && Asleep(k, p) && k.preempt == 1
    ensures Same(k, PreemptK(k), p)
  {
    hide Delta, ReadyKeys, NoDup, SemOK, SemsOK, MsgsOK, Placed, Homed, Future, TopPriority;
    ReschedSame(k.(preempt := QUANTUM), p);
  }

  // ------------------------------------------------------------- the clock

  predicate IsAwake(p: Proc) { p.state.PrReady? || p.state.PrCurr? }

  lemma SwitchAwake(k: Ks, p: int)
    requires WfQ(k.q) && |k.procs| == NPROC && k.q.lists[READYQ] != [] && 0 <= p < NPROC && IsAwake(k.procs[p])
    ensures |Switch(k).procs| == NPROC && IsAwake(Switch(k).procs[p])
  {
    OnOwn(k.q, READYQ);
  }

  /** A process that is ready or running stays so through resched. */
  lemma ReschedAwake(k: Ks, p: int)
    requires Core(k, -1) && 0 <= p < NPROC && IsAwake(k.procs[p])
    ensures |ReschedK(k).procs| == NPROC && IsAwake(ReschedK(k).procs[p]) && ReschedK(k).now == k.now
  {
    hide Delta, ReadyKeys, SemsOK, MsgsOK, Homed, NoDup, InsertQ;
    if k.ndefers == 0 && k.procs[k.curr].state.PrCurr? && !Stays(k) {
      MakeReadyCore(k, k.curr, -1);
      InsertedNonempty(k);
      SwitchAwake(MakeReady(k, k.curr), p);
    } else if k.ndefers == 0 && !k.procs[k.curr].state.PrCurr? {
      ReadyNonempty(k, -1);
      SwitchAwake(k, p);
    }
  }

  lemma DeferStopAwake(k: Ks, p: int)
    requires Core(k, -1) && 0 <= p < NPROC && IsAwake(k.procs[p])
    ensures |DeferStop(k).procs| == NPROC && IsAwake(DeferStop(k).procs[p]) && DeferStop(k).now == k.now
  {
    hide Delta, ReadyKeys, NoDup, SemOK, SemsOK, MsgsOK, Placed, Homed;
    CoreFacts(k, -1);
    if k.ndefers == 1 && k.attempt { ReschedAwake(k.(ndefers := 0), p); }
  }

  /** A tick releases exactly the sleepers that are due. */
  lemma TickReleases(k: Ks, p: int)
    requires KInv(k) && Asleep(k, p)
    ensures var k' := TickK(k);
            && k'.now == k.now + 1 && |k'.procs| == NPROC
            && if k.due[p] == k'.now then IsAwake(k'.procs[p]) else Asleep(k', p) && k'.due[p] == k.due[p]
  {
    hide Core, TopPriority, Future;
    CoreFacts(k, -1);
    ElapseCore(k);
    TickDue(k);
    var k1 := Elapse(k);
    var l := k1.q.lists[SLEEPQ];
    var n := LeadZero(k1.q.keys, l);
    SleepDraining(k1);
    OnOwn(k.q, SLEEPQ);
    var i := IndexOf(l, p);
    if n > 0 {
      var k2 := DeferStart(k1);
      DrainProcs(k2, SLEEPQ, n);
      InPrefix(l, n, i);
      var k3 := Drain(k2, SLEEPQ, n);
      if i < n { DeferStopAwake(k3, p); } else { DeferStopSame(k3, p); }
    }
  }

  lemma InPrefix(l: seq<int>, n: nat, i: nat)
    requires NoDup(l) && n <= |l| && i < |l|
    ensures l[i] in l[..n] <==> i < n
  {
    if i < n { assert l[..n][i] == l[i]; }
  }

  /** What any step does to a sleeper that it does not wake early. */
  lemma StepSleep(k: Ks, st: Step, p: int)
    requires KInv(k) && Allowed(k, st) && Asleep(k, p) && !EarlyWake(k, st, p)
    ensures var k' := StepK(k, st);
            && k'.now == k.now + (if st.Tick? then 1 else 0) && |k'.procs| == NPROC
            && if st.Tick? && k.due[p] == k'.now then IsAwake(k'.procs[p]) else Asleep(k', p) && k'.due[p] == k.due[p]
  {
    hide Core, Future, TopPriority, TickK, Allowed, EarlyWake;
    CoreFacts(k, -1);
    hide StepK;
    if st.Tick? {
      TickStep(k);
      TickReleases(k, p);
    } else if st.Wait? || st.Signal? || st.SignalN? || st.SemCreate? || st.SemDelete? || st.SemReset? {
      SemSame(k, st, p);
    } else if st.Suspend? || st.Resume? || st.KillRemove? || st.Create? || st.KillNotify? || st.Send? {
      ProcSame(k, st, p);
    } else {
      OtherSame(k, st, p);
    }
  }

  lemma TickStep(k: Ks)
    requires KInv(k) && Allowed(k, Tick)
    ensures StepK(k, Tick) == TickK(k)
  {
  }

  // ------------------------------------------------------------ whole runs

  /** The clock ticks among the first i steps. */
  function Ticks(steps: seq<Step>, i: nat): nat
    requires i <= |steps|
  {
    if i == 0 then 0 else Ticks(steps, i - 1) + if steps[i - 1].Tick? then 1 else 0
  }

  lemma {:induction false} AfterStep(k: Ks, steps: seq<Step>, i: nat)
    requires KInv(k) && CanRun(k, steps) && i < |steps|
    ensures Allowed(After(k, steps, i), steps[i])
    ensures After(k, steps, i + 1) == StepK(After(k, steps, i), steps[i])
    decreases i
  {
    hide KInv, Allowed, StepK;
    StepInv(k, steps[0]);
    var k1 := StepK(k, steps[0]);
    if i == 0 {
      assert After(k1, steps[1..], 0) == k1;
    } else {
      AfterStep(k1, steps[1..], i - 1);
    }
  }

  /** Nothing but the clock takes p off the sleep queue in the first d ticks. */
  ghost predicate LeftAlone(k: Ks, steps: seq<Step>, p: int, d: int)
    requires KInv(k) && CanRun(k, steps) && 0 <= p < NPROC
  {
    forall i :: 0 <= i < |steps| && Ticks(steps, i) < d ==>
      p < |After(k, steps, i).procs| && !EarlyWake(After(k, steps, i), steps[i], p)
  }

  lemma {:induction false} SleepsOn(k: Ks, steps: seq<Step>, p: int, i: nat)
    requires KInv(k) && CanRun(k, steps) && i <= |steps| && Asleep(k, p) && 0 <= p < NPROC
    requires LeftAlone(k, steps, p, k.due[p] - k.now) && k.due[p] > k.now
    ensures var k', d := After(k, steps, i), k.due[p] - k.now;
            && |k'.procs| == NPROC
            && (Ticks(steps, i) < d ==> Asleep(k', p) && k'.due[p] == k.due[p] && k'.now == k.now + Ticks(steps, i))
            && (i > 0 && steps[i - 1].Tick? && Ticks(steps, i) == d ==> IsAwake(k'.procs[p]))
  {
    hide KInv, EarlyWake, StepK, Allowed, After, CanRun, IsAsleep, IsAwake, LeftAlone;
    ProcCount(After(k, steps, i));
    if i == 0 {
      FirstState(k, steps);
    } else {
      SleepsOn(k, steps, p, i - 1);
      AfterStep(k, steps, i - 1);
      if Ticks(steps, i - 1) < k.due[p] - k.now {
        LeftAloneAt(k, steps, p, k.due[p] - k.now, i - 1);
        StepSleep(After(k, steps, i - 1), steps[i - 1], p);
      }
    }
  }

  lemma ProcCount(k: Ks)
    requires KInv(k)
    ensures |k.procs| == NPROC
  {
  }

  lemma LeftAloneAt(k: Ks, steps: seq<Step>, p: int, d: int, i: nat)
    requires KInv(k) && CanRun(k, steps) && 0 <= p < NPROC && i < |steps|
    requires LeftAlone(k, steps, p, d) && Ticks(steps, i) < d
    ensures p < |After(k, steps, i).procs| && !EarlyWake(After(k, steps, i), steps[i], p)
  {
    hide KInv, CanRun, After, EarlyWake;
  }

  lemma FirstState(k: Ks, steps: seq<Step>)
    requires KInv(k) && CanRun(k, steps)
    ensures After(k, steps, 0) == k
  {
  }

  /** sleepms and recvtime put the caller to sleep, due after d ticks. */
  lemma FallsAsleep(k: Ks, st: Step, d: int)
    requires KInv(k) && Allowed(k, st) && d > 0 && (st == Sleep(d) || (st == RecvTime(d) && !k.procs[k.curr].hasmsg))
    ensures var k' := StepK(k, st); Asleep(k', k.curr) && k'.due[k.curr] == k'.now + d
  {
    hide Core, Future, TopPriority, InsertDQ;
    CoreFacts(k, -1);
    var s := if st.Sleep? then PrSleep else PrRectim;
    DozeCore(k, d, s);
    ReschedSame(Doze(k, d, s), k.curr);
  }

  /** A process that goes to sleep for d ticks, and is left alone, sleeps through
      the first d - 1 ticks and is awake right after the d-th, in every run. */
  lemma SleepExactly(k: Ks, st: Step, d: int, steps: seq<Step>, i: nat)
    requires KInv(k) && Allowed(k, st) && d > 0 && (st == Sleep(d) || (st == RecvTime(d) && !k.procs[k.curr].hasmsg))
    requires var k1 := StepK(k, st);
             KInv(k1) && CanRun(k1, steps) && i <= |steps| && 0 <= k.curr < NPROC && LeftAlone(k1, steps, k.curr, d)
    ensures var k' := After(StepK(k, st), steps, i);
            && |k'.procs| == NPROC
            && (Ticks(steps, i) < d ==> Asleep(k', k.curr))
            && (i > 0 && steps[i - 1].Tick? && Ticks(steps, i) == d ==> IsAwake(k'.procs[k.curr]))
  {
    hide Core, Future, TopPriority, StepK, Allowed, LeftAlone, After, CanRun;
    FallsAsleep(k, st, d);
    SleepsOn(StepK(k, st), steps, k.curr, i);
  }

  // -------------------------------------------------- keys never overflow

  lemma {:induction false} DeltaBound(keys: seq<int>, due: seq<int>, l: seq<int>, from: int)
    requires Delta(keys, due, l, from) && forall i :: 0 <= i < |l| ==> 0 <= l[i] < |keys| == |due|
    ensures forall i :: 0 <= i < |l| ==> 0 <= keys[l[i]] <= due[l[i]] - from
    decreases |l|
  {
    if l != [] {
      assert forall i :: 1 <= i < |l| ==> l[i] == l[1..][i - 1];
      DeltaBound(keys, due, l[1..], due[l[0]]);
    }
  }

  /** Keys of sleepers fit in 32 bits, and the first one is positive, so that
      counting it down meets zero on the due tick. */
  lemma KeysFit(k: Ks)
    requires KInv(k)
    ensures var l := k.q.lists[SLEEPQ];
            && (forall i :: 0 <= i < |l| ==> 0 <= l[i] < NPROC && 0 <= k.q.keys[l[i]] < 0x8000_0000)
            && (l != [] ==> k.q.keys[l[0]] > 0)
  {
    hide Homed, SemOK, SemsOK, Sorted, Placed, MsgsOK, TopPriority, ReadyKeys;
    OnOwn(k.q, SLEEPQ);
    DeltaBound(k.q.keys, k.due, k.q.lists[SLEEPQ], k.now);
  }
}
