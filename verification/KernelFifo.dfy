// Semaphore queues over whole runs: a process that came later is not released
// while one that came earlier still waits.
module KernelFifo {
  import opened QueueTable
  import opened KernelModel
  import opened KernelSteps
  import opened KernelCalls
  import opened KernelClock
  import opened KernelRuns
  import opened KernelTurns
  import opened KernelSleep
  import opened KernelPorts
  import PortModel

  // ------------------------------------------ what one step does to a queue

  /** l' is l after some arrival, some releases from the front, or the removal of r. */
  ghost predicate Moved(l: seq<int>, l': seq<int>, r: int) {
    || (exists n :: 0 <= n <= |l| && l' == l[n..])
    || (exists x :: l' == l + [x])
    || (exists i :: 0 <= i < |l| && l[i] == r && l' == Removed(l, i))
  }

  /** The process that a step kills, if any. */
  function Victim(st: Step): int { if st.KillRemove? then st.p else -1 }

  lemma Unmoved(l: seq<int>, r: int)
    ensures Moved(l, l, r)
  {
    assert l == l[0..];
  }

  /** The queues of all semaphores are as they were. */
  ghost predicate SameQueues(k: Ks, k': Ks) {
    |k.q.lists| == |k'.q.lists| == NQ && forall m :: 0 <= m < NSEM ==> k'.q.lists[m] == k.q.lists[m]
  }

  lemma ReschedQueues(k: Ks, k': Ks)
    requires Core(k', -1) && SameQueues(k, k')
    ensures SameQueues(k, ReschedK(k'))
  {
    hide Core;
    ReschedLists(k');
  }

  lemma WithoutQueues(k: Ks, k': Ks, p: int)
    requires WfQ(k.q) && 0 <= p < NPROC && !(0 <= k.q.home[p] < NSEM) && k'.q == Without(k.q, p)
    ensures SameQueues(k, k')
  {
    WithoutOK(k.q, p);
  }

  lemma StopQueues(k: Ks, st: PrState)
    requires KInv(k) && k.curr != NULLPROC && (st.PrSusp? || st.PrFree? || (st.PrRecv? && !k.procs[k.curr].hasmsg))
    ensures SameQueues(k, StopK(k, st))
  {
    hide Core, Future, TopPriority;
    CoreFacts(k, -1);
    OffCore(k, st);
    ReschedQueues(k, SetState(k, k.curr, st));
  }

  lemma WakeQueues(k: Ks, p: int)
    requires KInv(k) && 0 < p < NPROC && !(0 <= k.q.home[p] < NSEM)
    ensures SameQueues(k, Wake(k, p))
  {
    hide Core, Future, TopPriority, Without, InsertQ;
    CoreFacts(k, -1);
    DetachCore(k, p, PrSusp, -1);
    var k1 := Detach(k, p, PrSusp);
    CoreFacts(k1, -1);
    WithoutQueues(k, k1, p);
    MakeReadyCore(k1, p, -1);
    InsertKeepsLists(k1.q, p, k1.procs[p].prio);
    ReschedQueues(k, MakeReady(k1, p));
  }

  lemma DozeQueues(k: Ks, d: int, st: PrState)
    requires KInv(k) && k.curr != NULLPROC && d >= 0 && (st.PrSleep? || (st.PrRectim? && !k.procs[k.curr].hasmsg))
    ensures SameQueues(k, DozeK(k, d, st))
  {
    hide Core, Future, TopPriority, InsertDQ;
    CoreFacts(k, -1);
    DozeCore(k, d, st);
    InsertDOk(k.q, k.curr, d);
    ReschedQueues(k, Doze(k, d, st));
  }

  lemma SendQueues(k: Ks, p: int, msg: int)
    requires KInv(k)
    ensures SameQueues(k, SendK(k, p, msg))
  {
    hide Core, Future, TopPriority, Without, InsertQ;
    CoreFacts(k, -1);
    if !BadPid(k, p) && !k.procs[p].hasmsg && (k.procs[p].state.PrRecv? || k.procs[p].state.PrRectim?) {
      SendCore(k, p, msg);
      WithoutOK(k.q, p);
      InsertKeepsLists(Without(k.q, p), p, k.procs[p].prio);
      ReschedQueues(k, Delivered(k, p, msg));
    }
  }

  lemma TickQueues(k: Ks)
    requires KInv(k)
    ensures SameQueues(k, TickK(k))
  {
    hide Core, TopPriority, Drain, LeadZero;
    CoreFacts(k, -1);
    ElapseCore(k);
    OnOwn(k.q, SLEEPQ);
    var k1 := Elapse(k);
    SleepDraining(k1);
    var n := LeadZero(k1.q.keys, k1.q.lists[SLEEPQ]);
    if n > 0 { StopAgrees(Drain(DeferStart(k1), SLEEPQ, n)); }
  }

  lemma PreemptQueues(k: Ks)
    requires KInv(k)
    ensures SameQueues(k, PreemptK(k))
  {
    hide Delta, ReadyKeys, SemOK, Placed, SemsOK, Future, Homed, NoDup;
    if k.preempt == 1 { ReschedQueues(k, k.(preempt := QUANTUM)); }
  }

  // ----------------------------------------------------- every kind of step

  lemma KillMoves(k: Ks, r: int, s: int)
    requires KInv(k) && Allowed(k, KillRemove(r)) && 0 <= s < NSEM
    ensures s < |KillRemoveK(k, r).q.lists| && Moved(k.q.lists[s], KillRemoveK(k, r).q.lists[s], r)
  {
    hide Core, Future, TopPriority, StopK, Moved;
    CoreFacts(k, -1);
    var k' := KillRemoveK(k, r);
    Unmoved(k.q.lists[s], r);
    if 0 < r < NPROC {
      if k.procs[r].state.PrCurr? {
        OneRuns(k, r);
        StopQueues(k, PrFree);
      } else if k.procs[r].state.PrWait? {
        WaitsOn(k, r);
        WithoutOK(k.q, r);
        if k.q.home[r] == s { KilledFrom(k.q, r); }
      } else {
        WithoutOK(k.q, r);
      }
    }
  }

  lemma KilledFrom(q: Qs, r: int)
    requires WfQ(q) && 0 <= r < NPROC && 0 <= q.home[r] < NSEM
    ensures |Without(q, r).lists| == NQ && Moved(q.lists[q.home[r]], Without(q, r).lists[q.home[r]], r)
  {
    hide NoDup;
    var l := q.lists[q.home[r]];
    var i := IndexOf(l, r);
    assert l[i] == r && Without(q, r).lists[q.home[r]] == Removed(l, i);
  }

  lemma SemMoves(k: Ks, st: Step, s: int)
    requires KInv(k) && Allowed(k, st) && 0 <= s < NSEM
    requires st.Wait? || st.Signal? || st.SignalN? || st.SemCreate? || st.SemDelete? || st.SemReset?
    ensures s < |StepK(k, st).q.lists| && Moved(k.q.lists[s], StepK(k, st).q.lists[s], -1)
  {
    hide Core, Future, TopPriority, SemOK, WaitK, SignalK, SignalNK, SemDeleteK, SemResetK, Moved;
    CoreFacts(k, -1);
    var l := k.q.lists[s];
    Unmoved(l, -1);
    if st.SemCreate? || BadSem(k, st.s) {
      NoSemStep(k, st);
    } else {
      match st
      case Wait(t) => WaitMoves(k, t, s);
      case Signal(t) => SignalMoves(k, t, s);
      case SignalN(t, n) => if n >= 0 { SignalNMoves(k, t, n, s); } else { NoSemStep(k, st); }
      case SemDelete(t) => DeleteMoves(k, t, s);
      case SemReset(t, n) => if n >= 0 { ResetMoves(k, t, n, s); } else { NoSemStep(k, st); }
    }
  }

  lemma NoSemStep(k: Ks, st: Step)
    requires KInv(k) && Allowed(k, st)
    requires st.SemCreate? || ((st.Wait? || st.Signal? || st.SignalN? || st.SemDelete? || st.SemReset?) &&
                               (BadSem(k, st.s) || ((st.SignalN? || st.SemReset?) && st.n < 0)))
    ensures StepK(k, st).q == k.q
  {
  }

  lemma Arrives(l: seq<int>, x: int, r: int)
    ensures Moved(l, l + [x], r)
  {
  }

  lemma Leaves(l: seq<int>, n: int, r: int)
    requires 0 <= n <= |l|
    ensures Moved(l, l[n..], r)
  {
  }

  lemma WaitMoves(k: Ks, t: int, s: int)
    requires KInv(k) && Allowed(k, Wait(t)) && !BadSem(k, t) && 0 <= s < NSEM
    ensures s < |WaitK(k, t).q.lists| && Moved(k.q.lists[s], WaitK(k, t).q.lists[s], -1)
  {
    hide Core, Future, TopPriority, SemOK, Moved;
    CoreFacts(k, -1);
    Unmoved(k.q.lists[s], -1);
    Arrives(k.q.lists[s], k.curr, -1);
    if k.sems[t].count <= 0 { WaitJoins(k, t); }
  }

  lemma SignalMoves(k: Ks, t: int, s: int)
    requires KInv(k) && !BadSem(k, t) && 0 <= s < NSEM
    ensures s < |SignalK(k, t).q.lists| && Moved(k.q.lists[s], SignalK(k, t).q.lists[s], -1)
  {
    hide Core, Future, TopPriority, SemOK, Moved, SignalK;
    CoreFacts(k, -1);
    var l := k.q.lists[s];
    Unmoved(l, -1);
    if l != [] { Leaves(l, 1, -1); }
    SignalAgrees(k, t, PortModel.Side.Side(k.sems[t], k.q.lists[t], 0));
  }

  lemma SignalNMoves(k: Ks, t: int, n: nat, s: int)
    requires KInv(k) && !BadSem(k, t) && 0 <= s < NSEM
    ensures s < |SignalNK(k, t, n).q.lists| && Moved(k.q.lists[s], SignalNK(k, t, n).q.lists[s], -1)
  {
    hide Core, Future, TopPriority, SemOK, Moved, ReleaseK;
    CoreFacts(k, -1);
    var m := Min(n, |k.q.lists[t]|);
    Unmoved(k.q.lists[s], -1);
    Leaves(k.q.lists[t], m, -1);
    SignalNOk(k, t, n);
    ReleaseAgrees(k, t, m, k.sems[t].(count := k.sems[t].count + n));
  }

  lemma DeleteMoves(k: Ks, t: int, s: int)
    requires KInv(k) && !BadSem(k, t) && 0 <= s < NSEM
    ensures s < |SemDeleteK(k, t).q.lists| && Moved(k.q.lists[s], SemDeleteK(k, t).q.lists[s], -1)
  {
    hide Core, Future, TopPriority, SemOK, Moved, SemDeleteK;
    CoreFacts(k, -1);
    var l := k.q.lists[s];
    Unmoved(l, -1);
    Leaves(l, |l|, -1);
    DeleteAgrees(k, t);
  }

  lemma ResetMoves(k: Ks, t: int, n: nat, s: int)
    requires KInv(k) && !BadSem(k, t) && 0 <= s < NSEM
    ensures s < |SemResetK(k, t, n).q.lists| && Moved(k.q.lists[s], SemResetK(k, t, n).q.lists[s], -1)
  {
    hide Core, Future, TopPriority, SemOK, Moved, SemResetK;
    CoreFacts(k, -1);
    var l := k.q.lists[s];
    Unmoved(l, -1);
    Leaves(l, |l|, -1);
    ResetAgrees(k, t, n);
  }

  /** The steps that leave all semaphore queues alone. */
  lemma OtherQueues(k: Ks, st: Step)
    requires KInv(k) && Allowed(k, st) && !st.KillRemove?
    requires !(st.Wait? || st.Signal? || st.SignalN? || st.SemCreate? || st.SemDelete? || st.SemReset?)
    ensures SameQueues(k, StepK(k, st))
  {
    hide Core, Future, TopPriority, StopK, SendK, Wake, TickK, PreemptK, DozeK, ReschedK, Without;
    CoreFacts(k, -1);
    match st
    case Suspend(r) =>
      if !BadPid(k, r) && r != NULLPROC {
        if k.procs[r].state.PrReady? {
          WithoutQueues(k, Detach(k, r, PrSusp), r);
        } else if k.procs[r].state.PrCurr? {
          OneRuns(k, r);
          StopQueues(k, PrSusp);
        }
      }
    case Resume(r) => if !BadPid(k, r) && k.procs[r].state.PrSusp? { WakeQueues(k, r); }
    case Yield => ReschedQueues(k, k);
    case Sleep(d) => if d == 0 { ReschedQueues(k, k); } else { DozeQueues(k, d, PrSleep); }
    case Send(r, msg) => SendQueues(k, r, msg);
    case Receive => if !k.procs[k.curr].hasmsg { StopQueues(k, PrRecv); }
    case RecvTime(d) => if d >= 0 && !k.procs[k.curr].hasmsg { DozeQueues(k, d, PrRectim); }
    case KillNotify(r) =>
      if !BadPid(k, r) && r != NULLPROC {
        CountOnly(k, k.prcount - 1);
        SendQueues(k.(prcount := k.prcount - 1), k.procs[r].parent, r);
      }
    case StopDefer => StopAgrees(k);
    case Tick => TickQueues(k);
    case Preempt => PreemptQueues(k);
    case _ =>
  }

  /** Any step moves any semaphore queue in one of the three ways. */
  lemma StepMoves(k: Ks, st: Step, s: int)
    requires KInv(k) && Allowed(k, st) && 0 <= s < NSEM
    ensures s < |k.q.lists| && s < |StepK(k, st).q.lists| && Moved(k.q.lists[s], StepK(k, st).q.lists[s], Victim(st))
  {
    hide Core, Future, TopPriority, Moved, StepK, Allowed;
    CoreFacts(k, -1);
    if st.KillRemove? {
      KillStep(k, st.p);
      KillMoves(k, st.p, s);
    } else if st.Wait? || st.Signal? || st.SignalN? || st.SemCreate? || st.SemDelete? || st.SemReset? {
      SemMoves(k, st, s);
    } else {
      OtherQueues(k, st);
      Unmoved(k.q.lists[s], -1);
    }
  }

  lemma KillStep(k: Ks, r: int)
    requires KInv(k) && Allowed(k, KillRemove(r))
    ensures StepK(k, KillRemove(r)) == KillRemoveK(k, r)
  {
  }

  // ----------------------------------------------------------- first come

  ghost predicate Before(l: seq<int>, p: int, q: int) {
    exists i, j :: 0 <= i < j < |l| && l[i] == p && l[j] == q
  }

  lemma DropBefore(l: seq<int>, n: int, i: int, j: int)
    requires NoDup(l) && 0 <= n <= |l| && 0 <= i < j < |l| && l[i] in l[n..]
    ensures Before(l[n..], l[i], l[j])
  {
    var m :| 0 <= m < |l[n..]| && l[n..][m] == l[i];
    assert l[n + m] == l[i];
    assert l[n..][i - n] == l[i] && l[n..][j - n] == l[j];
  }

  lemma AppendBefore(l: seq<int>, x: int, i: int, j: int)
    requires 0 <= i < j < |l|
    ensures Before(l + [x], l[i], l[j])
  {
    assert (l + [x])[i] == l[i] && (l + [x])[j] == l[j];
  }

  lemma RemoveBefore(l: seq<int>, t: int, i: int, j: int)
    requires 0 <= t < |l| && 0 <= i < j < |l| && t != i && t != j
    ensures Before(Removed(l, t), l[i], l[j])
  {
    var r := Removed(l, t);
    assert r[if i < t then i else i - 1] == l[i] && r[if j < t then j else j - 1] == l[j];
  }

  /** A queue that moved still has p before q, if p is still on it. */
  lemma MovedBefore(l: seq<int>, l': seq<int>, r: int, p: int, q: int)
    requires Moved(l, l', r) && Before(l, p, q) && NoDup(l) && r != p && r != q && p in l'
    ensures Before(l', p, q)
  {
    var i, j :| 0 <= i < j < |l| && l[i] == p && l[j] == q;
    hide NoDup, Removed, Before;
    if n :| 0 <= n <= |l| && l' == l[n..] {
      DropBefore(l, n, i, j);
    } else if x :| l' == l + [x] {
      AppendBefore(l, x, i, j);
    } else {
      var t :| 0 <= t < |l| && l[t] == r && l' == Removed(l, t);
      RemoveBefore(l, t, i, j);
    }
  }

  lemma StepBefore(k: Ks, st: Step, s: int, p: int, q: int)
    requires KInv(k) && Allowed(k, st) && 0 <= s < NSEM && s < |k.q.lists| && Before(k.q.lists[s], p, q)
    requires st != KillRemove(p) && st != KillRemove(q) && p >= 0 && q >= 0
    ensures KInv(StepK(k, st)) && s < |StepK(k, st).q.lists|
    ensures p in StepK(k, st).q.lists[s] ==> Before(StepK(k, st).q.lists[s], p, q)
  {
    hide Core, Future, TopPriority, Moved, StepK, Allowed, Homed;
    CoreFacts(k, -1);
    StepInv(k, st);
    StepMoves(k, st, s);
    var k' := StepK(k, st);
    var l, l' := k.q.lists[s], k'.q.lists[s];
    if p in l' { MovedBefore(l, l', Victim(st), p, q); }
  }

  /** p waits on s in all of the first n + 1 states of the run. */
  ghost predicate WaitsThroughout(k: Ks, steps: seq<Step>, n: nat, s: int, p: int)
    requires KInv(k) && CanRun(k, steps) && n <= |steps|
  {
    forall i :: 0 <= i <= n ==> 0 <= s < |After(k, steps, i).q.lists| && p in After(k, steps, i).q.lists[s]
  }

  /** If p stands before q in the queue of a semaphore, then in any run in which
      neither is killed q is not released while p waits, and stays behind it. */
  lemma {:induction false} FirstCome(k: Ks, steps: seq<Step>, n: nat, s: int, p: int, q: int)
    requires KInv(k) && CanRun(k, steps) && n <= |steps| && 0 <= s < NSEM && s < |k.q.lists| && Before(k.q.lists[s], p, q)
    requires p >= 0 && q >= 0 && (forall i :: 0 <= i < n ==> steps[i] != KillRemove(p) && steps[i] != KillRemove(q))
    requires WaitsThroughout(k, steps, n, s, p)
    ensures s < |After(k, steps, n).q.lists| && Before(After(k, steps, n).q.lists[s], p, q)
    decreases n
  {
    hide KInv, StepK, Allowed, After, CanRun, Before;
    if n == 0 {
      FirstState(k, steps);
    } else {
      assert WaitsThroughout(k, steps, n - 1, s, p);
      FirstCome(k, steps, n - 1, s, p, q);
      AfterStep(k, steps, n - 1);
      StepBefore(After(k, steps, n - 1), steps[n - 1], s, p, q);
      assert p in After(k, steps, n).q.lists[s];
    }
  }
}
