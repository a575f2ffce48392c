// What callers of the process calls rely on, over whole runs: messages arrive
// unchanged, killed processes are gone until their slot is used again, created
// and suspended processes wait to be resumed, and calls that fail do nothing.
module KernelLaws {
  import opened QueueTable
  import opened KernelModel
  import opened KernelSteps
  import opened KernelCalls
  import opened KernelClock
  import opened KernelRuns
  import opened KernelSleep
  import opened KernelEffects

  // -------------------------------------------------------------- messages

  /** In state k, process p takes its message by the step. */
  ghost predicate Takes(k: Ks, st: Step, p: int) {
    p == k.curr && (st.Receive? || st.TakeMsg? || (st.RecvTime? && st.d >= 0))
  }

  ghost predicate HasMessage(k: Ks, p: int, m: int) {
    0 <= p < |k.procs| && !k.procs[p].state.PrFree? && k.procs[p].hasmsg && k.procs[p].msg == m
  }

  /** The process exists and has no message. */
  ghost predicate CanGet(k: Ks, p: int) {
    0 <= p < NPROC && p < |k.procs| && !k.procs[p].state.PrFree? && !k.procs[p].hasmsg
  }

  /** A message is accepted exactly if the process exists and has none; then it is
      there, and a process that waited for it may go on.  Otherwise nothing happens. */
  lemma SendArrives(k: Ks, p: int, m: int)
    requires KInv(k)
    ensures var k' := SendK(k, p, m);
            if CanGet(k, p) then
              HasMessage(k', p, m) && (k.procs[p].state.PrRecv? || k.procs[p].state.PrRectim? ==> IsAwake(k'.procs[p]))
            else k' == k
  {
    hide Core, Future, TopPriority;
    CoreFacts(k, -1);
    if CanGet(k, p) {
      SendEffect(k, p, m, p);
    }
  }

  /** The parent of a process that ends gets its process ID. */
  lemma ParentLearns(k: Ks, r: int)
    requires KInv(k) && 0 < r < NPROC && |k.procs| == NPROC && !k.procs[r].state.PrFree? && CanGet(k, k.procs[r].parent)
    ensures HasMessage(KillNotifyK(k, r), k.procs[r].parent, r)
  {
    hide Core, Future, TopPriority, SendK;
    CountOnly(k, k.prcount - 1);
    SendArrives(k.(prcount := k.prcount - 1), k.procs[r].parent, r);
  }

  lemma StepMessage(k: Ks, st: Step, p: int, m: int)
    requires KInv(k) && Allowed(k, st) && 0 <= p < NPROC && HasMessage(k, p, m) && !Takes(k, st, p) && st != KillRemove(p)
    ensures HasMessage(StepK(k, st), p, m)
  {
    hide KInv, StepK;
    StepProc(k, st, p);
  }

  /** In the first n steps p neither takes a message nor is killed. */
  ghost predicate Untaken(k: Ks, steps: seq<Step>, n: nat, p: int)
    requires KInv(k) && CanRun(k, steps) && n <= |steps|
  {
    forall i :: 0 <= i < n ==> !Takes(After(k, steps, i), steps[i], p) && steps[i] != KillRemove(p)
  }

  /** Whatever happens, a message waits for its process unchanged until the process
      takes it or is killed. */
  lemma {:induction false} MessageKept(k: Ks, steps: seq<Step>, n: nat, p: int, m: int)
    requires KInv(k) && CanRun(k, steps) && n <= |steps| && 0 <= p < NPROC && HasMessage(k, p, m) && Untaken(k, steps, n, p)
    ensures HasMessage(After(k, steps, n), p, m)
  {
    hide KInv, StepK, Allowed, After, CanRun, Takes;
    if n == 0 {
      FirstState(k, steps);
    } else {
      MessageKept(k, steps, n - 1, p, m);
      AfterStep(k, steps, n - 1);
      StepMessage(After(k, steps, n - 1), steps[n - 1], p, m);
    }
  }

  /** From send to receive: at any later point of any run at which p has neither
      taken a message nor been killed, its message is the one that was sent; once
      it has taken it, the next one can be sent. */
  lemma SendReceive(k: Ks, p: int, m: int, steps: seq<Step>, n: nat)
    requires KInv(k) && CanGet(k, p) && KInv(SendK(k, p, m)) && CanRun(SendK(k, p, m), steps) && n <= |steps|
    requires Untaken(SendK(k, p, m), steps, n, p)
    ensures var k' := After(SendK(k, p, m), steps, n);
            && HasMessage(k', p, m)
            && (k'.curr == p ==> Allowed(k', Receive) && CanGet(ReceiveK(k'), p) && ReceiveK(k').curr == p)
  {
    hide KInv, StepK, After, CanRun, Takes, SendK;
    SendArrives(k, p, m);
    MessageKept(SendK(k, p, m), steps, n, p, m);
  }

  // ------------------------------------------------- killed and not yet created

  /** A killed process is free, on no list and not running.  If it was running, the
      first ready process runs; no other process changes. */
  lemma KillFrees(k: Ks, p: int)
    requires KInv(k) && 0 < p < NPROC && Allowed(k, KillRemove(p))
    ensures var k' := KillRemoveK(k, p);
            && KInv(k') && |k'.procs| == |k.procs| == NPROC && |k'.q.lists| == |k.q.lists| == NQ
            && k'.procs[p].state.PrFree? && k'.curr != p && (forall m :: 0 <= m < NQ ==> p !in k'.q.lists[m])
            && (forall r :: 0 <= r < NPROC && r != p ==> Dispatched(k.procs[r], k'.procs[r]))
            && (p != k.curr ==> k'.curr == k.curr && forall r :: 0 <= r < NPROC && r != p ==> k'.procs[r] == k.procs[r])
            && (p == k.curr ==> k.q.lists[READYQ] != [] && k'.curr == k.q.lists[READYQ][0] && k'.q.lists[READYQ] == k.q.lists[READYQ][1..])
            && (forall m :: 0 <= m < NQ && m != READYQ && m != k.q.home[p] ==> k'.q.lists[m] == k.q.lists[m])
            && (p != k.curr ==> forall m :: 0 <= m < NQ ==> WithoutOne(k.q.lists[m], k'.q.lists[m], p))
  {
    hide Core, Future, TopPriority, KillRemoveK;
    Sizes(k);
    KillRemoveInv(k, p);
    var k' := KillRemoveK(k, p);
    Sizes(k');
    forall r | 0 <= r < NPROC && r != p ensures Dispatched(k.procs[r], k'.procs[r]) { KillEffect(k, p, r); }
    KillEffect(k, p, p);
    GoneFromLists(k', p);
    if p == k.curr { KillRunning(k); } else { KillOther(k, p); }
  }

  /** l' is l without p, in the same order. */
  ghost predicate WithoutOne(l: seq<int>, l': seq<int>, p: int) {
    if p in l then exists i :: 0 <= i < |l| && l[i] == p && l' == l[..i] + l[i + 1..] else l' == l
  }

  lemma ListsWithout(q: Qs, p: int)
    requires WfQ(q) && 0 <= p < NPROC
    ensures |Without(q, p).lists| == NQ && forall m :: 0 <= m < NQ ==> WithoutOne(q.lists[m], Without(q, p).lists[m], p)
  {
    WithoutOK(q, p);
    hide NoDup;
    forall m | 0 <= m < NQ ensures WithoutOne(q.lists[m], Without(q, p).lists[m], p) {
      if m != q.home[p] { OffList(q, p, m); }
    }
  }

  lemma GoneFromLists(k: Ks, p: int)
    requires KInv(k) && 0 <= p < NPROC && |k.procs| == NPROC && k.procs[p].state.PrFree?
    ensures |k.q.lists| == NQ && k.curr != p && forall m :: 0 <= m < NQ ==> p !in k.q.lists[m]
  {
    hide Delta, ReadyKeys, NoDup, SemOK, SemsOK, MsgsOK, Future, TopPriority;
  }

  lemma KillRunning(k: Ks)
    requires KInv(k) && 0 < k.curr < NPROC && k.ndefers == 0
    ensures var k', l := KillRemoveK(k, k.curr), k.q.lists[READYQ];
            && |k'.q.lists| == NQ && l != [] && k'.curr == l[0] && k'.q.lists[READYQ] == l[1..]
            && (forall m :: 0 <= m < NQ && m != READYQ ==> k'.q.lists[m] == k.q.lists[m])
  {
    hide Delta, ReadyKeys, NoDup, SemOK, SemsOK, MsgsOK, Future, TopPriority, Homed;
    OffCore(k, PrFree);
    var k1 := SetState(k, k.curr, PrFree);
    ReadyNonempty(k1, -1);
    assert Removed(k.q.lists[READYQ], 0) == k.q.lists[READYQ][1..];
  }

  lemma KillOther(k: Ks, p: int)
    requires KInv(k) && 0 < p < NPROC && p != k.curr
    ensures var k' := KillRemoveK(k, p);
            && |k'.q.lists| == |k.q.lists| == NQ && |k'.procs| == |k.procs| == NPROC && k'.curr == k.curr
            && (forall r :: 0 <= r < NPROC && r != p ==> k'.procs[r] == k.procs[r])
            && (forall m :: 0 <= m < NQ && m != k.q.home[p] ==> k'.q.lists[m] == k.q.lists[m])
            && (forall m :: 0 <= m < NQ ==> WithoutOne(k.q.lists[m], k'.q.lists[m], p))
  {
    hide Core, Future, TopPriority, Without, StopK;
    CoreFacts(k, -1);
    WithoutOK(k.q, p);
    ListsWithout(k.q, p);
    if k.procs[p].state.PrCurr? { OneRuns(k, p); }
    if k.procs[p].state.PrWait? { WaitsOn(k, p); }
  }

  lemma StepFree(k: Ks, st: Step, p: int)
    requires KInv(k) && Allowed(k, st) && 0 <= p < |k.procs| && k.procs[p].state.PrFree? && !(st.Create? && st.p == p)
    ensures p < |StepK(k, st).procs| && StepK(k, st).procs[p].state.PrFree?
  {
    hide Core, Future, TopPriority, StepK;
    Sizes(k);
    StepProc(k, st, p);
    GoneFromLists(k, p);
  }

  /** From then on the slot stays free, over any run, until create takes it. */
  lemma {:induction false} StaysFree(k: Ks, steps: seq<Step>, n: nat, p: int)
    requires KInv(k) && CanRun(k, steps) && n <= |steps| && 0 <= p < |k.procs| && k.procs[p].state.PrFree?
    requires forall i :: 0 <= i < n ==> !(steps[i].Create? && steps[i].p == p)
    ensures p < |After(k, steps, n).procs| && After(k, steps, n).procs[p].state.PrFree?
  {
    hide KInv, StepK, Allowed, After, CanRun;
    if n == 0 {
      FirstState(k, steps);
    } else {
      StaysFree(k, steps, n - 1, p);
      AfterStep(k, steps, n - 1);
      StepFree(After(k, steps, n - 1), steps[n - 1], p);
    }
  }

  // -------------------------------------------- created, suspended, resumed

  /** create makes a suspended process of the given priority, without a message,
      whose parent is the caller, and touches no other process. */
  lemma CreateMakes(k: Ks, p: int, prio: int)
    requires KInv(k) && Allowed(k, Create(p, prio))
    ensures var k' := CreateK(k, p, prio);
            && |k'.procs| == |k.procs| == NPROC && k'.curr == k.curr && k'.q == k.q
            && k'.procs[p].state.PrSusp? && k'.procs[p].prio == prio && k'.procs[p].parent == k.curr && !k'.procs[p].hasmsg
            && (forall r :: 0 <= r < NPROC && r != p ==> k'.procs[r] == k.procs[r])
  {
    hide Core, Future, TopPriority;
    Sizes(k);
  }

  /** suspend stops exactly a process that is ready or running and not the null
      process, and resume lets exactly a suspended one go on. */
  lemma SuspendResume(k: Ks, p: int)
    requires KInv(k) && 0 <= p < NPROC && |k.procs| == NPROC
    ensures var k' := SuspendK(k, p);
            && (p != NULLPROC && IsAwake(k.procs[p]) ==> |k'.procs| == NPROC && k'.procs[p] == k.procs[p].(state := PrSusp))
            && (p == NULLPROC || !IsAwake(k.procs[p]) ==> k' == k)
    ensures var k' := ResumeK(k, p);
            && (k.procs[p].state.PrSusp? ==>
                  |k'.procs| == NPROC && IsAwake(k'.procs[p]) && k'.procs[p] == k.procs[p].(state := k'.procs[p].state))
            && (!k.procs[p].state.PrSusp? ==> k' == k)
  {
    hide Core, Future, TopPriority, Without, StopK, Wake;
    CoreFacts(k, -1);
    if p != NULLPROC && k.procs[p].state.PrCurr? { OneRuns(k, p); StopProc(k, PrSusp, p); }
    if k.procs[p].state.PrSusp? { WakeProc(k, p, p); }
  }

  /** p is suspended, with the given priority and parent. */
  ghost predicate Held(k: Ks, p: int, prio: int, parent: int) {
    0 <= p < |k.procs| && k.procs[p].state.PrSusp? && k.procs[p].prio == prio && k.procs[p].parent == parent
  }

  lemma StepHeld(k: Ks, st: Step, p: int, prio: int, parent: int)
    requires KInv(k) && Allowed(k, st) && Held(k, p, prio, parent) && st != Resume(p) && st != KillRemove(p)
    ensures Held(StepK(k, st), p, prio, parent)
  {
    hide Core, Future, TopPriority, StepK;
    Sizes(k);
    StepProc(k, st, p);
    OnNoList(k, p);
  }

  lemma OnNoList(k: Ks, p: int)
    requires KInv(k) && 0 <= p < |k.procs| && k.procs[p].state.PrSusp?
    ensures |k.q.lists| == NQ && k.curr != p && forall m :: 0 <= m < NQ ==> p !in k.q.lists[m]
  {
    hide Delta, ReadyKeys, NoDup, SemOK, SemsOK, MsgsOK, Future, TopPriority;
  }

  /** A created or suspended process stays as it is, whatever others do and whatever
      is sent to it, until it is resumed or killed. */
  lemma {:induction false} StaysSuspended(k: Ks, steps: seq<Step>, n: nat, p: int, prio: int, parent: int)
    requires KInv(k) && CanRun(k, steps) && n <= |steps| && Held(k, p, prio, parent)
    requires forall i :: 0 <= i < n ==> steps[i] != Resume(p) && steps[i] != KillRemove(p)
    ensures Held(After(k, steps, n), p, prio, parent)
  {
    hide KInv, StepK, Allowed, After, CanRun, Held;
    if n == 0 {
      FirstState(k, steps);
    } else {
      StaysSuspended(k, steps, n - 1, p, prio, parent);
      AfterStep(k, steps, n - 1);
      StepHeld(After(k, steps, n - 1), steps[n - 1], p, prio, parent);
    }
  }

  /** A process that exists, with the given priority and parent. */
  ghost predicate Lives(k: Ks, p: int, prio: int, parent: int) {
    0 <= p < |k.procs| && !k.procs[p].state.PrFree? && k.procs[p].prio == prio && k.procs[p].parent == parent
  }

  lemma StepLives(k: Ks, st: Step, p: int, prio: int, parent: int)
    requires KInv(k) && Allowed(k, st) && Lives(k, p, prio, parent) && st != KillRemove(p)
    ensures Lives(StepK(k, st), p, prio, parent)
  {
    hide Core, Future, TopPriority, StepK;
    Sizes(k);
    StepProc(k, st, p);
  }

  /** A process lives, with its priority and its parent, until it is killed. */
  lemma {:induction false} LivesOn(k: Ks, steps: seq<Step>, n: nat, p: int, prio: int, parent: int)
    requires KInv(k) && CanRun(k, steps) && n <= |steps| && Lives(k, p, prio, parent)
    requires forall i :: 0 <= i < n ==> steps[i] != KillRemove(p)
    ensures Lives(After(k, steps, n), p, prio, parent)
  {
    hide KInv, StepK, Allowed, After, CanRun, Lives;
    if n == 0 {
      FirstState(k, steps);
    } else {
      LivesOn(k, steps, n - 1, p, prio, parent);
      AfterStep(k, steps, n - 1);
      StepLives(After(k, steps, n - 1), steps[n - 1], p, prio, parent);
    }
  }

  // ------------------------------------------------------- who is released

  /** The step is one that lets process p, which does not run, go on or ends it. */
  ghost predicate Releases(k: Ks, st: Step, p: int)
    requires 0 <= p < |k.procs| <= |k.due|
  {
    var x := k.procs[p];
    || st == KillRemove(p)
    || (x.state.PrSusp? && st == Resume(p))
    || (x.state.PrWait? && (st.Signal? || st.SignalN? || st.SemDelete? || st.SemReset?) && st.s == x.sem)
    || ((x.state.PrSleep? || x.state.PrRectim?) && st.Tick? && k.due[p] == k.now + 1)
    || ((x.state.PrRecv? || x.state.PrRectim?) && !x.hasmsg
          && ((st.Send? && st.p == p) || (st.KillNotify? && CanEnd(k, st.p) && k.procs[st.p].parent == p)))
  }

  ghost predicate CanEnd(k: Ks, r: int) { 0 < r < |k.procs| && !k.procs[r].state.PrFree? }

  /** A process that waits for something, is suspended or asleep stays so through
      every step that is not the one it waits for. */
  lemma StaysBlocked(k: Ks, st: Step, p: int)
    requires KInv(k) && Allowed(k, st) && 0 <= p < |k.procs| == |k.due| && !IsAwake(k.procs[p]) && !k.procs[p].state.PrFree?
    requires !Releases(k, st, p)
    ensures p < |StepK(k, st).procs| && StepK(k, st).procs[p].state == k.procs[p].state && StepK(k, st).procs[p].sem == k.procs[p].sem
  {
    hide Core, Future, TopPriority, StepK;
    Sizes(k);
    StepProc(k, st, p);
    NotRunning(k, p);
    if (st.Signal? || st.SignalN? || st.SemDelete? || st.SemReset?) && !BadSem(k, st.s) { NotIn(k, p, st.s); }
  }

  lemma NotRunning(k: Ks, p: int)
    requires KInv(k) && 0 <= p < |k.procs| && !IsAwake(k.procs[p])
    ensures p != k.curr
  {
    hide Delta, ReadyKeys, NoDup, SemOK, SemsOK, MsgsOK, Future, TopPriority;
  }

  lemma NotIn(k: Ks, p: int, s: int)
    requires KInv(k) && 0 <= p < |k.procs| && 0 <= s < NSEM && !(k.procs[p].state.PrWait? && k.procs[p].sem == s)
    ensures |k.q.lists| == NQ && p !in k.q.lists[s]
  {
    hide Delta, ReadyKeys, NoDup, SemOK, SemsOK, MsgsOK, Future, TopPriority;
  }

  /** A call that must wait stops the caller in the state that says for what, and
      another process runs. */
  lemma CallerStops(k: Ks, st: Step, x: PrState)
    requires KInv(k) && Allowed(k, st) && 0 <= k.curr < |k.procs| && MayBlock(k)
    requires || (x.PrWait? && st.Wait? && !BadSem(k, st.s) && k.sems[st.s].count <= 0)
             || (x.PrSleep? && st.Sleep? && st.d > 0)
             || (x.PrRecv? && st.Receive? && !k.procs[k.curr].hasmsg)
             || (x.PrRectim? && st.RecvTime? && st.d > 0 && !k.procs[k.curr].hasmsg)
    ensures var k' := StepK(k, st);
            && KInv(k') && k.curr < |k'.procs| && k'.curr != k.curr && k'.procs[k.curr].state == x
            && k'.procs[k.curr] == k.procs[k.curr].(state := x, sem := if st.Wait? then st.s else k.procs[k.curr].sem)
  {
    hide Core, Future, TopPriority, StepK;
    Sizes(k);
    StepProc(k, st, k.curr);
    StepInv(k, st);
    NotRunning(StepK(k, st), k.curr);
  }

  // ------------------------------------------------------- calls that fail

  /** The arguments or the state make the call return an error. */
  predicate Fails(k: Ks, st: Step) {
    match st
    case Wait(s) => BadSem(k, s)
    case Signal(s) => BadSem(k, s)
    case SignalN(s, n) => BadSem(k, s) || n < 0
    case SemDelete(s) => BadSem(k, s)
    case SemReset(s, n) => BadSem(k, s) || n < 0
    case Suspend(p) => p == NULLPROC || BadPid(k, p) || !IsAwake(k.procs[p])
    case Resume(p) => BadPid(k, p) || !k.procs[p].state.PrSusp?
    case Send(p, _) => BadPid(k, p) || k.procs[p].hasmsg
    case RecvTime(d) => d < 0
    case KillNotify(p) => p == NULLPROC || BadPid(k, p)
    case StopDefer => k.ndefers == 0
    case _ => false
  }

  lemma FailsQuietly(k: Ks, st: Step)
    requires KInv(k) && Allowed(k, st) && Fails(k, st)
    ensures StepK(k, st) == k
  {
    hide Core, Future, TopPriority;
  }
}
