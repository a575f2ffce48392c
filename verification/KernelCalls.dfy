// The system calls and the clock tick as functions on the value model, and the
// proof that each of them keeps the invariant.
module KernelCalls {
  import opened QueueTable
  import opened KernelModel
  import opened KernelSteps

  /** Between the moves of a call and its final resched. */
  ghost predicate Ready2Resched(k: Ks) {
    && Core(k, -1) && 1 <= k.preempt <= QUANTUM && (k.ndefers > 0 ==> Running(k))
    && Future(k.due, k.q.lists[SLEEPQ], k.now)
  }

  lemma ReschedInv(k: Ks)
    requires Ready2Resched(k)
    ensures KInv(ReschedK(k))
  {
    hide Core, TopPriority, Future;
    ReschedCore(k);
  }

  // ------------------------------------------------------ waking processes

  /** ready on a process that is on no list, in the middle of a call. */
  ghost function Wake(k: Ks, p: int): Ks
    requires Core(k, -1) && 0 < p < NPROC && !(0 <= k.q.home[p] < NSEM)
  {
    DetachCore(k, p, PrSusp, -1);
    MakeReadyCore(Detach(k, p, PrSusp), p, -1);
    ReschedK(MakeReady(Detach(k, p, PrSusp), p))
  }

  lemma WakeInv(k: Ks, p: int)
    requires Core(k, -1) && Running(k) && Future(k.due, k.q.lists[SLEEPQ], k.now) && 0 < p < NPROC
    requires !(0 <= k.q.home[p] < NSEM) && p != k.curr
    ensures KInv(Wake(k, p))
  {
    hide Core, TopPriority, Without, InsertQ;
    CoreFacts(k, -1);
    DetachCore(k, p, PrSusp, -1);
    var k1 := Detach(k, p, PrSusp);
    CoreFacts(k1, -1);
    MakeReadyCore(k1, p, -1);
    var k2 := MakeReady(k1, p);
    SleepersKept(k.q, p);
    InsertKeepsLists(k1.q, p, k.procs[p].prio);
    ReschedInv(k2);
  }

  lemma CoreFacts(k: Ks, ex: int)
    requires Core(k, ex)
    ensures WfQ(k.q) && |k.procs| == NPROC && 0 <= k.curr < NPROC && |k.sems| == NSEM && |k.due| == NPROC
    ensures forall p :: 0 <= p < NPROC ==> k.q.home[p] == Place(k.procs[p]) && MINKEY < k.procs[p].prio
    ensures k.procs[NULLPROC].state.PrCurr? || k.procs[NULLPROC].state.PrReady?
  {
  }

  lemma SleepersKept(q: Qs, p: int)
    requires WfQ(q) && 0 <= p < NPROC
    ensures |Without(q, p).lists| == NQ
    ensures forall x :: x in Without(q, p).lists[SLEEPQ] ==> x in q.lists[SLEEPQ]
  {
    WithoutOK(q, p);
    if q.home[p] == SLEEPQ { RemovedElems(q.lists[SLEEPQ], IndexOf(q.lists[SLEEPQ], p)); }
  }

  lemma InsertKeepsLists(q: Qs, p: int, key: int)
    requires WfQ(q) && 0 <= p < NPROC
    ensures |InsertQ(q, p, READYQ, key).lists| == NQ
    ensures forall m :: 0 <= m < NQ && m != READYQ ==> InsertQ(q, p, READYQ, key).lists[m] == q.lists[m]
  {
  }

  lemma FutureSub(due: seq<int>, l: seq<int>, l': seq<int>, now: int)
    requires Future(due, l, now) && forall x :: x in l' ==> x in l
    ensures Future(due, l', now)
  {
    forall i | 0 <= i < |l'| ensures 0 <= l'[i] < |due| && now < due[l'[i]] < now + 0x8000_0000 {
      assert l'[i] in l;
    }
  }

  // ------------------------------------------------- deferred rescheduling

  function DeferStart(k: Ks): Ks {
    k.(ndefers := k.ndefers + 1, attempt := if k.ndefers == 0 then false else k.attempt)
  }

  ghost function DeferStop(k: Ks): Ks
    requires Core(k, -1)
  {
    if k.ndefers == 0 then k
    else if k.ndefers == 1 && k.attempt then ReschedK(k.(ndefers := 0))
    else k.(ndefers := k.ndefers - 1)
  }

  lemma DeferStartInv(k: Ks)
    requires KInv(k)
    ensures KInv(DeferStart(k))
  {
    hide Delta, ReadyKeys, WfQ, SemOK, Placed, SemsOK;
  }

  lemma DeferStopInv(k: Ks)
    requires Core(k, -1) && Running(k) && Future(k.due, k.q.lists[SLEEPQ], k.now)
    requires k.ndefers == 0 || !k.attempt ==> TopPriority(k)
    ensures KInv(DeferStop(k))
  {
    hide Delta, ReadyKeys, SemOK, Placed, SemsOK, Future, Homed, NoDup;
    if k.ndefers == 1 && k.attempt { ReschedInv(k.(ndefers := 0)); }
  }

  // ------------------------------------------------ releasing a whole queue

  /** ready(dequeue(l)) while rescheduling is deferred. */
  ghost function WakeFirst(k: Ks, l: int): Ks
    requires WfQ(k.q) && |k.procs| == NPROC && 0 <= l < NQ && k.q.lists[l] != []
  {
    var p := k.q.lists[l][0];
    OnOwn(k.q, l);
    WithoutOK(k.q, p);
    MakeReady(Detach(k, p, PrSusp), p).(attempt := true)
  }

  /** The state in which a loop of a call releases processes from list l. */
  ghost predicate Draining(k: Ks, l: int) {
    && Core(k, if l < NSEM then l else -1) && Running(k) && k.ndefers > 0
    && 0 <= l < NQ && l != READYQ
  }

  lemma WakeFirstCore(k: Ks, l: int)
    requires Draining(k, l) && k.q.lists[l] != []
    ensures Draining(WakeFirst(k, l), l)
    ensures var k' := WakeFirst(k, l);
            && k'.q.lists[l] == k.q.lists[l][1..]
            && (forall m :: 0 <= m < NQ && m != l && m != READYQ ==> k'.q.lists[m] == k.q.lists[m])
            && k' == k.(procs := k'.procs, q := k'.q, attempt := true)
            && k'.procs == k.procs[k.q.lists[l][0] := k.procs[k.q.lists[l][0]].(state := PrReady)]
  {
    hide Without, InsertQ, ReadyKeys, Delta, NoDup, SemOK, MsgsOK;
    var ex := if l < NSEM then l else -1;
    var p := k.q.lists[l][0];
    OnOwn(k.q, l);
    CoreFacts(k, ex);
    DetachCore(k, p, PrSusp, ex);
    var k1 := Detach(k, p, PrSusp);
    WithoutOK(k.q, p);
    WithoutFirst(k.q, l);
    InsertKeepsLists(k1.q, p, k.procs[p].prio);
    MakeReadyCore(k1, p, ex);
    assert k1.procs[p := k1.procs[p].(state := PrReady)] == k.procs[p := k.procs[p].(state := PrReady)];
  }

  lemma WithoutFirst(q: Qs, l: int)
    requires WfQ(q) && 0 <= l < NQ && q.lists[l] != []
    ensures q.home[q.lists[l][0]] == l
    ensures |Without(q, q.lists[l][0]).lists| == NQ && Without(q, q.lists[l][0]).lists[l] == q.lists[l][1..]
    ensures IndexOf(q.lists[l], q.lists[l][0]) == 0
  {
    assert Removed(q.lists[l], 0) == q.lists[l][1..];
  }

  /** The first n processes of list l, released one after the other. */
  ghost function Drain(k: Ks, l: int, n: nat): (r: Ks)
    requires Draining(k, l) && n <= |k.q.lists[l]|
    ensures Draining(r, l)
    ensures r.q.lists[l] == k.q.lists[l][n..]
    ensures forall m :: 0 <= m < NQ && m != l && m != READYQ ==> r.q.lists[m] == k.q.lists[m]
    ensures r == k.(procs := r.procs, q := r.q, attempt := k.attempt || n > 0)
    decreases n
  {
    if n == 0 then k
    else
      WakeFirstCore(k, l);
      Drain(WakeFirst(k, l), l, n - 1)
  }

  lemma {:induction false} DrainProcs(k: Ks, l: int, n: nat)
    requires Draining(k, l) && n <= |k.q.lists[l]|
    ensures |Drain(k, l, n).procs| == NPROC == |k.procs|
    ensures forall p :: 0 <= p < NPROC ==>
              Drain(k, l, n).procs[p] ==
              if p in k.q.lists[l][..n] then k.procs[p].(state := PrReady) else k.procs[p]
    decreases n
  {
    hide Core, WakeFirst, Homed, NoDup;
    CoreFacts(k, if l < NSEM then l else -1);
    if n > 0 {
      WakeFirstCore(k, l);
      var k1, q := WakeFirst(k, l), k.q.lists[l];
      DrainProcs(k1, l, n - 1);
      assert q[..n] == [q[0]] + q[1..][..n - 1];
      OnOwn(k.q, l);
    }
  }

  // ------------------------------------------------- one semaphore at a time

  lemma OpenEx(k: Ks, s: int, x: Sem)
    requires Core(k, -1) && 0 <= s < NSEM
    ensures Core(k.(sems := k.sems[s := x]), s)
  {
    hide Delta, ReadyKeys, SemOK, Placed, WfQ;
  }

  lemma CloseEx(k: Ks, s: int, x: Sem)
    requires Core(k, s) && 0 <= s < NSEM && SemOK(x, k.q.lists[s])
    ensures Core(k.(sems := k.sems[s := x]), -1)
  {
    hide Delta, ReadyKeys, SemOK, Placed, WfQ;
  }

  predicate BadSem(k: Ks, s: int) {
    !(0 <= s < NSEM) || s >= |k.sems| || !k.sems[s].used
  }

  function SetCount(k: Ks, s: int, count: int): Ks
    requires 0 <= s < |k.sems|
  {
    k.(sems := k.sems[s := k.sems[s].(count := count)])
  }

  // ------------------------------------------------------------------ wait

  /** The running process joins the queue of semaphore s. */
  function BlockOn(k: Ks, s: int): Ks
    requires 0 <= k.curr < |k.procs| == |k.q.home| == |k.q.keys| && 0 <= s < |k.q.lists|
  {
    k.(procs := k.procs[k.curr := k.procs[k.curr].(state := PrWait, sem := s)], q := EnqueueQ(k.q, k.curr, s))
  }

  lemma BlockOnCore(k: Ks, s: int)
    requires Core(k, s) && Running(k) && k.curr != NULLPROC && 0 <= s < NSEM
    ensures Core(BlockOn(k, s), s) && BlockOn(k, s).q.lists[s] == k.q.lists[s] + [k.curr]
    ensures BlockOn(k, s).q.lists[SLEEPQ] == k.q.lists[SLEEPQ]
  {
    hide Delta, Sorted, Homed, NoDup, SemOK;
    InsertAtWf(k.q, s, |k.q.lists[s]|, k.curr, k.q.keys[k.curr]);
    var k' := BlockOn(k, s);
    assert k'.q.keys == k.q.keys;
    assert k'.q.lists[s] == k.q.lists[s] + [k.curr];
  }

  ghost function WaitK(k: Ks, s: int): Ks
    requires KInv(k) && (!BadSem(k, s) && k.sems[s].count <= 0 ==> k.curr != NULLPROC && k.ndefers == 0)
  {
    if BadSem(k, s) then k
    else
      var c := k.sems[s].count - 1;
      if c >= 0 then SetCount(k, s, c)
      else
        WaitCore(k, s);
        ReschedK(BlockOn(SetCount(k, s, c), s))
  }

  lemma WaitCore(k: Ks, s: int)
    requires KInv(k) && !BadSem(k, s) && k.sems[s].count <= 0 && k.curr != NULLPROC
    ensures var k' := BlockOn(SetCount(k, s, k.sems[s].count - 1), s);
            Core(k', -1) && k'.q.lists[SLEEPQ] == k.q.lists[SLEEPQ]
  {
    hide Delta, ReadyKeys, Placed, Homed, NoDup, MsgsOK, Future, TopPriority;
    CoreFacts(k, -1);
    var x := k.sems[s].(count := k.sems[s].count - 1);
    OpenEx(k, s, x);
    var k1 := SetCount(k, s, k.sems[s].count - 1);
    BlockOnCore(k1, s);
    var k2 := BlockOn(k1, s);
    CloseEx(k2, s, x);
    assert k2.sems[s := x] == k2.sems;
    assert k2.(sems := k2.sems[s := x]) == k2;
  }

  lemma WaitInv(k: Ks, s: int)
    requires KInv(k) && (!BadSem(k, s) && k.sems[s].count <= 0 ==> k.curr != NULLPROC && k.ndefers == 0)
    ensures KInv(WaitK(k, s))
  {
    if !BadSem(k, s) {
      if k.sems[s].count > 0 {
        CountKeeps(k, s, k.sems[s].count - 1);
      } else {
        WaitCore(k, s);
        hide Core, TopPriority;
        ReschedInv(BlockOn(SetCount(k, s, k.sems[s].count - 1), s));
      }
    }
  }

  lemma CountKeeps(k: Ks, s: int, c: int)
    requires KInv(k) && 0 <= s < NSEM && k.sems[s].used && c >= 0 && k.sems[s].count >= 0
    ensures KInv(SetCount(k, s, c))
  {
    hide Delta, ReadyKeys, Placed, WfQ, MsgsOK, Future;
  }

  // ------------------------------------------------------ signal and signaln

  ghost function SignalK(k: Ks, s: int): Ks
    requires KInv(k)
  {
    if BadSem(k, s) then k
    else
      var k1 := SetCount(k, s, k.sems[s].count + 1);
      if k.sems[s].count >= 0 then k1
      else SignalCore(k, s); ReschedK(Released(k1, s))
  }

  /** dequeue and the insertion half of ready. */
  ghost function Released(k: Ks, s: int): Ks
    requires WfQ(k.q) && |k.procs| == NPROC && 0 <= s < NQ && k.q.lists[s] != []
  {
    WakeFirst(k, s).(attempt := k.attempt)
  }

  lemma SignalCore(k: Ks, s: int)
    requires KInv(k) && !BadSem(k, s) && k.sems[s].count < 0
    ensures k.q.lists[s] != [] && WfQ(k.q) && |k.procs| == NPROC
    ensures var k1 := SetCount(k, s, k.sems[s].count + 1);
            && Ready2Resched(Released(k1, s))
            && Released(k1, s).q.lists[s] == k.q.lists[s][1..]
  {
    hide Delta, ReadyKeys, Placed, MsgsOK, TopPriority, Homed, NoDup;
    CoreFacts(k, -1);
    var x := k.sems[s].(count := k.sems[s].count + 1);
    OpenEx(k, s, x);
    var k1 := SetCount(k, s, k.sems[s].count + 1).(ndefers := k.ndefers + 1);
    WakeFirstCore(k1, s);
    var k2 := WakeFirst(k1, s);
    CloseEx(k2, s, x);
    assert k2.sems[s := x] == k2.sems;
    assert k2.(sems := k2.sems[s := x]) == k2;
  }

  lemma SignalInv(k: Ks, s: int)
    requires KInv(k)
    ensures KInv(SignalK(k, s))
  {
    if !BadSem(k, s) {
      if k.sems[s].count >= 0 {
        CountKeeps(k, s, k.sems[s].count + 1);
      } else {
        SignalCore(k, s);
        hide Core, TopPriority, Released, Ready2Resched;
        ReschedInv(Released(SetCount(k, s, k.sems[s].count + 1), s));
      }
    }
  }

  function Min(a: int, b: int): int { if a < b then a else b }

  /** n processes are released from queue s and its entry becomes x, all deferred. */
  ghost function ReleaseK(k: Ks, s: int, n: nat, x: Sem): Ks
    requires KInv(k) && 0 <= s < NSEM && n <= |k.q.lists[s]| && SemOK(x, k.q.lists[s][n..])
  {
    ReleaseStart(k, s);
    var k1 := Drain(DeferStart(k), s, n);
    CloseEx(k1, s, x);
    DeferStop(k1.(sems := k1.sems[s := x]))
  }

  lemma ReleaseStart(k: Ks, s: int)
    requires KInv(k) && 0 <= s < NSEM
    ensures Draining(DeferStart(k), s)
  {
    OpenEx(k, s, k.sems[s]);
    hide Delta, ReadyKeys, Placed, MsgsOK, WfQ, SemOK;
    assert k.sems[s := k.sems[s]] == k.sems;
  }

  lemma ReleaseInv(k: Ks, s: int, n: nat, x: Sem)
    requires KInv(k) && 0 <= s < NSEM && n <= |k.q.lists[s]| && SemOK(x, k.q.lists[s][n..])
    ensures KInv(ReleaseK(k, s, n, x))
  {
    hide Core, Future, SemOK;
    CoreFacts(k, -1);
    ReleaseStart(k, s);
    var k0 := DeferStart(k);
    var k1 := Drain(k0, s, n);
    CloseEx(k1, s, x);
    var k2 := k1.(sems := k1.sems[s := x]);
    if n == 0 { assert k1 == k0; }
    CoreFacts(k2, -1);
    DeferStopInv(k2);
  }

  ghost function SignalNK(k: Ks, s: int, count: int): Ks
    requires KInv(k)
  {
    if BadSem(k, s) || count < 0 then k
    else
      var n := Min(count, |k.q.lists[s]|);
      SignalNOk(k, s, count);
      ReleaseK(k, s, n, k.sems[s].(count := k.sems[s].count + count))
  }

  lemma SignalNOk(k: Ks, s: int, count: nat)
    requires KInv(k) && !BadSem(k, s)
    ensures SemOK(k.sems[s].(count := k.sems[s].count + count), k.q.lists[s][Min(count, |k.q.lists[s]|)..])
  {
    hide Delta, ReadyKeys, Placed, MsgsOK, WfQ;
    assert SemOK(k.sems[s], k.q.lists[s]);
  }

  lemma SignalNInv(k: Ks, s: int, count: int)
    requires KInv(k)
    ensures KInv(SignalNK(k, s, count))
  {
    hide Core, SemOK, Future, TopPriority;
    CoreFacts(k, -1);
    if !BadSem(k, s) && count >= 0 {
      SignalNOk(k, s, count);
      ReleaseInv(k, s, Min(count, |k.q.lists[s]|), k.sems[s].(count := k.sems[s].count + count));
    }
  }

  /** semdelete: all waiters leave; the count it leaves behind is never used again. */
  ghost function SemDeleteK(k: Ks, s: int): Ks
    requires KInv(k)
  {
    if BadSem(k, s) then k
    else
      var c := k.sems[s].count;
      ReleaseK(k, s, |k.q.lists[s]|, Sem(false, if c < 0 then 1 else c + 1))
  }

  ghost function SemResetK(k: Ks, s: int, count: int): Ks
    requires KInv(k)
  {
    if BadSem(k, s) || count < 0 then k
    else ReleaseK(k, s, |k.q.lists[s]|, Sem(true, count))
  }

  lemma SemDeleteInv(k: Ks, s: int)
    requires KInv(k)
    ensures KInv(SemDeleteK(k, s))
  {
    if !BadSem(k, s) {
      var c := k.sems[s].count;
      ReleaseInv(k, s, |k.q.lists[s]|, Sem(false, if c < 0 then 1 else c + 1));
    }
  }

  lemma SemResetInv(k: Ks, s: int, count: int)
    requires KInv(k)
    ensures KInv(SemResetK(k, s, count))
  {
    if !BadSem(k, s) && count >= 0 { ReleaseInv(k, s, |k.q.lists[s]|, Sem(true, count)); }
  }

  // ---------------------------------------- suspending, resuming, messages

  predicate BadPid(k: Ks, p: int) {
    !(0 <= p < NPROC) || p >= |k.procs| || k.procs[p].state.PrFree?
  }

  /** The running process stops without joining a list. */
  lemma OffCore(k: Ks, st: PrState)
    requires Core(k, -1) && Running(k) && k.curr != NULLPROC
    requires st.PrSusp? || st.PrFree? || (st.PrRecv? && !k.procs[k.curr].hasmsg)
    ensures Core(SetState(k, k.curr, st), -1)
  {
    hide Delta, Homed, NoDup, SemOK, SemsOK, Sorted;
    var k' := SetState(k, k.curr, st);
    SamePrios(k.procs, k.curr, st, k.q.keys, k.q.lists[READYQ]);
    PlacedOff(k.procs, k.q.home, k.curr, st);
    assert k.q.home[k.curr := EMPTY] == k.q.home;
  }

  ghost function StopK(k: Ks, st: PrState): Ks
    requires KInv(k) && k.curr != NULLPROC && (st.PrSusp? || st.PrFree? || (st.PrRecv? && !k.procs[k.curr].hasmsg))
  {
    OffCore(k, st);
    ReschedK(SetState(k, k.curr, st))
  }

  lemma StopInv(k: Ks, st: PrState)
    requires KInv(k) && k.curr != NULLPROC && k.ndefers == 0
    requires st.PrSusp? || st.PrFree? || (st.PrRecv? && !k.procs[k.curr].hasmsg)
    ensures KInv(StopK(k, st))
  {
    hide Core, TopPriority, Future;
    OffCore(k, st);
    ReschedInv(SetState(k, k.curr, st));
  }

  /** A process that is not running leaves its list for good or until resumed. */
  lemma DetachInv(k: Ks, p: int, st: PrState)
    requires KInv(k) && 0 < p < NPROC && p != k.curr && (st.PrSusp? || st.PrFree?) && !(0 <= k.q.home[p] < NSEM)
    ensures KInv(Detach(k, p, st))
  {
    hide Core, Without;
    CoreFacts(k, -1);
    DetachCore(k, p, st, -1);
    WithoutOK(k.q, p);
    SleepersKept(k.q, p);
    var k' := Detach(k, p, st);
    FutureSub(k.due, k.q.lists[SLEEPQ], k'.q.lists[SLEEPQ], k.now);
    if k.ndefers == 0 || !k.attempt { DetachTop(k, p, st); }
  }

  lemma DetachTop(k: Ks, p: int, st: PrState)
    requires WfQ(k.q) && |k.procs| == NPROC && 0 <= k.curr < NPROC && 0 <= p < NPROC && TopPriority(k)
    requires WfQ(Without(k.q, p))
    ensures TopPriority(Detach(k, p, st))
  {
    WithoutOK(k.q, p);
    var l, l' := k.q.lists[READYQ], Detach(k, p, st).q.lists[READYQ];
    if k.q.home[p] == READYQ { RemovedElems(l, IndexOf(l, p)); }
    forall i | 0 <= i < |l'| ensures l'[i] in l { assert l'[i] in l'; }
    hide Without;
  }

  ghost function SuspendK(k: Ks, p: int): Ks
    requires KInv(k)
  {
    if BadPid(k, p) || p == NULLPROC then k
    else if k.procs[p].state.PrReady? then Detach(k, p, PrSusp)
    else if k.procs[p].state.PrCurr? then StopK(k, PrSusp)
    else k
  }

  lemma SuspendInv(k: Ks, p: int)
    requires KInv(k) && (p == k.curr ==> k.ndefers == 0)
    ensures KInv(SuspendK(k, p))
  {
    CoreFacts(k, -1);
    if !BadPid(k, p) && p != NULLPROC {
      if k.procs[p].state.PrReady? {
        DetachInv(k, p, PrSusp);
      } else if k.procs[p].state.PrCurr? {
        StopInv(k, PrSusp);
      }
    }
  }

  ghost function ResumeK(k: Ks, p: int): Ks
    requires KInv(k)
  {
    if BadPid(k, p) || !k.procs[p].state.PrSusp? then k
    else CoreFacts(k, -1); Wake(k, p)
  }

  lemma ResumeInv(k: Ks, p: int)
    requires KInv(k)
    ensures KInv(ResumeK(k, p))
  {
    hide Core, TopPriority, Future, Wake;
    CoreFacts(k, -1);
    if !BadPid(k, p) && k.procs[p].state.PrSusp? { WakeInv(k, p); }
  }

  function Deliver(k: Ks, p: int, msg: int): Ks
    requires 0 <= p < |k.procs|
  {
    k.(procs := k.procs[p := k.procs[p].(msg := msg, hasmsg := true)])
  }

  ghost function SendK(k: Ks, p: int, msg: int): Ks
    requires KInv(k)
  {
    if BadPid(k, p) || k.procs[p].hasmsg then k
    else if k.procs[p].state.PrRecv? || k.procs[p].state.PrRectim? then
      SendCore(k, p, msg);
      ReschedK(Delivered(k, p, msg))
    else Deliver(k, p, msg)
  }

  /** The receiver is taken off the sleep queue if need be, and made ready. */
  ghost function Delivered(k: Ks, p: int, msg: int): Ks
    requires WfQ(k.q) && 0 <= p < NPROC == |k.procs|
  {
    var k1 := Detach(Deliver(k, p, msg), p, PrSusp);
    WithoutOK(k.q, p);
    MakeReady(k1, p)
  }

  lemma DeliverCore(k: Ks, p: int, msg: int, st: PrState)
    requires Core(k, -1) && 0 < p < NPROC && (st.PrSusp? || st.PrFree?) && !(0 <= k.q.home[p] < NSEM)
    ensures Core(Detach(Deliver(k, p, msg), p, st), -1)
  {
    hide Delta, Homed, NoDup, SemOK, SemsOK, Sorted, Without;
    CoreFacts(k, -1);
    DetachCore(k, p, st, -1);
    WithoutOK(k.q, p);
    var k1, k2 := Detach(k, p, st), Detach(Deliver(k, p, msg), p, st);
    assert k2 == k1.(procs := k2.procs);
    ReadyFrame(k1.procs, k2.procs, k1.q.keys, k1.q.keys, k1.q.lists[READYQ]);
  }

  lemma SendCore(k: Ks, p: int, msg: int)
    requires KInv(k) && !BadPid(k, p) && (k.procs[p].state.PrRecv? || k.procs[p].state.PrRectim?)
    ensures WfQ(k.q) && |k.procs| == NPROC
    ensures Ready2Resched(Delivered(k, p, msg))
  {
    hide Core, Without, InsertQ, TopPriority;
    CoreFacts(k, -1);
    DeliverCore(k, p, msg, PrSusp);
    WithoutOK(k.q, p);
    var k1 := Detach(Deliver(k, p, msg), p, PrSusp);
    MakeReadyCore(k1, p, -1);
    SleepersKept(k.q, p);
    InsertKeepsLists(k1.q, p, k.procs[p].prio);
    FutureSub(k.due, k.q.lists[SLEEPQ], k1.q.lists[SLEEPQ], k.now);
  }

  lemma SendInv(k: Ks, p: int, msg: int)
    requires KInv(k)
    ensures KInv(SendK(k, p, msg))
  {
    if !BadPid(k, p) && !k.procs[p].hasmsg {
      if k.procs[p].state.PrRecv? || k.procs[p].state.PrRectim? {
        SendCore(k, p, msg);
        ReschedInv(Delivered(k, p, msg));
      } else {
        FlagKeeps(k, p, msg, true);
      }
    }
  }

  /** Changing the message of a process that is not waiting for one. */
  lemma FlagKeeps(k: Ks, p: int, msg: int, has: bool)
    requires KInv(k) && 0 <= p < NPROC && (has ==> !k.procs[p].state.PrRecv? && !k.procs[p].state.PrRectim?)
    ensures KInv(k.(procs := k.procs[p := k.procs[p].(msg := msg, hasmsg := has)]))
  {
    hide Delta, Homed, NoDup, SemOK, SemsOK, Sorted, Future;
    var k' := k.(procs := k.procs[p := k.procs[p].(msg := msg, hasmsg := has)]);
    ReadyFrame(k.procs, k'.procs, k.q.keys, k.q.keys, k.q.lists[READYQ]);
  }

  /** The end of receive and recvtime, and all of recvclr: the message is taken. */
  function ClearMsg(k: Ks): Ks
    requires 0 <= k.curr < |k.procs|
  {
    k.(procs := k.procs[k.curr := k.procs[k.curr].(hasmsg := false)])
  }

  lemma ClearMsgInv(k: Ks)
    requires KInv(k)
    ensures KInv(ClearMsg(k))
  {
    FlagKeeps(k, k.curr, k.procs[k.curr].msg, false);
  }

  ghost function ReceiveK(k: Ks): Ks
    requires KInv(k) && (!k.procs[k.curr].hasmsg ==> k.curr != NULLPROC)
  {
    if k.procs[k.curr].hasmsg then ClearMsg(k) else StopK(k, PrRecv)
  }

  lemma ReceiveInv(k: Ks)
    requires KInv(k) && (!k.procs[k.curr].hasmsg ==> k.curr != NULLPROC && k.ndefers == 0)
    ensures KInv(ReceiveK(k))
  {
    hide Core, TopPriority, Future;
    if k.procs[k.curr].hasmsg { ClearMsgInv(k); } else { StopInv(k, PrRecv); }
  }

  // ------------------------------------------------------ sleeping and time

  /** insertd for the running process, which is then in state st. */
  ghost function Doze(k: Ks, d: int, st: PrState): Ks
    requires WfQ(k.q) && 0 <= k.curr < NPROC == |k.procs| == |k.due|
  {
    SetState(k, k.curr, st).(q := InsertDQ(k.q, k.curr, SLEEPQ, d), due := k.due[k.curr := k.now + d])
  }

  lemma InsertDOk(q: Qs, p: int, d: int)
    requires WfQ(q) && 0 <= p < NPROC && q.home[p] == EMPTY
    ensures WfQ(InsertDQ(q, p, SLEEPQ, d)) && InsertDQ(q, p, SLEEPQ, d).home == q.home[p := SLEEPQ]
    ensures forall m :: 0 <= m < NQ && m != SLEEPQ ==> InsertDQ(q, p, SLEEPQ, d).lists[m] == q.lists[m]
    ensures forall x :: x in InsertDQ(q, p, SLEEPQ, d).lists[SLEEPQ] <==> x == p || x in q.lists[SLEEPQ]
    ensures forall x :: 0 <= x < NPROC && x != p && q.home[x] != SLEEPQ ==> InsertDQ(q, p, SLEEPQ, d).keys[x] == q.keys[x]
  {
    var l := q.lists[SLEEPQ];
    var (i, rest) := DPos(q.keys, l, d);
    InsertAtWf(q, SLEEPQ, i, p, rest);
    InsertedElems(l, i, p);
    if i < |l| { assert l[i] in l; }
  }

  lemma DozeCore(k: Ks, d: int, st: PrState)
    requires Core(k, -1) && Running(k) && k.curr != NULLPROC && d >= 0
    requires st.PrSleep? || (st.PrRectim? && !k.procs[k.curr].hasmsg)
    ensures Core(Doze(k, d, st), -1)
  {
    hide NoDup, Homed, SemOK, SemsOK, Sorted, InsertDQ, Delta;
    InsertDOk(k.q, k.curr, d);
    DozeDelta(k, d);
    var k' := Doze(k, d, st);
    OnOwn(k.q, READYQ);
    OffList(k.q, k.curr, READYQ);
    ReadyFrame(k.procs, k'.procs, k.q.keys, k'.q.keys, k.q.lists[READYQ]);
    SemsFrame(k.sems, k.q.lists, k'.q.lists, -1);
  }

  lemma DozeDelta(k: Ks, d: int)
    requires Core(k, -1) && Running(k) && d >= 0
    ensures var q' := InsertDQ(k.q, k.curr, SLEEPQ, d);
            |q'.lists| == NQ && Delta(q'.keys, k.due[k.curr := k.now + d], q'.lists[SLEEPQ], k.now)
  {
    hide Homed, SemOK, SemsOK, Sorted, Delta;
    OffList(k.q, k.curr, SLEEPQ);
    DeltaIds(k.q.keys, k.due, k.q.lists[SLEEPQ], k.now);
    DeltaInsert(k.q.keys, k.due, k.q.lists[SLEEPQ], k.now, k.curr, d);
  }

  ghost function DozeK(k: Ks, d: int, st: PrState): Ks
    requires KInv(k) && k.curr != NULLPROC && d >= 0 && (st.PrSleep? || (st.PrRectim? && !k.procs[k.curr].hasmsg))
  {
    DozeCore(k, d, st);
    ReschedK(Doze(k, d, st))
  }

  lemma DozeInv(k: Ks, d: int, st: PrState)
    requires KInv(k) && k.curr != NULLPROC && k.ndefers == 0 && 0 < d < 0x8000_0000
    requires st.PrSleep? || (st.PrRectim? && !k.procs[k.curr].hasmsg)
    ensures KInv(DozeK(k, d, st))
  {
    hide Core, TopPriority, InsertDQ;
    CoreFacts(k, -1);
    DozeCore(k, d, st);
    InsertDOk(k.q, k.curr, d);
    var k' := Doze(k, d, st);
    var l, l' := k.q.lists[SLEEPQ], k'.q.lists[SLEEPQ];
    forall i | 0 <= i < |l'| ensures 0 <= l'[i] < NPROC && k.now < k'.due[l'[i]] < k.now + 0x8000_0000 {
      assert l'[i] in l';
    }
    ReschedInv(k');
  }

  ghost function SleepK(k: Ks, d: int): Ks
    requires KInv(k) && d >= 0 && (d > 0 ==> k.curr != NULLPROC)
  {
    if d == 0 then ReschedK(k) else DozeK(k, d, PrSleep)
  }

  ghost function RecvTimeK(k: Ks, d: int): Ks
    requires KInv(k) && (d >= 0 && !k.procs[k.curr].hasmsg ==> k.curr != NULLPROC)
  {
    if d < 0 then k else if k.procs[k.curr].hasmsg then ClearMsg(k) else DozeK(k, d, PrRectim)
  }

  lemma YieldInv(k: Ks)
    requires KInv(k)
    ensures KInv(ReschedK(k))
  {
    ReschedInv(k);
  }
}
