// The clock tick, killing and creating, and what they keep.
module KernelClock {
  import opened QueueTable
  import opened KernelModel
  import opened KernelSteps
  import opened KernelCalls

  // ------------------------------------------------------------ clkhandler

  /** How many sleepers at the head of the delta list have no time left. */
  function LeadZero(keys: seq<int>, l: seq<int>): (n: nat)
    requires forall i :: 0 <= i < |l| ==> 0 <= l[i] < |keys|
    ensures n <= |l|
  {
    if l == [] || keys[l[0]] > 0 then 0 else 1 + LeadZero(keys, l[1..])
  }

  /** The sleepers with no time left are exactly those due now. */
  lemma {:induction false} LeadDue(keys: seq<int>, due: seq<int>, l: seq<int>, from: int)
    requires Delta(keys, due, l, from) && forall i :: 0 <= i < |l| ==> 0 <= l[i] < |keys| == |due|
    ensures forall i :: 0 <= i < |l| ==> if i < LeadZero(keys, l) then due[l[i]] == from else due[l[i]] > from
    decreases |l|
  {
    if l != [] {
      assert forall i :: 1 <= i < |l| ==> l[i] == l[1..][i - 1];
      DeltaIds(keys, due, l[1..], due[l[0]]);
      if keys[l[0]] == 0 { LeadDue(keys, due, l[1..], from); }
    }
  }

  /** One tick passes: the key of the first sleeper counts it. */
  ghost function Elapse(k: Ks): Ks
    requires WfQ(k.q)
  {
    var l := k.q.lists[SLEEPQ];
    if l == [] then k.(now := k.now + 1)
    else k.(now := k.now + 1, q := k.q.(keys := k.q.keys[l[0] := k.q.keys[l[0]] - 1]))
  }

  lemma ElapseCore(k: Ks)
    requires KInv(k)
    ensures Core(Elapse(k), -1) && Running(Elapse(k))
    ensures Elapse(k).q.lists == k.q.lists && Elapse(k).procs == k.procs && Elapse(k).due == k.due
    ensures k.ndefers == 0 || !k.attempt ==> TopPriority(Elapse(k))
  {
    hide Homed, SemOK, SemsOK, Sorted, Placed, MsgsOK;
    CoreFacts(k, -1);
    var l := k.q.lists[SLEEPQ];
    if l != [] {
      var k' := Elapse(k);
      OnOwn(k.q, SLEEPQ);
      OnOwn(k.q, READYQ);
      ReadyFrame(k.procs, k.procs, k.q.keys, k'.q.keys, k.q.lists[READYQ]);
      DeltaIds(k.q.keys, k.due, l, k.now);
      DeltaShift(k.q.keys, k'.q.keys, k.due, k.due, l, k.now, 1);
    }
  }

  ghost function TickK(k: Ks): Ks
    requires KInv(k)
  {
    var k1 := Elapse(k);
    ElapseCore(k);
    OnOwn(k.q, SLEEPQ);
    SleepDraining(k1);
    var n := LeadZero(k1.q.keys, k1.q.lists[SLEEPQ]);
    if n == 0 then k1 else DeferStop(Drain(DeferStart(k1), SLEEPQ, n))
  }

  lemma TickInv(k: Ks)
    requires KInv(k)
    ensures KInv(TickK(k))
  {
    hide Core, TopPriority;
    CoreFacts(k, -1);
    ElapseCore(k);
    var k1 := Elapse(k);
    OnOwn(k.q, SLEEPQ);
    var l := k1.q.lists[SLEEPQ];
    var n := LeadZero(k1.q.keys, l);
    TickDue(k);
    if n > 0 {
      SleepDraining(k1);
      AfterWakeup(DeferStart(k1), n);
    }
  }

  lemma AfterWakeup(k: Ks, n: nat)
    requires Draining(k, SLEEPQ) && 0 < n <= |k.q.lists[SLEEPQ]|
    requires Future(k.due, k.q.lists[SLEEPQ][n..], k.now)
    ensures KInv(DeferStop(Drain(k, SLEEPQ, n)))
  {
    hide Core, TopPriority, Future;
    var k' := Drain(k, SLEEPQ, n);
    CoreFacts(k', -1);
    DeferStopInv(k');
  }

  lemma SleepDraining(k: Ks)
    requires Core(k, -1) && Running(k)
    ensures Draining(DeferStart(k), SLEEPQ)
  {
    hide Delta, ReadyKeys, WfQ, SemOK, Placed, SemsOK;
  }

  lemma TickDue(k: Ks)
    requires KInv(k)
    ensures var k1 := Elapse(k);
            var l := k1.q.lists[SLEEPQ];
            && (forall i :: 0 <= i < |l| ==> 0 <= l[i] < NPROC == |k1.q.keys|)
            && forall i :: 0 <= i < |l| ==>
                 if i < LeadZero(k1.q.keys, l) then k.due[l[i]] == k1.now
                 else k1.now < k.due[l[i]] < k1.now + 0x8000_0000
  {
    hide Homed, SemOK, SemsOK, Sorted, Placed, MsgsOK, TopPriority;
    ElapseCore(k);
    OnOwn(k.q, SLEEPQ);
    var k1 := Elapse(k);
    LeadDue(k1.q.keys, k.due, k1.q.lists[SLEEPQ], k1.now);
  }

  /** The preemption counter at the end of clkhandler. */
  ghost function PreemptK(k: Ks): Ks
    requires KInv(k)
  {
    if k.preempt == 1 then ReschedK(k.(preempt := QUANTUM)) else k.(preempt := k.preempt - 1)
  }

  lemma PreemptInv(k: Ks)
    requires KInv(k)
    ensures KInv(PreemptK(k))
  {
    hide Delta, ReadyKeys, WfQ, SemOK, Placed, SemsOK, Future;
    if k.preempt == 1 { ReschedInv(k.(preempt := QUANTUM)); }
  }

  // ------------------------------------------------- killing and creating

  /** kill up to the call of send. */
  ghost function KillNotifyK(k: Ks, p: int): Ks
    requires KInv(k)
  {
    if BadPid(k, p) || p == NULLPROC then k
    else CountOnly(k, k.prcount - 1); SendK(k.(prcount := k.prcount - 1), k.procs[p].parent, p)
  }

  /** The rest of kill: the process disappears from wherever its state puts it. */
  ghost function KillRemoveK(k: Ks, p: int): Ks
    requires KInv(k)
  {
    CoreFacts(k, -1);
    if !(0 < p < NPROC) then k
    else match k.procs[p].state
      case PrCurr => StopK(k, PrFree)
      case PrWait =>
        var s := k.procs[p].sem;
        WaitsOn(k, p);
        Detach(SetCount(k, s, k.sems[s].count + 1), p, PrFree)
      case _ => Detach(k, p, PrFree)
  }

  lemma WaitsOn(k: Ks, p: int)
    requires KInv(k) && 0 <= p < NPROC && k.procs[p].state.PrWait?
    ensures var s := k.procs[p].sem;
            && 0 <= s < NSEM && k.q.home[p] == s && p in k.q.lists[s]
            && k.sems[s].used && |k.q.lists[s]| == -k.sems[s].count
  {
    hide Delta, ReadyKeys, Sorted, MsgsOK, TopPriority, Future;
    var s := k.procs[p].sem;
    assert SemOK(k.sems[s], k.q.lists[s]);
  }

  lemma KillWaiter(k: Ks, p: int)
    requires KInv(k) && 0 < p < NPROC && k.procs[p].state.PrWait?
    ensures KInv(KillRemoveK(k, p))
  {
    hide Delta, ReadyKeys, Placed, MsgsOK, Homed, NoDup, Without;
    CoreFacts(k, -1);
    WaitsOn(k, p);
    var s := k.procs[p].sem;
    var x := k.sems[s].(count := k.sems[s].count + 1);
    OpenEx(k, s, x);
    var k1 := SetCount(k, s, k.sems[s].count + 1);
    CoreFacts(k1, s);
    DetachCore(k1, p, PrFree, s);
    WithoutOK(k.q, p);
    WithoutLen(k.q, p);
    var k2 := Detach(k1, p, PrFree);
    CloseEx(k2, s, x);
    assert k2.sems[s := x] == k2.sems;
    assert k2.(sems := k2.sems[s := x]) == k2;
    if k.ndefers == 0 || !k.attempt { DetachTop(k1, p, PrFree); }
  }

  lemma WithoutLen(q: Qs, p: int)
    requires WfQ(q) && 0 <= p < NPROC && 0 <= q.home[p] < NSEM
    ensures |Without(q, p).lists| == NQ && |Without(q, p).lists[q.home[p]]| == |q.lists[q.home[p]]| - 1
  {
  }

  lemma KillRemoveInv(k: Ks, p: int)
    requires KInv(k) && (p == k.curr ==> k.ndefers == 0)
    ensures KInv(KillRemoveK(k, p))
  {
    CoreFacts(k, -1);
    if 0 < p < NPROC {
      match k.procs[p].state
      case PrCurr => StopInv(k, PrFree);
      case PrWait => KillWaiter(k, p);
      case _ => DetachInv(k, p, PrFree);
    }
  }

  lemma KillNotifyInv(k: Ks, p: int)
    requires KInv(k)
    ensures KInv(KillNotifyK(k, p))
  {
    hide Core, TopPriority, Future, SendK;
    CoreFacts(k, -1);
    if !BadPid(k, p) && p != NULLPROC {
      CountOnly(k, k.prcount - 1);
      SendInv(k.(prcount := k.prcount - 1), k.procs[p].parent, p);
    }
  }

  lemma CountOnly(k: Ks, n: int)
    requires KInv(k)
    ensures KInv(k.(prcount := n))
  {
    hide Delta, ReadyKeys, WfQ, SemOK, Placed, SemsOK, Future;
  }

  /** create, in the slot p that newpid found free. */
  function CreateK(k: Ks, p: int, prio: int): Ks
    requires 0 <= p < |k.procs|
  {
    k.(procs := k.procs[p := Proc(PrSusp, prio, -1, k.curr, k.procs[p].msg, false)], prcount := k.prcount + 1)
  }

  lemma CreateInv(k: Ks, p: int, prio: int)
    requires KInv(k) && 0 <= p < NPROC && k.procs[p].state.PrFree? && 1 <= prio < 0x8000
    ensures KInv(CreateK(k, p, prio))
  {
    hide Delta, SemOK, SemsOK, Sorted, Future, Homed, NoDup;
    var k' := CreateK(k, p, prio);
    OffList(k.q, p, READYQ);
    ReadyFrame(k.procs, k'.procs, k.q.keys, k.q.keys, k.q.lists[READYQ]);
  }

  /** semcreate, in the entry s that newsem found free. */
  function SemCreateK(k: Ks, s: int, count: int): Ks
    requires 0 <= s < |k.sems|
  {
    k.(sems := k.sems[s := Sem(true, count)])
  }

  lemma SemCreateInv(k: Ks, s: int, count: int)
    requires KInv(k) && 0 <= s < NSEM && !k.sems[s].used && count >= 0
    ensures KInv(SemCreateK(k, s, count))
  {
    hide Delta, ReadyKeys, Placed, MsgsOK, Homed, NoDup, Future;
  }
}
