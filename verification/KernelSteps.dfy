// The moves that system calls are made of, each shown to keep the invariant.
module KernelSteps {
  import opened QueueTable
  import opened KernelModel

  // -------------------------------------------------- making a process ready

  lemma MakeReadyCore(k: Ks, p: int, ex: int)
    requires Core(k, ex) && 0 <= p < NPROC && k.q.home[p] == EMPTY
    ensures Core(MakeReady(k, p), ex)
  {
    hide NoDup, Delta, Sorted, Homed, InsPos, SemOK;
    var l, key := k.q.lists[READYQ], k.procs[p].prio;
    var i := InsPos(k.q.keys, l, key);
    InsertAtWf(k.q, READYQ, i, p, key);
    ReadyInsert(k.procs, k.q.keys, l, p);
    var k' := MakeReady(k, p);
    ReadyFrame(k.procs, k'.procs, k'.q.keys, k'.q.keys, k'.q.lists[READYQ]);
    OffList(k.q, p, SLEEPQ);
    DeltaFrame(k.q.keys, k'.q.keys, k.due, k.due, k.q.lists[SLEEPQ], k.now);
  }

  lemma OffList(q: Qs, p: int, m: int)
    requires WfQ(q) && 0 <= p < NPROC && 0 <= m < NQ && q.home[p] != m
    ensures forall i :: 0 <= i < |q.lists[m]| ==> q.lists[m][i] != p
  {
  }

  // --------------------------------------------------- taking one off its list

  /** The lists without p, with the key repair of unsleep for the sleep queue. */
  ghost function Without(q: Qs, p: int): Qs
    requires WfQ(q) && 0 <= p < NPROC
  {
    if q.home[p] == EMPTY then q else if q.home[p] == SLEEPQ then UnsleepQ(q, p) else RemoveQ(q, p)
  }

  ghost function Detach(k: Ks, p: int, st: PrState): Ks
    requires WfQ(k.q) && 0 <= p < NPROC == |k.procs|
  {
    SetState(k, p, st).(q := Without(k.q, p))
  }

  lemma WithoutOK(q: Qs, p: int)
    requires WfQ(q) && 0 <= p < NPROC
    ensures WfQ(Without(q, p)) && Without(q, p).home == q.home[p := EMPTY]
    ensures forall m :: 0 <= m < NQ && m != q.home[p] ==> Without(q, p).lists[m] == q.lists[m]
    ensures q.home[p] != SLEEPQ ==> Without(q, p).keys == q.keys
    ensures forall x :: 0 <= x < NPROC && q.home[x] != SLEEPQ ==> Without(q, p).keys[x] == q.keys[x]
  {
    if q.home[p] == EMPTY {
      assert q.home[p := EMPTY] == q.home;
    } else {
      var l := q.lists[q.home[p]];
      RemoveAtWf(q, q.home[p], IndexOf(l, p));
      if q.home[p] == SLEEPQ && IndexOf(l, p) + 1 < |l| { assert l[IndexOf(l, p) + 1] in l; }
    }
  }

  /** What Without does to the sleep queue and to the ready list. */
  lemma WithoutLists(k: Ks, p: int, ex: int)
    requires Core(k, ex) && 0 <= p < NPROC
    ensures var q := Without(k.q, p);
            && |q.lists| == NQ && |q.keys| == NPROC
            && Delta(q.keys, k.due, q.lists[SLEEPQ], k.now) && ReadyKeys(k.procs, q.keys, q.lists[READYQ])
  {
    hide Delta, Sorted, Homed, SemOK, ReadyKeys;
    WithoutOK(k.q, p);
    var q := Without(k.q, p);
    var l := k.q.lists[READYQ];
    if k.q.home[p] == SLEEPQ {
      DeltaIds(k.q.keys, k.due, k.q.lists[SLEEPQ], k.now);
      DeltaRemove(k.q.keys, k.due, k.q.lists[SLEEPQ], k.now, IndexOf(k.q.lists[SLEEPQ], p));
      OnOwn(k.q, READYQ);
      ReadyFrame(k.procs, k.procs, k.q.keys, q.keys, l);
    } else if k.q.home[p] == READYQ {
      ReadyRemove(k.procs, k.q.keys, l, IndexOf(l, p));
    }
  }

  lemma OnOwn(q: Qs, m: int)
    requires WfQ(q) && 0 <= m < NQ
    ensures forall i :: 0 <= i < |q.lists[m]| ==> 0 <= q.lists[m][i] < NPROC && q.home[q.lists[m][i]] == m
  {
  }

  /** A process other than the null process leaves whatever list it is on. */
  lemma DetachCore(k: Ks, p: int, st: PrState, ex: int)
    requires Core(k, ex) && 0 < p < NPROC && (st.PrSusp? || st.PrFree?)
    requires 0 <= k.q.home[p] < NSEM ==> ex == k.q.home[p]
    ensures Core(Detach(k, p, st), ex) && Detach(k, p, st).q.home[p] == EMPTY
  {
    hide Delta, ReadyKeys, Homed, NoDup, SemOK, Without, SemsOK;
    WithoutOK(k.q, p);
    WithoutLists(k, p, ex);
    var k' := Detach(k, p, st);
    SamePrios(k.procs, p, st, k'.q.keys, k'.q.lists[READYQ]);
    PlacedOff(k.procs, k.q.home, p, st);
    SemsFrame(k.sems, k.q.lists, k'.q.lists, ex);
  }

  lemma SamePrios(procs: seq<Proc>, p: int, st: PrState, keys: seq<int>, l: seq<int>)
    requires ReadyKeys(procs, keys, l) && 0 <= p < |procs|
    ensures ReadyKeys(procs[p := procs[p].(state := st)], keys, l)
  {
  }

  lemma PlacedOff(procs: seq<Proc>, home: seq<int>, p: int, st: PrState)
    requires Placed(procs, home) && 0 <= p < NPROC && Place(procs[p].(state := st)) == EMPTY && !st.PrWait?
    ensures Placed(procs[p := procs[p].(state := st)], home[p := EMPTY])
  {
  }

  lemma SemsFrame(sems: seq<Sem>, lists: seq<seq<int>>, lists': seq<seq<int>>, ex: int)
    requires SemsOK(sems, lists, ex) && |lists'| == |lists| && forall s :: 0 <= s < NSEM && s != ex ==> lists'[s] == lists[s]
    ensures SemsOK(sems, lists', ex)
  {
  }

  // -------------------------------------------------------------- resched

  lemma ReadyNonempty(k: Ks, ex: int)
    requires Core(k, ex) && !k.procs[k.curr].state.PrCurr?
    ensures k.q.lists[READYQ] != []
  {
    hide NoDup, Delta, Sorted, SemOK;
    assert k.q.home[NULLPROC] == READYQ;
  }

  ghost function ReschedK(k: Ks): Ks
    requires Core(k, -1)
  {
    if k.ndefers > 0 then k.(attempt := true)
    else if k.procs[k.curr].state.PrCurr? then
      if Stays(k) then k
      else MakeReadyCore(k, k.curr, -1); InsertedNonempty(k); Switch(MakeReady(k, k.curr))
    else ReadyNonempty(k, -1); Switch(k)
  }

  lemma InsertedNonempty(k: Ks)
    requires Core(k, -1) && 0 <= k.curr < NPROC
    ensures MakeReady(k, k.curr).q.lists[READYQ] != []
  {
  }

  lemma SwitchCore(k: Ks)
    requires Core(k, -1) && !k.procs[k.curr].state.PrCurr? && k.q.lists[READYQ] != []
    ensures Core(Switch(k), -1) && Running(Switch(k)) && TopPriority(Switch(k))
  {
    hide NoDup, Delta, SemOK;
    var p := k.q.lists[READYQ][0];
    RemoveAtWf(k.q, READYQ, 0);
    OnOwn(k.q, READYQ);
    var k' := Switch(k);
    ReadyRemove(k.procs, k.q.keys, k.q.lists[READYQ], 0);
    ReadyFrame(k.procs, k'.procs, k'.q.keys, k'.q.keys, k'.q.lists[READYQ]);
    var l, l' := k.q.lists[READYQ], k'.q.lists[READYQ];
    assert forall j :: 0 <= j < |l'| ==> l'[j] == l[j + 1];
    hide Homed, Removed;
  }

  /** resched leaves a process running, and when it is not deferred, the best one. */
  lemma ReschedCore(k: Ks)
    requires Core(k, -1) && 1 <= k.preempt <= QUANTUM && (k.ndefers > 0 ==> Running(k))
    ensures Core(ReschedK(k), -1) && Running(ReschedK(k))
    ensures k.ndefers == 0 ==> TopPriority(ReschedK(k))
    ensures ReschedK(k).now == k.now && ReschedK(k).due == k.due && ReschedK(k).q.lists[SLEEPQ] == k.q.lists[SLEEPQ]
  {
    hide NoDup, Delta, SemOK, Sorted, Homed;
    if k.ndefers > 0 {
    } else if k.procs[k.curr].state.PrCurr? {
      if Stays(k) {
        BestStays(k);
      } else {
        MakeReadyCore(k, k.curr, -1);
        InsertedNonempty(k);
        SwitchCore(MakeReady(k, k.curr));
      }
    } else {
      ReadyNonempty(k, -1);
      SwitchCore(k);
    }
  }

  lemma BestStays(k: Ks)
    requires Core(k, -1) && Stays(k)
    ensures TopPriority(k)
  {
    hide NoDup, Delta, SemOK, Homed;
  }
}
