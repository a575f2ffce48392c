// The process manager on plain values: process and semaphore tables, the lists
// as sequences, the running process, deferred rescheduling and the clock.
module KernelModel {
  import opened QueueTable

  const READYQ := NSEM
  const SLEEPQ := NSEM + 1
  const QUANTUM := 2
  const NULLPROC := 0

  datatype PrState = PrFree | PrCurr | PrReady | PrRecv | PrSleep | PrSusp | PrWait | PrRectim
  datatype Proc = Proc(state: PrState, prio: int, sem: int, parent: int, msg: int, hasmsg: bool)
  datatype Sem = Sem(used: bool, count: int)

  /** `now` counts clock ticks and `due` records, for each sleeper, the tick at
      which it asked to be woken; both only observe the run. */
  datatype Ks = Ks(procs: seq<Proc>, sems: seq<Sem>, q: Qs, curr: int, preempt: int,
                   ndefers: nat, attempt: bool, prcount: int, now: int, due: seq<int>)

  // ------------------------------------------------------------ invariant

  /** The list a process must be on, given its state. */
  function Place(p: Proc): int {
    match p.state
    case PrReady => READYQ
    case PrWait => p.sem
    case PrSleep => SLEEPQ
    case PrRectim => SLEEPQ
    case _ => EMPTY
  }

  ghost predicate Placed(procs: seq<Proc>, home: seq<int>) {
    && |procs| == |home| == NPROC
    && forall p :: 0 <= p < NPROC ==>
         home[p] == Place(procs[p]) && (procs[p].state.PrWait? ==> 0 <= procs[p].sem < NSEM)
  }

  ghost predicate OneCurr(procs: seq<Proc>, curr: int) {
    0 <= curr < |procs| && forall p :: 0 <= p < |procs| && procs[p].state.PrCurr? ==> p == curr
  }

  ghost predicate Sorted(keys: seq<int>, l: seq<int>) {
    && (forall i :: 0 <= i < |l| ==> 0 <= l[i] < |keys|)
    && forall i, j :: 0 <= i < j < |l| ==> keys[l[i]] >= keys[l[j]]
  }

  ghost predicate ReadyKeys(procs: seq<Proc>, keys: seq<int>, l: seq<int>) {
    && (forall i :: 0 <= i < |l| ==> 0 <= l[i] < |keys| == |procs| && keys[l[i]] == procs[l[i]].prio)
    && Sorted(keys, l)
  }

  ghost predicate Balanced(s: Sem, l: seq<int>) {
    if s.count < 0 then |l| == -s.count else l == []
  }

  ghost predicate SemOK(s: Sem, l: seq<int>) {
    if s.used then Balanced(s, l) else l == []
  }

  /** Every semaphore but `ex` is consistent with its queue. */
  ghost predicate SemsOK(sems: seq<Sem>, lists: seq<seq<int>>, ex: int) {
    |sems| == NSEM <= |lists| && forall s :: 0 <= s < NSEM && s != ex ==> SemOK(sems[s], lists[s])
  }

  ghost predicate MsgsOK(procs: seq<Proc>) {
    forall p :: 0 <= p < |procs| && (procs[p].state.PrRecv? || procs[p].state.PrRectim?) ==> !procs[p].hasmsg
  }

  /** The keys of a delta list are the differences between the due times. */
  ghost predicate Delta(keys: seq<int>, due: seq<int>, l: seq<int>, from: int) {
    l == [] ||
    (0 <= l[0] < |keys| == |due| && keys[l[0]] >= 0 && due[l[0]] == from + keys[l[0]] && Delta(keys, due, l[1..], due[l[0]]))
  }

  /** Every sleeper is due in the future, and by less than 2^31 ticks. */
  ghost predicate Future(due: seq<int>, l: seq<int>, now: int) {
    forall i :: 0 <= i < |l| ==> 0 <= l[i] < |due| && now < due[l[i]] < now + 0x8000_0000
  }

  ghost predicate NullOK(procs: seq<Proc>) {
    NULLPROC < |procs| && (procs[NULLPROC].state.PrCurr? || procs[NULLPROC].state.PrReady?)
  }

  ghost predicate PriosOK(procs: seq<Proc>) {
    forall p :: 0 <= p < |procs| ==> MINKEY < procs[p].prio <= MAXKEY
  }

  /** What holds in the middle of a call; `ex` is the semaphore being emptied. */
  ghost predicate Core(k: Ks, ex: int) {
    && WfQ(k.q) && |k.due| == NPROC
    && Placed(k.procs, k.q.home)
    && OneCurr(k.procs, k.curr)
    && ReadyKeys(k.procs, k.q.keys, k.q.lists[READYQ])
    && SemsOK(k.sems, k.q.lists, ex)
    && MsgsOK(k.procs)
    && Delta(k.q.keys, k.due, k.q.lists[SLEEPQ], k.now)
    && NullOK(k.procs) && PriosOK(k.procs)
  }

  /** No ready process has a higher priority than the running one. */
  ghost predicate TopPriority(k: Ks)
    requires 0 <= k.curr < |k.procs| && |k.q.lists| == NQ
  {
    forall i :: 0 <= i < |k.q.lists[READYQ]| ==>
      0 <= k.q.lists[READYQ][i] < |k.procs| && k.procs[k.q.lists[READYQ][i]].prio <= k.procs[k.curr].prio
  }

  ghost predicate Running(k: Ks) {
    0 <= k.curr < |k.procs| && k.procs[k.curr].state.PrCurr? && 1 <= k.preempt <= QUANTUM
  }

  /** What holds between calls. */
  ghost predicate KInv(k: Ks) {
    && Core(k, -1) && Running(k)
    && Future(k.due, k.q.lists[SLEEPQ], k.now)
    && (k.ndefers == 0 || !k.attempt ==> TopPriority(k))
  }

  // ------------------------------------------------------ steps of a call

  function SetState(k: Ks, p: int, st: PrState): Ks
    requires 0 <= p < |k.procs|
  {
    k.(procs := k.procs[p := k.procs[p].(state := st)])
  }

  /** ready without its final resched. */
  ghost function MakeReady(k: Ks, p: int): Ks
    requires WfQ(k.q) && 0 <= p < NPROC == |k.procs|
  {
    SetState(k, p, PrReady).(q := InsertQ(k.q, p, READYQ, k.procs[p].prio))
  }

  /** The context switch at the end of resched. */
  ghost function Switch(k: Ks): Ks
    requires WfQ(k.q) && |k.procs| == NPROC && k.q.lists[READYQ] != []
  {
    var p := k.q.lists[READYQ][0];
    SetState(k, p, PrCurr).(q := DequeueQ(k.q, READYQ), curr := p, preempt := QUANTUM)
  }

  /** The running process stays: rescheduling is deferred, or it is the best. */
  ghost predicate Stays(k: Ks)
    requires WfQ(k.q) && 0 <= k.curr < NPROC == |k.procs|
  {
    var l := k.q.lists[READYQ];
    k.procs[k.curr].state.PrCurr? && (l == [] || k.procs[k.curr].prio > k.q.keys[l[0]])
  }

  // ---------------------------------------------------- sorted insertion

  lemma InsPosBelow(keys: seq<int>, l: seq<int>, key: int)
    requires Sorted(keys, l)
    ensures forall j :: InsPos(keys, l, key) <= j < |l| ==> keys[l[j]] < key
  {
  }

  /** The keys of a list, in list order. */
  function Vals(keys: seq<int>, l: seq<int>): (v: seq<int>)
    requires forall i :: 0 <= i < |l| ==> 0 <= l[i] < |keys|
    ensures |v| == |l| && forall i :: 0 <= i < |l| ==> v[i] == keys[l[i]]
  {
    seq(|l|, i requires 0 <= i < |l| => keys[l[i]])
  }

  ghost predicate Descending(v: seq<int>) { forall i, j :: 0 <= i < j < |v| ==> v[i] >= v[j] }

  lemma SortedVals(keys: seq<int>, l: seq<int>)
    requires forall i :: 0 <= i < |l| ==> 0 <= l[i] < |keys|
    ensures Sorted(keys, l) <==> Descending(Vals(keys, l))
  {
    var v := Vals(keys, l);
    if Descending(v) {
      forall i, j | 0 <= i < j < |l| ensures keys[l[i]] >= keys[l[j]] { assert v[i] >= v[j]; }
    }
  }

  lemma DescendingInsert(v: seq<int>, i: int, key: int)
    requires Descending(v) && 0 <= i <= |v| && (forall j :: 0 <= j < i ==> v[j] >= key) && (forall j :: i <= j < |v| ==> v[j] < key)
    ensures Descending(Inserted(v, i, key))
  {
    var r := Inserted(v, i, key);
    assert forall j :: 0 <= j < |r| ==> r[j] == if j < i then v[j] else if j == i then key else v[j - 1];
    hide Inserted;
  }

  lemma ValsInsert(keys: seq<int>, l: seq<int>, i: int, p: int, key: int)
    requires (forall j :: 0 <= j < |l| ==> 0 <= l[j] < |keys|) && p !in l && 0 <= p < |keys| && 0 <= i <= |l|
    ensures forall j :: 0 <= j <= |l| ==> 0 <= Inserted(l, i, p)[j] < |keys|
    ensures Vals(keys[p := key], Inserted(l, i, p)) == Inserted(Vals(keys, l), i, key)
  {
    hide Inserted;
    var r, v := Inserted(l, i, p), Inserted(Vals(keys, l), i, key);
    InsertedLen(l, i, p);
    InsertedLen(Vals(keys, l), i, key);
    forall j | 0 <= j <= |l| ensures 0 <= r[j] < |keys| && keys[p := key][r[j]] == v[j] {
      InsertedAt(l, i, p, j);
      InsertedAt(Vals(keys, l), i, key, j);
      if j != i { assert r[j] in l; }
    }
  }

  lemma InsertedLen(l: seq<int>, i: int, p: int)
    requires 0 <= i <= |l|
    ensures |Inserted(l, i, p)| == |l| + 1
  {
  }

  lemma InsertedAt(l: seq<int>, i: int, p: int, j: int)
    requires 0 <= i <= |l| && 0 <= j <= |l|
    ensures |Inserted(l, i, p)| == |l| + 1
    ensures Inserted(l, i, p)[j] == if j < i then l[j] else if j == i then p else l[j - 1]
  {
  }

  lemma SortedInsert(keys: seq<int>, l: seq<int>, p: int, key: int)
    requires Sorted(keys, l) && p !in l && 0 <= p < |keys|
    ensures Sorted(keys[p := key], Inserted(l, InsPos(keys, l, key), p))
  {
    InsPosBelow(keys, l, key);
    SortedVals(keys, l);
    hide Inserted, Sorted, InsPos, Vals, Descending;
    var i := InsPos(keys, l, key);
    DescendingInsert(Vals(keys, l), i, key);
    ValsInsert(keys, l, i, p, key);
    SortedVals(keys[p := key], Inserted(l, i, p));
  }

  lemma SortedRemove(keys: seq<int>, l: seq<int>, i: int)
    requires Sorted(keys, l) && 0 <= i < |l|
    ensures Sorted(keys, Removed(l, i))
  {
    var l' := Removed(l, i);
    assert forall j :: 0 <= j < |l'| ==> l'[j] == if j < i then l[j] else l[j + 1];
  }

  lemma ReadyInsert(procs: seq<Proc>, keys: seq<int>, l: seq<int>, p: int)
    requires ReadyKeys(procs, keys, l) && p !in l && 0 <= p < |keys| == |procs|
    ensures var key := procs[p].prio; ReadyKeys(procs, keys[p := key], Inserted(l, InsPos(keys, l, key), p))
  {
    var key := procs[p].prio;
    var i := InsPos(keys, l, key);
    SortedInsert(keys, l, p, key);
    var l' := Inserted(l, i, p);
    assert forall j :: 0 <= j < |l'| ==> l'[j] == if j < i then l[j] else if j == i then p else l[j - 1];
    forall j | 0 <= j < |l| ensures l[j] != p { assert l[j] in l; }
    hide Sorted, InsPos, Inserted;
  }

  lemma ReadyRemove(procs: seq<Proc>, keys: seq<int>, l: seq<int>, i: int)
    requires ReadyKeys(procs, keys, l) && 0 <= i < |l|
    ensures ReadyKeys(procs, keys, Removed(l, i))
  {
    SortedRemove(keys, l, i);
    var l' := Removed(l, i);
    assert forall j :: 0 <= j < |l'| ==> l'[j] == if j < i then l[j] else l[j + 1];
  }

  /** Priorities and keys of the listed processes are all that matters. */
  lemma ReadyFrame(procs: seq<Proc>, procs': seq<Proc>, keys: seq<int>, keys': seq<int>, l: seq<int>)
    requires ReadyKeys(procs, keys, l) && |procs'| == |procs| == |keys| == |keys'|
    requires forall i :: 0 <= i < |l| ==> procs'[l[i]].prio == procs[l[i]].prio && keys'[l[i]] == keys[l[i]]
    ensures ReadyKeys(procs', keys', l)
  {
  }

  // --------------------------------------------------------- delta lists

  lemma {:induction false} DeltaFrame(keys: seq<int>, keys': seq<int>, due: seq<int>, due': seq<int>, l: seq<int>, from: int)
    requires Delta(keys, due, l, from) && |keys'| == |keys| == |due| == |due'|
    requires forall i :: 0 <= i < |l| && 0 <= l[i] < |keys| ==> keys'[l[i]] == keys[l[i]] && due'[l[i]] == due[l[i]]
    ensures Delta(keys', due', l, from)
    decreases |l|
  {
    if l != [] { DeltaFrame(keys, keys', due, due', l[1..], due[l[0]]); }
  }

  lemma {:induction false} DeltaIds(keys: seq<int>, due: seq<int>, l: seq<int>, from: int)
    requires Delta(keys, due, l, from)
    ensures forall i :: 0 <= i < |l| ==> 0 <= l[i] < |keys| == |due| && keys[l[i]] >= 0 && from <= due[l[i]]
    decreases |l|
  {
    if l != [] {
      DeltaIds(keys, due, l[1..], due[l[0]]);
      assert forall i :: 1 <= i < |l| ==> l[i] == l[1..][i - 1];
    }
  }

  /** The keys once insertd has put p at position i with delay rest. */
  function DKeys(keys: seq<int>, l: seq<int>, i: int, p: int, rest: int): (r: seq<int>)
    requires 0 <= i <= |l| && 0 <= p < |keys| && forall j :: 0 <= j < |l| ==> 0 <= l[j] < |keys|
    ensures |r| == |keys|
  {
    var keys1 := keys[p := rest];
    if i == |l| then keys1 else keys1[l[i] := keys1[l[i]] - rest]
  }

  lemma DeltaHead(keys: seq<int>, due: seq<int>, l: seq<int>, from: int, p: int, d: int)
    requires Delta(keys, due, l, from) && d >= 0 && 0 <= p < |keys| == |due| && p !in l && NoDup(l)
    requires forall j :: 0 <= j < |l| ==> 0 <= l[j] < |keys|
    requires l == [] || keys[l[0]] > d
    ensures Delta(DKeys(keys, l, 0, p, d), due[p := from + d], Inserted(l, 0, p), from)
  {
    assert Inserted(l, 0, p) == [p] + l;
    assert ([p] + l)[1..] == l;
    if l != [] { DeltaShift(keys, DKeys(keys, l, 0, p, d), due, due[p := from + d], l, from, d); }
  }

  lemma DKeysTail(keys: seq<int>, l: seq<int>, i: int, p: int, rest: int)
    requires 0 < i <= |l| && 0 <= p < |keys| && p !in l && NoDup(l) && forall j :: 0 <= j < |l| ==> 0 <= l[j] < |keys|
    ensures DKeys(keys, l[1..], i - 1, p, rest) == DKeys(keys, l, i, p, rest)
    ensures DKeys(keys, l, i, p, rest)[l[0]] == keys[l[0]]
    ensures Inserted(l, i, p)[0] == l[0] && Inserted(l, i, p)[1..] == Inserted(l[1..], i - 1, p)
  {
    assert i < |l| ==> l[1..][i - 1] == l[i] && l[i] != l[0];
  }

  /** insertd keeps every due time and adds the new one. */
  lemma {:induction false} DeltaInsert(keys: seq<int>, due: seq<int>, l: seq<int>, from: int, p: int, d: int)
    requires Delta(keys, due, l, from) && d >= 0 && 0 <= p < |keys| == |due| && p !in l && NoDup(l)
    requires forall j :: 0 <= j < |l| ==> 0 <= l[j] < |keys|
    ensures var (i, rest) := DPos(keys, l, d);
            Delta(DKeys(keys, l, i, p, rest), due[p := from + d], Inserted(l, i, p), from)
    decreases |l|
  {
    hide Inserted, DKeys;
    var (i, rest) := DPos(keys, l, d);
    if i == 0 {
      DeltaHead(keys, due, l, from, p, d);
    } else {
      DeltaInsert(keys, due, l[1..], due[l[0]], p, d - keys[l[0]]);
      DKeysTail(keys, l, i, p, rest);
    }
  }

  /** The first key may absorb a shift of the starting time. */
  lemma DeltaShift(keys: seq<int>, keys': seq<int>, due: seq<int>, due': seq<int>, l: seq<int>, from: int, d: int)
    requires Delta(keys, due, l, from) && l != [] && keys[l[0]] >= d && |keys'| == |keys| == |due| == |due'| && NoDup(l)
    requires keys'[l[0]] == keys[l[0]] - d
    requires forall i :: 0 <= i < |l| && 0 <= l[i] < |keys| ==> (i > 0 ==> keys'[l[i]] == keys[l[i]]) && due'[l[i]] == due[l[i]]
    ensures Delta(keys', due', l, from + d)
  {
    assert forall i :: 1 <= i < |l| ==> l[i] == l[1..][i - 1];
    DeltaFrame(keys, keys', due, due', l[1..], due[l[0]]);
  }

  /** unsleep: the process at position i leaves and its key goes to the next one. */
  ghost function UnsleepQ(s: Qs, p: int): Qs
    requires WfQ(s) && 0 <= p < NPROC && s.home[p] != EMPTY
  {
    var l := s.lists[s.home[p]];
    var i := IndexOf(l, p);
    RemoveQ(s, p).(keys := if i + 1 < |l| then s.keys[l[i + 1] := s.keys[l[i + 1]] + s.keys[p]] else s.keys)
  }

  lemma {:induction false} DeltaRemove(keys: seq<int>, due: seq<int>, l: seq<int>, from: int, i: int)
    requires Delta(keys, due, l, from) && 0 <= i < |l| && NoDup(l)
    requires forall j :: 0 <= j < |l| ==> 0 <= l[j] < |keys|
    ensures
      var keys' := if i + 1 < |l| then keys[l[i + 1] := keys[l[i + 1]] + keys[l[i]]] else keys;
      Delta(keys', due, Removed(l, i), from)
    decreases |l|
  {
    hide Removed;
    if i == 0 {
      DeltaPop(keys, due, l, from);
    } else {
      RemovedTail(l, i);
      DeltaRemove(keys, due, l[1..], due[l[0]], i - 1);
    }
  }

  lemma RemovedTail(l: seq<int>, i: int)
    requires 0 < i < |l| && NoDup(l)
    ensures Removed(l, i)[0] == l[0] && Removed(l, i)[1..] == Removed(l[1..], i - 1)
    ensures l[1..][i - 1] == l[i] && (i + 1 < |l| ==> l[1..][i] == l[i + 1] && l[i + 1] != l[0])
    ensures NoDup(l[1..]) && forall j :: 0 <= j < |l| - 1 ==> l[1..][j] == l[j + 1]
  {
  }

  lemma DeltaPop(keys: seq<int>, due: seq<int>, l: seq<int>, from: int)
    requires Delta(keys, due, l, from) && l != [] && NoDup(l) && forall j :: 0 <= j < |l| ==> 0 <= l[j] < |keys|
    ensures Delta(if 1 < |l| then keys[l[1] := keys[l[1]] + keys[l[0]]] else keys, due, Removed(l, 0), from)
  {
    var r := l[1..];
    assert Removed(l, 0) == r;
    if r != [] { DeltaShift(keys, keys[l[1] := keys[l[1]] + keys[l[0]]], due, due, r, due[l[0]], -keys[l[0]]); }
  }
}
