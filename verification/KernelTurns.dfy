// Fairness: processes of equal top priority take turns in a fixed cyclic order,
// and a semaphore releases its waiters in the order in which they arrived.
module KernelTurns {
  import opened QueueTable
  import opened KernelModel
  import opened KernelSteps
  import opened KernelCalls
  import opened KernelSleep

  // ---------------------------------------------------------- round robin

  /** The ready processes at the head of l with the given priority. */
  function Equals(procs: seq<Proc>, l: seq<int>, prio: int): (n: nat)
    requires forall i :: 0 <= i < |l| ==> 0 <= l[i] < |procs|
    ensures n <= |l|
    ensures forall i :: 0 <= i < n ==> procs[l[i]].prio == prio
    ensures n < |l| ==> procs[l[n]].prio != prio
  {
    if l == [] || procs[l[0]].prio != prio then 0 else 1 + Equals(procs, l[1..], prio)
  }

  /** The running process and the ready ones of its priority, in list order. */
  ghost function TopRing(k: Ks): seq<int>
    requires KInv(k)
  {
    CoreFacts(k, -1);
    OnOwn(k.q, READYQ);
    var l := k.q.lists[READYQ];
    [k.curr] + l[..Equals(k.procs, l, k.procs[k.curr].prio)]
  }

  ghost predicate Ring(procs: seq<Proc>, l: seq<int>, curr: int, ring: seq<int>, rest: seq<int>) {
    && ring != [] && curr == ring[0] && l == ring[1..] + rest && 0 <= curr < |procs|
    && (forall i :: 0 <= i < |l| ==> 0 <= l[i] < |procs|)
    && (forall i :: 0 <= i < |ring| - 1 ==> procs[l[i]].prio == procs[curr].prio)
    && (forall i :: |ring| - 1 <= i < |l| ==> procs[l[i]].prio < procs[curr].prio)
  }

  lemma RingOf(procs: seq<Proc>, keys: seq<int>, l: seq<int>, curr: int)
    requires ReadyKeys(procs, keys, l) && 0 <= curr < |procs| && (forall i :: 0 <= i < |l| ==> 0 <= l[i] < |procs|)
    requires forall i :: 0 <= i < |l| ==> procs[l[i]].prio <= procs[curr].prio
    ensures var n := Equals(procs, l, procs[curr].prio); Ring(procs, l, curr, [curr] + l[..n], l[n..])
  {
    hide ReadyKeys, Sorted, Equals;
    var n := Equals(procs, l, procs[curr].prio);
    BelowTop(procs, keys, l, curr, n);
    SplitRing(l, curr, n);
  }

  lemma SplitRing(l: seq<int>, c: int, n: nat)
    requires n <= |l|
    ensures l == ([c] + l[..n])[1..] + l[n..]
  {
    assert ([c] + l[..n])[1..] == l[..n];
  }

  lemma BelowTop(procs: seq<Proc>, keys: seq<int>, l: seq<int>, curr: int, n: nat)
    requires ReadyKeys(procs, keys, l) && 0 <= curr < |procs| && n <= |l|
    requires n < |l| ==> procs[l[n]].prio < procs[curr].prio
    ensures forall i :: n <= i < |l| ==> procs[l[i]].prio < procs[curr].prio
  {
    forall i | n <= i < |l| ensures procs[l[i]].prio < procs[curr].prio {
      assert keys[l[i]] <= keys[l[n]];
    }
  }

  lemma RingExists(k: Ks)
    requires KInv(k) && (k.ndefers == 0 || !k.attempt)
    ensures exists rest :: Ring(k.procs, k.q.lists[READYQ], k.curr, TopRing(k), rest)
  {
    hide Delta, SemOK, SemsOK, MsgsOK, Placed, NoDup, Homed, Future, ReadyKeys, Ring;
    CoreFacts(k, -1);
    OnOwn(k.q, READYQ);
    var l := k.q.lists[READYQ];
    RingOf(k.procs, k.q.keys, l, k.curr);
    assert Ring(k.procs, l, k.curr, TopRing(k), l[Equals(k.procs, l, k.procs[k.curr].prio)..]);
  }

  function Turn(ring: seq<int>): seq<int>
    requires ring != []
  {
    ring[1..] + [ring[0]]
  }

  lemma RingAlone(k: Ks, ring: seq<int>, rest: seq<int>)
    requires KInv(k) && k.ndefers == 0 && Ring(k.procs, k.q.lists[READYQ], k.curr, ring, rest) && |ring| == 1
    ensures ReschedK(k) == k && Turn(ring) == ring
  {
    hide Delta, SemOK, SemsOK, MsgsOK, Placed, NoDup, Homed, Future, TopPriority;
    CoreFacts(k, -1);
  }

  /** With company, the running process goes behind the others of the ring. */
  lemma RingMoves(k: Ks, ring: seq<int>, rest: seq<int>)
    requires Core(k, -1) && Running(k) && Ring(k.procs, k.q.lists[READYQ], k.curr, ring, rest) && |ring| > 1
    ensures var k1 := MakeReady(k, k.curr); k1.q.lists[READYQ] == Turn(ring)[..1] + (Turn(ring)[1..] + rest)
    ensures !Stays(k)
  {
    hide Delta, SemOK, SemsOK, MsgsOK, Placed, NoDup, Homed, InsPos, Sorted;
    var l := k.q.lists[READYQ];
    RingPos(k.procs, k.q.keys, l, k.curr, ring, rest);
    assert Inserted(l, |ring| - 1, k.curr) == ring[1..] + [ring[0]] + rest;
  }

  lemma RingPos(procs: seq<Proc>, keys: seq<int>, l: seq<int>, curr: int, ring: seq<int>, rest: seq<int>)
    requires Ring(procs, l, curr, ring, rest) && ReadyKeys(procs, keys, l)
    ensures InsPos(keys, l, procs[curr].prio) == |ring| - 1
  {
    hide Sorted;
    var m, key := |ring| - 1, procs[curr].prio;
    assert m < |l| ==> keys[l[m]] < key;
    assert forall j :: 0 <= j < m ==> keys[l[j]] == key;
  }

  lemma RingTurns(k: Ks, ring: seq<int>, rest: seq<int>)
    requires KInv(k) && k.ndefers == 0 && Ring(k.procs, k.q.lists[READYQ], k.curr, ring, rest)
    ensures KInv(ReschedK(k)) && ReschedK(k).ndefers == 0
    ensures var k' := ReschedK(k); Ring(k'.procs, k'.q.lists[READYQ], k'.curr, Turn(ring), rest)
  {
    ReschedInv(k);
    if |ring| == 1 {
      RingAlone(k, ring, rest);
    } else {
      RingMoves(k, ring, rest);
      RingNext(k, ring, rest);
    }
  }

  lemma RingNext(k: Ks, ring: seq<int>, rest: seq<int>)
    requires Core(k, -1) && Running(k) && k.ndefers == 0 && !Stays(k)
    requires Ring(k.procs, k.q.lists[READYQ], k.curr, ring, rest) && |ring| > 1
    requires MakeReady(k, k.curr).q.lists[READYQ] == Turn(ring)[..1] + (Turn(ring)[1..] + rest)
    ensures ReschedK(k).ndefers == 0
    ensures var k' := ReschedK(k); Ring(k'.procs, k'.q.lists[READYQ], k'.curr, Turn(ring), rest)
  {
    hide Delta, SemOK, SemsOK, MsgsOK, Placed, NoDup, Homed, InsertQ, ReadyKeys, Stays, Ring;
    CoreFacts(k, -1);
    MakeReadyCore(k, k.curr, -1);
    var k1 := MakeReady(k, k.curr);
    var k' := ReschedK(k);
    assert k' == Switch(k1);
    SwitchTo(k1, Turn(ring)[0], Turn(ring)[1..] + rest);
    RingShift(k.procs, k'.procs, k.q.lists[READYQ], k.curr, ring, rest);
  }

  lemma SwitchTo(k: Ks, p: int, l: seq<int>)
    requires WfQ(k.q) && |k.procs| == NPROC && k.q.lists[READYQ] == [p] + l
    ensures Switch(k).curr == p && Switch(k).q.lists[READYQ] == l && Switch(k).ndefers == k.ndefers
    ensures forall x :: 0 <= x < NPROC ==> Switch(k).procs[x].prio == k.procs[x].prio
    ensures |Switch(k).procs| == NPROC
  {
    hide NoDup;
    assert Removed([p] + l, 0) == l;
  }

  lemma RingShift(procs: seq<Proc>, procs': seq<Proc>, l: seq<int>, curr: int, ring: seq<int>, rest: seq<int>)
    requires Ring(procs, l, curr, ring, rest) && |ring| > 1 && |procs'| == |procs|
    requires forall x :: 0 <= x < |procs| ==> procs'[x].prio == procs[x].prio
    ensures Ring(procs', Turn(ring)[1..] + rest, Turn(ring)[0], Turn(ring), rest)
  {
    var l', c := Turn(ring)[1..] + rest, Turn(ring)[0];
    assert c == l[0];
    forall i | 0 <= i < |l'|
      ensures 0 <= l'[i] < |procs| && (if i < |ring| - 1 then procs[l'[i]].prio == procs[c].prio else procs[l'[i]].prio < procs[c].prio)
    {
      if i < |ring| - 2 {
        assert l'[i] == l[i + 1];
      } else if i == |ring| - 2 {
        assert l'[i] == curr;
      } else {
        assert l'[i] == l[i];
      }
    }
  }

  /** The state after n rescheds. */
  ghost function Rescheds(k: Ks, n: nat): (r: Ks)
    requires KInv(k)
    ensures KInv(r)
  {
    if n == 0 then k else ReschedInv(Rescheds(k, n - 1)); ReschedK(Rescheds(k, n - 1))
  }

  ghost function Turns(ring: seq<int>, n: nat): (r: seq<int>)
    requires ring != []
    ensures |r| == |ring|
  {
    if n == 0 then ring else Turn(Turns(ring, n - 1))
  }

  lemma {:induction false} TurnsAt(ring: seq<int>, n: nat, i: nat)
    requires i < |ring|
    ensures Turns(ring, n)[i] == ring[(n + i) % |ring|]
    decreases n
  {
    if n > 0 {
      var j := if i < |ring| - 1 then i + 1 else 0;
      assert Turns(ring, n)[i] == Turns(ring, n - 1)[j];
      TurnsAt(ring, n - 1, j);
      if j == 0 { ModWrap(n, i, |ring|); }
    }
  }

  lemma ModWrap(n: int, i: int, m: int)
    requires i == m - 1 && m > 0 && n > 0
    ensures (n + i) % m == (n - 1) % m
  {
    var q, r := (n - 1) / m, (n - 1) % m;
    var d := q + 1 - (n + i) / m;
    assert m * d == (n + i) % m - r by { assert n + i == m * (q + 1) + r; }
    Multiple(m, d);
  }

  lemma Multiple(m: int, d: int)
    requires m > 0 && -m < m * d < m
    ensures d == 0
  {
  }

  lemma {:induction false} RingAfter(k: Ks, n: nat, ring: seq<int>, rest: seq<int>)
    requires KInv(k) && k.ndefers == 0 && Ring(k.procs, k.q.lists[READYQ], k.curr, ring, rest)
    ensures var k' := Rescheds(k, n);
            KInv(k') && k'.ndefers == 0 && Ring(k'.procs, k'.q.lists[READYQ], k'.curr, Turns(ring, n), rest)
    decreases n
  {
    hide KInv;
    if n > 0 {
      RingAfter(k, n - 1, ring, rest);
      RingTurns(Rescheds(k, n - 1), Turns(ring, n - 1), rest);
    }
  }

  /** Successive rescheds dispatch the processes of top priority in cyclic order. */
  lemma RoundRobin(k: Ks, n: nat)
    requires KInv(k) && k.ndefers == 0
    ensures Rescheds(k, n).curr == TopRing(k)[n % |TopRing(k)|]
  {
    hide Core, TopPriority, Future, TopRing, Rescheds, Turns;
    CoreFacts(k, -1);
    RingExists(k);
    var ring := TopRing(k);
    var rest :| Ring(k.procs, k.q.lists[READYQ], k.curr, ring, rest);
    RingAfter(k, n, ring, rest);
    TurnsAt(ring, n, 0);
  }

  /** The end of the outermost deferral makes up for all attempts with one turn. */
  lemma DeferredTurn(k: Ks)
    requires KInv(k) && k.ndefers == 1 && k.attempt && |k.q.lists| == NQ
    ensures KInv(DeferStop(k)) && DeferStop(k).ndefers == 0 && TopPriority(DeferStop(k))
    ensures TopPriority(k) ==> KInv(k.(ndefers := 0)) && DeferStop(k).curr == TopRing(k.(ndefers := 0))[1 % |TopRing(k.(ndefers := 0))|]
  {
    hide Core;
    CoreFacts(k, -1);
    DeferStopInv(k);
    SameCore(k);
    NdefersKept(k.(ndefers := 0));
    if TopPriority(k) {
      RoundRobin(k.(ndefers := 0), 1);
      assert Rescheds(k.(ndefers := 0), 0) == k.(ndefers := 0);
    }
  }

  lemma SameCore(k: Ks)
    requires Core(k, -1)
    ensures Core(k.(ndefers := 0), -1)
  {
    hide Delta, SemOK, SemsOK, MsgsOK, Placed, NoDup, Homed, WfQ, ReadyKeys;
  }

  lemma NdefersKept(k: Ks)
    requires Core(k, -1)
    ensures ReschedK(k).ndefers == k.ndefers
  {
    hide Delta, SemOK, SemsOK, MsgsOK, Placed, NoDup, Homed;
  }

  // ------------------------------------------------------ semaphore queues

  /** Between them, wait and signal make a semaphore a first-come queue. */
  lemma WaitJoins(k: Ks, s: int)
    requires KInv(k) && !BadSem(k, s) && k.sems[s].count <= 0 && k.curr != NULLPROC && k.ndefers == 0
    ensures WaitK(k, s).q.lists[s] == k.q.lists[s] + [k.curr]
    ensures forall m :: 0 <= m < NSEM && m != s ==> WaitK(k, s).q.lists[m] == k.q.lists[m]
    ensures WaitK(k, s).curr != k.curr
  {
    hide Core, Future, TopPriority, SemOK;
    CoreFacts(k, -1);
    WaitCore(k, s);
    var k1 := BlockOn(SetCount(k, s, k.sems[s].count - 1), s);
    CoreFacts(k1, -1);
    assert k1.q.lists[s] == k.q.lists[s] + [k.curr];
    ReschedLists(k1);
    ReschedDrops(k1);
  }

  /** resched changes no list but the ready list. */
  lemma ReschedLists(k: Ks)
    requires Core(k, -1)
    ensures |ReschedK(k).q.lists| == NQ == |k.q.lists|
    ensures forall m :: 0 <= m < NQ && m != READYQ ==> ReschedK(k).q.lists[m] == k.q.lists[m]
  {
    hide Delta, SemOK, SemsOK, MsgsOK, Placed, NoDup, Homed, ReadyKeys;
  }

  lemma ReschedDrops(k: Ks)
    requires Core(k, -1) && k.ndefers == 0 && 0 <= k.curr < NPROC && 0 <= k.q.home[k.curr] < NSEM
    ensures ReschedK(k).curr != k.curr
  {
    hide Delta, SemOK, SemsOK, MsgsOK, NoDup, ReadyKeys;
    ReadyNonempty(k, -1);
    OnOwn(k.q, READYQ);
  }

  /** signal releases the process that has waited longest. */
  lemma SignalReleases(k: Ks, s: int)
    requires KInv(k) && !BadSem(k, s) && k.sems[s].count < 0
    ensures k.q.lists[s] != [] && s < |SignalK(k, s).q.lists| && SignalK(k, s).q.lists[s] == k.q.lists[s][1..]
    ensures var p, k' := k.q.lists[s][0], SignalK(k, s);
            && 0 <= p < |k'.procs| && (k'.procs[p].state.PrReady? || k'.procs[p].state.PrCurr?)
            && s < |k'.sems| && k'.sems[s].count == k.sems[s].count + 1
  {
    hide Core, Future, TopPriority, SemOK, InsertQ, Without;
    CoreFacts(k, -1);
    SignalCore(k, s);
    OnOwn(k.q, s);
    SignalInv(k, s);
    var k1 := Released(SetCount(k, s, k.sems[s].count + 1), s);
    CoreFacts(k1, -1);
    CoreFacts(SignalK(k, s), -1);
    ReschedLists(k1);
    ReschedWoken(k1, k.q.lists[s][0]);
  }

  lemma ReschedWoken(k: Ks, p: int)
    requires Core(k, -1) && 0 <= p < NPROC && (k.procs[p].state.PrReady? || k.procs[p].state.PrCurr?)
    ensures ReschedK(k).sems == k.sems && |ReschedK(k).procs| == NPROC
    ensures var st := ReschedK(k).procs[p].state; st.PrReady? || st.PrCurr?
  {
    hide Core, ReschedK;
    ReschedAwake(k, p);
    ReschedSems(k);
  }

  lemma ReschedSems(k: Ks)
    requires Core(k, -1)
    ensures ReschedK(k).sems == k.sems
  {
    hide Delta, SemOK, SemsOK, MsgsOK, Placed, NoDup, Homed, ReadyKeys;
  }
}
