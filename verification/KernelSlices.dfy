// Time slicing: while the processes of top priority make no calls, the clock
// takes the processor from one to the next after every quantum.
module KernelSlices {
  import opened QueueTable
  import opened KernelModel
  import opened KernelSteps
  import opened KernelCalls
  import opened KernelClock
  import opened KernelRuns
  import opened KernelSleep
  import opened KernelTurns

  /** The preemption counts among the first n steps. */
  function Preempts(steps: seq<Step>, n: nat): nat
    requires n <= |steps|
  {
    if n == 0 then 0 else Preempts(steps, n - 1) + if steps[n - 1].Preempt? then 1 else 0
  }

  /** The slices that m counts end, and what is left of the slice after them. */
  function Slices(left: nat, m: nat): nat
    requires 1 <= left <= QUANTUM
  {
    if m < left then 0 else 1 + (m - left) / QUANTUM
  }

  function Left(left: nat, m: nat): nat
    requires 1 <= left <= QUANTUM
  {
    if m < left then left - m else QUANTUM - (m - left) % QUANTUM
  }

  lemma NextCount(left: nat, m: nat)
    requires 1 <= left <= QUANTUM
    ensures 1 <= Left(left, m) <= QUANTUM
    ensures Left(left, m + 1) == if Left(left, m) == 1 then QUANTUM else Left(left, m) - 1
    ensures Slices(left, m + 1) == Slices(left, m) + if Left(left, m) == 1 then 1 else 0
  {
  }

  /** Nobody on the sleep queue is due before tick t. */
  ghost predicate NoneDue(k: Ks, t: int) {
    |k.q.lists| == NQ && forall i :: 0 <= i < |k.q.lists[SLEEPQ]| ==> 0 <= k.q.lists[SLEEPQ][i] < |k.due| && k.due[k.q.lists[SLEEPQ][i]] > t
  }

  /** The ring as it stands after j turns, with r counts left in the slice. */
  ghost predicate Standing(k: Ks, ring: seq<int>, rest: seq<int>, j: nat, r: nat) {
    && ring != [] && k.ndefers == 0 && k.preempt == r && |k.q.lists| == NQ
    && Ring(k.procs, k.q.lists[READYQ], k.curr, Turns(ring, j), rest)
  }

  /** A tick on which nobody is due only counts. */
  lemma QuietTick(k: Ks, ring: seq<int>, rest: seq<int>, j: nat, r: nat, t: int)
    requires KInv(k) && Standing(k, ring, rest, j, r) && NoneDue(k, t) && t >= k.now + 1
    ensures Standing(TickK(k), ring, rest, j, r) && NoneDue(TickK(k), t) && TickK(k).now == k.now + 1
  {
    hide Core, TopPriority, Future, Ring, Turns;
    CoreFacts(k, -1);
    ElapseCore(k);
    TickDue(k);
  }

  lemma ReschedFull(k: Ks)
    requires Core(k, -1) && k.ndefers == 0 && k.preempt == QUANTUM
    ensures var k' := ReschedK(k);
            k'.preempt == QUANTUM && k'.now == k.now && k'.due == k.due && |k'.q.lists| == NQ && k'.q.lists[SLEEPQ] == k.q.lists[SLEEPQ]
  {
    hide Delta, SemOK, SemsOK, MsgsOK, Placed, NoDup, Homed, ReadyKeys;
  }

  /** A preemption count takes one from the slice, or ends it with a turn. */
  lemma CountDown(k: Ks, ring: seq<int>, rest: seq<int>, j: nat, r: nat, t: int)
    requires KInv(k) && Standing(k, ring, rest, j, r) && NoneDue(k, t)
    ensures if r == 1 then Standing(PreemptK(k), ring, rest, j + 1, QUANTUM) else r > 1 && Standing(PreemptK(k), ring, rest, j, r - 1)
    ensures NoneDue(PreemptK(k), t) && PreemptK(k).now == k.now
  {
    hide Core, TopPriority, Future, Ring, ReschedK;
    if r == 1 {
      var k1 := k.(preempt := QUANTUM);
      Refilled(k);
      ReschedFull(k1);
      RingTurns(k1, Turns(ring, j), rest);
    }
  }

  lemma Refilled(k: Ks)
    requires KInv(k)
    ensures KInv(k.(preempt := QUANTUM))
  {
    hide Delta, ReadyKeys, WfQ, SemOK, Placed, SemsOK, Future;
  }

  lemma {:induction false} SlicesAfter(k: Ks, steps: seq<Step>, n: nat, ring: seq<int>, rest: seq<int>, t: int)
    requires KInv(k) && CanRun(k, steps) && n <= |steps| && (forall i :: 0 <= i < n ==> steps[i].Tick? || steps[i].Preempt?)
    requires Standing(k, ring, rest, 0, k.preempt) && 1 <= k.preempt <= QUANTUM
    requires NoneDue(k, t) && k.now + Ticks(steps, n) <= t
    ensures var k', m := After(k, steps, n), Preempts(steps, n);
            && Standing(k', ring, rest, Slices(k.preempt, m), Left(k.preempt, m))
            && NoneDue(k', t) && k'.now == k.now + Ticks(steps, n)
  {
    hide KInv, StepK, Allowed, After, CanRun, Standing, NoneDue, Slices, Left;
    if n == 0 {
      FirstState(k, steps);
      AtFirst(k.preempt);
    } else {
      SlicesAfter(k, steps, n - 1, ring, rest, t);
      AfterStep(k, steps, n - 1);
      var k1, m := After(k, steps, n - 1), Preempts(steps, n - 1);
      NextCount(k.preempt, m);
      SliceStep(k1, steps[n - 1], ring, rest, Slices(k.preempt, m), Left(k.preempt, m), t);
    }
  }

  lemma AtFirst(left: nat)
    requires 1 <= left <= QUANTUM
    ensures Slices(left, 0) == 0 && Left(left, 0) == left
  {
  }

  lemma NoTurn(ring: seq<int>)
    requires ring != []
    ensures Turns(ring, 0) == ring
  {
  }

  lemma SliceStep(k: Ks, st: Step, ring: seq<int>, rest: seq<int>, j: nat, r: nat, t: int)
    requires KInv(k) && Allowed(k, st) && (st.Tick? || st.Preempt?) && Standing(k, ring, rest, j, r) && NoneDue(k, t)
    requires st.Tick? ==> k.now + 1 <= t
    ensures var k' := StepK(k, st);
            && NoneDue(k', t) && k'.now == k.now + (if st.Tick? then 1 else 0)
            && if st.Tick? then Standing(k', ring, rest, j, r)
               else if r == 1 then Standing(k', ring, rest, j + 1, QUANTUM) else r > 1 && Standing(k', ring, rest, j, r - 1)
  {
    hide KInv, Standing, NoneDue, TickK, PreemptK;
    if st.Tick? { QuietTick(k, ring, rest, j, r, t); } else { CountDown(k, ring, rest, j, r, t); }
  }

  /** Round robin by the clock.  If the processes of top priority make no calls and
      no sleeper comes due, then the slice of the running process ends with the
      count that was left of it, every later slice lasts QUANTUM counts, and each
      time the next process of the ring runs. */
  lemma TimeSlices(k: Ks, steps: seq<Step>, n: nat)
    requires KInv(k) && k.ndefers == 0 && CanRun(k, steps) && n <= |steps|
    requires forall i :: 0 <= i < n ==> steps[i].Tick? || steps[i].Preempt?
    requires NoneDue(k, k.now + Ticks(steps, n))
    ensures var ring, m := TopRing(k), Preempts(steps, n);
            var j := if m < k.preempt then 0 else 1 + (m - k.preempt) / QUANTUM;
            ring != [] && After(k, steps, n).curr == ring[j % |ring|]
  {
    hide Core, TopPriority, Future, TopRing, Turns, After, CanRun, StepK, Allowed, NoneDue, Preempts, Ticks;
    CoreFacts(k, -1);
    RingExists(k);
    var ring := TopRing(k);
    var rest :| Ring(k.procs, k.q.lists[READYQ], k.curr, ring, rest);
    NoTurn(ring);
    SlicesAfter(k, steps, n, ring, rest, k.now + Ticks(steps, n));
    TurnsAt(ring, Slices(k.preempt, Preempts(steps, n)), 0);
  }

  /** yield, and sleep for no time at all, let the next process of the ring run. */
  lemma YieldsTurn(k: Ks)
    requires KInv(k) && k.ndefers == 0
    ensures var ring := TopRing(k);
            StepK(k, Yield).curr == ring[1 % |ring|] && StepK(k, Sleep(0)).curr == ring[1 % |ring|]
  {
    hide Core, TopPriority, Future, TopRing, ReschedK;
    RoundRobin(k, 1);
    assert Rescheds(k, 0) == k;
  }
}
