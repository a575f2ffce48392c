// Buffer pools as a state machine: getters that block, getters released but not
// yet run, and buffers in the hands of their callers.
module BufferPools {
  import opened KernelModel
  import opened QueueTable
  import opened PortModel
  import opened PortSteps
  import opened PortRuns

  /** A buffer in the hands of a caller. */
  datatype Buf = Buf(pool: int, addr: int)

  /** side is the semaphore of the pool; its lost units are those of killed getters.
      slots are the buffers that the pool was made of. */
  datatype Pool = Pool(side: Side, free: seq<int>, slots: seq<int>)

  const NBPOOLS := 20

  datatype Bs = Bs(pools: seq<Pool>, pcs: seq<Pc>, out: seq<Buf>, broken: bool)

  /** A process inside getbuf, in or after its wait. */
  function Getter(p: int, woken: bool): Pc { At(Receiver, p, 0, 0, woken) }

  // ------------------------------------------------------------- invariant

  /** Free buffers: each is counted by the semaphore, held back for a released
      getter, lost, or about to be taken by the running process. */
  ghost predicate PoolOK(pl: Pool, p: int, pcs: seq<Pc>, d: nat) {
    && WaitList(pcs, pl.side.queue, Receiver, p) && pl.side.sem.used && Balanced(pl.side.sem, pl.side.queue)
    && Pos(pl.side.sem.count) + Held(pcs, Receiver, p, 0) + pl.side.lost + d == |pl.free|
  }

  ghost predicate PcsOK(pcs: seq<Pc>, pools: nat) {
    forall i :: 0 <= i < |pcs| ==>
      pcs[i].Outside? || (pcs[i].At? && 0 <= pcs[i].port < pools && pcs[i] == Getter(pcs[i].port, pcs[i].woken))
  }

  ghost predicate OutOK(out: seq<Buf>, pools: nat) {
    forall j :: 0 <= j < |out| ==> 0 <= out[j].pool < pools
  }

  ghost predicate BInv(b: Bs) {
    && !b.broken && PcsOK(b.pcs, |b.pools|) && OutOK(b.out, |b.pools|) && |b.pools| <= NBPOOLS
    && (forall p :: 0 <= p < |b.pools| ==> PoolOK(b.pools[p], p, b.pcs, 0))
  }

  /** How often the buffer at x of pool p is on the free list or with a caller. */
  function OutCount(out: seq<Buf>, p: int, x: int): nat { multiset(out)[Buf(p, x)] }

  function Places(b: Bs, p: int, x: int): nat
    requires 0 <= p < |b.pools|
  {
    Count(b.pools[p].free, x) + OutCount(b.out, p, x)
  }

  /** Every slot of every pool is in exactly one place, and nothing else is. */
  ghost predicate SlotsOnce(b: Bs) {
    forall p, x :: 0 <= p < |b.pools| ==> Places(b, p, x) == One(x in b.pools[p].slots)
  }

  // ----------------------------------------------------------------- steps

  /** getbuf once its wait is over: the first buffer leaves the list. */
  function Grab(b: Bs, p: int, pl: Pool, pcs: seq<Pc>): Bs
    requires 0 <= p < |b.pools|
  {
    if pl.free == [] then b.(broken := true)
    else b.(pools := b.pools[p := pl.(free := pl.free[1..])], pcs := pcs, out := b.out + [Buf(p, pl.free[0])])
  }

  function Get(b: Bs, i: int, p: int): Bs
    requires 0 <= i < |b.pcs|
  {
    if !(0 <= p < |b.pools|) then b
    else
      var pl := b.pools[p];
      var pl1 := pl.(side := WaitSide(pl.side, i));
      if pl.side.sem.count > 0 then Grab(b, p, pl1, b.pcs)
      else b.(pools := b.pools[p := pl1], pcs := b.pcs[i := Getter(p, false)])
  }

  function Got(b: Bs, i: int): Bs
    requires 0 <= i < |b.pcs| && b.pcs[i].At? && 0 <= b.pcs[i].port < |b.pools|
  {
    Grab(b, b.pcs[i].port, b.pools[b.pcs[i].port], b.pcs[i := Outside])
  }

  function CutOut(out: seq<Buf>, j: int): seq<Buf>
    requires 0 <= j < |out|
  {
    out[..j] + out[j + 1..]
  }

  /** freebuf of the j-th buffer that is with a caller. */
  function Free(b: Bs, j: int): Bs
    requires 0 <= j < |b.out| && 0 <= b.out[j].pool < |b.pools|
  {
    var p, pl := b.out[j].pool, b.pools[b.out[j].pool];
    b.(pools := b.pools[p := Pool(SignalSide(pl.side), [b.out[j].addr] + pl.free, pl.slots)],
       pcs := SignalPcs(pl.side, b.pcs), out := CutOut(b.out, j))
  }

  function Drop(b: Bs, i: int): Bs
    requires 0 <= i < |b.pcs| && b.pcs[i].At? && 0 <= b.pcs[i].port < |b.pools|
    requires !b.pcs[i].woken ==> i in b.pools[b.pcs[i].port].side.queue
  {
    var p, s := b.pcs[i].port, b.pools[b.pcs[i].port].side;
    var s' := if b.pcs[i].woken then s.(lost := s.lost + 1) else Unqueued(s, i);
    b.(pools := b.pools[p := b.pools[p].(side := s')], pcs := b.pcs[i := Outside])
  }

  /** mkbufpool: a new pool whose buffers are all free, if the table has room. */
  function Make(b: Bs, bufs: seq<int>): Bs {
    if |b.pools| >= NBPOOLS then b
    else b.(pools := b.pools + [Pool(Side(Sem(true, |bufs|), [], 0), bufs, bufs)])
  }

  // ----------------------------------------------------- one pool at a time

  lemma TakeUnit(pl: Pool, p: int, pcs: seq<Pc>, i: int)
    requires PoolOK(pl, p, pcs, 0) && pl.side.sem.count > 0
    ensures PoolOK(pl.(side := WaitSide(pl.side, i)), p, pcs, 1)
  {
    hide WaitList, Held;
  }

  lemma JoinQueue(pl: Pool, p: int, pcs: seq<Pc>, i: int)
    requires PoolOK(pl, p, pcs, 0) && pl.side.sem.count <= 0 && 0 <= i < |pcs| && pcs[i].Outside?
    ensures PoolOK(pl.(side := WaitSide(pl.side, i)), p, pcs[i := Getter(p, false)], 0)
  {
    hide WaitList, Held;
    JoinWaitList(pcs, pl.side.queue, Receiver, p, i, Getter(p, false));
    HeldUpdate(pcs, i, Getter(p, false), Receiver, p, 0);
  }

  lemma LeaveWithUnit(pl: Pool, p: int, pcs: seq<Pc>, i: int)
    requires PoolOK(pl, p, pcs, 0) && 0 <= i < |pcs| && pcs[i] == Getter(p, true)
    ensures PoolOK(pl, p, pcs[i := Outside], 1)
  {
    hide WaitList, Held;
    SameWaitList(pcs, pl.side.queue, Receiver, p, i, Outside);
    HeldUpdate(pcs, i, Outside, Receiver, p, 0);
  }

  /** A getter with a unit in its hands always finds a buffer. */
  lemma FindsOne(pl: Pool, p: int, pcs: seq<Pc>)
    requires PoolOK(pl, p, pcs, 1)
    ensures pl.free != [] && PoolOK(pl.(free := pl.free[1..]), p, pcs, 0)
  {
    hide WaitList, Held;
  }

  lemma GiveUnit(pl: Pool, p: int, pcs: seq<Pc>, x: int)
    requires PoolOK(pl, p, pcs, 0) && (forall i :: 0 <= i < |pcs| ==> pcs[i].At? ==> pcs[i].ptseq == 0)
    ensures PoolOK(Pool(SignalSide(pl.side), [x] + pl.free, pl.slots), p, SignalPcs(pl.side, pcs), 0)
  {
    hide WaitList, Held;
    var q := pl.side.queue;
    if pl.side.sem.count < 0 {
      FirstWaits(pcs, q, Receiver, p);
      PopWaitList(pcs, q, Receiver, p);
      HeldUpdate(pcs, q[0], Wake(pcs[q[0]]), Receiver, p, 0);
    }
  }

  lemma DropOK(pl: Pool, p: int, pcs: seq<Pc>, i: int)
    requires PoolOK(pl, p, pcs, 0) && 0 <= i < |pcs| && pcs[i].At? && pcs[i] == Getter(p, pcs[i].woken)
    ensures !pcs[i].woken ==> i in pl.side.queue
    ensures var s := pl.side;
            PoolOK(pl.(side := if pcs[i].woken then s.(lost := s.lost + 1) else Unqueued(s, i)), p, pcs[i := Outside], 0)
  {
    hide Held;
    HeldUpdate(pcs, i, Outside, Receiver, p, 0);
    if pcs[i].woken {
      SameWaitList(pcs, pl.side.queue, Receiver, p, i, Outside);
    } else {
      assert i in pl.side.queue <==> Blocked(pcs[i], Receiver, p);
      LeaveWaitList(pcs, pl.side.queue, Receiver, p, i);
    }
    hide WaitList;
  }

  lemma PoolFrame(pl: Pool, p: int, pcs: seq<Pc>, pcs': seq<Pc>)
    requires PoolOK(pl, p, pcs, 0) && NotConcerned(pcs, pcs', p)
    ensures PoolOK(pl, p, pcs', 0)
  {
    hide WaitList, Held, NotConcerned;
    WaitFrame(pcs, pcs', pl.side.queue, Receiver, p);
    HeldFrame(pcs, pcs', Receiver, p, 0);
  }

  lemma OnePool(b: Bs, p: int, pl: Pool, pcs: seq<Pc>, out: seq<Buf>)
    requires BInv(b) && 0 <= p < |b.pools| && PoolOK(pl, p, pcs, 0) && OnlyAt(b.pcs, pcs, p) && PcsOK(pcs, |b.pools|)
    requires OutOK(out, |b.pools|)
    ensures BInv(b.(pools := b.pools[p := pl], pcs := pcs, out := out))
  {
    hide PoolOK;
    forall q | 0 <= q < |b.pools| && q != p ensures PoolOK(b.pools[q], q, pcs, 0) {
      PoolFrame(b.pools[q], q, b.pcs, pcs);
    }
  }

  // --------------------------------------------------- every step keeps it

  /** The pools that were there are made of the same slots, and each slot is in as
      many places as before. */
  ghost predicate Kept(b: Bs, b': Bs) {
    && |b.pools| <= |b'.pools|
    && (forall q :: 0 <= q < |b.pools| ==> b'.pools[q].slots == b.pools[q].slots)
    && (forall q, x :: 0 <= q < |b.pools| ==> Places(b', q, x) == Places(b, q, x))
  }

  lemma GrabInv(b: Bs, p: int, pl: Pool, pcs: seq<Pc>)
    requires BInv(b) && 0 <= p < |b.pools| && pl.free == b.pools[p].free && pl.slots == b.pools[p].slots
    requires PoolOK(pl, p, pcs, 1) && OnlyAt(b.pcs, pcs, p) && PcsOK(pcs, |b.pools|)
    ensures var b' := Grab(b, p, pl, pcs);
            BInv(b') && Kept(b, b')
  {
    hide PoolOK, PcsOK, OnlyAt;
    FindsOne(pl, p, pcs);
    OnePool(b, p, pl.(free := pl.free[1..]), pcs, b.out + [Buf(p, pl.free[0])]);
    var b' := Grab(b, p, pl, pcs);
    forall q, x | 0 <= q < |b.pools| ensures Places(b', q, x) == Places(b, q, x) {
      assert pl.free == [pl.free[0]] + pl.free[1..];
      CountConcat([pl.free[0]], pl.free[1..], x);
    }
  }

  lemma GetInv(b: Bs, i: int, p: int)
    requires BInv(b) && 0 <= i < |b.pcs| && b.pcs[i].Outside?
    ensures var b' := Get(b, i, p);
            BInv(b') && Kept(b, b')
  {
    hide PoolOK;
    if 0 <= p < |b.pools| {
      var pl := b.pools[p];
      assert PoolOK(pl, p, b.pcs, 0);
      if pl.side.sem.count > 0 {
        TakeUnit(pl, p, b.pcs, i);
        GrabInv(b, p, pl.(side := WaitSide(pl.side, i)), b.pcs);
      } else {
        JoinQueue(pl, p, b.pcs, i);
        OnePool(b, p, pl.(side := WaitSide(pl.side, i)), b.pcs[i := Getter(p, false)], b.out);
      }
    }
  }

  lemma GotInv(b: Bs, i: int)
    requires BInv(b) && 0 <= i < |b.pcs| && b.pcs[i].At? && b.pcs[i].woken
    ensures 0 <= b.pcs[i].port < |b.pools|
    ensures var b' := Got(b, i);
            BInv(b') && Kept(b, b')
  {
    hide PoolOK;
    var p := b.pcs[i].port;
    assert PoolOK(b.pools[p], p, b.pcs, 0);
    LeaveWithUnit(b.pools[p], p, b.pcs, i);
    GrabInv(b, p, b.pools[p], b.pcs[i := Outside]);
  }

  lemma FirstGetter(pl: Pool, p: int, pcs: seq<Pc>, pools: nat)
    requires PoolOK(pl, p, pcs, 0) && PcsOK(pcs, pools)
    ensures OnlyAt(pcs, SignalPcs(pl.side, pcs), p) && PcsOK(SignalPcs(pl.side, pcs), pools)
  {
    if pl.side.queue != [] { FirstWaits(pcs, pl.side.queue, Receiver, p); }
    hide WaitList, Held;
  }

  lemma CutCount(out: seq<Buf>, j: int, y: Buf)
    requires 0 <= j < |out|
    ensures multiset(CutOut(out, j))[y] == multiset(out)[y] - (if out[j] == y then 1 else 0)
  {
    assert out == out[..j] + [out[j]] + out[j + 1..];
  }

  lemma CutOK(out: seq<Buf>, j: int, pools: nat)
    requires 0 <= j < |out| && OutOK(out, pools)
    ensures OutOK(CutOut(out, j), pools)
  {
    var r := CutOut(out, j);
    assert forall i :: 0 <= i < |r| ==> r[i] == if i < j then out[i] else out[i + 1];
  }

  lemma FreeInv(b: Bs, j: int)
    requires BInv(b) && 0 <= j < |b.out| && 0 <= b.out[j].pool < |b.pools|
    ensures var b' := Free(b, j);
            BInv(b') && Kept(b, b')
  {
    hide PoolOK, CutOut, SignalSide, SignalPcs;
    var p, x0 := b.out[j].pool, b.out[j].addr;
    var pl := b.pools[p];
    assert PoolOK(pl, p, b.pcs, 0);
    GiveUnit(pl, p, b.pcs, x0);
    FirstGetter(pl, p, b.pcs, |b.pools|);
    CutOK(b.out, j, |b.pools|);
    OnePool(b, p, Pool(SignalSide(pl.side), [x0] + pl.free, pl.slots), SignalPcs(pl.side, b.pcs), CutOut(b.out, j));
    var b' := Free(b, j);
    forall q, x | 0 <= q < |b.pools| ensures Places(b', q, x) == Places(b, q, x) {
      CutCount(b.out, j, Buf(q, x));
      CountConcat([x0], pl.free, x);
    }
  }

  lemma DropInv(b: Bs, i: int)
    requires BInv(b) && 0 <= i < |b.pcs| && b.pcs[i].At?
    ensures 0 <= b.pcs[i].port < |b.pools| && (!b.pcs[i].woken ==> i in b.pools[b.pcs[i].port].side.queue)
    ensures var b' := Drop(b, i);
            BInv(b') && Kept(b, b')
  {
    hide PoolOK;
    var p := b.pcs[i].port;
    assert PoolOK(b.pools[p], p, b.pcs, 0);
    DropOK(b.pools[p], p, b.pcs, i);
    OnePool(b, p, Drop(b, i).pools[p], b.pcs[i := Outside], b.out);
  }

  lemma MakeInv(b: Bs, bufs: seq<int>)
    requires BInv(b)
    ensures BInv(Make(b, bufs)) && Kept(b, Make(b, bufs))
  {
    hide PoolOK;
    if |b.pools| < NBPOOLS {
      NewPoolOK(b, bufs);
      assert forall q :: 0 <= q < |b.pools| ==> Make(b, bufs).pools[q] == b.pools[q];
    }
  }

  lemma NewPoolOK(b: Bs, bufs: seq<int>)
    requires PcsOK(b.pcs, |b.pools|)
    ensures PoolOK(Pool(Side(Sem(true, |bufs|), [], 0), bufs, bufs), |b.pools|, b.pcs, 0)
  {
    var p := |b.pools|;
    forall i | 0 <= i < |b.pcs| ensures !Holder(b.pcs[i], Receiver, p, 0) && !Blocked(b.pcs[i], Receiver, p) { }
    HeldNone(b.pcs, Receiver, p, 0);
  }

  lemma {:induction false} CountOnce(l: seq<int>, x: int)
    requires NoDup(l)
    ensures Count(l, x) == One(x in l)
    decreases |l|
  {
    if l != [] {
      assert l == [l[0]] + l[1..];
      CountConcat([l[0]], l[1..], x);
      assert forall i :: 0 <= i < |l| - 1 ==> l[1..][i] == l[i + 1];
      CountOnce(l[1..], x);
      hide Count;
      assert x in l <==> x == l[0] || x in l[1..];
      if x == l[0] { NotAgain(l); }
      CountSingle(l[0], x);
    }
  }

  lemma NotAgain(l: seq<int>)
    requires NoDup(l) && l != []
    ensures l[0] !in l[1..]
  {
    assert forall i :: 0 <= i < |l| - 1 ==> l[1..][i] == l[i + 1];
  }

  lemma CountSingle(y: int, x: int)
    ensures Count([y], x) == One(x == y)
  {
  }

  lemma NoneOut(out: seq<Buf>, p: nat, x: int)
    requires OutOK(out, p)
    ensures OutCount(out, p, x) == 0
  {
    assert Buf(p, x) !in out;
  }

  /** mkbufpool puts each of its slots into exactly one place. */
  lemma MakeOnce(b: Bs, bufs: seq<int>)
    requires BInv(b) && SlotsOnce(b) && NoDup(bufs)
    ensures SlotsOnce(Make(b, bufs))
  {
    hide BInv, OutCount, Count;
    MakeInv(b, bufs);
    OutFacts(b);
    var b' := Make(b, bufs);
    forall p, x | 0 <= p < |b'.pools| ensures Places(b', p, x) == One(x in b'.pools[p].slots) {
      if p < |b.pools| {
        assert Places(b', p, x) == Places(b, p, x);
      } else {
        CountOnce(bufs, x);
        NoneOut(b.out, p, x);
      }
    }
  }

  lemma OutFacts(b: Bs)
    requires BInv(b)
    ensures OutOK(b.out, |b.pools|)
  {
  }

  lemma KeptOnce(b: Bs, b': Bs)
    requires Kept(b, b') && |b'.pools| == |b.pools| && SlotsOnce(b)
    ensures SlotsOnce(b')
  {
    hide Places;
  }

  // ------------------------------------------------------------ whole runs

  datatype Op = DoGet(i: int, p: int) | DoGot(i: int) | DoFree(j: int) | DoDrop(i: int) | DoMake(bufs: seq<int>)

  /** freebuf is called with a buffer that getbuf has handed out, and the buffers of
      a new pool lie at different addresses. */
  ghost predicate CanDo(b: Bs, op: Op) {
    match op
    case DoGet(i, p) => 0 <= i < |b.pcs| && b.pcs[i].Outside?
    case DoGot(i) => 0 <= i < |b.pcs| && b.pcs[i].At? && b.pcs[i].woken
    case DoFree(j) => 0 <= j < |b.out| && 0 <= b.out[j].pool < |b.pools|
    case DoDrop(i) => 0 <= i < |b.pcs| && b.pcs[i].At?
    case DoMake(bufs) => NoDup(bufs)
  }

  ghost function Do(b: Bs, op: Op): Bs
    requires BInv(b) && CanDo(b, op)
  {
    match op
    case DoGet(i, p) => Get(b, i, p)
    case DoGot(i) => GotInv(b, i); Got(b, i)
    case DoFree(j) => Free(b, j)
    case DoDrop(i) => DropInv(b, i); Drop(b, i)
    case DoMake(bufs) => Make(b, bufs)
  }

  lemma DoInv(b: Bs, op: Op)
    requires BInv(b) && CanDo(b, op)
    ensures BInv(Do(b, op)) && Kept(b, Do(b, op))
  {
    hide BInv, Kept, Get, Got, Free, Drop, Make;
    match op
    case DoGet(i, p) => GetInv(b, i, p);
    case DoGot(i) => GotInv(b, i);
    case DoFree(j) => FreeInv(b, j);
    case DoDrop(i) => DropInv(b, i);
    case DoMake(bufs) => MakeInv(b, bufs);
  }

  lemma DoOnce(b: Bs, op: Op)
    requires BInv(b) && CanDo(b, op) && SlotsOnce(b)
    ensures BInv(Do(b, op)) && SlotsOnce(Do(b, op))
  {
    hide BInv, SlotsOnce, Places;
    DoInv(b, op);
    if op.DoMake? {
      MakeOnce(b, op.bufs);
    } else {
      SameNumber(b, op);
      KeptOnce(b, Do(b, op));
    }
  }

  lemma SameNumber(b: Bs, op: Op)
    requires BInv(b) && CanDo(b, op) && !op.DoMake?
    ensures |Do(b, op).pools| == |b.pools|
  {
    hide BInv;
    match op
    case DoGot(i) => GotInv(b, i);
    case DoDrop(i) => DropInv(b, i);
    case _ =>
  }

  ghost predicate CanRunOps(b: Bs, ops: seq<Op>)
    requires BInv(b)
    decreases |ops|
  {
    ops == [] || (CanDo(b, ops[0]) && (DoInv(b, ops[0]); CanRunOps(Do(b, ops[0]), ops[1..])))
  }

  ghost function RunOps(b: Bs, ops: seq<Op>): (r: Bs)
    requires BInv(b) && CanRunOps(b, ops)
    ensures BInv(r)
    decreases |ops|
  {
    if ops == [] then b else DoInv(b, ops[0]); RunOps(Do(b, ops[0]), ops[1..])
  }

  /** bufinit: no pools yet. */
  function InitPools(nproc: nat): Bs { Bs([], seq(nproc, _ => Outside), [], false) }

  lemma InitPoolsInv(nproc: nat)
    ensures BInv(InitPools(nproc)) && SlotsOnce(InitPools(nproc))
  {
  }

  lemma {:induction false} RunOnce(b: Bs, ops: seq<Op>)
    requires BInv(b) && SlotsOnce(b) && CanRunOps(b, ops)
    ensures SlotsOnce(RunOps(b, ops))
    decreases |ops|
  {
    hide BInv, SlotsOnce, Do, CanDo;
    if ops != [] {
      DoOnce(b, ops[0]);
      RunOnce(Do(b, ops[0]), ops[1..]);
    }
  }

  /** A pool keeps the slots it was made of, through any further run. */
  lemma {:induction false} SlotsStay(b: Bs, ops: seq<Op>, p: int)
    requires BInv(b) && CanRunOps(b, ops) && 0 <= p < |b.pools|
    ensures p < |RunOps(b, ops).pools| && RunOps(b, ops).pools[p].slots == b.pools[p].slots
    decreases |ops|
  {
    hide BInv, Do, CanDo, Places;
    if ops != [] {
      DoInv(b, ops[0]);
      SlotsStay(Do(b, ops[0]), ops[1..], p);
    }
  }

  /** What holds at the end of any run from bufinit, and so at every point of it:
      every slot of every pool that was made is on the free list or with one caller,
      once, and nothing else is; the length of a free list is the non-negative part
      of the count plus the getters released and not yet run, plus those killed in
      between; every released getter finds a buffer; and none ever met an empty list. */
  lemma RunSafety(nproc: nat, ops: seq<Op>)
    requires BInv(InitPools(nproc)) && CanRunOps(InitPools(nproc), ops)
    ensures var b := RunOps(InitPools(nproc), ops);
            && !b.broken
            && (forall p, x :: 0 <= p < |b.pools| ==> Places(b, p, x) == One(x in b.pools[p].slots))
            && (forall p :: 0 <= p < |b.pools| ==>
                  |b.pools[p].free| == Pos(b.pools[p].side.sem.count) + Held(b.pcs, Receiver, p, 0) + b.pools[p].side.lost)
            && (forall i :: 0 <= i < |b.pcs| && b.pcs[i].At? && b.pcs[i].woken ==>
                  0 <= b.pcs[i].port < |b.pools| && b.pools[b.pcs[i].port].free != [])
  {
    hide RunOps, CanRunOps, InitPools, Places;
    InitPoolsInv(nproc);
    RunOnce(InitPools(nproc), ops);
    Lengths(RunOps(InitPools(nproc), ops));
  }

  lemma Lengths(b: Bs)
    requires BInv(b)
    ensures forall p :: 0 <= p < |b.pools| ==>
              |b.pools[p].free| == Pos(b.pools[p].side.sem.count) + Held(b.pcs, Receiver, p, 0) + b.pools[p].side.lost
    ensures forall i :: 0 <= i < |b.pcs| && b.pcs[i].At? && b.pcs[i].woken ==>
              0 <= b.pcs[i].port < |b.pools| && b.pools[b.pcs[i].port].free != []
  {
    hide Held, WaitList;
    forall i | 0 <= i < |b.pcs| && b.pcs[i].At? && b.pcs[i].woken
      ensures 0 <= b.pcs[i].port < |b.pools| && b.pools[b.pcs[i].port].free != []
    {
      var p := b.pcs[i].port;
      assert PoolOK(b.pools[p], p, b.pcs, 0);
      HeldSome(b.pcs, i, Receiver, p, 0);
    }
  }

  /** Every beginning of a run is a run, and the rest goes on from where it ends. */
  lemma {:induction false} RunSplit(b: Bs, first: seq<Op>, rest: seq<Op>)
    requires BInv(b) && CanRunOps(b, first + rest)
    ensures CanRunOps(b, first) && CanRunOps(RunOps(b, first), rest)
    ensures RunOps(b, first + rest) == RunOps(RunOps(b, first), rest)
    decreases |first|
  {
    hide BInv, Do, CanDo;
    if first == [] {
      assert first + rest == rest;
    } else {
      assert (first + rest)[0] == first[0] && (first + rest)[1..] == first[1..] + rest;
      DoInv(b, first[0]);
      RunSplit(Do(b, first[0]), first[1..], rest);
    }
  }

  /** Whatever came before and whatever comes after, the slots given to mkbufpool
      are those of the new pool, and each stays in exactly one place. */
  lemma EverySlotOnce(nproc: nat, before: seq<Op>, bufs: seq<int>, after: seq<Op>, x: int)
    requires BInv(InitPools(nproc)) && CanRunOps(InitPools(nproc), before + ([DoMake(bufs)] + after))
    ensures CanRunOps(InitPools(nproc), before)
    ensures var p := |RunOps(InitPools(nproc), before).pools|;
            var b := RunOps(InitPools(nproc), before + ([DoMake(bufs)] + after));
            p < NBPOOLS && x in bufs ==> p < |b.pools| && b.pools[p].slots == bufs && Places(b, p, x) == 1
  {
    hide BInv, Places, Do, CanDo, InitPools;
    var b0 := InitPools(nproc);
    RunSplit(b0, before, [DoMake(bufs)] + after);
    var b1 := RunOps(b0, before);
    var ops := [DoMake(bufs)] + after;
    assert ops[0] == DoMake(bufs) && ops[1..] == after;
    DoInv(b1, DoMake(bufs));
    var p, b2 := |b1.pools|, Do(b1, DoMake(bufs));
    if p < NBPOOLS && x in bufs {
      MadeOf(b1, bufs);
      SlotsStay(b2, after, p);
      RunSafety(nproc, before + ops);
    }
  }

  lemma MadeOf(b: Bs, bufs: seq<int>)
    requires BInv(b) && CanDo(b, DoMake(bufs)) && |b.pools| < NBPOOLS
    ensures var b' := Do(b, DoMake(bufs)); |b.pools| < |b'.pools| && b'.pools[|b.pools|].slots == bufs
  {
    hide BInv;
  }
}
