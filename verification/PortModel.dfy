// Ports as a state machine over the pieces of code that run with interrupts
// disabled: blocked processes, processes released but not yet run, and clears
// that give up the processor half way.
module PortModel {
  import opened KernelModel
  import opened QueueTable

  const NPORTS := 30
  const M16 := 0x1_0000

  datatype PtState = PtFree | PtLimbo | PtAlloc
  datatype Kind = Sender | Receiver

  /** A message node in a port's list. */
  datatype Item = Item(node: int, msg: int)

  /** One semaphore of a port, its queue, and how many holders of a unit were killed. */
  datatype Side = Side(sem: Sem, queue: seq<int>, lost: nat)

  /** cap, lost and the three histories only observe the run; the histories start
      anew with every creation and reset. */
  datatype Port = Port(state: PtState, ptseq: int, maxcnt: int, send: Side, recv: Side, items: seq<Item>,
                       cap: int, sent: seq<int>, received: seq<int>, disposed: seq<int>)

  /** Where a process is: outside, in the wait of ptsend or ptrecv, or in _ptclear. */
  datatype Pc =
    | Outside
    | At(kind: Kind, port: int, ptseq: int, msg: int, woken: bool)
    | Clearing(port: int, reset: bool, phase: nat, k: nat)

  function SideOf(pt: Port, kind: Kind): Side { if kind.Sender? then pt.send else pt.recv }

  function WithSide(pt: Port, kind: Kind, s: Side): Port {
    if kind.Sender? then pt.(send := s) else pt.(recv := s)
  }

  function Msgs(items: seq<Item>): (r: seq<int>)
    ensures |r| == |items| && forall i :: 0 <= i < |items| ==> r[i] == items[i].msg
  {
    seq(|items|, i requires 0 <= i < |items| => items[i].msg)
  }

  function Nodes(items: seq<Item>): (r: seq<int>)
    ensures |r| == |items| && forall i :: 0 <= i < |items| ==> r[i] == items[i].node
  {
    seq(|items|, i requires 0 <= i < |items| => items[i].node)
  }

  // ------------------------------------------------------------- counting

  predicate Blocked(pc: Pc, kind: Kind, p: int) { pc.At? && pc.kind == kind && pc.port == p && !pc.woken }

  /** The process was released on behalf of this incarnation of the port. */
  predicate Holder(pc: Pc, kind: Kind, p: int, ptseq: int) {
    pc.At? && pc.kind == kind && pc.port == p && pc.woken && pc.ptseq == ptseq
  }

  function Held(pcs: seq<Pc>, kind: Kind, p: int, ptseq: int): nat {
    if pcs == [] then 0 else (if Holder(pcs[0], kind, p, ptseq) then 1 else 0) + Held(pcs[1..], kind, p, ptseq)
  }

  function Pos(n: int): nat { if n < 0 then 0 else n }

  function One(b: bool): nat { if b then 1 else 0 }

  lemma {:induction false} HeldUpdate(pcs: seq<Pc>, i: int, pc: Pc, kind: Kind, p: int, ptseq: int)
    requires 0 <= i < |pcs|
    ensures Held(pcs[i := pc], kind, p, ptseq) ==
            Held(pcs, kind, p, ptseq) - One(Holder(pcs[i], kind, p, ptseq)) + One(Holder(pc, kind, p, ptseq))
    decreases i
  {
    hide Holder;
    if i > 0 {
      assert pcs[i := pc][1..] == pcs[1..][i - 1 := pc];
      HeldUpdate(pcs[1..], i - 1, pc, kind, p, ptseq);
    }
  }

  lemma {:induction false} HeldSame(pcs: seq<Pc>, pcs': seq<Pc>, kind: Kind, p: int, ptseq: int)
    requires |pcs'| == |pcs|
    requires forall i :: 0 <= i < |pcs| ==> Holder(pcs'[i], kind, p, ptseq) == Holder(pcs[i], kind, p, ptseq)
    ensures Held(pcs', kind, p, ptseq) == Held(pcs, kind, p, ptseq)
    decreases |pcs|
  {
    hide Holder;
    if pcs != [] { HeldSame(pcs[1..], pcs'[1..], kind, p, ptseq); }
  }

  lemma {:induction false} HeldSome(pcs: seq<Pc>, i: int, kind: Kind, p: int, ptseq: int)
    requires 0 <= i < |pcs| && Holder(pcs[i], kind, p, ptseq)
    ensures Held(pcs, kind, p, ptseq) > 0
    decreases i
  {
    if i > 0 { HeldSome(pcs[1..], i - 1, kind, p, ptseq); }
  }

  lemma {:induction false} HeldNone(pcs: seq<Pc>, kind: Kind, p: int, ptseq: int)
    requires forall i :: 0 <= i < |pcs| ==> !Holder(pcs[i], kind, p, ptseq)
    ensures Held(pcs, kind, p, ptseq) == 0
    decreases |pcs|
  {
    if pcs != [] { HeldNone(pcs[1..], kind, p, ptseq); }
  }

  // ------------------------------------------------------------ invariant

  /** A queue holds exactly the processes blocked on it. */
  ghost predicate WaitList(pcs: seq<Pc>, l: seq<int>, kind: Kind, p: int) {
    && NoDup(l) && (forall i :: 0 <= i < |l| ==> 0 <= l[i] < |pcs|)
    && (forall i :: 0 <= i < |pcs| ==> (i in l <==> Blocked(pcs[i], kind, p)))
  }

  /** Sequence numbers: nobody is ahead of the port, nobody is up to date while
      it is not allocated, and while it is, everybody blocked is. */
  predicate SeqOK(pc: Pc, p: int, ptseq: int, alloc: bool) {
    pc.At? && pc.port == p ==>
      pc.ptseq <= ptseq && (!alloc ==> pc.ptseq < ptseq) && (alloc && !pc.woken ==> pc.ptseq == ptseq)
  }

  ghost predicate SeqsOK(pcs: seq<Pc>, p: int, ptseq: int, alloc: bool) {
    forall i :: 0 <= i < |pcs| ==> SeqOK(pcs[i], p, ptseq, alloc)
  }

  /** Slots: each is free to take, held by a released sender, filled, or lost.
      Messages: each is free to take, held by a released receiver, or lost.
      ds and dr are units in the hands of the running process. */
  ghost predicate Accounts(pt: Port, p: int, pcs: seq<Pc>, ds: nat, dr: nat) {
    && Pos(pt.send.sem.count) + Held(pcs, Sender, p, pt.ptseq) + |pt.items| + pt.send.lost + ds == pt.cap
    && Pos(pt.recv.sem.count) + Held(pcs, Receiver, p, pt.ptseq) + pt.recv.lost + dr == |pt.items|
    && pt.received + Msgs(pt.items) == pt.sent
    && pt.send.sem.used && pt.recv.sem.used
  }

  /** A port as a clear has left it so far. */
  ghost predicate ClearOK(pt: Port, pc: Pc)
    requires pc.Clearing?
  {
    && pt.state.PtLimbo?
    && (pc.phase == 0 ==> pc.k <= |pt.items| && pt.disposed == Msgs(pt.items[..pc.k]) && pt.received + Msgs(pt.items) == pt.sent)
    && (pc.phase >= 1 ==> pt.items == [] && pt.send.queue == [])
    && (pc.phase >= 1 && pc.reset ==> pt.send == Side(Sem(true, pt.maxcnt), [], 0) && pt.cap == pt.maxcnt && pt.sent == pt.received == [])
    && (pc.phase >= 2 ==> pt.recv.queue == [])
    && (pc.phase >= 2 && pc.reset ==> pt.recv == Side(Sem(true, 0), [], 0))
  }

  ghost predicate ClearsOK(pt: Port, p: int, pcs: seq<Pc>) {
    && (forall i :: 0 <= i < |pcs| && pcs[i].Clearing? && pcs[i].port == p ==> ClearOK(pt, pcs[i]))
    && (forall i, j :: 0 <= i < j < |pcs| && pcs[i].Clearing? && pcs[j].Clearing? && pcs[i].port == p ==> pcs[j].port != p)
  }

  ghost predicate Queues(pt: Port, p: int, pcs: seq<Pc>) {
    && WaitList(pcs, pt.send.queue, Sender, p) && WaitList(pcs, pt.recv.queue, Receiver, p)
    && SemOK(pt.send.sem, pt.send.queue) && SemOK(pt.recv.sem, pt.recv.queue)
  }

  ghost predicate PortOK(pt: Port, p: int, pcs: seq<Pc>, ds: nat, dr: nat) {
    && Queues(pt, p, pcs)
    && SeqsOK(pcs, p, pt.ptseq, pt.state.PtAlloc?)
    && (pt.state.PtAlloc? ==> Accounts(pt, p, pcs, ds, dr))
    && (pt.state.PtFree? ==> pt.items == [] && pt.send.queue == [] && pt.recv.queue == [])
    && ClearsOK(pt, p, pcs) && pt.maxcnt == pt.cap % M16
  }

  /** Changing the place of processes that have nothing to do with port p. */
  predicate Concerns(pc: Pc, p: int) { !pc.Outside? && pc.port == p }

  ghost predicate NotConcerned(pcs: seq<Pc>, pcs': seq<Pc>, p: int) {
    |pcs'| == |pcs| && forall i :: 0 <= i < |pcs| ==> pcs'[i] == pcs[i] || (!Concerns(pcs[i], p) && !Concerns(pcs'[i], p))
  }

  lemma WaitFrame(pcs: seq<Pc>, pcs': seq<Pc>, l: seq<int>, kind: Kind, p: int)
    requires WaitList(pcs, l, kind, p) && NotConcerned(pcs, pcs', p)
    ensures WaitList(pcs', l, kind, p)
  {
    forall i | 0 <= i < |pcs'| ensures i in l <==> Blocked(pcs'[i], kind, p) {
      assert i in l <==> Blocked(pcs[i], kind, p);
    }
  }

  lemma HeldFrame(pcs: seq<Pc>, pcs': seq<Pc>, kind: Kind, p: int, ptseq: int)
    requires NotConcerned(pcs, pcs', p)
    ensures Held(pcs', kind, p, ptseq) == Held(pcs, kind, p, ptseq)
  {
    HeldSame(pcs, pcs', kind, p, ptseq);
  }

  lemma SeqsFrame(pcs: seq<Pc>, pcs': seq<Pc>, p: int, ptseq: int, alloc: bool)
    requires SeqsOK(pcs, p, ptseq, alloc) && NotConcerned(pcs, pcs', p)
    ensures SeqsOK(pcs', p, ptseq, alloc)
  {
    forall i | 0 <= i < |pcs'| ensures SeqOK(pcs'[i], p, ptseq, alloc) { assert SeqOK(pcs[i], p, ptseq, alloc); }
  }

  lemma ClearsFrame(pt: Port, pcs: seq<Pc>, pcs': seq<Pc>, p: int)
    requires ClearsOK(pt, p, pcs) && NotConcerned(pcs, pcs', p)
    ensures ClearsOK(pt, p, pcs')
  {
    hide ClearOK;
    assert forall i :: 0 <= i < |pcs'| && pcs'[i].Clearing? && pcs'[i].port == p ==> pcs'[i] == pcs[i];
  }

  lemma PortFrame(pt: Port, p: int, pcs: seq<Pc>, pcs': seq<Pc>, ds: nat, dr: nat)
    requires PortOK(pt, p, pcs, ds, dr) && NotConcerned(pcs, pcs', p)
    ensures PortOK(pt, p, pcs', ds, dr)
  {
    hide WaitList, SeqsOK, ClearsOK, SemOK, NotConcerned;
    WaitFrame(pcs, pcs', pt.send.queue, Sender, p);
    WaitFrame(pcs, pcs', pt.recv.queue, Receiver, p);
    HeldFrame(pcs, pcs', Sender, p, pt.ptseq);
    HeldFrame(pcs, pcs', Receiver, p, pt.ptseq);
    SeqsFrame(pcs, pcs', p, pt.ptseq, pt.state.PtAlloc?);
    ClearsFrame(pt, pcs, pcs', p);
  }

  // --------------------------------------------------------- semaphore calls

  /** wait: the caller takes a unit, or joins the queue as pc. */
  function WaitSide(s: Side, i: int): Side {
    if s.sem.count > 0 then s.(sem := s.sem.(count := s.sem.count - 1))
    else s.(sem := s.sem.(count := s.sem.count - 1), queue := s.queue + [i])
  }

  /** signal: the unit goes to the count or to the first process in the queue. */
  function SignalSide(s: Side): Side {
    s.(sem := s.sem.(count := s.sem.count + 1), queue := if s.sem.count < 0 && s.queue != [] then s.queue[1..] else s.queue)
  }

  function Wake(pc: Pc): Pc { if pc.At? then pc.(woken := true) else pc }

  function SignalPcs(s: Side, pcs: seq<Pc>): seq<Pc> {
    if s.sem.count < 0 && s.queue != [] && 0 <= s.queue[0] < |pcs| then pcs[s.queue[0] := Wake(pcs[s.queue[0]])] else pcs
  }

  /** semreset and semdelete: everybody in the queue is released. */
  function WakeAll(pcs: seq<Pc>, l: seq<int>): (r: seq<Pc>)
    ensures |r| == |pcs| && forall i :: 0 <= i < |pcs| ==> r[i] == if i in l then Wake(pcs[i]) else pcs[i]
  {
    seq(|pcs|, i requires 0 <= i < |pcs| => if i in l then Wake(pcs[i]) else pcs[i])
  }

  lemma FirstWaits(pcs: seq<Pc>, l: seq<int>, kind: Kind, p: int)
    requires WaitList(pcs, l, kind, p) && l != []
    ensures 0 <= l[0] < |pcs| && Blocked(pcs[l[0]], kind, p)
  {
    assert l[0] in l;
  }

  lemma PopWaitList(pcs: seq<Pc>, l: seq<int>, kind: Kind, p: int)
    requires WaitList(pcs, l, kind, p) && l != []
    ensures 0 <= l[0] < |pcs| && WaitList(pcs[l[0] := Wake(pcs[l[0]])], l[1..], kind, p)
  {
    FirstWaits(pcs, l, kind, p);
    var pcs' := pcs[l[0] := Wake(pcs[l[0]])];
    assert forall i :: 0 <= i < |l| - 1 ==> l[1..][i] == l[i + 1];
    forall i | 0 <= i < |pcs'| ensures i in l[1..] <==> Blocked(pcs'[i], kind, p) {
      assert i in l <==> Blocked(pcs[i], kind, p);
      assert l == [l[0]] + l[1..];
    }
  }

  /** Releasing a process of one kind does not concern the queue of the other. */
  lemma OtherWaitList(pcs: seq<Pc>, j: int, l: seq<int>, kind: Kind, other: Kind, p: int)
    requires WaitList(pcs, l, other, p) && 0 <= j < |pcs| && Blocked(pcs[j], kind, p) && kind != other
    ensures WaitList(pcs[j := Wake(pcs[j])], l, other, p)
  {
    var pcs' := pcs[j := Wake(pcs[j])];
    forall i | 0 <= i < |pcs'| ensures i in l <==> Blocked(pcs'[i], other, p) {
      assert i in l <==> Blocked(pcs[i], other, p);
    }
  }

  lemma SignalQueues(pt: Port, p: int, pcs: seq<Pc>, kind: Kind)
    requires Queues(pt, p, pcs) && SideOf(pt, kind).sem.used
    ensures Queues(WithSide(pt, kind, SignalSide(SideOf(pt, kind))), p, SignalPcs(SideOf(pt, kind), pcs))
  {
    hide WaitList;
    var s := SideOf(pt, kind);
    if s.sem.count < 0 {
      FirstWaits(pcs, s.queue, kind, p);
      PopWaitList(pcs, s.queue, kind, p);
      var other := if kind.Sender? then Receiver else Sender;
      OtherWaitList(pcs, s.queue[0], SideOf(pt, other).queue, kind, other, p);
    }
  }

  /** Pc changes that keep everything but who is blocked on or released from port p. */
  lemma SignalRest(pt: Port, p: int, pcs: seq<Pc>, kind: Kind)
    requires Queues(pt, p, pcs) && SeqsOK(pcs, p, pt.ptseq, pt.state.PtAlloc?) && ClearsOK(pt, p, pcs) && pt.state.PtAlloc?
    ensures var pcs' := SignalPcs(SideOf(pt, kind), pcs);
            && |pcs'| == |pcs| && SeqsOK(pcs', p, pt.ptseq, true)
            && (forall i :: 0 <= i < |pcs'| && pcs'[i].Clearing? ==> pcs[i].Clearing? && pcs[i].port == pcs'[i].port)
  {
    hide SemOK;
    var s := SideOf(pt, kind);
    if s.sem.count < 0 && s.queue != [] { FirstWaits(pcs, s.queue, kind, p); }
  }

  lemma SignalHeld(pt: Port, p: int, pcs: seq<Pc>, kind: Kind)
    requires Queues(pt, p, pcs) && SeqsOK(pcs, p, pt.ptseq, true) && SideOf(pt, kind).sem.used
    ensures var s, pcs' := SideOf(pt, kind), SignalPcs(SideOf(pt, kind), pcs);
            && Pos(SignalSide(s).sem.count) + Held(pcs', kind, p, pt.ptseq) == Pos(s.sem.count) + Held(pcs, kind, p, pt.ptseq) + 1
            && forall other: Kind :: other != kind ==> Held(pcs', other, p, pt.ptseq) == Held(pcs, other, p, pt.ptseq)
  {
    hide Held;
    var s := SideOf(pt, kind);
    if s.sem.count < 0 {
      FirstWaits(pcs, s.queue, kind, p);
      var j := s.queue[0];
      assert SeqOK(pcs[j], p, pt.ptseq, true);
      HeldUpdate(pcs, j, Wake(pcs[j]), Sender, p, pt.ptseq);
      HeldUpdate(pcs, j, Wake(pcs[j]), Receiver, p, pt.ptseq);
    }
  }

  lemma ClearsNone(pt: Port, p: int, pcs: seq<Pc>)
    requires ClearsOK(pt, p, pcs) && !pt.state.PtLimbo?
    ensures forall i :: 0 <= i < |pcs| && pcs[i].Clearing? ==> pcs[i].port != p
  {
  }

  lemma ClearsVacuous(pt: Port, p: int, pcs: seq<Pc>)
    requires forall i :: 0 <= i < |pcs| && pcs[i].Clearing? ==> pcs[i].port != p
    ensures ClearsOK(pt, p, pcs)
  {
  }

  /** signal passes on the unit that the running process had in its hands. */
  lemma SignalOK(pt: Port, p: int, pcs: seq<Pc>, kind: Kind, ds: nat, dr: nat)
    requires PortOK(pt, p, pcs, ds, dr) && pt.state.PtAlloc? && (if kind.Sender? then ds == 1 else dr == 1)
    ensures var s := SideOf(pt, kind);
            PortOK(WithSide(pt, kind, SignalSide(s)), p, SignalPcs(s, pcs), if kind.Sender? then 0 else ds, if kind.Sender? then dr else 0)
  {
    hide Queues, SeqsOK, ClearsOK, Held, Msgs;
    SignalQueues(pt, p, pcs, kind);
    SignalRest(pt, p, pcs, kind);
    SignalHeld(pt, p, pcs, kind);
    ClearsNone(pt, p, pcs);
    ClearsVacuous(WithSide(pt, kind, SignalSide(SideOf(pt, kind))), p, SignalPcs(SideOf(pt, kind), pcs));
  }
}
