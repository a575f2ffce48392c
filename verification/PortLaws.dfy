// What users of ports rely on: the messages of a port are the arguments of the
// ptsends that completed, in that order, and a port blocks its users exactly
// when it is full or empty.
module PortLaws {
  import opened KernelModel
  import opened PortModel
  import opened PortSteps
  import opened PortRuns

  // ------------------------------------------------------ one step of a run

  /** What a process asked for when it last called ptsend or ptrecv. */
  datatype Call = NoCall | Call(kind: Kind, p: int, msg: int)

  /** The last call of process i, by the steps alone. */
  function LastCall(steps: seq<Step>, i: int): Call {
    if steps == [] then NoCall
    else
      var st := steps[|steps| - 1];
      if st.DoEnter? && st.i == i then Call(st.kind, st.p, st.msg) else LastCall(steps[..|steps| - 1], i)
  }

  /** Whoever is inside a call carries the arguments of that call. */
  ghost predicate Known(ps: Ps, steps: seq<Step>) {
    forall i :: 0 <= i < |ps.pcs| && ps.pcs[i].At? ==> LastCall(steps, i) == Call(ps.pcs[i].kind, ps.pcs[i].port, ps.pcs[i].msg)
  }

  /** Nobody but process j comes to a port; who is at one stays there with its
      arguments. */
  ghost predicate OthersStay(pcs: seq<Pc>, pcs': seq<Pc>, j: int) {
    |pcs'| == |pcs| && forall i :: 0 <= i < |pcs| && i != j ==>
      pcs'[i] == pcs[i] || (pcs[i].At? && pcs'[i].At? && pcs'[i] == pcs[i].(woken := pcs'[i].woken))
  }

  lemma SignalStays(s: Side, pcs: seq<Pc>, j: int)
    ensures OthersStay(pcs, SignalPcs(s, pcs), j)
  {
  }

  lemma WakeStays(pcs: seq<Pc>, l: seq<int>, j: int, pc: Pc)
    requires 0 <= j < |pcs|
    ensures OthersStay(pcs, WakeAll(pcs, l)[j := pc], j)
  {
  }

  lemma StayAll(pcs: seq<Pc>, pcs1: seq<Pc>, pcs2: seq<Pc>, j: int)
    requires OthersStay(pcs, pcs1, j) && OthersStay(pcs1, pcs2, j)
    ensures OthersStay(pcs, pcs2, j)
  {
  }

  lemma FinishStays(ps: Ps, p: int, pt: Port, pcs: seq<Pc>, kind: Kind, msg: int, j: int)
    requires 0 <= p < |ps.ports| && OthersStay(ps.pcs, pcs, j)
    ensures OthersStay(ps.pcs, Finish(ps, p, pt, pcs, kind, msg).pcs, j)
  {
    hide SignalPcs, OthersStay;
    SignalStays(pt.recv, pcs, j);
    SignalStays(pt.send, pcs, j);
    StayAll(ps.pcs, pcs, SignalPcs(pt.recv, pcs), j);
    StayAll(ps.pcs, pcs, SignalPcs(pt.send, pcs), j);
    SameStays(ps.pcs, j);
  }

  lemma SameStays(pcs: seq<Pc>, j: int)
    ensures OthersStay(pcs, pcs, j)
  {
  }

  /** The process that makes the step, if it is a step of one. */
  function Actor(st: Step): int { if st.DoCreate? then -1 else st.i }

  lemma StepStays(ps: Ps, st: Step)
    requires PInv(ps) && Enabled(ps, st)
    ensures OthersStay(ps.pcs, Next(ps, st).pcs, Actor(st))
  {
    hide PInv, SignalPcs, WakeAll, Finish;
    match st
    case DoEnter(j, kind, p, msg) =>
      if !BadPort(ps, p) {
        FinishStays(ps, p, WithSide(ps.ports[p], kind, WaitSide(SideOf(ps.ports[p], kind), j)), ps.pcs, kind, msg, j);
      }
    case DoResume(j) =>
      EnabledFacts(ps, j);
      var pc := ps.pcs[j];
      FinishStays(ps, pc.port, ps.ports[pc.port], ps.pcs[j := Outside], pc.kind, pc.msg, j);
    case DoClearMore(j) =>
      EnabledFacts(ps, j);
      var pc := ps.pcs[j];
      WakeStays(ps.pcs, ps.ports[pc.port].send.queue, j, pc.(phase := 1));
      WakeStays(ps.pcs, ps.ports[pc.port].recv.queue, j, pc.(phase := 2));
    case DoKill(j) => EnabledFacts(ps, j);
    case _ =>
  }

  // ------------------------------------------------------- sending a message

  /** A ptsend that finds room sends its argument at once; one that does not waits
      with it.  On a port that is not in use neither call does anything. */
  lemma EnterSends(ps: Ps, i: int, p: int, m: int)
    requires PInv(ps) && ps.fault.NoFault? && 0 <= i < |ps.pcs| && ps.pcs[i].Outside?
    ensures var ps' := Enter(ps, i, Sender, p, m);
            if !(0 <= p < NPORTS) || !ps.ports[p].state.PtAlloc? then ps' == ps
            else if ps.ports[p].send.sem.count <= 0 then
              && |ps'.pcs| == |ps.pcs| && |ps'.ports| == NPORTS
              && ps'.pcs[i] == At(Sender, p, ps.ports[p].ptseq, m, false) && ps'.ports[p].sent == ps.ports[p].sent
            else if ps.free == [] then ps'.fault.OutOfNodes?
            else |ps'.pcs| == |ps.pcs| && |ps'.ports| == NPORTS && ps'.pcs[i].Outside? && ps'.ports[p].sent == ps.ports[p].sent + [m]
  {
    hide PortOK, SignalPcs;
    if !BadPort(ps, p) { SignalOut(ps.ports[p].recv, ps.pcs, i); }
  }

  lemma SignalOut(s: Side, pcs: seq<Pc>, i: int)
    requires 0 <= i < |pcs| && pcs[i].Outside?
    ensures |SignalPcs(s, pcs)| == |pcs| && SignalPcs(s, pcs)[i].Outside?
  {
  }

  /** After its wait it sends the argument it came with, unless the port was cleared
      meanwhile. */
  lemma ResumeSends(ps: Ps, i: int, m: int)
    requires PInv(ps) && ps.fault.NoFault? && 0 <= i < |ps.pcs| && ps.pcs[i].At?
    requires ps.pcs[i].kind.Sender? && ps.pcs[i].woken && ps.pcs[i].msg == m
    ensures var p := ps.pcs[i].port;
            && 0 <= p < NPORTS == |ps.ports|
            && var ps' := Resume(ps, i);
               if ps.ports[p].state.PtAlloc? && ps.ports[p].ptseq == ps.pcs[i].ptseq then
                 if ps.free == [] then ps'.fault.OutOfNodes?
                 else |ps'.pcs| == |ps.pcs| && |ps'.ports| == NPORTS && ps'.pcs[i].Outside? && ps'.ports[p].sent == ps.ports[p].sent + [m]
               else ps' == ps.(pcs := ps.pcs[i := Outside])
  {
    hide PInv, PortOK, SignalPcs;
    EnabledFacts(ps, i);
    SignalOut(ps.ports[ps.pcs[i].port].recv, ps.pcs[i := Outside], i);
  }

  /** From the call to its end: until process i runs again or is killed it waits at
      its port with its argument, whatever happens. */
  lemma {:induction false} CarriesArgument(ps: Ps, steps: seq<Step>, i: int)
    requires PInv(ps) && CanRun(ps, steps) && 0 <= i < |ps.pcs| && ps.pcs[i].At?
    requires forall j :: 0 <= j < |steps| ==> steps[j] != DoResume(i) && steps[j] != DoKill(i)
    ensures var ps' := Run(ps, steps); |ps'.pcs| == |ps.pcs| && ps'.pcs[i].At? && ps'.pcs[i] == ps.pcs[i].(woken := ps'.pcs[i].woken)
    decreases |steps|
  {
    hide PInv, Next, Enabled;
    if steps != [] {
      StepInv(ps, steps[0]);
      StaysAt(ps, steps[0], i);
      CarriesArgument(Next(ps, steps[0]), steps[1..], i);
    }
  }

  lemma StaysAt(ps: Ps, st: Step, i: int)
    requires PInv(ps) && Enabled(ps, st) && 0 <= i < |ps.pcs| && ps.pcs[i].At? && st != DoResume(i) && st != DoKill(i)
    ensures var ps' := Next(ps, st); |ps'.pcs| == |ps.pcs| && ps'.pcs[i].At? && ps'.pcs[i] == ps.pcs[i].(woken := ps'.pcs[i].woken)
  {
    hide PInv, Next;
    StepStays(ps, st);
  }

  // ------------------------------------------------------ whole runs of sends

  lemma LastOfMore(steps: seq<Step>, st: Step, i: int)
    ensures LastCall(steps + [st], i) == if st.DoEnter? && st.i == i then Call(st.kind, st.p, st.msg) else LastCall(steps, i)
  {
    assert (steps + [st])[..|steps|] == steps;
  }

  lemma ActorKnown(ps: Ps, st: Step)
    requires PInv(ps) && Enabled(ps, st) && !st.DoCreate?
    ensures var ps' := Next(ps, st);
            && 0 <= st.i < |ps.pcs| == |ps'.pcs|
            && (ps'.pcs[st.i].At? ==>
                  if st.DoEnter? then ps'.pcs[st.i].kind == st.kind && ps'.pcs[st.i].port == st.p && ps'.pcs[st.i].msg == st.msg
                  else ps'.pcs[st.i] == ps.pcs[st.i])
  {
    hide PInv, SignalPcs, WakeAll;
    StepStays(ps, st);
    match st
    case DoEnter(j, kind, p, msg) =>
      if !BadPort(ps, p) { SignalOut(ps.ports[p].recv, ps.pcs, j); SignalOut(ps.ports[p].send, ps.pcs, j); SidesOut(ps, p, j, kind); }
    case DoResume(j) =>
      EnabledFacts(ps, j);
      SignalOut(ps.ports[ps.pcs[j].port].recv, ps.pcs[j := Outside], j);
      SignalOut(ps.ports[ps.pcs[j].port].send, ps.pcs[j := Outside], j);
    case DoClearMore(j) => EnabledFacts(ps, j);
    case DoKill(j) => EnabledFacts(ps, j);
    case _ =>
  }

  lemma SidesOut(ps: Ps, p: int, j: int, kind: Kind)
    requires 0 <= p < |ps.ports| && 0 <= j < |ps.pcs| && ps.pcs[j].Outside?
    ensures var pt := WithSide(ps.ports[p], kind, WaitSide(SideOf(ps.ports[p], kind), j));
            && |SignalPcs(pt.recv, ps.pcs)| == |ps.pcs| == |SignalPcs(pt.send, ps.pcs)|
            && SignalPcs(pt.recv, ps.pcs)[j].Outside? && SignalPcs(pt.send, ps.pcs)[j].Outside?
  {
  }

  lemma KnownStep(ps: Ps, before: seq<Step>, st: Step)
    requires PInv(ps) && Enabled(ps, st) && Known(ps, before)
    ensures Known(Next(ps, st), before + [st])
  {
    hide PInv, Next, Enabled, LastCall;
    StepStays(ps, st);
    if !st.DoCreate? { ActorKnown(ps, st); }
    var ps' := Next(ps, st);
    forall i | 0 <= i < |ps'.pcs| && ps'.pcs[i].At?
      ensures LastCall(before + [st], i) == Call(ps'.pcs[i].kind, ps'.pcs[i].port, ps'.pcs[i].msg)
    {
      LastOfMore(before, st, i);
    }
  }

  /** The step completes a ptsend to port p: it had its unit, the port is the one it
      came to, and there is a node. */
  predicate Sends(ps: Ps, st: Step, p: int) {
    && 0 <= p < |ps.ports| && ps.ports[p].state.PtAlloc? && ps.free != []
    && if st.DoEnter? then st.kind.Sender? && st.p == p && ps.ports[p].send.sem.count > 0
       else st.DoResume? && 0 <= st.i < |ps.pcs| && ps.pcs[st.i].At? && ps.pcs[st.i].kind.Sender?
            && ps.pcs[st.i].port == p && ps.pcs[st.i].ptseq == ps.ports[p].ptseq
  }

  /** The step makes the port anew: ptcreate, or the reset at the end of its messages. */
  predicate Renews(ps: Ps, st: Step, p: int) {
    && 0 <= p < |ps.ports|
    && if st.DoCreate? then st.p == p && st.count >= 0 && ps.ports[p].state.PtFree?
       else st.DoClearMore? && 0 <= st.i < |ps.pcs| && ps.pcs[st.i].Clearing? && ps.pcs[st.i].port == p
            && ps.pcs[st.i].reset && ps.pcs[st.i].phase == 0 && ps.pcs[st.i].k >= |ps.ports[p].items|
  }

  /** What ptsend and ptrecv up to their end do to the history of a port. */
  lemma FinishSent(ps: Ps, q: int, pt: Port, pcs: seq<Pc>, kind: Kind, msg: int, p: int)
    requires 0 <= q < |ps.ports| && 0 <= p < |ps.ports| && pt.sent == ps.ports[q].sent
    ensures var ps' := Finish(ps, q, pt, pcs, kind, msg);
            && |ps'.ports| == |ps.ports|
            && ps'.ports[p].sent == ps.ports[p].sent + if p == q && kind.Sender? && ps.free != [] then [msg] else []
  {
    hide SignalPcs;
  }

  lemma EnterSent(ps: Ps, i: int, kind: Kind, q: int, msg: int, p: int)
    requires |ps.ports| == NPORTS && 0 <= i < |ps.pcs| && 0 <= p < NPORTS
    ensures var ps' := Enter(ps, i, kind, q, msg);
            && |ps'.ports| == NPORTS
            && ps'.ports[p].sent == ps.ports[p].sent + if Sends(ps, DoEnter(i, kind, q, msg), p) then [msg] else []
  {
    hide Finish;
    if !BadPort(ps, q) {
      var pt := WithSide(ps.ports[q], kind, WaitSide(SideOf(ps.ports[q], kind), i));
      FinishSent(ps, q, pt, ps.pcs, kind, msg, p);
    }
  }

  lemma ResumeSent(ps: Ps, i: int, p: int)
    requires |ps.ports| == NPORTS && 0 <= i < |ps.pcs| && ps.pcs[i].At? && 0 <= ps.pcs[i].port < NPORTS && 0 <= p < NPORTS
    ensures var ps' := Resume(ps, i);
            && |ps'.ports| == NPORTS
            && ps'.ports[p].sent == ps.ports[p].sent + if Sends(ps, DoResume(i), p) then [ps.pcs[i].msg] else []
  {
    hide Finish;
    var pc := ps.pcs[i];
    FinishSent(ps, pc.port, ps.ports[pc.port], ps.pcs[i := Outside], pc.kind, pc.msg, p);
  }

  lemma OtherSent(ps: Ps, st: Step, p: int)
    requires PInv(ps) && Enabled(ps, st) && 0 <= p < NPORTS && !st.DoEnter? && !st.DoResume?
    ensures |ps.ports| == |Next(ps, st).ports| == NPORTS
    ensures Next(ps, st).ports[p].sent == if Renews(ps, st, p) then [] else ps.ports[p].sent
  {
    hide PInv, WakeAll, Nodes;
    PortCount(ps);
    match st
    case DoClearMore(j) => EnabledFacts(ps, j);
    case DoKill(j) => EnabledFacts(ps, j);
    case _ =>
  }

  lemma SentStep(ps: Ps, before: seq<Step>, st: Step, p: int)
    requires PInv(ps) && Enabled(ps, st) && Known(ps, before) && 0 <= p < NPORTS
    ensures |ps.ports| == |Next(ps, st).ports| == NPORTS
    ensures var sent, sent', c := ps.ports[p].sent, Next(ps, st).ports[p].sent, LastCall(before + [st], Actor(st));
            if Renews(ps, st, p) then sent' == []
            else if Sends(ps, st, p) then c.Call? && c.kind.Sender? && c.p == p && sent' == sent + [c.msg]
            else sent' == sent
  {
    hide PInv, LastCall, Enter, Resume;
    PortCount(ps);
    LastOfMore(before, st, Actor(st));
    match st
    case DoEnter(j, kind, q, msg) => EnterSent(ps, j, kind, q, msg, p);
    case DoResume(j) => EnabledFacts(ps, j); ResumeSent(ps, j, p);
    case _ => OtherSent(ps, st, p);
  }

  /** The arguments of the ptsends to port p that the run completes, in order of
      completion, since the port was last made anew; log are those before the run. */
  ghost function Log(ps: Ps, before: seq<Step>, steps: seq<Step>, p: int, log: seq<int>): seq<int>
    requires PInv(ps) && CanRun(ps, steps)
    decreases |steps|
  {
    if steps == [] then log
    else
      var st := steps[0];
      var c := LastCall(before + [st], Actor(st));
      var log' := if Renews(ps, st, p) then [] else if Sends(ps, st, p) && c.Call? then log + [c.msg] else log;
      StepInv(ps, st);
      Log(Next(ps, st), before + [st], steps[1..], p, log')
  }

  lemma {:induction false} SentIsLog(ps: Ps, before: seq<Step>, steps: seq<Step>, p: int)
    requires PInv(ps) && CanRun(ps, steps) && Known(ps, before) && 0 <= p < NPORTS == |ps.ports|
    ensures |Run(ps, steps).ports| == NPORTS && Run(ps, steps).ports[p].sent == Log(ps, before, steps, p, ps.ports[p].sent)
    decreases |steps|
  {
    hide PInv, Next, Enabled, Known, LastCall, Renews, Sends;
    if steps != [] {
      StepInv(ps, steps[0]);
      KnownStep(ps, before, steps[0]);
      SentStep(ps, before, steps[0], p);
      SentIsLog(Next(ps, steps[0]), before + [steps[0]], steps[1..], p);
    }
  }

  /** First in, first out, over any run from ptinit: what was received from a port
      and what is in it are, one after the other, the arguments of the ptsends to
      it that completed. */
  lemma FirstInFirstOut(n: nat, nproc: nat, steps: seq<Step>, p: int)
    requires PInv(Init(n, nproc)) && CanRun(Init(n, nproc), steps) && 0 <= p < NPORTS
    ensures var ps := Run(Init(n, nproc), steps);
            && |ps.ports| == NPORTS
            && (ps.ports[p].state.PtAlloc? ==>
                  ps.ports[p].received + Msgs(ps.ports[p].items) == Log(Init(n, nproc), [], steps, p, []))
  {
    hide Run, CanRun, PInv, Log;
    assert Known(Init(n, nproc), []);
    SentIsLog(Init(n, nproc), [], steps, p);
    Holds(Run(Init(n, nproc), steps));
  }

  // ------------------------------------------------------- full and empty

  /** No step of the run makes port p anew. */
  ghost predicate NotRenewed(ps: Ps, steps: seq<Step>, p: int)
    requires PInv(ps) && CanRun(ps, steps)
    decreases |steps|
  {
    steps == [] || (!Renews(ps, steps[0], p) && (StepInv(ps, steps[0]); NotRenewed(Next(ps, steps[0]), steps[1..], p)))
  }

  lemma SizeStep(ps: Ps, st: Step, p: int)
    requires PInv(ps) && Enabled(ps, st) && 0 <= p < NPORTS && !Renews(ps, st, p)
    ensures |Next(ps, st).ports| == |ps.ports| == NPORTS && Next(ps, st).ports[p].cap == ps.ports[p].cap
  {
    hide PInv, WakeAll, Nodes, SignalPcs;
    PortCount(ps);
    if !(st.DoCreate? && st.p == p) && !(st.DoClearMore? && ps.pcs[st.i].port == p && ps.pcs[st.i].reset) {
      SizeStays(ps, st, p);
    } else if st.DoClearMore? {
      EnabledFacts(ps, st.i);
    }
  }

  lemma {:induction false} SizeKept(ps: Ps, steps: seq<Step>, p: int)
    requires PInv(ps) && CanRun(ps, steps) && 0 <= p < NPORTS == |ps.ports| && NotRenewed(ps, steps, p)
    ensures |Run(ps, steps).ports| == NPORTS && Run(ps, steps).ports[p].cap == ps.ports[p].cap
    decreases |steps|
  {
    hide PInv, Next, Enabled, Renews;
    if steps != [] {
      StepInv(ps, steps[0]);
      SizeStep(ps, steps[0], p);
      SizeKept(Next(ps, steps[0]), steps[1..], p);
    }
  }

  /** A new port has as many slots as ptcreate was asked for and no messages, and it
      keeps that size over any run until it is made anew. */
  lemma NewPortSize(ps: Ps, p: int, count: nat, steps: seq<Step>)
    requires PInv(ps) && 0 <= p < NPORTS && |ps.ports| == NPORTS && ps.ports[p].state.PtFree?
    requires var ps1 := Create(ps, p, count); PInv(ps1) && CanRun(ps1, steps) && NotRenewed(ps1, steps, p)
    ensures var ps1 := Create(ps, p, count);
            && ps1.ports[p].state.PtAlloc? && ps1.ports[p].send.sem == Sem(true, count) && ps1.ports[p].recv.sem == Sem(true, 0)
            && ps1.ports[p].items == [] && ps1.ports[p].ptseq == ps.ports[p].ptseq + 1
            && ps1 == ps.(ports := ps.ports[p := ps1.ports[p]])
            && |Run(ps1, steps).ports| == NPORTS && Run(ps1, steps).ports[p].cap == count
  {
    hide PInv;
    SizeKept(Create(ps, p, count), steps, p);
  }

  /** At its end a reset leaves the port in use and a delete leaves it free; either way
      it is empty, and nobody waits. */
  lemma ClearEnds(ps: Ps, i: int)
    requires PInv(ps) && 0 <= i < |ps.pcs| && ps.pcs[i].Clearing? && ps.pcs[i].phase >= 2 && 0 <= ps.pcs[i].port < |ps.ports|
    ensures var pc, pt' := ps.pcs[i], ClearMore(ps, i).ports[ps.pcs[i].port];
            && pt'.items == [] && pt'.send.queue == pt'.recv.queue == [] && ClearMore(ps, i).pcs[i].Outside?
            && if pc.reset then pt'.state.PtAlloc? && pt'.send.sem == Sem(true, pt'.cap) && pt'.recv.sem == Sem(true, 0)
               else pt'.state.PtFree?
  {
    hide Queues, SeqsOK, Accounts;
    assert PortOK(ps.ports[ps.pcs[i].port], ps.pcs[i].port, ps.pcs, 0, 0);
    assert ClearOK(ps.ports[ps.pcs[i].port], ps.pcs[i]);
  }

  /** While nothing is lost, a sender waits exactly if messages and released senders
      fill the port, and a receiver exactly if every message has its receiver. */
  lemma BlocksIff(ps: Ps, i: int, p: int, m: int)
    requires PInv(ps) && ps.fault.NoFault? && Exact(ps) && 0 <= i < |ps.pcs| && ps.pcs[i].Outside?
    requires 0 <= p < NPORTS == |ps.ports| && ps.ports[p].state.PtAlloc?
    ensures var pt := ps.ports[p];
            && |Enter(ps, i, Sender, p, m).pcs| == |ps.pcs| == |Enter(ps, i, Receiver, p, m).pcs|
            && (Enter(ps, i, Sender, p, m).pcs[i].At? <==> |pt.items| + Held(ps.pcs, Sender, p, pt.ptseq) >= pt.cap)
            && (Enter(ps, i, Receiver, p, m).pcs[i].At? <==> |pt.items| <= Held(ps.pcs, Receiver, p, pt.ptseq))
  {
    hide PortOK, SignalPcs, Held;
    assert Exactly(ps.ports[p], p, ps.pcs);
    SidesOut(ps, p, i, Sender);
    SidesOut(ps, p, i, Receiver);
  }

  /** A ptrecv that does not wait, and one after its wait, gets the oldest message. */
  lemma GetsOldest(ps: Ps, i: int)
    requires PInv(ps) && ps.fault.NoFault? && 0 <= i < |ps.pcs| && |ps.ports| == NPORTS
    ensures forall p, m :: ps.pcs[i].Outside? && 0 <= p < NPORTS && ps.ports[p].state.PtAlloc? && ps.ports[p].recv.sem.count > 0 ==>
              var ps' := Enter(ps, i, Receiver, p, m);
              && ps.ports[p].items != [] && |ps'.ports| == NPORTS
              && ps'.ports[p].received == ps.ports[p].received + [ps.ports[p].items[0].msg]
    ensures ps.pcs[i].At? && ps.pcs[i].woken && ps.pcs[i].kind.Receiver? && 0 <= ps.pcs[i].port < NPORTS && !Stale(ps, ps.pcs[i]) ==>
              var pt, ps' := ps.ports[ps.pcs[i].port], Resume(ps, i);
              && pt.items != [] && |ps'.ports| == NPORTS
              && ps'.ports[ps.pcs[i].port].received == pt.received + [pt.items[0].msg]
  {
    hide SignalPcs, Held, Queues, SeqsOK, ClearsOK;
    Holds(ps);
    forall p, m | ps.pcs[i].Outside? && 0 <= p < NPORTS && ps.ports[p].state.PtAlloc? && ps.ports[p].recv.sem.count > 0
      ensures var ps' := Enter(ps, i, Receiver, p, m);
              && ps.ports[p].items != [] && |ps'.ports| == NPORTS
              && ps'.ports[p].received == ps.ports[p].received + [ps.ports[p].items[0].msg]
    {
      assert PortOK(ps.ports[p], p, ps.pcs, 0, 0);
    }
  }
}
