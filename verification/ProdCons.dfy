// The producer and the consumer as two processes that share a variable and two
// semaphores, one statement at a time, in any interleaving.
module ProdCons {
  import opened KernelModel

  /** Where the producer is in the iteration for item i. */
  datatype PPc = PWait(i: int) | PBlocked(i: int) | PWrite(i: int) | PSignal(i: int) | PDelete | PDone
  datatype CPc = CWait | CBlocked | CRead | CTest | CSignal | CDelete | CDone

  /** out is what the consumer has printed. */
  datatype St = St(n: int, p: PPc, c: CPc, consumed: Sem, produced: Sem, out: seq<int>)

  // ------------------------------------------------------------- the steps

  /** A process blocked in wait is released by signal and by semdelete. */
  function FreeP(p: PPc): PPc { if p.PBlocked? then PWrite(p.i) else p }
  function FreeC(c: CPc): CPc { if c.CBlocked? then CRead else c }

  function Up(s: Sem): Sem { s.(count := s.count + 1) }
  function Down(s: Sem): Sem { s.(count := s.count - 1) }

  function ProducerStep(s: St, count: int): St {
    match s.p
    case PWait(i) =>
      if !s.consumed.used then s.(p := PWrite(i))
      else s.(consumed := Down(s.consumed), p := if s.consumed.count - 1 < 0 then PBlocked(i) else PWrite(i))
    case PWrite(i) => s.(n := i, p := PSignal(i))
    case PSignal(i) =>
      var s1 := s.(p := if i == count then PDelete else PWait(i + 1));
      if !s.produced.used then s1
      else s1.(produced := Up(s.produced), c := if s.produced.count < 0 then FreeC(s.c) else s.c)
    case PDelete =>
      s.(produced := s.produced.(used := false), p := PDone, c := if s.produced.count < 0 then FreeC(s.c) else s.c)
    case _ => s
  }

  function ConsumerStep(s: St, count: int): St {
    match s.c
    case CWait =>
      if !s.produced.used then s.(c := CRead)
      else s.(produced := Down(s.produced), c := if s.produced.count - 1 < 0 then CBlocked else CRead)
    case CRead => s.(out := s.out + [s.n], c := CTest)
    case CTest => s.(c := if s.n == count then CDelete else CSignal)
    case CSignal =>
      if !s.consumed.used then s.(c := CWait)
      else s.(consumed := Up(s.consumed), c := CWait, p := if s.consumed.count < 0 then FreeP(s.p) else s.p)
    case CDelete =>
      s.(consumed := s.consumed.(used := false), c := CDone, p := if s.consumed.count < 0 then FreeP(s.p) else s.p)
    case _ => s
  }

  predicate CanMove(s: St, producer: bool) {
    if producer then !s.p.PBlocked? && !s.p.PDone? else !s.c.CBlocked? && !s.c.CDone?
  }

  function Move(s: St, count: int, producer: bool): St {
    if producer then ProducerStep(s, count) else ConsumerStep(s, count)
  }

  /** n may hold anything from an earlier use. */
  function Start(n: int): St { St(n, PWait(1), CWait, Sem(true, 1), Sem(true, 0), []) }

  // ------------------------------------------------------------- invariant

  function UpTo(k: nat): (r: seq<int>)
    ensures |r| == k && forall i :: 0 <= i < k ==> r[i] == i + 1
  {
    seq(k, i => i + 1)
  }

  /** The number of items signalled so far. */
  function Made(p: PPc, count: int): int {
    match p
    case PDelete => count
    case PDone => count
    case _ => p.i - 1
  }

  /** Everything made was consumed: the producer may go on. */
  ghost predicate ProducersTurn(s: St, count: int) {
    && Made(s.p, count) == |s.out| < count && s.produced.used && s.consumed.used
    && (s.c.CWait? || s.c.CBlocked?) && s.produced.count == (if s.c.CWait? then 0 else -1)
    && (s.p.PWait? || s.p.PWrite? || s.p.PSignal?) && s.consumed.count == (if s.p.PWait? then 1 else 0)
    && (s.p.PSignal? ==> s.n == s.p.i)
  }

  /** One item is in n: the consumer may go on. */
  ghost predicate ConsumersTurn(s: St, count: int) {
    var a := Made(s.p, count);
    && 1 <= a <= count && s.n == a
    && (s.produced.used <==> !s.p.PDone?) && (s.consumed.used <==> !s.c.CDone?)
    && (s.p.PWait? || s.p.PBlocked? || s.p.PDelete? || s.p.PDone?) && (a == count <==> s.p.PDelete? || s.p.PDone?)
    && s.consumed.count == (if s.p.PBlocked? then -1 else 0)
    && match s.c
       case CWait => |s.out| == a - 1 && (s.produced.used ==> s.produced.count == 1)
       case CRead => |s.out| == a - 1 && (s.produced.used ==> s.produced.count == 0)
       case CBlocked => false
       case CTest => |s.out| == a && (s.produced.used ==> s.produced.count == 0)
       case CSignal => |s.out| == a < count && (s.produced.used ==> s.produced.count == 0)
       case _ => |s.out| == a == count && (s.produced.used ==> s.produced.count == 0)
  }

  ghost predicate Inv(s: St, count: int) {
    s.out == UpTo(|s.out|) && (ProducersTurn(s, count) || ConsumersTurn(s, count))
  }

  lemma StartInv(n: int, count: int)
    requires count >= 1
    ensures Inv(Start(n), count)
  {
  }

  lemma ProducerInv(s: St, count: int)
    requires Inv(s, count) && CanMove(s, true)
    ensures Inv(ProducerStep(s, count), count)
  {
  }

  lemma ConsumerInv(s: St, count: int)
    requires Inv(s, count) && CanMove(s, false)
    ensures Inv(ConsumerStep(s, count), count)
  {
    assert s.c.CRead? ==> UpTo(|s.out| + 1) == UpTo(|s.out|) + [s.n];
  }

  // ----------------------------------------------------------- termination

  function ProducerLeft(p: PPc, count: int): int {
    match p
    case PWait(i) => 4 * (count - i) + 6
    case PBlocked(i) => 4 * (count - i) + 5
    case PWrite(i) => 4 * (count - i) + 4
    case PSignal(i) => 4 * (count - i) + 3
    case PDelete => 1
    case PDone => 0
  }

  function ConsumerLeft(c: CPc, k: int, count: int): int {
    match c
    case CWait => 6 * (count - k) + 4
    case CBlocked => 6 * (count - k) + 3
    case CRead => 6 * (count - k) + 2
    case CTest => 6 * (count - k) + 7
    case CSignal => 6 * (count - k) + 6
    case CDelete => 1
    case CDone => 0
  }

  /** Bounds the number of steps that are still to come. */
  function Left(s: St, count: int): int { ProducerLeft(s.p, count) + ConsumerLeft(s.c, |s.out|, count) }

  lemma LeftShrinks(s: St, count: int, producer: bool)
    requires Inv(s, count) && CanMove(s, producer)
    ensures 0 <= Left(Move(s, count, producer), count) < Left(s, count)
  {
    if producer { ProducerShrinks(s, count); } else { ConsumerShrinks(s, count); }
  }

  lemma ProducerShrinks(s: St, count: int)
    requires Inv(s, count) && CanMove(s, true)
    ensures 0 <= Left(ProducerStep(s, count), count) < Left(s, count)
  {
    hide UpTo;
  }

  lemma ConsumerShrinks(s: St, count: int)
    requires Inv(s, count) && CanMove(s, false)
    ensures 0 <= Left(ConsumerStep(s, count), count) < Left(s, count)
  {
    hide UpTo;
  }

  lemma LeftPositive(s: St, count: int)
    requires Inv(s, count)
    ensures Left(s, count) >= 0
  {
  }

  /** Somebody can move until both are done. */
  lemma NoDeadlock(s: St, count: int)
    requires Inv(s, count)
    ensures CanMove(s, true) || CanMove(s, false) || (s.p.PDone? && s.c.CDone?)
    ensures s.p.PDone? && s.c.CDone? ==> s.out == UpTo(count)
  {
  }

  // ------------------------------------------------------------ whole runs

  predicate Possible(s: St, count: int, moves: seq<bool>)
    decreases |moves|
  {
    moves == [] || (CanMove(s, moves[0]) && Possible(Move(s, count, moves[0]), count, moves[1..]))
  }

  function Run(s: St, count: int, moves: seq<bool>): St
    decreases |moves|
  {
    if moves == [] then s else Run(Move(s, count, moves[0]), count, moves[1..])
  }

  lemma {:induction false} RunInv(s: St, count: int, moves: seq<bool>)
    requires Inv(s, count) && Possible(s, count, moves)
    ensures Inv(Run(s, count, moves), count) && |moves| <= Left(s, count)
    decreases |moves|
  {
    hide Inv, Left, Move, CanMove;
    LeftPositive(s, count);
    if moves != [] {
      LeftShrinks(s, count, moves[0]);
      MoveInv(s, count, moves[0]);
      RunInv(Move(s, count, moves[0]), count, moves[1..]);
    }
  }

  lemma MoveInv(s: St, count: int, producer: bool)
    requires Inv(s, count) && CanMove(s, producer)
    ensures Inv(Move(s, count, producer), count)
  {
    if producer { ProducerInv(s, count); } else { ConsumerInv(s, count); }
  }

  /** In every interleaving the consumer reads 1, 2, 3 and so on, each once; no
      run is longer than a fixed bound, and one that cannot go on has finished
      both processes with all items read. */
  lemma ReadsInOrder(n: int, count: int, moves: seq<bool>)
    requires count >= 1 && Possible(Start(n), count, moves)
    ensures var s := Run(Start(n), count, moves);
            && s.out == UpTo(|s.out|) && |s.out| <= count
            && |moves| <= 10 * count + 6
            && (!CanMove(s, true) && !CanMove(s, false) ==> s.p.PDone? && s.c.CDone? && s.out == UpTo(count))
  {
    hide Run, Possible;
    StartInv(n, count);
    RunInv(Start(n), count, moves);
    var s := Run(Start(n), count, moves);
    NoDeadlock(s, count);
  }
}
