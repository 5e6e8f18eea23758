/** What a normal exit leaves behind, told from the state in which the gate has closed and the last
    operation is over. */
module LoggerStop {
  import opened Ring
  import opened Logger
  import opened LoggerInvariant
  import opened LoggerWorker
  import opened LoggerShared
  import opened LoggerWrites
  import opened LoggerExit
  import opened LoggerFrames
  import opened LoggerRuns
  import opened LoggerTheorems

  /** The draining loop has seen an empty ring, and the worker has not started to drain again. */
  ghost predicate PastLook(s: State)
    requires Formed(s)
  {
    match s.worker
    case Dequeuing(site) => site.Draining? && s.ring.pcs[WorkerId(s)].DeqEmpty?
    case FlushRequired(site) => site.Draining?
    case FlushIfDue(_) => true
    case TestGate(_) => true
    case TestActive(_) => true
    case FinalFlush => true
    case Exited => true
    case _ => false
  }

  predicate Failing(pc: WorkerPc) {
    pc.FailLoad? || pc.FailCas? || pc.FailSet? || pc.FailRequest? || pc.FailComplete? || pc.FailNotify? || pc.Failed?
  }

  // ----- the worker cannot turn back -----

  /** One step of the worker behind a closed gate with nothing active. */
  ghost predicate Advances(s: State, s': State)
    requires Formed(s)
  {
    && Formed(s')
    && (Failing(s.worker) ==> Failing(s'.worker))
    && (PastLook(s) ==> s'.ring.dequeuePos == s.ring.dequeuePos && (PastLook(s') || Failing(s'.worker)))
    && (PastLook(s') && !PastLook(s) ==> s'.look.quiet)
  }

  lemma BeginAdvances(s: State)
    requires Formed(s)
    ensures Advances(s, BeginDequeueStep(s))
  {
  }

  lemma DequeueInsideAdvances(s: State, c: Choice)
    requires Formed(s) && Counted(s.ring) && Quiet(s) && WorkerCoupled(s)
    requires s.worker.Dequeuing? && InDequeue(s.ring.pcs[WorkerId(s)])
    ensures Advances(s, DequeueStep(s, c))
  {
  }

  lemma DequeueReturnAdvances(s: State, c: Choice)
    requires Formed(s) && Quiet(s) && WorkerCoupled(s) && ExitOk(s)
    requires !(s.worker.Dequeuing? && InDequeue(s.ring.pcs[WorkerId(s)]))
    ensures Advances(s, DequeueStep(s, c))
  {
  }

  lemma HandleAdvances(s: State, c: Choice)
    requires Formed(s)
    ensures Advances(s, HandleStep(s, c))
  {
  }

  lemma TurnAdvances(s: State, c: Choice)
    requires Formed(s)
    ensures Advances(s, TurnStep(s, c))
  {
  }

  lemma ExitTestAdvances(s: State)
    requires Formed(s) && Quiet(s) && !s.cfg.drainAgain
    ensures Advances(s, ExitTestStep(s))
  {
  }

  lemma WaitAdvances(s: State, c: Choice)
    requires Formed(s)
    ensures Advances(s, WaitStep(s, c))
  {
  }

  lemma FailAdvances(s: State, c: Choice)
    requires Formed(s)
    ensures Advances(s, FailStep(s, c))
  {
  }

  lemma DequeueAdvances(s: State, c: Choice)
    requires Formed(s) && Counted(s.ring) && Quiet(s) && WorkerCoupled(s) && ExitOk(s)
    ensures Advances(s, DequeueStep(s, c))
  {
    if s.worker.Dequeuing? && InDequeue(s.ring.pcs[WorkerId(s)]) { DequeueInsideAdvances(s, c); }
    else { DequeueReturnAdvances(s, c); }
  }

  lemma IdleAdvances(s: State, move: Move)
    requires Formed(s) && Quiet(s) && !s.cfg.drainAgain && (move.ExitTest? || move.Wait? || move.Fail?)
    ensures Advances(s, Apply(s, move))
  {
    match move
    case ExitTest => ExitTestAdvances(s);
    case Wait(c) => WaitAdvances(s, c);
    case Fail(c) => FailAdvances(s, c);
  }

  lemma WorkerAdvances(s: State, move: Move)
    requires Formed(s) && Counted(s.ring) && Quiet(s) && !s.cfg.drainAgain && WorkerCoupled(s) && ExitOk(s)
    requires IsWorkerMove(move)
    ensures Advances(s, Apply(s, move))
  {
    match move
    case BeginDequeue => BeginAdvances(s);
    case Dequeue(c) => DequeueAdvances(s, c);
    case Handle(c) => HandleAdvances(s, c);
    case Turn(c) => TurnAdvances(s, c);
    case _ => IdleAdvances(s, move);
  }

  /** A client that is not live leaves the ring and the worker alone. */
  lemma IdleClientMove(s: State, move: Move)
    requires Formed(s) && !IsWorkerMove(move)
    requires move.t < |s.pcs| ==> !Live(s.pcs[move.t])
    ensures var s' := Apply(s, move);
            s'.ring == s.ring && s'.worker == s.worker && |s'.pcs| == |s.pcs|
  {
  }

  // ----- what is settled when the last operation is over -----

  /** In s0 the gate was closed and nothing active; s comes later. */
  ghost predicate Settled(s0: State, s: State)
    requires Formed(s0)
  {
    && Formed(s) && Quiet(s) && s.cfg == s0.cfg
    && s.ring.items == s0.ring.items && s.ring.enqueuePos == s0.ring.enqueuePos
    && (PastLook(s0) ==> Failing(s.worker) || (PastLook(s) && s.ring.dequeuePos == s0.ring.dequeuePos))
    && (!PastLook(s0) && PastLook(s) ==> s.ring.dequeuePos == s.ring.enqueuePos)
  }

  /** Nothing is claimed any more. */
  lemma NoMoreClaims(s: State, s': State)
    requires Invariant(s) && Quiet(s) && Invariant(s') && Grows(s, s')
    ensures Quiet(s') && s'.ring.items == s.ring.items && s'.ring.enqueuePos == s.ring.enqueuePos
  {
    assert Holds(s, GatePart) && GrowsIn(s, s', HistoryGrowth) && GrowsIn(s, s', GateGrowth) && GrowsIn(s, s', ClaimGrowth);
    forall u | 0 <= u < |s.pcs| ensures !MayClaimFlags(s)[u] {
      QuietMeansIdle(s, u);
    }
    CountBounds(MayClaimFlags(s));
  }

  lemma SettledWorker(s0: State, s: State, s': State)
    requires Formed(s0) && Settled(s0, s) && Advances(s, s') && ExitOk(s') && SameShape(s, s')
    requires Quiet(s') && s'.ring.items == s.ring.items && s'.ring.enqueuePos == s.ring.enqueuePos
    ensures Settled(s0, s')
  {
  }

  lemma QuietWorkerMove(s: State, move: Move)
    requires Invariant(s) && Quiet(s) && !s.cfg.drainAgain && IsWorkerMove(move) && Invariant(Apply(s, move))
    ensures Advances(s, Apply(s, move)) && ExitOk(Apply(s, move))
  {
    assert Holds(s, WorkerPart) && Holds(s, ExitPart) && Holds(Apply(s, move), ExitPart);
    WorkerAdvances(s, move);
  }

  lemma QuietClientMove(s: State, move: Move)
    requires Invariant(s) && Quiet(s) && !IsWorkerMove(move)
    ensures var s' := Apply(s, move);
            s'.ring == s.ring && s'.worker == s.worker && |s'.pcs| == |s.pcs|
  {
    assert Holds(s, GatePart);
    if move.t < |s.pcs| { QuietMeansIdle(s, move.t); }
    IdleClientMove(s, move);
  }

  lemma SettledMove(s0: State, s: State, move: Move)
    requires Formed(s0) && Invariant(s) && Settled(s0, s) && !s.cfg.drainAgain
    ensures Settled(s0, Apply(s, move))
  {
    MoveKeepsInv(s, move);
    NoMoreClaims(s, Apply(s, move));
    if IsWorkerMove(move) {
      QuietWorkerMove(s, move);
      SettledWorker(s0, s, Apply(s, move));
    } else {
      QuietClientMove(s, move);
    }
  }

  lemma {:induction false} SettledRun(s: State, rest: seq<Move>)
    requires Invariant(s) && Quiet(s) && !s.cfg.drainAgain
    ensures Invariant(Continue(s, rest)) && Settled(s, Continue(s, rest))
  {
    ContinueKeepsInv(s, rest);
    if rest == [] {
      assert Holds(s, ExitPart);
    } else {
      var n := |rest| - 1;
      SettledRun(s, rest[..n]);
      SettledMove(s, Continue(s, rest[..n]), rest[n]);
    }
  }

  // ----- a way out -----

  const CALM := Choice(CallLog, false, false, false)

  function OutMove(pc: WorkerPc): Move {
    match pc
    case Dequeuing(_) => Dequeue(CALM)
    case TestGate(_) => ExitTest
    case TestActive(_) => ExitTest
    case _ => Turn(CALM)
  }

  function StepsOut(pc: WorkerPc): nat {
    match pc
    case Dequeuing(_) => 6
    case FlushRequired(_) => 5
    case FlushIfDue(_) => 4
    case TestGate(_) => 3
    case TestActive(_) => 2
    case FinalFlush => 1
    case _ => 0
  }

  lemma StepOut(s: State)
    requires Formed(s) && Quiet(s) && !s.cfg.drainAgain && PastLook(s) && !s.worker.Exited?
    ensures var s' := Apply(s, OutMove(s.worker));
            PastLook(s') && Quiet(s') && s'.cfg == s.cfg && StepsOut(s'.worker) < StepsOut(s.worker)
  {
  }

  /** A worker past its look can exit in a few steps of its own. */
  lemma {:induction false} WayOut(s: State) returns (rest: seq<Move>)
    requires Formed(s) && Quiet(s) && !s.cfg.drainAgain && PastLook(s)
    ensures Continue(s, rest).worker.Exited?
    decreases StepsOut(s.worker)
  {
    if s.worker.Exited? {
      rest := [];
    } else {
      StepOut(s);
      var move := OutMove(s.worker);
      var more := WayOut(Apply(s, move));
      rest := [move] + more;
      ContinueTwice(s, [move], more);
      ContinueOnce(s, move);
    }
  }

  // ----- what a normal exit leaves behind -----

  /** Everything that was claimed has been written, once, and flushed after it was written; every
      accepted log is among it, and the counters agree. */
  ghost predicate Drained(s: State)
    requires Formed(s)
  {
    && s.ring.dequeuePos == s.ring.enqueuePos
    && Writes(s.events) == Logs(s.ring.items) && FlushedWrites(s.events) == Logs(s.ring.items)
    && (forall p | p in s.accepted :: p < s.ring.dequeuePos)
    && s.written == s.enqueued
  }

  /** The same for the logs alone; a flush item may have been left behind. */
  ghost predicate AllWritten(s: State) {
    && Writes(s.events) == Logs(s.ring.items) && FlushedWrites(s.events) == Logs(s.ring.items)
    && s.written == s.enqueued
  }

  lemma ExitCounts(s: State)
    requires Formed(s) && Counted(s.ring) && WritesOk(s) && GateOk(s) && CountersOk(s) && ExitOk(s)
    requires s.worker.Exited?
    ensures s.enqueued == |Logs(s.ring.items)| && s.written == |Writes(s.events)|
    ensures Writes(s.events) == FlushedWrites(s.events) == Logs(s.ring.items[..s.ring.dequeuePos])
    ensures Logs(s.ring.items) == Writes(s.events) + Logs(s.ring.items[s.ring.dequeuePos..])
  {
    NothingPending(s);
    var items, d := s.ring.items, s.ring.dequeuePos;
    assert items == items[..d] + items[d..];
    LogsConcat(items[..d], items[d..]);
  }

  lemma ExitLeaves(s: State)
    requires Invariant(s) && s.worker.Exited?
    ensures Drained(s) <==> s.ring.dequeuePos == s.ring.enqueuePos
    ensures AllWritten(s) <==> Logs(s.ring.items[s.ring.dequeuePos..]) == []
  {
    assert Holds(s, WritePart) && Holds(s, GatePart) && Holds(s, CounterPart) && Holds(s, ExitPart) && Holds(s, TicketPart);
    ExitCounts(s);
    if s.ring.dequeuePos == s.ring.enqueuePos {
      assert s.ring.items[..s.ring.dequeuePos] == s.ring.items;
    }
  }

  // ----- theorems -----

  /** After a normal exit no operation is live, and none ever starts again. */
  lemma ExitIsFinal(cfg: Config, capacity: nat, clients: nat, first: seq<Move>, rest: seq<Move>, s: State, s': State, u: nat)
    requires 2 <= capacity && clients < GATE && u < clients
    requires s == Run(cfg, capacity, clients, first) && s.worker.Exited? && s' == Continue(s, rest)
    ensures Quiet(s') && !Live(s'.pcs[u])
  {
    Reachable(cfg, capacity, clients, first);
    ContinueKeepsInv(s, rest);
    ExitedIsQuiet(s);
    StaysQuiet(s, s', u);
  }

  lemma ExitedIsQuiet(s: State)
    requires Invariant(s) && s.worker.Exited?
    ensures Quiet(s)
  {
    assert Holds(s, ExitPart);
  }

  lemma StaysQuiet(s: State, s': State, u: nat)
    requires Invariant(s) && Invariant(s') && Grows(s, s') && Quiet(s) && u < |s'.pcs|
    ensures Quiet(s') && !Live(s'.pcs[u])
  {
    assert GrowsIn(s, s', GateGrowth) && Holds(s', GatePart);
    QuietMeansIdle(s', u);
  }

  /** What a normal exit has taken out of the ring, told from any state with the gate closed and
      nothing active: everything, unless the worker was past its look there; then what it had taken. */
  lemma ExitTakesExactly(s: State, rest: seq<Move>)
    requires Invariant(s) && Quiet(s) && !s.cfg.drainAgain
    ensures var s' := Continue(s, rest);
            && Invariant(s') && s'.ring.items == s.ring.items && s'.ring.enqueuePos == s.ring.enqueuePos
            && (s'.worker.Exited? ==>
                  s'.ring.dequeuePos == if PastLook(s) then s.ring.dequeuePos else s.ring.enqueuePos)
  {
    SettledRun(s, rest);
  }

  /** However the run goes on from s, a normal exit leaves nothing behind. */
  ghost predicate EveryExitDrains(s: State)
    requires Formed(s)
  {
    forall rest :: Continue(s, rest).worker.Exited? ==> Drained(Continue(s, rest))
  }

  /** However the run goes on from s, a normal exit leaves no log behind. */
  ghost predicate EveryExitWritesAll(s: State)
    requires Formed(s)
  {
    forall rest :: Continue(s, rest).worker.Exited? ==> AllWritten(Continue(s, rest))
  }

  lemma ExitAfterLook(s: State)
    requires Invariant(s) && Quiet(s) && !s.cfg.drainAgain
    ensures PastLook(s) && s.ring.dequeuePos != s.ring.enqueuePos ==> !EveryExitDrains(s)
    ensures PastLook(s) && Logs(s.ring.items[s.ring.dequeuePos..]) != [] ==> !EveryExitWritesAll(s)
  {
    if PastLook(s) {
      var rest := WayOut(s);
      ExitTakesExactly(s, rest);
      ExitLeaves(Continue(s, rest));
    }
  }

  /** Stop drains exactly when the worker is not caught past its look.  Take any reachable state in
      which the gate has closed and the last operation is over: every normal exit from there leaves
      nothing behind if and only if the worker is not past its look or the ring is empty; and it
      leaves no log behind if and only if the worker is not past its look or no log is queued. */
  lemma ExitDrainsExactly(cfg: Config, capacity: nat, clients: nat, first: seq<Move>, s: State)
    requires 2 <= capacity && clients < GATE && !cfg.drainAgain
    requires s == Run(cfg, capacity, clients, first) && Quiet(s)
    ensures EveryExitDrains(s) <==> (PastLook(s) ==> s.ring.dequeuePos == s.ring.enqueuePos)
    ensures s.ring.dequeuePos <= |s.ring.items|
    ensures EveryExitWritesAll(s) <==> (PastLook(s) ==> Logs(s.ring.items[s.ring.dequeuePos..]) == [])
  {
    Reachable(cfg, capacity, clients, first);
    ExitAfterLook(s);
    forall rest | Continue(s, rest).worker.Exited?
      ensures (PastLook(s) ==> s.ring.dequeuePos == s.ring.enqueuePos) ==> Drained(Continue(s, rest))
      ensures (PastLook(s) ==> Logs(s.ring.items[s.ring.dequeuePos..]) == []) ==> AllWritten(Continue(s, rest))
    {
      ExitTakesExactly(s, rest);
      ExitLeaves(Continue(s, rest));
    }
  }

  /** What a caller can check: if the statistics show nothing pending when the gate has closed and no
      operation is active, every normal exit has written everything, wherever the worker was. */
  lemma NothingPendingDrains(cfg: Config, capacity: nat, clients: nat, first: seq<Move>, rest: seq<Move>, s: State, s': State)
    requires 2 <= capacity && clients < GATE
    requires s == Run(cfg, capacity, clients, first) && Quiet(s) && s.enqueued == s.written
    requires s' == Continue(s, rest) && s'.worker.Exited?
    ensures AllWritten(s')
  {
    Reachable(cfg, capacity, clients, first);
    ContinueKeepsInv(s, rest);
    ExitLeaves(s');
    if cfg.drainAgain {
      assert Holds(s', ExitPart);
    } else {
      ExitTakesExactly(s, rest);
      NoLogQueued(s);
    }
  }

  lemma NoLogQueued(s: State)
    requires Invariant(s) && Quiet(s) && s.enqueued == s.written
    ensures Logs(s.ring.items[s.ring.dequeuePos..]) == []
  {
    assert Holds(s, CounterPart) && Holds(s, WritePart) && Holds(s, GatePart);
    NothingPending(s);
    AccountForClaims(s);
  }

  /** A normal exit leaves nothing behind if, at the worker's last empty TryDequeue, the gate was
      already closed and no operation was active. */
  lemma QuietExitDrains(cfg: Config, capacity: nat, clients: nat, moves: seq<Move>)
    requires 2 <= capacity && clients < GATE
    ensures var s := Run(cfg, capacity, clients, moves);
            s.worker.Exited? && s.look.quiet ==> Drained(s)
  {
    Reachable(cfg, capacity, clients, moves);
    var s := Run(cfg, capacity, clients, moves);
    assert Holds(s, ExitPart);
    if s.worker.Exited? { ExitLeaves(s); }
  }

  /** With one more drain after the exit test, every normal exit leaves nothing behind. */
  lemma RepairedExitDrains(cfg: Config, capacity: nat, clients: nat, moves: seq<Move>)
    requires 2 <= capacity && clients < GATE && cfg.drainAgain
    ensures var s := Run(cfg, capacity, clients, moves);
            s.worker.Exited? ==> Drained(s)
  {
    QuietExitDrains(cfg, capacity, clients, moves);
    Reachable(cfg, capacity, clients, moves);
    assert Holds(Run(cfg, capacity, clients, moves), ExitPart);
  }
}
