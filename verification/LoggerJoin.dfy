/** Stop closes the gate, and returns only when the worker has ended. */
module LoggerJoin {
  import opened Logger
  import opened LoggerInvariant
  import opened LoggerShared
  import opened LoggerFrames
  import opened LoggerRuns
  import opened LoggerClaims
  import opened LoggerStop

  predicate Ended(pc: WorkerPc) { pc.Exited? || pc.Failed? }

  // ----- the end of the worker is the end of its work -----

  /** The worker has ended, and what it has done is the same. */
  ghost predicate SameEnd(s: State, s': State) {
    && Ended(s'.worker) && s'.worker == s.worker && s'.events == s.events && s'.written == s.written
    && s'.completed == s.completed && s'.failed == s.failed && s'.ring.dequeuePos == s.ring.dequeuePos
  }

  lemma WorkerRests(s: State, move: Move)
    requires Formed(s) && Ended(s.worker) && IsWorkerMove(move)
    ensures Apply(s, move) == s
  {
    match move
    case Fail(c) => assert FailStep(s, c) == s;
    case Handle(c) => assert HandleStep(s, c) == s;
    case Wait(c) => assert WaitStep(s, c) == s;
    case _ => OthersRest(s, move);
  }

  lemma OthersRest(s: State, move: Move)
    requires Formed(s) && Ended(s.worker) && (move.BeginDequeue? || move.Dequeue? || move.Turn? || move.ExitTest?)
    ensures Apply(s, move) == s
  {
  }

  ghost predicate SameWork(s: State, s': State) {
    s'.events == s.events && s'.written == s.written && s'.completed == s.completed && s'.failed == s.failed
  }

  lemma ClientWorksNot(s: State, move: Move)
    requires Formed(s) && !IsWorkerMove(move)
    ensures SameWork(s, Apply(s, move))
  {
    if move.t < |s.pcs| {
      match move
      case Entry(t, c) => EntryWorksNot(s, t, c);
      case Check(t, c) => CheckWorksNot(s, t, c);
      case Enqueue(t, c) => EnqueueWorksNot(s, t, c);
      case Stop(t, c) => StopWorksNot(s, t, c);
      case _ => OtherPhasesWorkNot(s, move);
    }
  }

  lemma OtherPhasesWorkNot(s: State, move: Move)
    requires Formed(s) && (move.Publish? || move.Undo? || move.Await? || move.FinishOperation?) && move.t < |s.pcs|
    ensures SameWork(s, Apply(s, move))
  {
  }

  lemma EntryWorksNot(s: State, t: nat, c: Choice)
    requires Formed(s) && t < |s.pcs|
    ensures SameWork(s, EntryStep(s, t, c))
  {
  }

  lemma CheckWorksNot(s: State, t: nat, c: Choice)
    requires Formed(s) && t < |s.pcs|
    ensures SameWork(s, CheckStep(s, t, c))
  {
  }

  lemma EnqueueWorksNot(s: State, t: nat, c: Choice)
    requires Formed(s) && t < |s.pcs|
    ensures SameWork(s, EnqueueStep(s, t, c))
  {
  }

  lemma StopWorksNot(s: State, t: nat, c: Choice)
    requires Formed(s) && t < |s.pcs|
    ensures SameWork(s, StopStep(s, t, c))
  {
  }

  lemma MoveAfterEnd(s: State, move: Move)
    requires Invariant(s) && Ended(s.worker)
    ensures SameEnd(s, Apply(s, move))
  {
    if IsWorkerMove(move) {
      WorkerRests(s, move);
    } else {
      ClientTakesNothing(s, move);
      ClientWorksNot(s, move);
    }
  }

  lemma {:induction false} RunAfterEnd(s: State, rest: seq<Move>)
    requires Invariant(s) && Ended(s.worker)
    ensures SameEnd(s, Continue(s, rest))
  {
    if rest != [] {
      var n := |rest| - 1;
      RunAfterEnd(s, rest[..n]);
      ContinueKeepsInv(s, rest[..n]);
      MoveAfterEnd(Continue(s, rest[..n]), rest[n]);
    }
  }

  // ----- joining -----

  /** Who is past the closing of the gate finds it closed, and only an ended worker was joined. */
  ghost predicate JoinOk(s: State, t: nat) {
    && (s.joined ==> Ended(s.worker))
    && (t < |s.pcs| && (s.pcs[t].StopNotify? || s.pcs[t].StopJoin?) ==> Closed(s.word))
  }

  /** What a client's step may do about joining. */
  ghost predicate JoinsRightly(s: State, s': State, t: nat)
    requires t < |s.pcs| == |s'.pcs|
  {
    && (s'.joined ==> s.joined || Ended(s.worker))
    && (s'.pcs[t].StopNotify? || s'.pcs[t].StopJoin? ==> Closed(s'.word))
  }

  lemma StopJoins(s: State, t: nat, c: Choice)
    requires Formed(s) && t < |s.pcs| && (s.pcs[t].StopNotify? || s.pcs[t].StopJoin? ==> Closed(s.word))
    ensures JoinsRightly(s, StopStep(s, t, c), t)
  {
  }

  lemma EntryJoins(s: State, t: nat, c: Choice)
    requires Formed(s) && t < |s.pcs| && (s.pcs[t].StopNotify? || s.pcs[t].StopJoin? ==> Closed(s.word))
    ensures JoinsRightly(s, EntryStep(s, t, c), t)
  {
  }

  lemma CheckJoins(s: State, t: nat, c: Choice)
    requires Formed(s) && t < |s.pcs| && (s.pcs[t].StopNotify? || s.pcs[t].StopJoin? ==> Closed(s.word))
    ensures JoinsRightly(s, CheckStep(s, t, c), t)
  {
  }

  lemma EnqueueJoins(s: State, t: nat, c: Choice)
    requires Formed(s) && t < |s.pcs| && (s.pcs[t].StopNotify? || s.pcs[t].StopJoin? ==> Closed(s.word))
    ensures JoinsRightly(s, EnqueueStep(s, t, c), t)
  {
  }

  lemma OtherPhasesJoin(s: State, move: Move)
    requires Formed(s) && (move.Publish? || move.Undo? || move.Await? || move.FinishOperation?) && move.t < |s.pcs|
    requires s.pcs[move.t].StopNotify? || s.pcs[move.t].StopJoin? ==> Closed(s.word)
    ensures JoinsRightly(s, Apply(s, move), move.t)
  {
    if move.FinishOperation? { FinishJoins(s, move.t); }
  }

  lemma FinishJoins(s: State, t: nat)
    requires Formed(s) && t < |s.pcs| && (s.pcs[t].StopNotify? || s.pcs[t].StopJoin? ==> Closed(s.word))
    ensures JoinsRightly(s, FinishStep(s, t), t)
  {
  }

  lemma ClientJoins(s: State, move: Move)
    requires Formed(s) && !IsWorkerMove(move) && move.t < |s.pcs| && JoinOk(s, move.t)
    ensures JoinsRightly(s, Apply(s, move), move.t)
  {
    match move
    case Entry(t, c) => EntryJoins(s, t, c);
    case Check(t, c) => CheckJoins(s, t, c);
    case Enqueue(t, c) => EnqueueJoins(s, t, c);
    case Stop(t, c) => StopJoins(s, t, c);
    case _ => OtherPhasesJoin(s, move);
  }

  lemma WorkerJoinsNothing(s: State, move: Move)
    requires Formed(s) && IsWorkerMove(move)
    ensures Apply(s, move).joined == s.joined && Apply(s, move).pcs == s.pcs
  {
  }

  lemma GateStays(s: State, move: Move)
    requires Invariant(s)
    ensures Closed(s.word) ==> Closed(Apply(s, move).word)
  {
    MoveKeepsInv(s, move);
    assert GrowsIn(s, Apply(s, move), GateGrowth);
  }

  lemma MoveJoins(s: State, move: Move, t: nat)
    requires Invariant(s) && forall u :: JoinOk(s, u)
    ensures JoinOk(Apply(s, move), t)
  {
    assert JoinOk(s, t);
    GateStays(s, move);
    if Ended(s.worker) { MoveAfterEnd(s, move); }
    if IsWorkerMove(move) {
      WorkerJoinsNothing(s, move);
    } else if move.t < |s.pcs| {
      assert JoinOk(s, move.t);
      ClientJoins(s, move);
      if t != move.t && t < |s.pcs| { OthersDoNotMove(s, move, t); }
    }
  }

  lemma {:induction false} RunJoins(s: State, rest: seq<Move>)
    requires Invariant(s) && forall u :: JoinOk(s, u)
    ensures forall u :: JoinOk(Continue(s, rest), u)
  {
    if rest != [] {
      var n := |rest| - 1;
      RunJoins(s, rest[..n]);
      ContinueKeepsInv(s, rest[..n]);
      forall u ensures JoinOk(Continue(s, rest), u) {
        MoveJoins(Continue(s, rest[..n]), rest[n], u);
      }
    }
  }

  lemma JoinInvariant(cfg: Config, capacity: nat, clients: nat, moves: seq<Move>, t: nat)
    requires 2 <= capacity && clients < GATE
    ensures JoinOk(Run(cfg, capacity, clients, moves), t)
  {
    StartInvariant(cfg, capacity, clients);
    RunJoins(Start(cfg, capacity, clients), moves);
  }

  // ----- the return of Stop -----

  /** In this move a call of Stop by client t returns. */
  ghost predicate StopReturns(s: State, move: Move, t: nat)
    requires Formed(s)
  {
    t < |s.pcs| && Stopping(s.pcs[t]) && Apply(s, move).pcs[t].Ready?
  }

  /** What the return of Stop requires and does. */
  ghost predicate ReturnsByJoin(s: State, s': State, t: nat)
    requires Formed(s) && t < |s.pcs|
  {
    s.pcs[t].StopJoin? && Ended(s.worker) && s' == Go(s, t, Ready).(joined := true)
  }

  lemma OnlyJoinReturns(s: State, move: Move, t: nat)
    requires Formed(s) && StopReturns(s, move, t)
    ensures ReturnsByJoin(s, Apply(s, move), t)
  {
    if IsWorkerMove(move) { WorkerMovesNoClient(s, move); }
    else if move.t != t { OthersDoNotMove(s, move, t); }
    else { OwnReturn(s, move); }
  }

  lemma OwnReturn(s: State, move: Move)
    requires Formed(s) && !IsWorkerMove(move) && move.t < |s.pcs| && Stopping(s.pcs[move.t])
    ensures Apply(s, move).pcs[move.t].Ready? ==> ReturnsByJoin(s, Apply(s, move), move.t)
  {
    if move.Stop? { StopOwnReturn(s, move.t, move.c); } else { assert Apply(s, move) == s; }
  }

  lemma StopOwnReturn(s: State, t: nat, c: Choice)
    requires Formed(s) && t < |s.pcs| && Stopping(s.pcs[t])
    ensures StopStep(s, t, c).pcs[t].Ready? ==> ReturnsByJoin(s, StopStep(s, t, c), t)
  {
  }

  /** When Stop returns, the gate is closed and the worker has ended, normally or by a failure; and
      in every continuation the worker writes, flushes, takes and completes nothing more. */
  lemma StopWaitsForTheEnd(cfg: Config, capacity: nat, clients: nat, first: seq<Move>, move: Move, rest: seq<Move>, s: State, t: nat)
    requires 2 <= capacity && clients < GATE && t < clients
    requires s == Run(cfg, capacity, clients, first) && StopReturns(s, move, t)
    ensures Ended(s.worker) && Closed(s.word) && Apply(s, move).joined
    ensures SameEnd(s, Continue(Apply(s, move), rest))
  {
    Reachable(cfg, capacity, clients, first);
    JoinInvariant(cfg, capacity, clients, first, t);
    OnlyJoinReturns(s, move, t);
    MoveKeepsInv(s, move);
    MoveAfterEnd(s, move);
    RunAfterEnd(Apply(s, move), rest);
  }

  /** A logger that was joined has an ended worker, in every reachable state. */
  lemma JoinedMeansEnded(cfg: Config, capacity: nat, clients: nat, moves: seq<Move>)
    requires 2 <= capacity && clients < GATE
    ensures var s := Run(cfg, capacity, clients, moves);
            s.joined ==> s.worker.Exited? || s.worker.Failed?
  {
    JoinInvariant(cfg, capacity, clients, moves, 0);
  }

  // ----- what a Stop that returned leaves behind -----

  const AGAIN := Choice(CallStop, false, false, false)

  function StopMove(pc: ClientPc, t: nat): Move {
    if pc.FinishNotify? then FinishOperation(t)
    else if Stopping(pc) then Stop(t, AGAIN)
    else Entry(t, AGAIN)
  }

  /** How many steps a client is from joining, behind a closed gate. */
  function StepsToJoin(pc: ClientPc): nat {
    if pc.StopJoin? then 0 else if Stopping(pc) then 1 else if pc.Ready? then 2 else 3
  }

  lemma StepToJoin(s: State, t: nat)
    requires Formed(s) && t < |s.pcs| && Quiet(s) && !Live(s.pcs[t]) && LocalOk(s, t) && !s.pcs[t].StopJoin?
    ensures var s' := Apply(s, StopMove(s.pcs[t], t));
            && |s'.pcs| == |s.pcs| && s'.worker == s.worker && s'.word == s.word
            && StepsToJoin(s'.pcs[t]) < StepsToJoin(s.pcs[t])
  {
    if s.pcs[t].FinishNotify? { NotifyToJoin(s, t); }
    else if Stopping(s.pcs[t]) { StopToJoin(s, t); }
    else { EntryToJoin(s, t); }
  }

  lemma NotifyToJoin(s: State, t: nat)
    requires Formed(s) && t < |s.pcs| && s.pcs[t].FinishNotify?
    ensures FinishStep(s, t) == Go(s, t, Ready).(wake := s.wake + 1)
  {
  }

  lemma StopToJoin(s: State, t: nat)
    requires Formed(s) && t < |s.pcs| && Stopping(s.pcs[t]) && LocalOk(s, t) && !s.pcs[t].StopJoin? && Closed(s.word)
    ensures var s' := StopStep(s, t, AGAIN);
            |s'.pcs| == |s.pcs| && s'.pcs[t] == StopJoin && s'.worker == s.worker && s'.word == s.word
  {
  }

  lemma EntryToJoin(s: State, t: nat)
    requires Formed(s) && t < |s.pcs| && LocalOk(s, t) && Closed(s.word)
    requires s.pcs[t].Ready? || s.pcs[t].StartLoad? || s.pcs[t].StartCas?
    ensures var s' := EntryStep(s, t, AGAIN);
            && |s'.pcs| == |s.pcs| && s'.worker == s.worker && s'.word == s.word
            && s'.pcs[t] == if s.pcs[t].Ready? then StopLoad else Ready
  {
  }

  /** Behind a closed gate with nothing active, a client can come to join the ended worker. */
  lemma {:induction false} ComesToJoin(s: State, t: nat) returns (rest: seq<Move>)
    requires Invariant(s) && Quiet(s) && Ended(s.worker) && t < |s.pcs|
    ensures Continue(s, rest).pcs[t].StopJoin?
    decreases StepsToJoin(s.pcs[t])
  {
    rest := [];
    if !s.pcs[t].StopJoin? {
      var move := StopMove(s.pcs[t], t);
      OwnClient(s, t);
      GrowsItself(s);
      StaysQuiet(s, s, t);
      StepToJoin(s, t);
      MoveKeepsInv(s, move);
      ContinueOnce(s, move);
      var more := ComesToJoin(Apply(s, move), t);
      ContinueTwice(s, [move], more);
      rest := [move] + more;
    }
  }

  /** However the run goes on from s, a Stop that returns without a failure leaves nothing behind. */
  ghost predicate EveryStopDrains(s: State)
    requires Formed(s)
  {
    forall rest, move, t: nat :: StopDrains(Continue(s, rest), move, t)
  }

  ghost predicate StopDrains(s: State, move: Move, t: nat)
    requires Formed(s)
  {
    StopReturns(s, move, t) && !s.failed ==> Drained(Apply(s, move))
  }

  lemma ReturnKeepsDrained(s: State, move: Move, t: nat)
    requires Invariant(s) && StopReturns(s, move, t) && !s.failed
    ensures s.worker.Exited? && (Drained(Apply(s, move)) <==> Drained(s))
  {
    OnlyJoinReturns(s, move, t);
    EndedNormally(s);
  }

  lemma EndedNormally(s: State)
    requires Invariant(s) && Ended(s.worker) && !s.failed
    ensures s.worker.Exited?
  {
    assert Holds(s, WorkerPart);
  }

  lemma ExitedIsNoFailure(s: State)
    requires Invariant(s) && s.worker.Exited?
    ensures !s.failed
  {
    assert Holds(s, WorkerPart);
  }

  lemma StaysLost(s: State, more: seq<Move>)
    requires Invariant(s) && s.worker.Exited? && !Drained(s)
    ensures var s' := Continue(s, more); Invariant(s') && s'.worker.Exited? && !Drained(s') && !s'.failed
  {
    RunAfterEnd(s, more);
    ContinueKeepsInv(s, more);
    var s' := Continue(s, more);
    ExitLeaves(s);
    ExitLeaves(s');
    assert GrowsIn(s, s', HistoryGrowth);
    ExitedIsNoFailure(s');
  }

  /** From a state where an exit can leave something behind, a Stop can return that did. */
  lemma StopCanLose(s: State, rest: seq<Move>, t: nat)
    requires Invariant(s) && Quiet(s) && t < |s.pcs|
    requires Continue(s, rest).worker.Exited? && !Drained(Continue(s, rest))
    ensures !EveryStopDrains(s)
  {
    var s1 := Continue(s, rest);
    ContinueKeepsInv(s, rest);
    StaysQuiet(s, s1, t);
    var more := ComesToJoin(s1, t);
    var s2 := Continue(s1, more);
    StaysLost(s1, more);
    JoinReturns(s2, t);
    ReturnKeepsDrained(s2, Stop(t, AGAIN), t);
    ContinueTwice(s, rest, more);
    assert !StopDrains(Continue(s, rest + more), Stop(t, AGAIN), t);
  }

  lemma JoinReturns(s: State, t: nat)
    requires Formed(s) && t < |s.pcs| && s.pcs[t].StopJoin? && Ended(s.worker)
    ensures StopReturns(s, Stop(t, AGAIN), t)
  {
  }

  /** The same as ExitDrainsExactly, told from the caller of Stop: take any reachable state in which
      the gate has closed and the last operation is over.  Every Stop that returns from there on,
      without a failure, leaves nothing behind if and only if the worker is not past its look there or
      the ring is empty. */
  lemma StopDrainsExactly(cfg: Config, capacity: nat, clients: nat, first: seq<Move>, s: State)
    requires 2 <= capacity && 0 < clients < GATE && !cfg.drainAgain
    requires s == Run(cfg, capacity, clients, first) && Quiet(s)
    ensures EveryStopDrains(s) <==> (PastLook(s) ==> s.ring.dequeuePos == s.ring.enqueuePos)
  {
    Reachable(cfg, capacity, clients, first);
    ExitDrainsExactly(cfg, capacity, clients, first, s);
    if PastLook(s) && s.ring.dequeuePos != s.ring.enqueuePos {
      var rest :| Continue(s, rest).worker.Exited? && !Drained(Continue(s, rest));
      StopCanLose(s, rest, 0);
    } else {
      forall rest, move, t: nat ensures StopDrains(Continue(s, rest), move, t) {
        ContinueKeepsInv(s, rest);
        if StopReturns(Continue(s, rest), move, t) && !Continue(s, rest).failed {
          ReturnKeepsDrained(Continue(s, rest), move, t);
        }
      }
    }
  }

  /** With one more drain after the exit test, every Stop that returns without a failure drains. */
  lemma RepairedStopDrains(cfg: Config, capacity: nat, clients: nat, first: seq<Move>, s: State, move: Move, t: nat)
    requires 2 <= capacity && clients < GATE && cfg.drainAgain
    requires s == Run(cfg, capacity, clients, first) && StopReturns(s, move, t) && !s.failed
    ensures Drained(Apply(s, move))
  {
    Reachable(cfg, capacity, clients, first);
    ReturnKeepsDrained(s, move, t);
    RepairedExitDrains(cfg, capacity, clients, first);
  }
}
