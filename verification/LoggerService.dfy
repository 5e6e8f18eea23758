/** What the worker does for the sink in one turn of its loop: a flush only with a cause, and never a
    rest before the sink was asked whether a flush is due. */
module LoggerService {
  import opened Logger
  import opened LoggerFrames
  import opened LoggerStop
  import opened LoggerJoin
  import opened LoggerFlushLevel

  // ----- a flush has a cause -----

  predicate RequiredAt(site: Site) { site.Draining? && site.flush }

  /** The worker is to flush because of the level of a message. */
  predicate Required(pc: WorkerPc) {
    match pc
    case CallDequeue(site) => RequiredAt(site)
    case Dequeuing(site) => RequiredAt(site)
    case SinkItem(_, site) => RequiredAt(site)
    case StoreTicket(_, site) => RequiredAt(site)
    case CountWritten(site) => RequiredAt(site)
    case LoadFlushLevel(site) => RequiredAt(site)
    case FlushRequired(_) => true
    case _ => false
  }

  /** Here the worker finds the message it has just written at or above the flush level. */
  predicate FindsLevel(pc: WorkerPc, move: Move) { pc.LoadFlushLevel? && move.Handle? && move.c.passes }

  /** The worker step makes no flush necessary, and flushes for a Flush item, a requirement or the exit. */
  ghost predicate FlushesFor(s: State, s': State, finds: bool) {
    && (Required(s'.worker) ==> Required(s.worker) || finds)
    && (s'.events == s.events + [SinkFlushed] ==>
          s.worker.FlushRequired? || s.worker.FinalFlush? || (s.worker.SinkItem? && s.worker.item.FlushItem?))
  }

  lemma OwnEventsDiffer(events: seq<Event>, event: Event)
    requires event != SinkFlushed
    ensures events != events + [SinkFlushed] && events + [event] != events + [SinkFlushed]
  {
    assert (events + [event])[|events|] == event && (events + [SinkFlushed])[|events|] == SinkFlushed;
  }

  lemma QueueFlushesFor(s: State, c: Choice)
    requires Formed(s)
    ensures FlushesFor(s, BeginDequeueStep(s), false) && FlushesFor(s, DequeueStep(s, c), false)
  {
    OwnEventsDiffer(s.events, FlushedIfDue);
  }

  lemma HandleFlushesFor(s: State, c: Choice)
    requires Formed(s)
    ensures FlushesFor(s, HandleStep(s, c), s.worker.LoadFlushLevel? && c.passes)
  {
    OwnEventsDiffer(s.events, FlushedIfDue);
    if s.worker.SinkItem? { OwnEventsDiffer(s.events, Wrote(s.worker.item)); }
  }

  lemma TurnFlushesFor(s: State, c: Choice)
    requires Formed(s)
    ensures FlushesFor(s, TurnStep(s, c), false)
  {
    OwnEventsDiffer(s.events, FlushedIfDue);
  }

  lemma ExitFlushesFor(s: State)
    requires Formed(s)
    ensures FlushesFor(s, ExitTestStep(s), false)
  {
    OwnEventsDiffer(s.events, FlushedIfDue);
  }

  lemma WaitFlushesFor(s: State, c: Choice)
    requires Formed(s)
    ensures FlushesFor(s, WaitStep(s, c), false)
  {
    OwnEventsDiffer(s.events, FlushedIfDue);
  }

  lemma FailFlushesFor(s: State, c: Choice)
    requires Formed(s)
    ensures FlushesFor(s, FailStep(s, c), false)
  {
    OwnEventsDiffer(s.events, FlushedIfDue);
  }

  lemma ClientFlushesFor(s: State, move: Move)
    requires Formed(s) && !IsWorkerMove(move)
    ensures FlushesFor(s, Apply(s, move), false)
  {
    ClientWorksNot(s, move);
    OwnEventsDiffer(s.events, FlushedIfDue);
  }

  lemma MoveFlushesFor(s: State, move: Move)
    requires Formed(s)
    ensures FlushesFor(s, Apply(s, move), FindsLevel(s.worker, move))
  {
    match move
    case BeginDequeue => QueueFlushesFor(s, CALM);
    case Dequeue(c) => QueueFlushesFor(s, c);
    case Handle(c) => HandleFlushesFor(s, c);
    case Turn(c) => TurnFlushesFor(s, c);
    case ExitTest => ExitFlushesFor(s);
    case Wait(c) => WaitFlushesFor(s, c);
    case Fail(c) => FailFlushesFor(s, c);
    case _ => ClientFlushesFor(s, move);
  }

  /** Move i finds a message at or above the flush level, and from then on the worker is to flush. */
  ghost predicate CauseAt(s: State, moves: seq<Move>, i: nat)
    requires Formed(s)
  {
    && i < |moves| && FindsLevel(Continue(s, moves[..i]).worker, moves[i])
    && forall j | i < j <= |moves| :: Required(Continue(s, moves[..j]).worker)
  }

  lemma CauseStays(s: State, moves: seq<Move>, i: nat)
    requires Formed(s) && moves != [] && CauseAt(s, moves[..|moves| - 1], i) && Required(Continue(s, moves).worker)
    ensures CauseAt(s, moves, i)
  {
    var before := moves[..|moves| - 1];
    assert moves[..i] == before[..i] && moves[..|moves|] == moves;
    forall j | i < j <= |moves| ensures Required(Continue(s, moves[..j]).worker) {
      if j < |moves| { assert moves[..j] == before[..j]; }
    }
  }

  lemma {:induction false} RequiredHasCause(s: State, moves: seq<Move>)
    requires Formed(s) && !Required(s.worker) && Required(Continue(s, moves).worker)
    ensures exists i: nat :: CauseAt(s, moves, i)
  {
    if moves != [] {
      var n := |moves| - 1;
      var before, move := moves[..n], moves[n];
      MoveFlushesFor(Continue(s, before), move);
      if FindsLevel(Continue(s, before).worker, move) {
        assert moves[..|moves|] == moves;
        assert CauseAt(s, moves, n);
      } else {
        RequiredHasCause(s, before);
        var i: nat :| CauseAt(s, before, i);
        CauseStays(s, moves, i);
      }
    }
  }

  /** The worker flushes the sink only for a Flush item, for its exit, or because some message was found
      at or above the flush level; and then it has made no such flush since that message. */
  lemma FlushHasCause(cfg: Config, capacity: nat, clients: nat, moves: seq<Move>, move: Move)
    requires 2 <= capacity
    ensures var s := Run(cfg, capacity, clients, moves);
            Apply(s, move).events == s.events + [SinkFlushed] ==>
              || s.worker.FinalFlush?
              || (s.worker.SinkItem? && s.worker.item.FlushItem?)
              || exists i: nat :: CauseAt(Start(cfg, capacity, clients), moves, i)
  {
    var s := Run(cfg, capacity, clients, moves);
    MoveFlushesFor(s, move);
    if s.worker.FlushRequired? { RequiredHasCause(Start(cfg, capacity, clients), moves); }
  }

  // ----- the sink is asked before the worker rests -----

  /** The worker is on its way to asking the sink. */
  predicate ToAsk(pc: WorkerPc) {
    match pc
    case CallDequeue(site) => site.Draining?
    case Dequeuing(site) => site.Draining?
    case SinkItem(_, site) => !site.LastDrain?
    case StoreTicket(_, site) => !site.LastDrain?
    case CountWritten(site) => !site.LastDrain?
    case LoadFlushLevel(site) => !site.LastDrain?
    case FlushRequired(_) => true
    case FlushIfDue(_) => true
    case _ => false
  }

  predicate OnTheWay(pc: WorkerPc) { ToAsk(pc) || Failing(pc) }

  lemma QueueAsks(s: State, c: Choice)
    requires Formed(s) && OnTheWay(s.worker)
    ensures OnTheWay(BeginDequeueStep(s).worker) && OnTheWay(DequeueStep(s, c).worker)
  {
  }

  lemma HandleAsks(s: State, c: Choice)
    requires Formed(s) && OnTheWay(s.worker)
    ensures OnTheWay(HandleStep(s, c).worker)
  {
  }

  lemma TurnAsks(s: State, c: Choice)
    requires Formed(s) && OnTheWay(s.worker) && !s.worker.FlushIfDue?
    ensures OnTheWay(TurnStep(s, c).worker)
  {
  }

  lemma RestAsks(s: State, c: Choice)
    requires Formed(s) && OnTheWay(s.worker)
    ensures OnTheWay(ExitTestStep(s).worker) && OnTheWay(WaitStep(s, c).worker) && OnTheWay(FailStep(s, c).worker)
  {
  }

  lemma MoveAsks(s: State, move: Move)
    requires Formed(s) && OnTheWay(s.worker) && !(s.worker.FlushIfDue? && move.Turn?)
    ensures OnTheWay(Apply(s, move).worker)
  {
    match move
    case BeginDequeue => QueueAsks(s, CALM);
    case Dequeue(c) => QueueAsks(s, c);
    case Handle(c) => HandleAsks(s, c);
    case Turn(c) => TurnAsks(s, c);
    case ExitTest => RestAsks(s, CALM);
    case Wait(c) => RestAsks(s, c);
    case Fail(c) => RestAsks(s, c);
    case _ => ClientAsks(s, move);
  }

  lemma ClientAsks(s: State, move: Move)
    requires Formed(s) && !IsWorkerMove(move)
    ensures Apply(s, move).worker == s.worker
  {
    ClientWorksNot(s, move);
  }

  /** Move i asks the sink whether a flush is due. */
  ghost predicate AskedAt(s: State, moves: seq<Move>, i: nat)
    requires Formed(s)
  {
    i < |moves| && moves[i].Turn? && Continue(s, moves[..i]).worker.FlushIfDue?
  }

  /** From the top of its loop, and from every message that it handles before its exit test, the worker
      does not come to rest before it has asked the sink whether a flush is due. */
  lemma {:induction false} SinkIsAskedBeforeRest(s: State, rest: seq<Move>)
    requires Formed(s) && ToAsk(s.worker)
    ensures OnTheWay(Continue(s, rest).worker) || exists i: nat :: AskedAt(s, rest, i)
    ensures Resting(Continue(s, rest).worker) ==> exists i: nat :: AskedAt(s, rest, i)
  {
    if rest != [] {
      var n := |rest| - 1;
      var before, move := rest[..n], rest[n];
      SinkIsAskedBeforeRest(s, before);
      if i: nat :| AskedAt(s, before, i) {
        assert rest[..i] == before[..i];
        assert AskedAt(s, rest, i);
      } else if Continue(s, before).worker.FlushIfDue? && move.Turn? {
        assert AskedAt(s, rest, n);
      } else {
        MoveAsks(Continue(s, before), move);
      }
    }
  }
}
