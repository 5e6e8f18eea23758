/** A message at or above the flush level is flushed before the worker rests. */
module LoggerFlushLevel {
  import opened Logger
  import opened LoggerFrames
  import opened LoggerRuns
  import opened LoggerClaims
  import opened LoggerStop
  import opened LoggerJoin

  /** The turn the worker is in ends with a flush of the sink. */
  predicate Owes(pc: WorkerPc) {
    match pc
    case CallDequeue(site) => OwesAt(site)
    case Dequeuing(site) => OwesAt(site)
    case SinkItem(_, site) => OwesAt(site)
    case StoreTicket(_, site) => OwesAt(site)
    case CountWritten(site) => OwesAt(site)
    case LoadFlushLevel(site) => OwesAt(site)
    case FlushRequired(_) => true
    case FinalFlush => true
    case _ => false
  }

  predicate OwesAt(site: Site) { site.LastDrain? || (site.Draining? && site.flush) }

  /** The sink was flushed after its first n events. */
  ghost predicate FlushedSince(s: State, n: nat) {
    exists i :: n <= i < |s.events| && s.events[i] == SinkFlushed
  }

  /** The flush was made, or is still to come in this turn, or the worker is failing. */
  ghost predicate Settling(s: State, n: nat) {
    n <= |s.events| && (FlushedSince(s, n) || Owes(s.worker) || Failing(s.worker))
  }

  /** A worker that owes a flush goes on owing it, makes it, or fails. */
  ghost predicate StillOwes(s: State, s': State) {
    Owes(s'.worker) || Failing(s'.worker) || s'.events == s.events + [SinkFlushed]
  }

  lemma BeginOwes(s: State)
    requires Formed(s) && Owes(s.worker)
    ensures StillOwes(s, BeginDequeueStep(s))
  {
  }

  lemma DequeueOwes(s: State, c: Choice)
    requires Formed(s) && Owes(s.worker)
    ensures StillOwes(s, DequeueStep(s, c))
  {
  }

  lemma HandleOwes(s: State, c: Choice)
    requires Formed(s) && Owes(s.worker)
    ensures StillOwes(s, HandleStep(s, c))
  {
  }

  lemma TurnOwes(s: State, c: Choice)
    requires Formed(s) && Owes(s.worker)
    ensures StillOwes(s, TurnStep(s, c))
  {
  }

  lemma OthersOwe(s: State, move: Move)
    requires Formed(s) && Owes(s.worker) && (move.ExitTest? || move.Wait? || move.Fail?)
    ensures Apply(s, move) == s
  {
  }

  lemma WorkerOwes(s: State, move: Move)
    requires Formed(s) && Owes(s.worker) && IsWorkerMove(move)
    ensures StillOwes(s, Apply(s, move))
  {
    match move
    case BeginDequeue => BeginOwes(s);
    case Dequeue(c) => DequeueOwes(s, c);
    case Handle(c) => HandleOwes(s, c);
    case Turn(c) => TurnOwes(s, c);
    case _ => OthersOwe(s, move);
  }

  lemma FailingGoesOn(s: State, move: Move)
    requires Formed(s) && Failing(s.worker) && IsWorkerMove(move)
    ensures Failing(Apply(s, move).worker)
  {
    match move
    case Fail(c) => assert Failing(FailStep(s, c).worker);
    case Handle(c) => assert HandleStep(s, c) == s;
    case Wait(c) => assert WaitStep(s, c) == s;
    case _ =>
  }

  lemma SettlingMove(s: State, move: Move, n: nat)
    requires Invariant(s) && Settling(s, n)
    ensures Settling(Apply(s, move), n)
  {
    var s' := Apply(s, move);
    MoveKeepsInv(s, move);
    assert GrowsIn(s, s', HistoryGrowth);
    if FlushedSince(s, n) {
      var i :| n <= i < |s.events| && s.events[i] == SinkFlushed;
      assert s'.events[i] == SinkFlushed;
    } else if IsWorkerMove(move) {
      if Owes(s.worker) {
        WorkerOwes(s, move);
        if s'.events == s.events + [SinkFlushed] { assert s'.events[|s.events|] == SinkFlushed; }
      } else {
        FailingGoesOn(s, move);
      }
    } else {
      ClientTakesNothing(s, move);
      ClientWorksNot(s, move);
    }
  }

  lemma {:induction false} SettlingRun(s: State, rest: seq<Move>, n: nat)
    requires Invariant(s) && Settling(s, n)
    ensures Settling(Continue(s, rest), n)
  {
    if rest != [] {
      var m := |rest| - 1;
      SettlingRun(s, rest[..m], n);
      ContinueKeepsInv(s, rest[..m]);
      SettlingMove(Continue(s, rest[..m]), rest[m], n);
    }
  }

  lemma LevelMove(s: State, c: Choice)
    requires Formed(s) && s.worker.LoadFlushLevel? && c.passes
    ensures Owes(Apply(s, Handle(c)).worker) && Apply(s, Handle(c)).events == s.events
  {
  }

  /** The worker looks at the wake signal, waits, or has ended normally. */
  predicate Resting(pc: WorkerPc) {
    pc.Sample? || pc.WaitSignal? || pc.WaitFailure? || pc.WaitGate? || pc.WaitActive? || pc.Asleep? || pc.Exited?
  }

  /** When the worker finds that the message it has just written is at or above the flush level, then
      in every continuation in which it comes to rest the sink was flushed after that. */
  lemma FlushLevelIsHonoured(cfg: Config, capacity: nat, clients: nat, first: seq<Move>, rest: seq<Move>,
                             s: State, s': State, c: Choice)
    requires 2 <= capacity && clients < GATE
    requires s == Run(cfg, capacity, clients, first) && s.worker.LoadFlushLevel? && c.passes
    requires s' == Continue(Apply(s, Handle(c)), rest)
    ensures Resting(s'.worker) ==> FlushedSince(s', |s.events|)
  {
    Reachable(cfg, capacity, clients, first);
    MoveKeepsInv(s, Handle(c));
    LevelMove(s, c);
    SettlingRun(Apply(s, Handle(c)), rest, |s.events|);
  }
}
