/** The overflow policy, and what Log answers under it. */
module LoggerPolicy {
  import opened Ring
  import RingTheorems
  import opened Logger
  import opened LoggerInvariant
  import opened LoggerQueueSteps
  import opened LoggerShared
  import opened LoggerWrites
  import opened LoggerFrames
  import opened LoggerRuns
  import opened LoggerRefusals
  import opened LoggerAnswers

  // ----- only DropNewest drops -----

  predicate Dropping(pc: ClientPc) { pc.UndoDrop? || pc.CountDrop? }

  /** Under Block nothing was dropped, and t is not about to drop anything. */
  ghost predicate NoDrop(s: State, t: nat) {
    s.cfg.block ==> s.dropped == 0 && (t < |s.pcs| ==> !Dropping(s.pcs[t]))
  }

  /** A step of client t drops only what it was about to drop, and begins to drop only without Block. */
  ghost predicate DropsRightly(s: State, s': State, t: nat)
    requires t < |s.pcs| == |s'.pcs|
  {
    && (s'.dropped == s.dropped || s.pcs[t].CountDrop?)
    && (Dropping(s'.pcs[t]) ==> Dropping(s.pcs[t]) || !s.cfg.block)
  }

  lemma EntryDrops(s: State, t: nat, c: Choice)
    requires Formed(s) && t < |s.pcs|
    ensures DropsRightly(s, EntryStep(s, t, c), t)
  {
  }

  lemma CheckDrops(s: State, t: nat, c: Choice)
    requires Formed(s) && t < |s.pcs|
    ensures DropsRightly(s, CheckStep(s, t, c), t)
  {
  }

  lemma PublishDrops(s: State, t: nat)
    requires Formed(s) && t < |s.pcs|
    ensures DropsRightly(s, PublishStep(s, t), t)
  {
  }

  lemma UndoDrops(s: State, t: nat)
    requires Formed(s) && t < |s.pcs|
    ensures DropsRightly(s, UndoStep(s, t), t)
  {
  }

  lemma EnqueueDrops(s: State, t: nat, c: Choice)
    requires Formed(s) && t < |s.pcs|
    ensures DropsRightly(s, EnqueueStep(s, t, c), t)
  {
  }

  lemma AwaitDrops(s: State, t: nat)
    requires Formed(s) && t < |s.pcs|
    ensures DropsRightly(s, AwaitStep(s, t), t)
  {
  }

  lemma FinishDrops(s: State, t: nat)
    requires Formed(s) && t < |s.pcs|
    ensures DropsRightly(s, FinishStep(s, t), t)
  {
  }

  lemma StopDrops(s: State, t: nat, c: Choice)
    requires Formed(s) && t < |s.pcs|
    ensures DropsRightly(s, StopStep(s, t, c), t)
  {
    if Stopping(s.pcs[t]) { StopTalliesNothing(s, t, c); }
  }

  lemma ClientDrops(s: State, move: Move)
    requires Formed(s) && !IsWorkerMove(move) && move.t < |s.pcs|
    ensures DropsRightly(s, Apply(s, move), move.t)
  {
    match move
    case Entry(t, c) => EntryDrops(s, t, c);
    case Check(t, c) => CheckDrops(s, t, c);
    case Publish(t) => PublishDrops(s, t);
    case Undo(t) => UndoDrops(s, t);
    case Enqueue(t, c) => EnqueueDrops(s, t, c);
    case Await(t) => AwaitDrops(s, t);
    case FinishOperation(t) => FinishDrops(s, t);
    case Stop(t, c) => StopDrops(s, t, c);
  }

  lemma WorkerDropsNothing(s: State, move: Move)
    requires Formed(s) && IsWorkerMove(move)
    ensures Apply(s, move).dropped == s.dropped && Apply(s, move).pcs == s.pcs
  {
  }

  lemma MoveDrops(s: State, move: Move, t: nat)
    requires Formed(s) && forall u :: NoDrop(s, u)
    ensures NoDrop(Apply(s, move), t)
  {
    assert NoDrop(s, t);
    if IsWorkerMove(move) {
      WorkerDropsNothing(s, move);
    } else if move.t < |s.pcs| {
      assert NoDrop(s, move.t);
      ClientDrops(s, move);
      if t != move.t && t < |s.pcs| { OthersDoNotMove(s, move, t); }
    }
  }

  lemma {:induction false} RunDrops(cfg: Config, capacity: nat, clients: nat, moves: seq<Move>)
    requires 2 <= capacity
    ensures forall u :: NoDrop(Run(cfg, capacity, clients, moves), u)
  {
    var s := Run(cfg, capacity, clients, moves);
    forall u ensures NoDrop(s, u) {
      if moves != [] {
        var n := |moves| - 1;
        RunDrops(cfg, capacity, clients, moves[..n]);
        MoveDrops(Run(cfg, capacity, clients, moves[..n]), moves[n], u);
      }
    }
  }

  /** Under Block nothing is ever dropped or about to be. */
  lemma BlockDropsNothing(cfg: Config, capacity: nat, clients: nat, moves: seq<Move>, t: nat)
    requires 2 <= capacity && clients < GATE && t < clients && cfg.block
    ensures var s := Run(cfg, capacity, clients, moves);
            s.dropped == 0 && !s.pcs[t].UndoDrop? && !s.pcs[t].CountDrop?
  {
    RunDrops(cfg, capacity, clients, moves);
    assert NoDrop(Run(cfg, capacity, clients, moves), t);
  }

  /** A Log is refused only at a closed gate, by a failure, by its level, or, under DropNewest alone,
      because it is being dropped. */
  lemma LogIsRefusedOnly(cfg: Config, capacity: nat, clients: nat, first: seq<Move>, s: State, move: Move, t: nat)
    requires 2 <= capacity && clients < GATE && t < clients
    requires s == Run(cfg, capacity, clients, first) && CarriesLog(s.pcs[t])
    ensures Apply(s, move).pcs[t] == Finish(Refused) ==>
              || s.failed
              || (s.pcs[t].CheckLevel? && !LevelPasses(move))
              || (!cfg.block && s.pcs[t].CountDrop?)
    ensures (s.pcs[t].StartLoad? || s.pcs[t].StartCas?) && Apply(s, move).pcs[t].Ready? ==> Closed(s.word)
  {
    Reachable(cfg, capacity, clients, first);
    MoveHasReason(s, move, t);
    RunDrops(cfg, capacity, clients, first);
    assert NoDrop(s, t);
  }

  // ----- what a full ring leads to -----

  /** A client leaves TryEnqueue refused exactly when, at its load of the sequence number, its position
      is the cursor and the ring is full. */
  lemma RefusedMeansFull(cfg: Config, capacity: nat, clients: nat, first: seq<Move>, s: State, t: nat, c: Choice)
    requires 2 <= capacity && clients < GATE && t < clients
    requires s == Run(cfg, capacity, clients, first) && s.pcs[t].Enqueueing? && s.ring.pcs[t].EnqSequence?
    ensures Counted(s.ring)
    ensures Apply(s, Enqueue(t, c)).ring.pcs[t].EnqRefused?
            <==> s.ring.pcs[t].pos == s.ring.enqueuePos && RingTheorems.Full(s.ring)
  {
    Reachable(cfg, capacity, clients, first);
    assert Holds(s, RingPart);
    RingTheorems.RefusalIsHonest(s.ring, t, c.spurious);
    EnqueueIsAdvance(s, t, c);
  }

  lemma EnqueueIsAdvance(s: State, t: nat, c: Choice)
    requires Formed(s) && t < |s.pcs| && s.pcs[t].Enqueueing? && InEnqueue(s.ring.pcs[t])
    ensures EnqueueStep(s, t, c) == s.(ring := Advance(s.ring, t, c.spurious))
  {
  }

  /** Under Block, and for every Flush, a refused item is offered again, unless the worker has failed. */
  lemma FullRingIsRetried(s: State, t: nat, c: Choice)
    requires Formed(s) && t < |s.pcs| && s.pcs[t].Enqueueing? && s.ring.pcs[t].EnqRefused?
    requires s.cfg.block || s.pcs[t].item.FlushItem?
    ensures var s1 := EnqueueStep(s, t, c); var s2 := PublishStep(s1, t);
            && s1.pcs[t] == PublishCheck(s.pcs[t].item) && s1.dropped == s.dropped && s1.enqueued == s.enqueued
            && (!s.failed ==> s2.pcs[t] == Enqueueing(s.pcs[t].item) && s2.ring.pcs[t] == EnqLoad(s.pcs[t].item))
  {
  }

  lemma DropStep(s: State, t: nat, c: Choice)
    requires Formed(s) && t < |s.pcs| && s.pcs[t].Enqueueing? && s.ring.pcs[t].EnqRefused?
    requires !s.cfg.block && s.pcs[t].item.LogItem?
    ensures var s1 := EnqueueStep(s, t, c);
            && s1.pcs[t] == UndoDrop(s.pcs[t].item) && s1.dropped == s.dropped && s1.enqueued == s.enqueued
            && s1.ring.items == s.ring.items && s1.ring.pcs[t] == Idle
  {
  }

  lemma UndoSteps(s: State, t: nat)
    requires Formed(s) && t < |s.pcs| && s.pcs[t].UndoDrop?
    ensures var s1 := UndoStep(s, t); var s2 := UndoStep(s1, t);
            && s1.pcs[t] == CountDrop(s.pcs[t].item) && s1.enqueued == s.enqueued - 1 && s1.dropped == s.dropped
            && s2.pcs[t] == Finish(Refused) && s2.enqueued == s.enqueued - 1 && s2.dropped == s.dropped + 1
  {
  }

  /** Under DropNewest a Log that finds the ring full takes its count back, is counted as dropped once,
      and is refused; and in no continuation is its message in the ring or written. */
  lemma FullRingDrops(cfg: Config, capacity: nat, clients: nat, first: seq<Move>, rest: seq<Move>, s: State, t: nat, c: Choice)
    requires 2 <= capacity && clients < GATE && t < clients && !cfg.block
    requires s == Run(cfg, capacity, clients, first)
    requires s.pcs[t].Enqueueing? && s.pcs[t].item.LogItem? && s.ring.pcs[t].EnqRefused?
    ensures var s1 := Apply(s, Enqueue(t, c)); var s3 := Apply(Apply(s1, Undo(t)), Undo(t));
            s3.pcs[t] == Finish(Refused) && s3.dropped == s.dropped + 1 && s3.enqueued == s.enqueued - 1
    ensures var s' := Continue(Apply(s, Enqueue(t, c)), rest);
            s.pcs[t].item !in s'.ring.items && s.pcs[t].item !in Writes(s'.events)
  {
    DropStep(s, t, c);
    UndoSteps(EnqueueStep(s, t, c), t);
    GivenUpIsNeverWritten(cfg, capacity, clients, first, Enqueue(t, c), rest, s,
                          Continue(Apply(s, Enqueue(t, c)), rest), t, s.pcs[t].item);
  }

  // ----- an accepted log -----

  /** The call of client t has its own item, and if it is about to answer that it was logged, the
      position it names holds the message of this very call. */
  ghost predicate OwnItem(s: State, t: nat)
    requires Formed(s)
  {
    t < |s.pcs| ==>
      && (ItemOf(s.pcs[t]).Some? ==> ItemOf(s.pcs[t]).value.producer == t && ItemOf(s.pcs[t]).value.call + 1 == s.calls[t])
      && match s.pcs[t]
         case Finish(Logged(pos)) => s.calls[t] > 0 && pos < |s.ring.items| && s.ring.items[pos] == LogItem(t, s.calls[t] - 1)
         case _ => true
  }

  lemma EntryOwns(s: State, t: nat, c: Choice)
    requires Formed(s) && t < |s.pcs| && OwnItem(s, t)
    ensures OwnItem(EntryStep(s, t, c), t)
  {
  }

  lemma CheckOwns(s: State, t: nat, c: Choice)
    requires Formed(s) && t < |s.pcs| && OwnItem(s, t)
    ensures OwnItem(CheckStep(s, t, c), t)
  {
  }

  lemma PublishOwns(s: State, t: nat)
    requires Formed(s) && t < |s.pcs| && OwnItem(s, t) && LocalOk(s, t)
    ensures OwnItem(PublishStep(s, t), t)
  {
  }

  lemma UndoOwns(s: State, t: nat)
    requires Formed(s) && t < |s.pcs| && OwnItem(s, t)
    ensures OwnItem(UndoStep(s, t), t)
  {
  }

  lemma EnqueueOwns(s: State, t: nat, c: Choice)
    requires Formed(s) && t < |s.pcs| && OwnItem(s, t)
    ensures OwnItem(EnqueueStep(s, t, c), t)
  {
  }

  lemma AwaitOwns(s: State, t: nat)
    requires Formed(s) && t < |s.pcs| && OwnItem(s, t)
    ensures OwnItem(AwaitStep(s, t), t)
  {
  }

  lemma FinishOwns(s: State, t: nat)
    requires Formed(s) && t < |s.pcs| && OwnItem(s, t)
    ensures OwnItem(FinishStep(s, t), t)
  {
  }

  lemma StopOwns(s: State, t: nat, c: Choice)
    requires Formed(s) && t < |s.pcs| && OwnItem(s, t)
    ensures OwnItem(StopStep(s, t, c), t)
  {
    if Stopping(s.pcs[t]) { StopTalliesNothing(s, t, c); }
  }

  lemma OwnMoveOwns(s: State, move: Move)
    requires Formed(s) && !IsWorkerMove(move) && move.t < |s.pcs| && LocalOk(s, move.t) && OwnItem(s, move.t)
    ensures OwnItem(Apply(s, move), move.t)
  {
    match move
    case Entry(t, c) => EntryOwns(s, t, c);
    case Check(t, c) => CheckOwns(s, t, c);
    case Publish(t) => PublishOwns(s, t);
    case Undo(t) => UndoOwns(s, t);
    case Enqueue(t, c) => EnqueueOwns(s, t, c);
    case Await(t) => AwaitOwns(s, t);
    case FinishOperation(t) => FinishOwns(s, t);
    case Stop(t, c) => StopOwns(s, t, c);
  }

  lemma MoveOwns(s: State, move: Move, t: nat)
    requires Invariant(s) && OwnItem(s, t)
    ensures OwnItem(Apply(s, move), t)
  {
    if t < |s.pcs| {
      if !IsWorkerMove(move) && move.t == t {
        OwnClient(s, t);
        OwnMoveOwns(s, move);
      } else {
        MoveKeepsInv(s, move);
        assert GrowsIn(s, Apply(s, move), HistoryGrowth);
        ElsewhereNothing(s, move, t);
        OthersKeepCalls(s, move, t);
      }
    }
  }

  lemma {:induction false} RunOwns(s: State, rest: seq<Move>, t: nat)
    requires Invariant(s) && OwnItem(s, t)
    ensures OwnItem(Continue(s, rest), t)
  {
    if rest != [] {
      var n := |rest| - 1;
      ContinueKeepsInv(s, rest[..n]);
      RunOwns(s, rest[..n], t);
      MoveOwns(Continue(s, rest[..n]), rest[n], t);
    }
  }

  /** Log answering true: the position it names holds the message of this very call. */
  lemma LoggedIsOwn(cfg: Config, capacity: nat, clients: nat, moves: seq<Move>, t: nat, pos: nat)
    requires 2 <= capacity && clients < GATE && t < clients
    requires Run(cfg, capacity, clients, moves).pcs[t] == Finish(Logged(pos))
    ensures var s := Run(cfg, capacity, clients, moves);
            s.calls[t] > 0 && pos < |s.ring.items| && s.ring.items[pos] == LogItem(t, s.calls[t] - 1)
  {
    StartInvariant(cfg, capacity, clients);
    RunOwns(Start(cfg, capacity, clients), moves, t);
  }

  /** A Log whose item TryEnqueue accepted answers true, whatever else has happened. */
  lemma AcceptedAnswersTrue(s: State, t: nat, c: Choice)
    requires Formed(s) && t < |s.pcs| && s.pcs[t].Enqueueing? && s.pcs[t].item.LogItem? && s.ring.pcs[t].EnqAccepted?
    ensures var s1 := EnqueueStep(s, t, c); var s2 := PublishStep(s1, t); var s3 := FinishStep(s2, t);
            && s2.pcs[t] == Finish(Logged(s.ring.pcs[t].pos)) && s2.wake == s.wake + 1
            && s3.accepted == s.accepted + {s.ring.pcs[t].pos}
  {
  }
}
