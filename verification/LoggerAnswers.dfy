/** What a call of Log or Flush answers, and only for which reasons. */
module LoggerAnswers {
  import opened Options
  import opened Logger
  import opened LoggerInvariant
  import opened LoggerShared
  import opened LoggerTickets
  import opened LoggerFrames
  import opened LoggerRuns
  import opened LoggerStop
  import opened LoggerOverlap
  import opened LoggerSchedule
  import opened FlushOverlap

  /** The item of the running call, as long as the client carries it. */
  function ItemOf(pc: ClientPc): Option<Item> {
    match pc
    case StartLoad(item) => Some(item)
    case StartCas(item, _) => Some(item)
    case CheckJoinable(item) => Some(item)
    case CheckFailure(item) => Some(item)
    case CheckLevel(item) => Some(item)
    case TakeTicket(item) => Some(item)
    case CountUp(item) => Some(item)
    case PublishCheck(item) => Some(item)
    case Enqueueing(item) => Some(item)
    case Notify(item, _) => Some(item)
    case UndoDrop(item) => Some(item)
    case CountDrop(item) => Some(item)
    case UndoFail(item) => Some(item)
    case AwaitLoad(item) => Some(item)
    case AwaitCheck(item, _) => Some(item)
    case AwaitChange(item, _) => Some(item)
    case AwaitFinal(item) => Some(item)
    case _ => None
  }

  predicate CarriesFlush(pc: ClientPc) { ItemOf(pc).Some? && ItemOf(pc).value.FlushItem? }

  predicate CarriesLog(pc: ClientPc) { ItemOf(pc).Some? && ItemOf(pc).value.LogItem? }

  // ----- refusals have a reason -----

  /** A step that refuses t's call has one of the source's reasons. */
  ghost predicate HasReason(s: State, s': State, t: nat, passes: bool)
    requires t < |s.pcs| == |s'.pcs|
  {
    && (s'.pcs[t] == Finish(Refused) && CarriesFlush(s.pcs[t]) ==> s.failed || s.joined)
    && (s'.pcs[t] == Finish(Refused) && CarriesLog(s.pcs[t]) ==>
          s.failed || s.pcs[t].CountDrop? || (s.pcs[t].CheckLevel? && !passes))
    && ((s.pcs[t].StartLoad? || s.pcs[t].StartCas?) && s'.pcs[t].Ready? ==> Closed(s.word))
  }

  lemma EntryHasReason(s: State, t: nat, c: Choice)
    requires Formed(s) && t < |s.pcs|
    ensures HasReason(s, EntryStep(s, t, c), t, c.passes)
  {
  }

  lemma CheckHasReason(s: State, t: nat, c: Choice)
    requires Formed(s) && t < |s.pcs| && LocalOk(s, t)
    ensures HasReason(s, CheckStep(s, t, c), t, c.passes)
  {
  }

  lemma PublishHasReason(s: State, t: nat, passes: bool)
    requires Formed(s) && t < |s.pcs|
    ensures HasReason(s, PublishStep(s, t), t, passes)
  {
  }

  lemma EnqueueHasReason(s: State, t: nat, c: Choice)
    requires Formed(s) && t < |s.pcs|
    ensures HasReason(s, EnqueueStep(s, t, c), t, c.passes)
  {
  }

  lemma UndoHasReason(s: State, t: nat, passes: bool)
    requires Formed(s) && t < |s.pcs| && LocalOk(s, t)
    ensures HasReason(s, UndoStep(s, t), t, passes)
  {
  }

  lemma AwaitHasReason(s: State, t: nat, passes: bool)
    requires Formed(s) && t < |s.pcs| && LocalOk(s, t)
    ensures HasReason(s, AwaitStep(s, t), t, passes)
  {
  }

  lemma FinishHasReason(s: State, t: nat, passes: bool)
    requires Formed(s) && t < |s.pcs|
    ensures HasReason(s, FinishStep(s, t), t, passes)
  {
  }

  lemma StopHasReason(s: State, t: nat, c: Choice)
    requires Formed(s) && t < |s.pcs|
    ensures HasReason(s, StopStep(s, t, c), t, c.passes)
  {
    if Stopping(s.pcs[t]) { StopTalliesNothing(s, t, c); }
  }

  predicate LevelPasses(move: Move) { move.Check? && move.c.passes }

  lemma OwnMoveHasReason(s: State, move: Move)
    requires Formed(s) && !IsWorkerMove(move) && move.t < |s.pcs| && LocalOk(s, move.t)
    ensures HasReason(s, Apply(s, move), move.t, LevelPasses(move))
  {
    match move
    case Entry(t, c) => EntryHasReason(s, t, c);
    case Check(t, c) => CheckHasReason(s, t, c);
    case Publish(t) => PublishHasReason(s, t, false);
    case Undo(t) => UndoHasReason(s, t, false);
    case Enqueue(t, c) => EnqueueHasReason(s, t, c);
    case Await(t) => AwaitHasReason(s, t, false);
    case FinishOperation(t) => FinishHasReason(s, t, false);
    case Stop(t, c) => StopHasReason(s, t, c);
  }

  lemma MoveHasReason(s: State, move: Move, t: nat)
    requires Invariant(s) && t < |s.pcs|
    ensures HasReason(s, Apply(s, move), t, LevelPasses(move))
  {
    if !IsWorkerMove(move) && move.t == t {
      OwnClient(s, t);
      OwnMoveHasReason(s, move);
    } else {
      ElsewhereNothing(s, move, t);
    }
  }

  lemma ElsewhereNothing(s: State, move: Move, t: nat)
    requires Formed(s) && t < |s.pcs| && (IsWorkerMove(move) || move.t != t)
    ensures Apply(s, move).pcs[t] == s.pcs[t]
  {
    if IsWorkerMove(move) { WorkerMovesNoClient(s, move); } else { OthersDoNotMove(s, move, t); }
  }

  /** A Flush is refused only if the worker has failed, or the logger has been stopped and joined, or
      the gate is closed. */
  lemma FlushIsRefusedOnly(cfg: Config, capacity: nat, clients: nat, first: seq<Move>, s: State, move: Move, t: nat)
    requires 2 <= capacity && clients < GATE && t < clients
    requires s == Run(cfg, capacity, clients, first) && CarriesFlush(s.pcs[t])
    ensures Apply(s, move).pcs[t] == Finish(Refused) ==> s.failed || s.joined
    ensures (s.pcs[t].StartLoad? || s.pcs[t].StartCas?) && Apply(s, move).pcs[t].Ready? ==> Closed(s.word)
  {
    Reachable(cfg, capacity, clients, first);
    MoveHasReason(s, move, t);
  }

  // ----- a Flush that is served answers true -----

  lemma ServedSteps(s: State, t: nat)
    requires Formed(s) && t < |s.pcs| && !s.failed && s.pcs[t].AwaitLoad? && s.pcs[t].item.FlushItem?
    requires s.pcs[t].item.ticket <= s.completed
    ensures var s1 := AwaitStep(s, t); var s2 := AwaitStep(s1, t);
            s2 == Go(s1, t, Finish(Flushed(s.pcs[t].item.ticket))) && s1 == Go(s, t, AwaitFinal(s.pcs[t].item))
  {
  }

  lemma AnswerStep(s: State, t: nat, k: nat)
    requires Formed(s) && t < |s.pcs| && s.pcs[t] == Finish(Flushed(k))
    ensures FinishStep(s, t).acknowledged == s.acknowledged + {k}
  {
  }

  /** Nothing has failed, and the complete ticket has reached the waiting client's: then two steps of
      its own settle that Flush returns true, and the third acknowledges the ticket. */
  lemma ServedFlushAnswersTrue(cfg: Config, capacity: nat, clients: nat, first: seq<Move>, s: State, t: nat)
    requires 2 <= capacity && clients < GATE && t < clients
    requires s == Run(cfg, capacity, clients, first) && !s.failed && s.pcs[t].AwaitLoad?
    ensures s.pcs[t].item.FlushItem?
    ensures s.pcs[t].item.ticket <= s.completed ==>
              var s2 := Apply(Apply(s, Await(t)), Await(t));
              && s2.pcs[t] == Finish(Flushed(s.pcs[t].item.ticket))
              && Apply(s2, FinishOperation(t)).acknowledged == s.acknowledged + {s.pcs[t].item.ticket}
  {
    Reachable(cfg, capacity, clients, first);
    WaitsForFlush(s, t);
    if s.pcs[t].item.ticket <= s.completed { ServedMoves(s, t); }
  }

  lemma ServedMoves(s: State, t: nat)
    requires Formed(s) && t < |s.pcs| && !s.failed && s.pcs[t].AwaitLoad? && s.pcs[t].item.FlushItem?
    requires s.pcs[t].item.ticket <= s.completed
    ensures var s2 := Apply(Apply(s, Await(t)), Await(t));
            && s2.pcs[t] == Finish(Flushed(s.pcs[t].item.ticket))
            && Apply(s2, FinishOperation(t)).acknowledged == s.acknowledged + {s.pcs[t].item.ticket}
  {
    ServedSteps(s, t);
    AnswerStep(AwaitStep(AwaitStep(s, t), t), t, s.pcs[t].item.ticket);
  }

  lemma WaitsForFlush(s: State, t: nat)
    requires Invariant(s) && t < |s.pcs| && s.pcs[t].AwaitLoad?
    ensures s.pcs[t].item.FlushItem?
  {
    OwnClient(s, t);
  }

  /** From every reachable state in which a client takes a ticket and the worker is not failing, some
      continuation lets this Flush return true. */
  lemma FlushCanSucceed(cfg: Config, capacity: nat, clients: nat, first: seq<Move>, s: State, t: nat, c: Choice)
    requires 2 <= capacity && clients < GATE && t < clients
    requires s == Run(cfg, capacity, clients, first) && s.pcs[t].TakeTicket? && !Failing(s.worker)
    ensures exists rest :: s.requested + 1 in Continue(Apply(s, Check(t, c)), rest).acknowledged
  {
    Reachable(cfg, capacity, clients, first);
    var s1, k := Apply(s, Check(t, c)), s.requested + 1;
    MoveKeepsInv(s, Check(t, c));
    TakesTicket(s, t, c);
    HeldIsLive(s1, t);
    var r1 := OneMore(s1, t);
    var s2 := Continue(s1, r1);
    ClaimIsAccepted(s2, t);
    CalmFacts(s2, t);
    StoredLast(s2, k);
    var r2 := WaitsAndReturns(s2, t, k);
    Then(s1, r1, s2, r2);
    assert k in Continue(s1, r1 + r2).acknowledged;
  }

  lemma TakesTicket(s: State, t: nat, c: Choice)
    requires Formed(s) && t < |s.pcs| && s.pcs[t].TakeTicket?
    ensures Apply(s, Check(t, c)).worker == s.worker && HeldTicket(Apply(s, Check(t, c)), t) == Some(s.requested + 1)
  {
  }

  lemma StoredLast(s: State, k: nat)
    requires Invariant(s) && Empty(s) && s.ring.items != []
    requires var last := s.ring.items[|s.ring.items| - 1]; last.FlushItem? && last.ticket == k
    ensures s.completed == k
  {
    assert Holds(s, TracePart);
    TicketSnoc(s.ring.items, |s.ring.items|);
  }

  lemma WaitsAndReturns(s: State, t: nat, k: nat) returns (rest: seq<Move>)
    requires Formed(s) && t < |s.pcs| && s.pcs[t].Enqueueing? && s.ring.pcs[t].EnqAccepted? && !s.failed
    requires s.pcs[t].item.FlushItem? && s.pcs[t].item.ticket == k == s.completed
    ensures k in Continue(s, rest).acknowledged
  {
    var s1 := Apply(s, Enqueue(t, CALM));
    var s2 := Apply(s1, Publish(t));
    var s3 := Apply(s2, Await(t));
    var s4 := Apply(s3, Await(t));
    WaitsOne(s, t);
    WaitsTwo(s1, t);
    ServedSteps(s2, t);
    AnswerStep(s4, t, k);
    ContinueOnce(s, Enqueue(t, CALM));
    ContinueOnce(s1, Publish(t));
    ContinueOnce(s2, Await(t));
    ContinueOnce(s3, Await(t));
    ContinueOnce(s4, FinishOperation(t));
    Then(s3, [Await(t)], s4, [FinishOperation(t)]);
    Then(s2, [Await(t)], s3, [Await(t)] + [FinishOperation(t)]);
    Then(s1, [Publish(t)], s2, [Await(t)] + ([Await(t)] + [FinishOperation(t)]));
    Then(s, [Enqueue(t, CALM)], s1, [Publish(t)] + ([Await(t)] + ([Await(t)] + [FinishOperation(t)])));
    rest := [Enqueue(t, CALM)] + ([Publish(t)] + ([Await(t)] + ([Await(t)] + [FinishOperation(t)])));
  }
}
