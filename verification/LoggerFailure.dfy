/** What can still happen after the worker has set the failure flag. */
module LoggerFailure {
  import opened Logger
  import opened LoggerShared
  import opened LoggerFrames
  import opened LoggerRuns
  import opened LoggerClaims

  /** Client u has not entered TryEnqueue, and its Flush has not come to return true, since s. */
  ghost predicate NothingNew(s: State, s': State, u: nat) {
    u < |s.pcs| == |s'.pcs| ==>
      && (s'.pcs[u].Enqueueing? ==> s'.pcs[u] == s.pcs[u])
      && (s'.pcs[u].Finish? && s'.pcs[u].outcome.Flushed? ==> s'.pcs[u] == s.pcs[u])
  }

  /** The Flush with ticket k has returned true or is about to. */
  ghost predicate Promised(s: State, k: nat) {
    k in s.acknowledged || exists u: nat :: u < |s.pcs| && s.pcs[u] == Finish(Flushed(k))
  }

  lemma OwnMoveAfterFailure(s: State, move: Move)
    requires Formed(s) && s.failed && !IsWorkerMove(move) && move.t < |s.pcs|
    ensures NothingNew(s, Apply(s, move), move.t)
  {
    match move
    case Entry(t, c) => EntryAfterFailure(s, t, c);
    case Check(t, c) => CheckAfterFailure(s, t, c);
    case Publish(t) => PublishAfterFailure(s, t);
    case Enqueue(t, c) => EnqueueAfterFailure(s, t, c);
    case _ =>
  }

  lemma EntryAfterFailure(s: State, t: nat, c: Choice)
    requires Formed(s) && t < |s.pcs|
    ensures NothingNew(s, EntryStep(s, t, c), t)
  {
  }

  lemma CheckAfterFailure(s: State, t: nat, c: Choice)
    requires Formed(s) && t < |s.pcs|
    ensures NothingNew(s, CheckStep(s, t, c), t)
  {
  }

  lemma PublishAfterFailure(s: State, t: nat)
    requires Formed(s) && t < |s.pcs| && s.failed
    ensures NothingNew(s, PublishStep(s, t), t)
  {
  }

  lemma EnqueueAfterFailure(s: State, t: nat, c: Choice)
    requires Formed(s) && t < |s.pcs|
    ensures NothingNew(s, EnqueueStep(s, t, c), t)
  {
  }

  lemma MoveAfterFailure(s: State, move: Move, u: nat)
    requires Formed(s) && s.failed
    ensures NothingNew(s, Apply(s, move), u)
  {
    if IsWorkerMove(move) {
      WorkerMovesNoClient(s, move);
    } else if move.t == u {
      if u < |s.pcs| { OwnMoveAfterFailure(s, move); }
    } else if u < |s.pcs| {
      OthersDoNotMove(s, move, u);
    }
  }

  /** Only FinishOperation answers. */
  lemma WhoAnswers(s: State, move: Move, k: nat)
    requires Formed(s) && k in Apply(s, move).acknowledged && k !in s.acknowledged
    ensures !IsWorkerMove(move) && move.t < |s.pcs| && s.pcs[move.t] == Finish(Flushed(k))
  {
    if IsWorkerMove(move) { WorkerAnswersNothing(s, move); }
    else if !move.FinishOperation? { OthersAnswerNothing(s, move); }
  }

  lemma WorkerAnswersNothing(s: State, move: Move)
    requires Formed(s) && IsWorkerMove(move)
    ensures Apply(s, move).acknowledged == s.acknowledged
  {
  }

  lemma OthersAnswerNothing(s: State, move: Move)
    requires Formed(s) && !IsWorkerMove(move) && !move.FinishOperation?
    ensures Apply(s, move).acknowledged == s.acknowledged
  {
    if move.t < |s.pcs| {
      match move
      case Entry(t, c) => EntryAnswersNothing(s, t, c);
      case Check(t, c) => CheckAnswersNothing(s, t, c);
      case Stop(t, c) => StopAnswersNothing(s, t, c);
      case _ =>
    }
  }

  lemma EntryAnswersNothing(s: State, t: nat, c: Choice)
    requires Formed(s) && t < |s.pcs|
    ensures EntryStep(s, t, c).acknowledged == s.acknowledged
  {
  }

  lemma CheckAnswersNothing(s: State, t: nat, c: Choice)
    requires Formed(s) && t < |s.pcs|
    ensures CheckStep(s, t, c).acknowledged == s.acknowledged
  {
  }

  lemma StopAnswersNothing(s: State, t: nat, c: Choice)
    requires Formed(s) && t < |s.pcs|
    ensures StopStep(s, t, c).acknowledged == s.acknowledged
  {
  }

  lemma PromiseIsOld(s: State, move: Move, k: nat)
    requires Formed(s) && s.failed && Promised(Apply(s, move), k)
    ensures Promised(s, k)
  {
    var s' := Apply(s, move);
    if k in s'.acknowledged {
      if k !in s.acknowledged { WhoAnswers(s, move, k); }
    } else {
      var u: nat :| u < |s'.pcs| && s'.pcs[u] == Finish(Flushed(k));
      MoveAfterFailure(s, move, u);
    }
  }

  /** The flush items of the ring carry tickets up to k. */
  ghost predicate TicketsUpTo(items: seq<Item>, k: nat) {
    forall p | 0 <= p < |items| && items[p].FlushItem? :: items[p].ticket <= k
  }

  lemma TicketsStayOld(s: State, before: State, move: Move)
    requires Invariant(s) && Invariant(before) && |before.pcs| == |s.pcs|
    requires (forall u :: NothingNew(s, before, u)) && TicketsUpTo(before.ring.items, s.requested)
    ensures TicketsUpTo(Apply(before, move).ring.items, s.requested)
  {
    WhoClaims(before, move);
    if move.Enqueue? && move.t < |s.pcs| {
      assert NothingNew(s, before, move.t);
      OwnClient(s, move.t);
      assert Holds(s, TicketPart);
    }
  }

  /** After the failure flag is set: it stays set; whoever is inside TryEnqueue later was inside with
      the same item already; a Flush that returns true had made its final test before; and a ticket
      taken later never enters the ring. */
  lemma {:induction false} FailureIsFinal(s: State, rest: seq<Move>, k: nat)
    requires Invariant(s) && s.failed
    ensures var s' := Continue(s, rest);
            && s'.failed && Invariant(s')
            && (forall u :: NothingNew(s, s', u))
            && (Promised(s', k) ==> Promised(s, k))
            && TicketsUpTo(s'.ring.items, s.requested)
  {
    ContinueKeepsInv(s, rest);
    assert GrowsIn(s, Continue(s, rest), HistoryGrowth);
    if rest == [] {
      assert Holds(s, TicketPart);
      forall p | 0 <= p < |s.ring.items| && s.ring.items[p].FlushItem? ensures s.ring.items[p].ticket <= s.requested {
        assert ItemOk(s, p);
      }
    } else {
      var n := |rest| - 1;
      var before := Continue(s, rest[..n]);
      FailureIsFinal(s, rest[..n], k);
      forall u ensures NothingNew(s, Continue(s, rest), u) {
        assert NothingNew(s, before, u);
        MoveAfterFailure(before, rest[n], u);
      }
      if Promised(Continue(s, rest), k) { PromiseIsOld(before, rest[n], k); }
      TicketsStayOld(s, before, rest[n]);
    }
  }

  /** The same, said of runs: no Flush whose final test comes after the failure returns true, and no
      call that tests for the failure after it publishes anything. */
  lemma NothingSucceedsAfterFailure(cfg: Config, capacity: nat, clients: nat, first: seq<Move>, rest: seq<Move>,
                                    s: State, s': State, k: nat, u: nat)
    requires 2 <= capacity && clients < GATE && u < clients
    requires s == Run(cfg, capacity, clients, first) && s.failed && s' == Continue(s, rest)
    ensures s'.failed && (Promised(s', k) ==> Promised(s, k))
    ensures s'.pcs[u].Enqueueing? ==> s'.pcs[u] == s.pcs[u]
    ensures TicketsUpTo(s'.ring.items, s.requested)
  {
    Reachable(cfg, capacity, clients, first);
    FailureIsFinal(s, rest, k);
    assert NothingNew(s, s', u);
  }

  // ----- the failure is recorded -----

  predicate CallsSink(pc: WorkerPc, passes: bool) {
    pc.SinkItem? || pc.FlushRequired? || pc.FinalFlush? || (pc.FlushIfDue? && passes)
  }

  /** A sink that throws, whatever it was called for, makes the worker fail; nothing else changes. */
  lemma SinkThrowFails(s: State, c: Choice)
    requires Formed(s) && c.throws && CallsSink(s.worker, c.passes)
    ensures var s' := if s.worker.SinkItem? then HandleStep(s, c) else TurnStep(s, c);
            s'.worker == FailLoad(s.worker.SinkItem?) && s' == s.(worker := s'.worker)
  {
  }

  const STEADY := Choice(CallLog, false, false, false)

  function StepsToRecord(pc: WorkerPc): nat {
    match pc
    case FailLoad(_) => 6
    case FailCas(_, _) => 5
    case FailSet(_) => 4
    case FailRequest(_) => 3
    case FailComplete(_, _) => 2
    case FailNotify(_) => 1
    case _ => 0
  }

  /** The worker records a failure, alone so far. */
  ghost predicate Recording(s: State) {
    match s.worker
    case FailLoad(_) => true
    case FailCas(_, word) => word == s.word && !Closed(word)
    case FailSet(_) => Closed(s.word)
    case FailRequest(_) => Closed(s.word) && s.failed
    case FailComplete(_, ticket) => Closed(s.word) && s.failed && ticket == s.requested
    case FailNotify(_) => Closed(s.word) && s.failed && s.completed == s.requested
    case Failed(_) => Closed(s.word) && s.failed && s.completed == s.requested
    case _ => false
  }

  lemma RecordStep(s: State)
    requires Formed(s) && Recording(s) && !s.worker.Failed?
    ensures var s' := Apply(s, Fail(STEADY));
            && Recording(s') && StepsToRecord(s'.worker) < StepsToRecord(s.worker)
            && s'.pcs == s.pcs && s'.requested == s.requested && s'.events == s.events
  {
  }

  /** Left alone, a worker whose sink has thrown closes the gate, sets the flag, releases every
      ticket taken so far, and ends. */
  lemma {:induction false} RecordsFailure(s: State) returns (rest: seq<Move>)
    requires Formed(s) && Recording(s)
    ensures var s' := Continue(s, rest);
            && s'.worker.Failed? && s'.failed && Closed(s'.word) && s'.completed == s.requested
            && s'.pcs == s.pcs && s'.events == s.events
    decreases StepsToRecord(s.worker)
  {
    if s.worker.Failed? {
      rest := [];
    } else {
      RecordStep(s);
      ContinueOnce(s, Fail(STEADY));
      var more := RecordsFailure(Apply(s, Fail(STEADY)));
      ContinueTwice(s, [Fail(STEADY)], more);
      rest := [Fail(STEADY)] + more;
    }
  }
}
