/** A call that is refused is never written. */
module LoggerRefusals {
  import opened Options
  import opened Ring
  import opened Logger
  import opened LoggerInvariant
  import opened LoggerQueueSteps
  import opened LoggerShared
  import opened LoggerWrites
  import opened LoggerFrames
  import opened LoggerRuns
  import opened LoggerClaims

  // ----- giving up -----

  /** In this move client t's call gives its item up: it had not claimed a position, and now it will
      not, because of the gate, a failure, the level filter or a full ring. */
  ghost predicate GivesUp(s: State, move: Move, t: nat, item: Item)
    requires Formed(s)
  {
    var s' := Apply(s, move);
    && t < |s.pcs| && FreshItem(s.pcs[t], s.ring.pcs[t]) == Some(item)
    && FreshItem(s'.pcs[t], s'.ring.pcs[t]) == None && s'.ring.items == s.ring.items
  }

  /** Call n of client t is over and left nothing in the ring. */
  ghost predicate Gone(s: State, t: nat, n: nat)
    requires Formed(s) && t < |s.pcs| && |s.ring.owners| == |s.ring.items|
  {
    && n < NextCall(s, t)
    && forall p | 0 <= p < |s.ring.owners| && s.ring.owners[p] == t :: s.ring.items[p].call != n
  }

  lemma GivenUpIsGone(s: State, s': State, t: nat, item: Item)
    requires Formed(s) && SameShape(s, s') && t < |s.pcs| && Ordered(s, t) && Ordered(s', t)
    requires s'.ring.items == s.ring.items && LaterCalls(s, s', t)
    requires FreshItem(s.pcs[t], s.ring.pcs[t]) == Some(item) && FreshItem(s'.pcs[t], s'.ring.pcs[t]) == None
    ensures Gone(s', t, item.call) && item.producer == t
  {
  }

  lemma GoneStaysGone(s: State, s': State, t: nat, n: nat)
    requires Formed(s) && SameShape(s, s') && t < |s.pcs| && |s.ring.owners| == |s.ring.items|
    requires Gone(s, t, n) && LaterCalls(s, s', t) && s.ring.items <= s'.ring.items
    ensures |s'.ring.owners| == |s'.ring.items| && Gone(s', t, n)
  {
  }

  lemma GoneIsUnwritten(s: State, item: Item)
    requires Invariant(s) && item.producer < |s.pcs| && Gone(s, item.producer, item.call)
    ensures item !in s.ring.items && item !in Writes(s.events)
  {
    forall p | 0 <= p < |s.ring.items| ensures s.ring.items[p] != item {
      ItemAt(s, p);
    }
    assert Holds(s, WritePart);
    LogsAreItems(s.ring.items, Handled(s));
  }

  lemma {:induction false} LogsAreItems(items: seq<Item>, n: nat)
    requires n <= |items|
    ensures forall x | x in Logs(items[..n]) :: x in items
  {
    if n > 0 {
      LogsAreItems(items, n - 1);
      LogsSnoc(items, n);
    }
  }

  /** A call that gives its item up is never written: not before, and not in any continuation. */
  lemma GivenUpIsNeverWritten(cfg: Config, capacity: nat, clients: nat, first: seq<Move>, move: Move, rest: seq<Move>,
                              s: State, s': State, t: nat, item: Item)
    requires 2 <= capacity && clients < GATE && t < clients
    requires s == Run(cfg, capacity, clients, first) && GivesUp(s, move, t, item)
    requires s' == Continue(Apply(s, move), rest)
    ensures item !in s'.ring.items && item !in Writes(s'.events)
  {
    Reachable(cfg, capacity, clients, first);
    var s1 := Apply(s, move);
    MoveKeepsInv(s, move);
    ContinueKeepsInv(s1, rest);
    GivenUpMove(s, s1, t, item);
    GoneForGood(s1, s', item);
  }

  lemma GivenUpMove(s: State, s': State, t: nat, item: Item)
    requires Invariant(s) && Invariant(s') && Grows(s, s') && t < |s.pcs| && s'.ring.items == s.ring.items
    requires FreshItem(s.pcs[t], s.ring.pcs[t]) == Some(item) && FreshItem(s'.pcs[t], s'.ring.pcs[t]) == None
    ensures Gone(s', t, item.call) && item.producer == t
  {
    OwnClient(s, t);
    OwnClient(s', t);
    assert GrowsIn(s, s', CallGrowth);
    GivenUpIsGone(s, s', t, item);
  }

  lemma GoneForGood(s: State, s': State, item: Item)
    requires Invariant(s) && Invariant(s') && Grows(s, s') && item.producer < |s.pcs|
    requires Gone(s, item.producer, item.call)
    ensures item !in s'.ring.items && item !in Writes(s'.events)
  {
    OwnClient(s, item.producer);
    assert GrowsIn(s, s', CallGrowth) && GrowsIn(s, s', HistoryGrowth);
    GoneStaysGone(s, s', item.producer, item.call);
    GoneIsUnwritten(s', item);
  }

  // ----- returning false -----

  /** The running call of client t is not a Log that has claimed a position. */
  predicate LogOpen(pc: ClientPc, inRing: Pc<Item>) {
    match pc
    case UndoDrop(_) => true
    case CountDrop(_) => true
    case UndoFail(_) => true
    case Finish(outcome) => outcome.Refused?
    case Enqueueing(item) => item.FlushItem? || Unclaimed(inRing)
    case Notify(item, _) => item.FlushItem?
    case AwaitLoad(item) => item.FlushItem?
    case AwaitCheck(item, _) => item.FlushItem?
    case AwaitChange(item, _) => item.FlushItem?
    case AwaitFinal(item) => item.FlushItem?
    case _ => FreshItem(pc, inRing).Some?
  }

  /** Then the latest call of t has no log in the ring. */
  ghost predicate Unlogged(s: State, t: nat)
    requires Formed(s)
  {
    t < |s.pcs| && LogOpen(s.pcs[t], s.ring.pcs[t]) ==>
      s.calls[t] > 0 && LogItem(t, s.calls[t] - 1) !in s.ring.items
  }

  /** A client step keeps its call open, or begins a new one, or ends it. */
  ghost predicate StaysOpen(s: State, s': State, t: nat)
    requires Formed(s) && SameShape(s, s') && t < |s.pcs|
  {
    LogOpen(s'.pcs[t], s'.ring.pcs[t]) ==>
      || (LogOpen(s.pcs[t], s.ring.pcs[t]) && s'.calls[t] == s.calls[t])
      || (s.pcs[t].Ready? && s'.calls[t] == s.calls[t] + 1)
  }

  lemma EntryStaysOpen(s: State, t: nat, c: Choice)
    requires Formed(s) && t < |s.pcs|
    ensures StaysOpen(s, EntryStep(s, t, c), t)
  {
  }

  lemma CheckStaysOpen(s: State, t: nat, c: Choice)
    requires Formed(s) && t < |s.pcs|
    ensures StaysOpen(s, CheckStep(s, t, c), t)
  {
  }

  lemma PublishStaysOpen(s: State, t: nat)
    requires Formed(s) && t < |s.pcs|
    ensures StaysOpen(s, PublishStep(s, t), t)
  {
  }

  lemma EnqueueStaysOpen(s: State, t: nat, c: Choice)
    requires Formed(s) && Counted(s.ring) && t < |s.pcs| && Coupled(s, t)
    ensures StaysOpen(s, EnqueueStep(s, t, c), t)
  {
    if s.pcs[t].Enqueueing? && InEnqueue(s.ring.pcs[t]) { AdvanceEnqueues(s.ring, t, c.spurious); }
  }

  lemma AwaitStaysOpen(s: State, t: nat)
    requires Formed(s) && t < |s.pcs| && LocalOk(s, t)
    ensures StaysOpen(s, AwaitStep(s, t), t)
  {
  }

  lemma UndoStaysOpen(s: State, t: nat)
    requires Formed(s) && t < |s.pcs|
    ensures StaysOpen(s, UndoStep(s, t), t)
  {
  }

  lemma FinishStaysOpen(s: State, t: nat)
    requires Formed(s) && t < |s.pcs|
    ensures StaysOpen(s, FinishStep(s, t), t)
  {
  }

  lemma StopStaysOpen(s: State, t: nat, c: Choice)
    requires Formed(s) && t < |s.pcs|
    ensures StaysOpen(s, StopStep(s, t, c), t)
  {
    if Stopping(s.pcs[t]) { StopTalliesNothing(s, t, c); }
  }

  lemma MoveStaysOpen(s: State, move: Move, t: nat)
    requires Invariant(s) && t < |s.pcs|
    ensures StaysOpen(s, Apply(s, move), t)
    ensures IsWorkerMove(move) || move.t != t ==>
              Apply(s, move).pcs[t] == s.pcs[t] && Apply(s, move).ring.pcs[t] == s.ring.pcs[t]
  {
    if IsWorkerMove(move) || move.t != t {
      OthersKeepRingPc(s, move, t);
      if IsWorkerMove(move) { WorkerMovesNoClient(s, move); } else { OthersDoNotMove(s, move, t); }
      OthersKeepCalls(s, move, t);
    } else {
      OwnClient(s, t);
      match move
      case Entry(t, c) => EntryStaysOpen(s, t, c);
      case Check(t, c) => CheckStaysOpen(s, t, c);
      case Publish(t) => PublishStaysOpen(s, t);
      case Enqueue(t, c) => EnqueueStaysOpen(s, t, c);
      case Await(t) => AwaitStaysOpen(s, t);
      case Undo(t) => UndoStaysOpen(s, t);
      case FinishOperation(t) => FinishStaysOpen(s, t);
      case Stop(t, c) => StopStaysOpen(s, t, c);
    }
  }

  lemma OthersKeepCalls(s: State, move: Move, t: nat)
    requires Formed(s) && t < |s.pcs| && (!IsWorkerMove(move) ==> move.t != t)
    ensures Apply(s, move).calls[t] == s.calls[t]
  {
    if move.Entry? {
      if move.t < |s.pcs| { EntryKeepsCalls(s, move.t, move.c, t); }
    } else if IsWorkerMove(move) {
      WorkerKeepsCalls(s, move);
    } else {
      OtherPhasesKeepCalls(s, move);
    }
  }

  lemma WorkerKeepsCalls(s: State, move: Move)
    requires Formed(s) && IsWorkerMove(move)
    ensures Apply(s, move).calls == s.calls
  {
  }

  lemma OtherPhasesKeepCalls(s: State, move: Move)
    requires Formed(s) && !IsWorkerMove(move) && !move.Entry?
    ensures Apply(s, move).calls == s.calls
  {
  }

  lemma EntryKeepsCalls(s: State, u: nat, c: Choice, t: nat)
    requires Formed(s) && t < |s.pcs| && u < |s.pcs| && u != t
    ensures EntryStep(s, u, c).calls[t] == s.calls[t]
  {
  }

  /** The item a move claims is a log of client t only if t claims it for a Log. */
  lemma NoLogOfThisCall(s: State, move: Move, t: nat, n: nat)
    requires Invariant(s) && t < |s.pcs| && LogItem(t, n) !in s.ring.items
    requires LogOpen(Apply(s, move).pcs[t], Apply(s, move).ring.pcs[t])
    ensures LogItem(t, n) !in Apply(s, move).ring.items
  {
    WhoClaims(s, move);
    if Apply(s, move).ring.items != s.ring.items {
      OwnClient(s, move.t);
      ClaimantIsOpen(s, move, t);
    }
  }

  lemma ClaimantIsOpen(s: State, move: Move, t: nat)
    requires Formed(s) && Counted(s.ring) && t < |s.pcs| && move.Enqueue? && move.t < |s.pcs|
    requires s.pcs[move.t].Enqueueing? && Unclaimed(s.ring.pcs[move.t]) && Coupled(s, move.t) && ComingOk(s, move.t)
    requires Apply(s, move).ring.items == s.ring.items + [s.pcs[move.t].item]
    requires LogOpen(Apply(s, move).pcs[t], Apply(s, move).ring.pcs[t])
    ensures s.pcs[move.t].item.producer == t ==> s.pcs[move.t].item.FlushItem?
  {
    if InEnqueue(s.ring.pcs[move.t]) { AdvanceEnqueues(s.ring, move.t, move.c.spurious); }
  }

  lemma NewCallIsUnlogged(s: State, t: nat)
    requires Invariant(s) && t < |s.pcs| && s.pcs[t].Ready?
    ensures LogItem(t, s.calls[t]) !in s.ring.items
  {
    OwnClient(s, t);
    forall p | 0 <= p < |s.ring.items| ensures s.ring.items[p] != LogItem(t, s.calls[t]) {
      ItemAt(s, p);
    }
  }

  lemma UnloggedMove(s: State, move: Move, t: nat)
    requires Invariant(s) && Unlogged(s, t)
    ensures Unlogged(Apply(s, move), t)
  {
    var s' := Apply(s, move);
    if t < |s.pcs| && LogOpen(s'.pcs[t], s'.ring.pcs[t]) {
      MoveStaysOpen(s, move, t);
      if !(LogOpen(s.pcs[t], s.ring.pcs[t]) && s'.calls[t] == s.calls[t]) { NewCallIsUnlogged(s, t); }
      NoLogOfThisCall(s, move, t, s'.calls[t] - 1);
    }
  }

  lemma {:induction false} UnloggedRun(s: State, rest: seq<Move>, t: nat)
    requires Invariant(s) && Unlogged(s, t)
    ensures Unlogged(Continue(s, rest), t)
  {
    if rest != [] {
      var n := |rest| - 1;
      ContinueKeepsInv(s, rest[..n]);
      UnloggedRun(s, rest[..n], t);
      UnloggedMove(Continue(s, rest[..n]), rest[n], t);
    }
  }

  /** In this move a call of client t returns false: it leaves as refused, or it found the gate closed. */
  ghost predicate ReturnsFalse(s: State, move: Move, t: nat)
    requires Formed(s)
  {
    && t < |s.pcs|
    && (|| (s.pcs[t] == Finish(Refused) && move == FinishOperation(t))
        || ((s.pcs[t].StartLoad? || s.pcs[t].StartCas?) && !IsWorkerMove(move) && move.t == t && Apply(s, move).pcs[t].Ready?))
  }

  lemma ReturnLeavesNothing(s: State, move: Move, t: nat)
    requires Formed(s) && ReturnsFalse(s, move, t)
    ensures LogOpen(s.pcs[t], s.ring.pcs[t])
    ensures var s' := Apply(s, move);
            s'.ring.items == s.ring.items && s'.calls == s.calls && FreshItem(s'.pcs[t], s'.ring.pcs[t]) == None
  {
  }

  lemma UnloggedForGood(s: State, s': State, t: nat, n: nat)
    requires Invariant(s) && Invariant(s') && Grows(s, s') && t < |s.pcs|
    requires n < NextCall(s, t) && LogItem(t, n) !in s.ring.items
    ensures LogItem(t, n) !in s'.ring.items && LogItem(t, n) !in Writes(s'.events)
  {
    assert GrowsIn(s, s', CallGrowth) && GrowsIn(s, s', HistoryGrowth);
    assert LaterCalls(s, s', t);
    forall p | 0 <= p < |s'.ring.items| ensures s'.ring.items[p] != LogItem(t, n) {
      ItemAt(s', p);
    }
    assert Holds(s', WritePart);
    LogsAreItems(s'.ring.items, Handled(s'));
  }

  /** Log returning false: the message of that call is nowhere in the ring and was not written, and
      in no continuation it ever is. */
  lemma RefusedIsNeverWritten(cfg: Config, capacity: nat, clients: nat, first: seq<Move>, move: Move, rest: seq<Move>,
                              s: State, s': State, t: nat)
    requires 2 <= capacity && clients < GATE && t < clients
    requires s == Run(cfg, capacity, clients, first) && ReturnsFalse(s, move, t)
    requires s' == Continue(Apply(s, move), rest)
    ensures s.calls[t] > 0
    ensures var message := LogItem(t, s.calls[t] - 1);
            message !in s'.ring.items && message !in Writes(s'.events)
  {
    Reachable(cfg, capacity, clients, first);
    UnloggedFromStart(cfg, capacity, clients, first, t);
    ReturnIsUnlogged(s, move, t);
    MoveKeepsInv(s, move);
    ContinueKeepsInv(Apply(s, move), rest);
    UnloggedForGood(Apply(s, move), s', t, s.calls[t] - 1);
  }

  lemma UnloggedFromStart(cfg: Config, capacity: nat, clients: nat, first: seq<Move>, t: nat)
    requires 2 <= capacity && clients < GATE
    ensures Unlogged(Run(cfg, capacity, clients, first), t)
  {
    StartInvariant(cfg, capacity, clients);
    UnloggedRun(Start(cfg, capacity, clients), first, t);
  }

  lemma ReturnIsUnlogged(s: State, move: Move, t: nat)
    requires Formed(s) && ReturnsFalse(s, move, t) && Unlogged(s, t)
    ensures var s' := Apply(s, move);
            s.calls[t] > 0 && s.calls[t] - 1 < NextCall(s', t) && LogItem(t, s.calls[t] - 1) !in s'.ring.items
  {
    ReturnLeavesNothing(s, move, t);
  }
}
