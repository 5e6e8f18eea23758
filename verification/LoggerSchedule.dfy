/** Runs that can always be had: with some call still running and no failure, the worker can be
    brought back to the top of its loop, the ring can be emptied, and a client that holds a ticket
    can put it into the empty ring. */
module LoggerSchedule {
  import opened Ring
  import RingTheorems
  import opened Logger
  import opened LoggerInvariant
  import opened LoggerQueueSteps
  import opened LoggerWorker
  import opened LoggerShared
  import opened LoggerExit
  import opened LoggerFrames
  import opened LoggerRuns
  import opened LoggerClaims
  import opened LoggerStop

  /** The sink does not throw, no deadline is due, no swap fails for no reason; a sleeper wakes. */
  const WAKE := Choice(CallLog, false, true, false)

  // ----- the worker goes back to the top -----

  predicate AtTop(pc: WorkerPc) { pc.CallDequeue? && pc.site.Draining? }

  function CalmMove(pc: WorkerPc): Move {
    match pc
    case CallDequeue(_) => BeginDequeue
    case Dequeuing(_) => Dequeue(CALM)
    case SinkItem(_, _) => Handle(CALM)
    case StoreTicket(_, _) => Handle(CALM)
    case CountWritten(_) => Handle(CALM)
    case LoadFlushLevel(_) => Handle(CALM)
    case FlushRequired(_) => Turn(CALM)
    case FlushIfDue(_) => Turn(CALM)
    case FinalFlush => Turn(CALM)
    case TestGate(_) => ExitTest
    case TestActive(_) => ExitTest
    case Sample => ExitTest
    case _ => Wait(WAKE)
  }

  /** How far a step inside TryDequeue is from its end. */
  function RankInside(inRing: Pc<Item>): nat {
    match inRing
    case DeqLoad => 6
    case DeqSequence(_) => 5
    case DeqCas(_) => 4
    case DeqRead(_) => 3
    case DeqStore(_, _) => 2
    case _ => 1
  }

  /** How many steps the worker is from the top of its loop, at most. */
  function Rank(pc: WorkerPc, inRing: Pc<Item>): nat {
    match pc
    case CallDequeue(site) => if site.Draining? then 0 else 20
    case Dequeuing(site) => (if site.Draining? then 30 else 10) + RankInside(inRing)
    case SinkItem(_, _) => 5
    case StoreTicket(_, _) => 4
    case CountWritten(_) => 4
    case LoadFlushLevel(_) => 3
    case FlushRequired(site) => if site.Draining? then 25 else 1
    case FlushIfDue(_) => 24
    case TestGate(_) => 23
    case TestActive(_) => 22
    case Sample => 21
    case WaitSignal(_) => 6
    case WaitFailure(_) => 5
    case WaitGate(_) => 4
    case WaitActive(_) => 3
    case Asleep(_) => 2
    case _ => 0
  }

  function WorkerRank(s: State): nat
    requires Formed(s)
  {
    Rank(s.worker, s.ring.pcs[WorkerId(s)])
  }

  /** A step that brings the worker closer to the top, or to its last position again, without failing. */
  ghost predicate Closer(s: State, s': State)
    requires Formed(s)
  {
    Formed(s') && !Failing(s'.worker) && WorkerRank(s') < WorkerRank(s)
  }

  lemma DequeueInsideCloser(s: State)
    requires Formed(s) && Counted(s.ring) && PcOk(s.ring, WorkerId(s)) && CellOkAt(s.ring, s.ring.dequeuePos)
    requires WorkerCoupled(s) && s.worker.Dequeuing? && InDequeue(s.ring.pcs[WorkerId(s)])
    ensures Closer(s, DequeueStep(s, CALM))
  {
    AdvanceDequeues(s.ring, WorkerId(s), CALM.spurious);
  }

  lemma DequeueReturnCloser(s: State)
    requires Formed(s) && WorkerCoupled(s) && s.worker.Dequeuing? && !s.worker.site.LastDrain?
    requires !InDequeue(s.ring.pcs[WorkerId(s)])
    ensures Closer(s, DequeueStep(s, CALM))
  {
  }

  lemma HandleCloser(s: State)
    requires Formed(s)
    requires (s.worker.SinkItem? || s.worker.StoreTicket? || s.worker.CountWritten? || s.worker.LoadFlushLevel?) && !s.worker.site.LastDrain?
    ensures Closer(s, Apply(s, CalmMove(s.worker)))
  {
  }

  lemma TurnCloser(s: State)
    requires Formed(s) && ((s.worker.FlushRequired? && !s.worker.site.LastDrain?) || s.worker.FlushIfDue?)
    ensures Closer(s, Apply(s, CalmMove(s.worker)))
  {
  }

  lemma ExitTestCloser(s: State)
    requires Formed(s) && !Quiet(s) && (s.worker.TestGate? || s.worker.TestActive? || s.worker.Sample?)
    requires s.worker.TestActive? ==> Closed(s.word)
    ensures Closer(s, Apply(s, CalmMove(s.worker)))
  {
  }

  lemma WaitCloser(s: State)
    requires Formed(s)
    requires s.worker.WaitSignal? || s.worker.WaitFailure? || s.worker.WaitGate? || s.worker.WaitActive? || s.worker.Asleep?
    ensures Closer(s, Apply(s, CalmMove(s.worker)))
  {
  }

  lemma BeginCloser(s: State)
    requires Formed(s) && s.worker.CallDequeue? && s.worker.site.Recheck?
    ensures Closer(s, Apply(s, CalmMove(s.worker)))
  {
  }

  lemma DequeueCloser(s: State)
    requires Formed(s) && Inv(s.ring) && WorkerCoupled(s) && s.worker.Dequeuing? && !s.worker.site.LastDrain?
    ensures Closer(s, Apply(s, CalmMove(s.worker)))
  {
    assert PcOkAt(s.ring, WorkerId(s)) && CellOkAt(s.ring, s.ring.dequeuePos);
    if InDequeue(s.ring.pcs[WorkerId(s)]) { DequeueInsideCloser(s); } else { DequeueReturnCloser(s); }
  }

  lemma WorkerCloser(s: State)
    requires Formed(s) && Inv(s.ring) && WorkerOk(s) && ExitOk(s) && !Quiet(s)
    requires !Failing(s.worker) && !AtTop(s.worker)
    ensures Closer(s, Apply(s, CalmMove(s.worker)))
  {
    match s.worker
    case CallDequeue(_) => BeginCloser(s);
    case Dequeuing(_) => DequeueCloser(s);
    case TestGate(_) => ExitTestCloser(s);
    case TestActive(_) => ExitTestCloser(s);
    case Sample => ExitTestCloser(s);
    case FlushRequired(_) => TurnCloser(s);
    case FlushIfDue(_) => TurnCloser(s);
    case WaitSignal(_) => WaitCloser(s);
    case WaitFailure(_) => WaitCloser(s);
    case WaitGate(_) => WaitCloser(s);
    case WaitActive(_) => WaitCloser(s);
    case Asleep(_) => WaitCloser(s);
    case _ => HandleCloser(s);
  }

  // ----- what calm steps leave alone -----

  predicate Claimed(inRing: Pc<Item>) {
    inRing.EnqWrite? || inRing.EnqStore? || inRing.EnqAccepted?
  }

  ghost predicate RingPcKept(s: State, s': State, v: nat)
    requires Formed(s) && SameShape(s, s')
  {
    v < |s.pcs| ==>
      if Claimed(s.ring.pcs[v]) then Claimed(s'.ring.pcs[v]) else s'.ring.pcs[v] == s.ring.pcs[v]
  }

  /** No client moves outside TryEnqueue, and inside it only towards the publication of its claim. */
  ghost predicate Frame(s: State, s': State)
    requires Formed(s)
  {
    && SameShape(s, s') && s'.pcs == s.pcs && s'.requested == s.requested
    && s'.ring.items == s.ring.items && s'.ring.enqueuePos == s.ring.enqueuePos
    && s.ring.dequeuePos <= s'.ring.dequeuePos
    && forall v :: RingPcKept(s, s', v)
  }

  lemma FrameTrans(a: State, b: State, c: State)
    requires Formed(a) && Frame(a, b) && Frame(b, c)
    ensures Frame(a, c)
  {
    forall v: nat ensures RingPcKept(a, c, v) {
      assert RingPcKept(a, b, v) && RingPcKept(b, c, v);
    }
  }

  /** The worker has not failed and cannot exit, because client u is live. */
  ghost predicate Calm(s: State, u: nat) {
    Invariant(s) && !Failing(s.worker) && u < |s.pcs| && Live(s.pcs[u])
  }

  lemma CalmFacts(s: State, u: nat)
    requires Calm(s, u)
    ensures !Quiet(s) && !s.failed
  {
    assert Holds(s, GatePart) && Holds(s, WorkerPart);
    if Quiet(s) { QuietMeansIdle(s, u); }
  }

  lemma WorkerRequestsNothing(s: State, move: Move)
    requires Formed(s) && IsWorkerMove(move)
    ensures Apply(s, move).requested == s.requested
  {
  }

  lemma WorkerFrame(s: State, move: Move)
    requires Invariant(s) && IsWorkerMove(move)
    ensures Invariant(Apply(s, move)) && Frame(s, Apply(s, move))
  {
    var s' := Apply(s, move);
    MoveKeepsInv(s, move);
    assert GrowsIn(s, s', HistoryGrowth) && Holds(s, WorkerPart);
    WorkerMovesNoClient(s, move);
    WorkerClaimsNothing(s, move);
    WorkerRequestsNothing(s, move);
    forall v: nat ensures RingPcKept(s, s', v) {
      if v < |s.pcs| { OthersKeepRingPc(s, move, v); }
    }
  }

  lemma StepToTop(s: State, u: nat)
    requires Calm(s, u) && !AtTop(s.worker)
    ensures var s' := Apply(s, CalmMove(s.worker));
            Calm(s', u) && Frame(s, s') && WorkerRank(s') < WorkerRank(s)
  {
    CalmFacts(s, u);
    assert Holds(s, RingPart) && Holds(s, WorkerPart) && Holds(s, ExitPart);
    WorkerCloser(s);
    WorkerFrame(s, CalmMove(s.worker));
  }

  lemma Then(s: State, first: seq<Move>, s1: State, more: seq<Move>)
    requires Formed(s) && s1 == Continue(s, first)
    ensures Continue(s, first + more) == Continue(s1, more)
  {
    ContinueTwice(s, first, more);
  }

  lemma {:induction false} ToTop(s: State, u: nat) returns (rest: seq<Move>)
    requires Calm(s, u)
    ensures var s' := Continue(s, rest);
            Calm(s', u) && Frame(s, s') && AtTop(s'.worker)
    decreases WorkerRank(s)
  {
    if AtTop(s.worker) {
      rest := [];
    } else {
      var move := CalmMove(s.worker);
      var s1 := Apply(s, move);
      StepToTop(s, u);
      ContinueOnce(s, move);
      var more := ToTop(s1, u);
      Then(s, [move], s1, more);
      rest := [move] + more;
      FrameTrans(s, s1, Continue(s, rest));
    }
  }

  // ----- the head is published and taken -----

  lemma OwnerPublishes(s: State, o: nat)
    requires Formed(s) && Inv(s.ring) && o < |s.pcs| && s.pcs[o].Enqueueing?
    requires s.ring.pcs[o].EnqWrite? || s.ring.pcs[o].EnqStore?
    ensures var s' := Apply(s, Enqueue(o, CALM));
            && SameShape(s, s') && s'.pcs == s.pcs && s'.requested == s.requested && s'.worker == s.worker
            && s'.ring.items == s.ring.items && s'.ring.enqueuePos == s.ring.enqueuePos
            && s'.ring.dequeuePos == s.ring.dequeuePos
            && s'.ring.pcs[o] == (if s.ring.pcs[o].EnqWrite? then EnqStore(s.ring.pcs[o].pos) else EnqAccepted(s.ring.pcs[o].pos))
  {
    AdvanceEnqueues(s.ring, o, CALM.spurious);
  }

  lemma PublishStepFrame(s: State, u: nat, o: nat)
    requires Calm(s, u) && o < |s.pcs| && s.pcs[o].Enqueueing?
    requires s.ring.pcs[o].EnqWrite? || s.ring.pcs[o].EnqStore?
    ensures var s' := Apply(s, Enqueue(o, CALM));
            && Calm(s', u) && Frame(s, s') && s'.worker == s.worker && s'.ring.dequeuePos == s.ring.dequeuePos
            && s'.ring.pcs[o] == (if s.ring.pcs[o].EnqWrite? then EnqStore(s.ring.pcs[o].pos) else EnqAccepted(s.ring.pcs[o].pos))
  {
    var s' := Apply(s, Enqueue(o, CALM));
    MoveKeepsInv(s, Enqueue(o, CALM));
    assert Holds(s, RingPart);
    OwnerPublishes(s, o);
    forall v: nat ensures RingPcKept(s, s', v) {
      if v < |s.pcs| && v != o { OthersKeepRingPc(s, Enqueue(o, CALM), v); }
    }
  }

  /** The head is published. */
  ghost predicate HeadPublished(s: State)
    requires Formed(s)
  {
    s.ring.dequeuePos < s.ring.enqueuePos && s.ring.dequeuePos < |s.ring.owners| && !Unpublished(s.ring, s.ring.dequeuePos)
  }

  lemma HeadOwner(s: State)
    requires Invariant(s) && s.ring.dequeuePos < s.ring.enqueuePos
    ensures s.ring.dequeuePos < |s.ring.owners|
    ensures Unpublished(s.ring, s.ring.dequeuePos) ==>
              var o := s.ring.owners[s.ring.dequeuePos];
              o < |s.pcs| && s.pcs[o].Enqueueing? && s.ring.pcs[o].pos == s.ring.dequeuePos
              && (s.ring.pcs[o].EnqWrite? || s.ring.pcs[o].EnqStore?)
  {
    ItemAt(s, s.ring.dequeuePos);
    OwnClient(s, s.ring.owners[s.ring.dequeuePos]);
  }

  lemma {:induction false} PublishHead(s: State, u: nat) returns (rest: seq<Move>)
    requires Calm(s, u) && s.ring.dequeuePos < s.ring.enqueuePos
    ensures var s' := Continue(s, rest);
            Calm(s', u) && Frame(s, s') && s'.worker == s.worker && s'.ring.dequeuePos == s.ring.dequeuePos && HeadPublished(s')
    decreases if s.ring.dequeuePos < |s.ring.owners| && Unpublished(s.ring, s.ring.dequeuePos)
              then (if s.ring.pcs[s.ring.owners[s.ring.dequeuePos]].EnqWrite? then 2 else 1) else 0
  {
    HeadOwner(s);
    if Unpublished(s.ring, s.ring.dequeuePos) {
      var o := s.ring.owners[s.ring.dequeuePos];
      var move := Enqueue(o, CALM);
      var s1 := Apply(s, move);
      PublishStepFrame(s, u, o);
      OwnersStay(s, move, s.ring.dequeuePos);
      ContinueOnce(s, move);
      var more := PublishHead(s1, u);
      Then(s, [move], s1, more);
      rest := [move] + more;
      FrameTrans(s, s1, Continue(s, rest));
    } else {
      rest := [];
    }
  }

  lemma OwnersStay(s: State, move: Move, p: nat)
    requires Invariant(s) && p < |s.ring.owners| && p < |s.ring.items|
    ensures p < |Apply(s, move).ring.owners| && Apply(s, move).ring.owners[p] == s.ring.owners[p]
  {
    MoveKeepsInv(s, move);
    assert GrowsIn(s, Apply(s, move), CallGrowth) && GrowsIn(s, Apply(s, move), HistoryGrowth);
    ItemAt(s, p);
    ItemAt(Apply(s, move), p);
  }

  /** The worker is inside the TryDequeue of its draining loop and has not swapped the cursor yet. */
  ghost predicate Taking(s: State)
    requires Formed(s)
  {
    var inRing := s.ring.pcs[WorkerId(s)];
    s.worker.Dequeuing? && s.worker.site.Draining? && (inRing.DeqLoad? || inRing.DeqSequence? || inRing.DeqCas?)
  }

  lemma TakingGoesOn(s: State)
    requires Formed(s) && Inv(s.ring) && WorkerCoupled(s) && Taking(s) && HeadPublished(s)
    ensures var s' := DequeueStep(s, CALM);
            || s'.ring.dequeuePos == s.ring.dequeuePos + 1
            || (s'.ring.dequeuePos == s.ring.dequeuePos && Taking(s') && WorkerRank(s') < WorkerRank(s))
  {
    var w := WorkerId(s);
    assert PcOkAt(s.ring, w) && CellOkAt(s.ring, s.ring.dequeuePos);
    if s.ring.pcs[w].DeqSequence? { RingTheorems.EmptyIsHonest(s.ring, w, CALM.spurious); }
    AdvanceDequeues(s.ring, w, CALM.spurious);
  }

  lemma StaysPublished(s: State, move: Move)
    requires Invariant(s) && IsWorkerMove(move) && HeadPublished(s)
    requires Frame(s, Apply(s, move)) && Apply(s, move).ring.dequeuePos == s.ring.dequeuePos
    ensures HeadPublished(Apply(s, move))
  {
    ItemAt(s, s.ring.dequeuePos);
    OwnersStay(s, move, s.ring.dequeuePos);
    OthersKeepRingPc(s, move, s.ring.owners[s.ring.dequeuePos]);
  }

  lemma TakingGoesOnInv(s: State)
    requires Invariant(s) && Taking(s) && HeadPublished(s)
    ensures var s' := Apply(s, Dequeue(CALM));
            && !Failing(s'.worker)
            && (|| s'.ring.dequeuePos == s.ring.dequeuePos + 1
                || (s'.ring.dequeuePos == s.ring.dequeuePos && Taking(s') && WorkerRank(s') < WorkerRank(s)))
  {
    assert Holds(s, RingPart) && Holds(s, WorkerPart);
    TakingGoesOn(s);
    NoFailureInside(s);
  }

  lemma TakeStep(s: State, u: nat)
    requires Calm(s, u) && Taking(s) && HeadPublished(s)
    ensures var s' := Apply(s, Dequeue(CALM));
            && Calm(s', u) && Frame(s, s')
            && (|| s.ring.dequeuePos < s'.ring.dequeuePos
                || (Taking(s') && HeadPublished(s') && s'.ring.dequeuePos == s.ring.dequeuePos
                    && WorkerRank(s') < WorkerRank(s)))
  {
    WorkerFrame(s, Dequeue(CALM));
    TakingGoesOnInv(s);
    if Apply(s, Dequeue(CALM)).ring.dequeuePos == s.ring.dequeuePos { StaysPublished(s, Dequeue(CALM)); }
  }

  lemma NoFailureInside(s: State)
    requires Formed(s) && s.worker.Dequeuing?
    ensures !Failing(DequeueStep(s, CALM).worker)
  {
  }

  lemma {:induction false} TakeInside(s: State, u: nat) returns (rest: seq<Move>)
    requires Calm(s, u) && Taking(s) && HeadPublished(s)
    ensures var s' := Continue(s, rest);
            Calm(s', u) && Frame(s, s') && s.ring.dequeuePos < s'.ring.dequeuePos
    decreases WorkerRank(s)
  {
    var s1 := Apply(s, Dequeue(CALM));
    TakeStep(s, u);
    ContinueOnce(s, Dequeue(CALM));
    rest := [Dequeue(CALM)];
    if s1.ring.dequeuePos == s.ring.dequeuePos {
      var more := TakeInside(s1, u);
      Then(s, [Dequeue(CALM)], s1, more);
      rest := [Dequeue(CALM)] + more;
      FrameTrans(s, s1, Continue(s, rest));
    }
  }

  lemma TakeHead(s: State, u: nat) returns (rest: seq<Move>)
    requires Calm(s, u) && AtTop(s.worker) && HeadPublished(s)
    ensures var s' := Continue(s, rest);
            Calm(s', u) && Frame(s, s') && s.ring.dequeuePos < s'.ring.dequeuePos
  {
    var s1 := Apply(s, BeginDequeue);
    WorkerFrame(s, BeginDequeue);
    StaysPublished(s, BeginDequeue);
    ContinueOnce(s, BeginDequeue);
    var more := TakeInside(s1, u);
    Then(s, [BeginDequeue], s1, more);
    rest := [BeginDequeue] + more;
    FrameTrans(s, s1, Continue(s, rest));
  }

  /** The ring can be emptied. */
  lemma {:induction false} Drain(s: State, u: nat) returns (rest: seq<Move>)
    requires Calm(s, u)
    ensures var s' := Continue(s, rest);
            Calm(s', u) && Frame(s, s') && AtTop(s'.worker) && s'.ring.dequeuePos == s'.ring.enqueuePos
    decreases s.ring.enqueuePos - s.ring.dequeuePos
  {
    rest := ToTop(s, u);
    var s1 := Continue(s, rest);
    if s1.ring.dequeuePos < s1.ring.enqueuePos {
      var publish := PublishHead(s1, u);
      var s2 := Continue(s1, publish);
      var take := TakeHead(s2, u);
      var s3 := Continue(s2, take);
      FrameTrans(s, s1, s2);
      FrameTrans(s, s2, s3);
      var more := Drain(s3, u);
      FrameTrans(s, s3, Continue(s3, more));
      Then(s2, take, s3, more);
      Then(s1, publish, s2, take + more);
      Then(s, rest, s1, publish + (take + more));
      rest := rest + (publish + (take + more));
    }
  }
}
