/** Which moves claim a position of the ring. */
module LoggerClaims {
  import opened Ring
  import opened Logger
  import opened LoggerInvariant
  import opened LoggerQueueSteps
  import opened LoggerWorker
  import opened LoggerFrames
  import opened LoggerRuns

  lemma WorkerClaimsNothing(s: State, move: Move)
    requires Formed(s) && WorkerCoupled(s) && IsWorkerMove(move)
    ensures Apply(s, move).ring.items == s.ring.items
  {
    if move.Dequeue? && s.worker.Dequeuing? && InDequeue(s.ring.pcs[WorkerId(s)]) {
      TakingClaimsNothing(s, move.c);
    }
  }

  lemma TakingClaimsNothing(s: State, c: Choice)
    requires Formed(s) && s.worker.Dequeuing? && InDequeue(s.ring.pcs[WorkerId(s)])
    ensures DequeueStep(s, c).ring.items == s.ring.items
  {
  }

  lemma OnlyEnqueueClaims(s: State, move: Move)
    requires Formed(s) && !IsWorkerMove(move) && !move.Enqueue?
    ensures Apply(s, move).ring.items == s.ring.items
  {
    if move.t < |s.pcs| {
      match move
      case Entry(t, c) => EntryClaimsNothing(s, t, c);
      case Check(t, c) => CheckClaimsNothing(s, t, c);
      case Publish(t) => PublishClaimsNothing(s, t);
      case _ =>
    }
  }

  lemma EntryClaimsNothing(s: State, t: nat, c: Choice)
    requires Formed(s) && t < |s.pcs|
    ensures EntryStep(s, t, c).ring.items == s.ring.items
  {
  }

  lemma CheckClaimsNothing(s: State, t: nat, c: Choice)
    requires Formed(s) && t < |s.pcs|
    ensures CheckStep(s, t, c).ring.items == s.ring.items
  {
  }

  lemma PublishClaimsNothing(s: State, t: nat)
    requires Formed(s) && t < |s.pcs|
    ensures PublishStep(s, t).ring.items == s.ring.items
  {
  }

  lemma EnqueueClaims(s: State, t: nat, c: Choice)
    requires Formed(s) && Counted(s.ring) && t < |s.pcs| && Coupled(s, t)
    ensures var items := EnqueueStep(s, t, c).ring.items;
            || items == s.ring.items
            || (&& s.pcs[t].Enqueueing? && Unclaimed(s.ring.pcs[t])
                && items == s.ring.items + [s.pcs[t].item])
  {
    if s.pcs[t].Enqueueing? && InEnqueue(s.ring.pcs[t]) { AdvanceEnqueues(s.ring, t, c.spurious); }
  }

  lemma WhoClaims(s: State, move: Move)
    requires Invariant(s)
    ensures var items := Apply(s, move).ring.items;
            || items == s.ring.items
            || (&& move.Enqueue? && move.t < |s.pcs|
                && s.pcs[move.t].Enqueueing? && Unclaimed(s.ring.pcs[move.t])
                && items == s.ring.items + [s.pcs[move.t].item])
  {
    if IsWorkerMove(move) {
      assert Holds(s, WorkerPart);
      WorkerClaimsNothing(s, move);
    } else if move.Enqueue? {
      if move.t < |s.pcs| {
        OwnClient(s, move.t);
        EnqueueClaims(s, move.t, move.c);
      }
    } else {
      OnlyEnqueueClaims(s, move);
    }
  }

  // ----- and which leave the worker's work alone -----

  ghost predicate SameTaken(s: State, s': State) {
    s'.worker == s.worker && s'.ring.dequeuePos == s.ring.dequeuePos && |s'.pcs| == |s.pcs|
  }

  lemma EntryTakesNothing(s: State, t: nat, c: Choice)
    requires Formed(s) && t < |s.pcs|
    ensures SameTaken(s, EntryStep(s, t, c))
  {
  }

  lemma CheckTakesNothing(s: State, t: nat, c: Choice)
    requires Formed(s) && t < |s.pcs|
    ensures SameTaken(s, CheckStep(s, t, c))
  {
  }

  lemma PublishTakesNothing(s: State, t: nat)
    requires Formed(s) && t < |s.pcs|
    ensures SameTaken(s, PublishStep(s, t))
  {
  }

  lemma EnqueueTakesNothing(s: State, t: nat, c: Choice)
    requires Formed(s) && Counted(s.ring) && t < |s.pcs| && Coupled(s, t)
    ensures SameTaken(s, EnqueueStep(s, t, c))
  {
    if s.pcs[t].Enqueueing? && InEnqueue(s.ring.pcs[t]) { AdvanceEnqueues(s.ring, t, c.spurious); }
  }

  lemma ClientTakesNothing(s: State, move: Move)
    requires Invariant(s) && !IsWorkerMove(move)
    ensures SameTaken(s, Apply(s, move))
  {
    if move.t < |s.pcs| {
      OwnClient(s, move.t);
      match move
      case Entry(t, c) => EntryTakesNothing(s, t, c);
      case Check(t, c) => CheckTakesNothing(s, t, c);
      case Publish(t) => PublishTakesNothing(s, t);
      case Enqueue(t, c) => EnqueueTakesNothing(s, t, c);
      case _ => OtherPhasesTakeNothing(s, move);
    }
  }

  lemma OtherPhasesTakeNothing(s: State, move: Move)
    requires Formed(s) && !IsWorkerMove(move) && move.t < |s.pcs|
    requires !move.Entry? && !move.Check? && !move.Publish? && !move.Enqueue?
    ensures SameTaken(s, Apply(s, move))
  {
  }
}
