/** The exit test of the worker and what it last saw of the ring. */
module LoggerExit {
  import opened Ring
  import opened Logger
  import opened LoggerInvariant
  import opened LoggerWorker
  import opened LoggerShared

  /** The worker has passed its exit test. */
  predicate Exiting(pc: WorkerPc) {
    match pc
    case CallDequeue(site) => site.LastDrain?
    case Dequeuing(site) => site.LastDrain?
    case SinkItem(_, site) => site.LastDrain?
    case StoreTicket(_, site) => site.LastDrain?
    case CountWritten(site) => site.LastDrain?
    case LoadFlushLevel(site) => site.LastDrain?
    case FinalFlush => true
    case Exited => true
    case _ => false
  }

  /** No position has been taken since the latest empty TryDequeue read the sequence number. */
  ghost predicate AfterLook(s: State)
    requires Formed(s)
  {
    match s.worker
    case Dequeuing(_) => s.ring.pcs[WorkerId(s)].DeqEmpty?
    case FlushRequired(site) => site.Draining?
    case FlushIfDue(_) => true
    case TestGate(_) => true
    case TestActive(_) => true
    case FinalFlush => true
    case Exited => true
    case _ => false
  }

  ghost predicate ExitOk(s: State)
    requires Formed(s)
  {
    && (Exiting(s.worker) ==> Quiet(s))
    && (s.look.quiet ==> Quiet(s) && s.ring.dequeuePos == s.ring.enqueuePos)
    && (AfterLook(s) ==> s.look.dequeuePos == s.ring.dequeuePos)
    && s.look.dequeuePos <= s.look.enqueuePos <= s.ring.enqueuePos
    && (s.worker == Dequeuing(LastDrain) && s.ring.pcs[WorkerId(s)].DeqEmpty? ==> s.look.quiet)
    && ((s.worker.FinalFlush? || s.worker.Exited?) && s.cfg.drainAgain ==> s.look.quiet)
  }

  lemma ExitClient(s: State, s': State, t: nat)
    requires Formed(s) && Counted(s.ring) && t < |s.pcs| && ClientEffect(s, s', t) && GateOk(s) && ExitOk(s)
    ensures ExitOk(s')
  {
    GateClient(s, s', t);
  }

  /** When no operation is live, an unpublished head means an empty ring. */
  lemma QuietLook(s: State)
    requires Formed(s) && Counted(s.ring) && GateOk(s) && (forall u :: ClientOk(s, u)) && WorkerCoupled(s)
    requires s.worker.Dequeuing? && Quiet(s)
    requires s.ring.dequeuePos == s.ring.enqueuePos || Unpublished(s.ring, s.ring.dequeuePos)
    ensures s.ring.dequeuePos == s.ring.enqueuePos
  {
    if s.ring.dequeuePos < s.ring.enqueuePos {
      var o := s.ring.owners[s.ring.dequeuePos];
      assert ClientOk(s, o);
      if o < |s.pcs| {
        QuietMeansIdle(s, o);
      }
    }
  }

  lemma DequeueInsideExit(s: State, s': State, ring: Ring<Item>, look: Look)
    requires Formed(s) && Counted(s.ring) && s.worker.Dequeuing? && InDequeue(s.ring.pcs[WorkerId(s)]) && ExitOk(s)
    requires Shaped(ring) && DequeueEffect(s.ring, ring, WorkerId(s)) && Counted(ring)
    requires s' == s.(ring := ring, look := look)
    requires look == if ring.pcs[WorkerId(s)].DeqEmpty? then LookNow(s) else s.look
    requires ring.pcs[WorkerId(s)].DeqEmpty? && Quiet(s) ==> s.ring.dequeuePos == s.ring.enqueuePos
    ensures Formed(s') && ExitOk(s')
  {
  }

  lemma DequeueReturnExit(s: State, c: Choice)
    requires Formed(s) && ExitOk(s) && WorkerCoupled(s)
    requires !(s.worker.Dequeuing? && InDequeue(s.ring.pcs[WorkerId(s)]))
    ensures ExitOk(DequeueStep(s, c))
  {
  }

  lemma BeginDequeueExit(s: State)
    requires Formed(s) && ExitOk(s)
    ensures ExitOk(BeginDequeueStep(s))
  {
  }

  lemma SinkExit(s: State, c: Choice)
    requires Formed(s) && ExitOk(s)
    requires s.worker.SinkItem?
    ensures ExitOk(HandleStep(s, c))
  {
  }

  lemma StoreExit(s: State, c: Choice)
    requires Formed(s) && ExitOk(s)
    requires s.worker.StoreTicket?
    ensures ExitOk(HandleStep(s, c))
  {
  }

  lemma HandleExit(s: State, c: Choice)
    requires Formed(s) && ExitOk(s)
    ensures ExitOk(HandleStep(s, c))
  {
    if s.worker.SinkItem? { SinkExit(s, c); }
    else if s.worker.StoreTicket? { StoreExit(s, c); }
  }

  lemma DueExit(s: State, c: Choice)
    requires Formed(s) && ExitOk(s)
    requires s.worker.FlushIfDue?
    ensures ExitOk(TurnStep(s, c))
  {
  }

  lemma TurnExit(s: State, c: Choice)
    requires Formed(s) && ExitOk(s)
    ensures ExitOk(TurnStep(s, c))
  {
    if s.worker.FlushIfDue? { DueExit(s, c); }
  }

  lemma ExitTestExit(s: State)
    requires Formed(s) && ExitOk(s) && (s.worker.TestActive? ==> Closed(s.word))
    ensures ExitOk(ExitTestStep(s))
  {
  }

  lemma WaitGateExit(s: State, c: Choice)
    requires Formed(s) && ExitOk(s)
    requires s.worker.WaitGate? || s.worker.WaitActive?
    ensures ExitOk(WaitStep(s, c))
  {
  }

  lemma WaitExit(s: State, c: Choice)
    requires Formed(s) && ExitOk(s)
    ensures ExitOk(WaitStep(s, c))
  {
    if s.worker.WaitGate? || s.worker.WaitActive? { WaitGateExit(s, c); }
  }

  lemma FailExit(s: State, c: Choice)
    requires Formed(s) && ExitOk(s) && WorkerLocal(s) && s.word < WORD
    ensures ExitOk(FailStep(s, c))
  {
  }
}
