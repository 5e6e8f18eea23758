/** The wake signal: no sleeping on announced work. */
module LoggerWake {
  import opened Options
  import opened Ring
  import opened Logger
  import opened LoggerInvariant
  import opened LoggerQueueSteps
  import opened LoggerWorker
  import opened LoggerShared

  /** The position a client has claimed and not yet announced through the wake signal. */
  function Unannounced(pc: ClientPc, inRing: Pc<Item>): Option<nat> {
    match pc
    case Enqueueing(_) =>
      (match inRing
       case EnqWrite(_, pos) => Some(pos)
       case EnqStore(pos) => Some(pos)
       case EnqAccepted(pos) => Some(pos)
       case _ => None)
    case Notify(_, pos) => Some(pos)
    case _ => None
  }

  /** Nothing is waiting in the ring, or the owner of its head has yet to raise the wake signal. */
  ghost predicate HeadUnannounced(s: State)
    requires Formed(s)
  {
    s.ring.dequeuePos < s.ring.enqueuePos ==>
      && s.ring.dequeuePos < |s.ring.owners|
      && var o := s.ring.owners[s.ring.dequeuePos];
         o < |s.pcs| && Unannounced(s.pcs[o], s.ring.pcs[o]) == Some(s.ring.dequeuePos)
  }

  /** The client that closed the gate, or finished last after that, has yet to raise the signal. */
  ghost predicate StopUnannounced(s: State) {
    Quiet(s) ==> s.notifier < |s.pcs| && (s.pcs[s.notifier].StopNotify? || s.pcs[s.notifier].FinishNotify?)
  }

  function SampledSignal(pc: WorkerPc): Option<nat> {
    match pc
    case CallDequeue(Recheck(signal)) => Some(signal)
    case Dequeuing(Recheck(signal)) => Some(signal)
    case WaitSignal(signal) => Some(signal)
    case WaitFailure(signal) => Some(signal)
    case WaitGate(signal) => Some(signal)
    case WaitActive(signal) => Some(signal)
    case Asleep(signal) => Some(signal)
    case _ => None
  }

  predicate Waiting(pc: WorkerPc) {
    pc.WaitSignal? || pc.WaitFailure? || pc.WaitGate? || pc.WaitActive? || pc.Asleep?
  }

  ghost predicate WakeOk(s: State)
    requires Formed(s)
  {
    && (SampledSignal(s.worker).Some? ==> SampledSignal(s.worker).value <= s.wake)
    && (SampledSignal(s.worker) == Some(s.wake) && Waiting(s.worker) ==> HeadUnannounced(s))
    && (SampledSignal(s.worker) == Some(s.wake) && s.worker.Dequeuing? && s.ring.pcs[WorkerId(s)].DeqEmpty? ==>
          HeadUnannounced(s))
    && (s.worker == Asleep(s.wake) ==> StopUnannounced(s))
  }

  /** A client step keeps an unannounced position unannounced, or raises the signal. */
  ghost predicate Announces(s: State, s': State, t: nat)
    requires Formed(s) && Formed(s') && t < |s.pcs| == |s'.pcs|
  {
    var before, after := Unannounced(s.pcs[t], s.ring.pcs[t]), Unannounced(s'.pcs[t], s'.ring.pcs[t]);
    && (before.Some? ==> after == before || s'.wake > s.wake)
    && (s'.ring.enqueuePos > s.ring.enqueuePos ==> after == Some(s.ring.enqueuePos))
    && (s'.wake > s.wake || (StopUnannounced(s) ==> StopUnannounced(s')))
  }

  lemma WakeClient(s: State, s': State, t: nat)
    requires Formed(s) && Counted(s.ring) && t < |s.pcs| && ClientEffect(s, s', t) && Announces(s, s', t) && WakeOk(s)
    ensures WakeOk(s')
  {
  }

  lemma EntryAnnounces(s: State, t: nat, c: Choice)
    requires Formed(s) && t < |s.pcs| && LocalOk(s, t) && (s.pcs[t].StartCas? ==> Active(s.word) + 1 < GATE)
    ensures Announces(s, EntryStep(s, t, c), t)
  {
  }

  lemma CheckAnnounces(s: State, t: nat, c: Choice)
    requires Formed(s) && t < |s.pcs|
    ensures Announces(s, CheckStep(s, t, c), t)
  {
  }

  lemma PublishAnnounces(s: State, t: nat)
    requires Formed(s) && t < |s.pcs|
    ensures Announces(s, PublishStep(s, t), t)
  {
  }

  lemma UndoAnnounces(s: State, t: nat)
    requires Formed(s) && t < |s.pcs|
    ensures Announces(s, UndoStep(s, t), t)
  {
  }

  lemma EnqueueInsideAnnounces(s: State, s': State, t: nat, ring: Ring<Item>)
    requires Formed(s) && Counted(s.ring) && t < |s.pcs| && s.pcs[t].Enqueueing? && InEnqueue(s.ring.pcs[t])
    requires Shaped(ring) && EnqueueEffect(s.ring, ring, t)
    requires s' == s.(ring := ring)
    ensures Formed(s') && Announces(s, s', t)
  {
  }

  lemma EnqueueReturnAnnounces(s: State, t: nat, c: Choice)
    requires Formed(s) && t < |s.pcs|
    requires !(s.pcs[t].Enqueueing? && InEnqueue(s.ring.pcs[t]))
    ensures Announces(s, EnqueueStep(s, t, c), t)
  {
    if s.pcs[t].Enqueueing? { EnqueueReturns(s, t, c); }
  }

  lemma AcceptReturns(s: State, t: nat, c: Choice)
    requires Formed(s) && t < |s.pcs| && s.pcs[t].Enqueueing? && !InEnqueue(s.ring.pcs[t])
    requires s.ring.pcs[t].EnqAccepted?
    ensures var s' := EnqueueStep(s, t, c);
            && Unannounced(s'.pcs[t], s'.ring.pcs[t]) == Unannounced(s.pcs[t], s.ring.pcs[t])
            && s'.ring.enqueuePos == s.ring.enqueuePos && s'.word == s.word && s'.notifier == s.notifier
            && (s.notifier < |s.pcs| ==> s'.pcs[s.notifier] == s.pcs[s.notifier] || s.notifier == t)
  {
  }

  lemma RefusedReturns(s: State, t: nat, c: Choice)
    requires Formed(s) && t < |s.pcs| && s.pcs[t].Enqueueing? && !InEnqueue(s.ring.pcs[t])
    requires s.ring.pcs[t].EnqRefused?
    ensures var s' := EnqueueStep(s, t, c);
            && Unannounced(s'.pcs[t], s'.ring.pcs[t]) == Unannounced(s.pcs[t], s.ring.pcs[t])
            && s'.ring.enqueuePos == s.ring.enqueuePos && s'.word == s.word && s'.notifier == s.notifier
            && (s.notifier < |s.pcs| ==> s'.pcs[s.notifier] == s.pcs[s.notifier] || s.notifier == t)
  {
    if s.ring.pcs[t].EnqAccepted? { AcceptReturns(s, t, c); }
  }

  lemma EnqueueReturns(s: State, t: nat, c: Choice)
    requires Formed(s) && t < |s.pcs| && s.pcs[t].Enqueueing? && !InEnqueue(s.ring.pcs[t])
    ensures var s' := EnqueueStep(s, t, c);
            && Unannounced(s'.pcs[t], s'.ring.pcs[t]) == Unannounced(s.pcs[t], s.ring.pcs[t])
            && s'.ring.enqueuePos == s.ring.enqueuePos && s'.word == s.word && s'.notifier == s.notifier
            && (s.notifier < |s.pcs| ==> s'.pcs[s.notifier] == s.pcs[s.notifier] || s.notifier == t)
  {
    if s.ring.pcs[t].EnqRefused? { RefusedReturns(s, t, c); }
    else {
      if s.ring.pcs[t].EnqAccepted? { AcceptReturns(s, t, c); }
    }
  }

  lemma AwaitAnnounces(s: State, t: nat)
    requires Formed(s) && t < |s.pcs|
    ensures Announces(s, AwaitStep(s, t), t)
  {
  }

  lemma FinishAnnounces(s: State, t: nat)
    requires Formed(s) && t < |s.pcs| && s.word < WORD && (s.pcs[t].Finish? ==> Active(s.word) > 0)
    ensures Announces(s, FinishStep(s, t), t)
  {
  }

  lemma StopAnnounces(s: State, t: nat, c: Choice)
    requires Formed(s) && t < |s.pcs| && LocalOk(s, t)
    ensures Announces(s, StopStep(s, t, c), t)
  {
  }

  // ----- the worker -----

  /** A client owns the head when it has been claimed and not published. */
  lemma EmptyLeavesHeadUnannounced(s: State)
    requires Formed(s) && Counted(s.ring) && (forall u :: ClientOk(s, u))
    requires s.ring.dequeuePos == s.ring.enqueuePos || Unpublished(s.ring, s.ring.dequeuePos)
    requires s.worker.Dequeuing? && WorkerCoupled(s)
    ensures HeadUnannounced(s)
  {
    if s.ring.dequeuePos < s.ring.enqueuePos {
      var o := s.ring.owners[s.ring.dequeuePos];
      assert ClientOk(s, o);
    }
  }

  lemma WaitWake(s: State, c: Choice)
    requires Formed(s) && WakeOk(s) && s.word < WORD
    ensures WakeOk(WaitStep(s, c))
  {
  }

  lemma ExitTestWake(s: State)
    requires Formed(s) && WakeOk(s)
    ensures WakeOk(ExitTestStep(s))
  {
  }

  lemma TurnWake(s: State, c: Choice)
    requires Formed(s)
    requires s.worker.FlushRequired? || s.worker.FlushIfDue? || s.worker.FinalFlush?
    ensures WakeOk(TurnStep(s, c))
  {
  }

  lemma SinkWake(s: State, c: Choice)
    requires Formed(s) && WakeOk(s)
    requires s.worker.SinkItem?
    ensures WakeOk(HandleStep(s, c))
  {
  }

  lemma StoreWake(s: State, c: Choice)
    requires Formed(s) && WakeOk(s)
    requires s.worker.StoreTicket?
    ensures WakeOk(HandleStep(s, c))
  {
  }

  lemma HandleWake(s: State, c: Choice)
    requires Formed(s) && WakeOk(s)
    ensures WakeOk(HandleStep(s, c))
  {
    if s.worker.SinkItem? { SinkWake(s, c); }
    else if s.worker.StoreTicket? { StoreWake(s, c); }
  }

  lemma FailWake(s: State, c: Choice)
    requires Formed(s) && WakeOk(s)
    ensures WakeOk(FailStep(s, c))
  {
  }

  lemma BeginDequeueWake(s: State)
    requires Formed(s) && WakeOk(s)
    ensures WakeOk(BeginDequeueStep(s))
  {
  }

  lemma TakenWake(s: State, c: Choice)
    requires Formed(s) && WakeOk(s) && WorkerCoupled(s)
    requires !(s.worker.Dequeuing? && InDequeue(s.ring.pcs[WorkerId(s)]))
    requires s.worker.Dequeuing? && s.ring.pcs[WorkerId(s)].DeqTaken?
    ensures WakeOk(DequeueStep(s, c))
  {
  }

  lemma EmptyWake(s: State, c: Choice)
    requires Formed(s) && WakeOk(s) && WorkerCoupled(s)
    requires !(s.worker.Dequeuing? && InDequeue(s.ring.pcs[WorkerId(s)]))
    requires s.worker.Dequeuing? && s.ring.pcs[WorkerId(s)].DeqEmpty?
    ensures WakeOk(DequeueStep(s, c))
  {
  }

  lemma DequeueReturnWake(s: State, c: Choice)
    requires Formed(s) && WakeOk(s) && WorkerCoupled(s)
    requires !(s.worker.Dequeuing? && InDequeue(s.ring.pcs[WorkerId(s)]))
    ensures WakeOk(DequeueStep(s, c))
  {
    if s.worker.Dequeuing? && s.ring.pcs[WorkerId(s)].DeqTaken? { TakenWake(s, c); }
    else if s.worker.Dequeuing? && s.ring.pcs[WorkerId(s)].DeqEmpty? { EmptyWake(s, c); }
  }

  lemma DequeueInsideWake(s: State, s': State, ring: Ring<Item>, look: Look)
    requires Formed(s) && Counted(s.ring) && s.worker.Dequeuing? && InDequeue(s.ring.pcs[WorkerId(s)]) && WakeOk(s)
    requires Shaped(ring) && DequeueEffect(s.ring, ring, WorkerId(s))
    requires s' == s.(ring := ring, look := look)
    requires ring.pcs[WorkerId(s)].DeqEmpty? ==> HeadUnannounced(s)
    ensures Formed(s') && WakeOk(s')
  {
  }
}
