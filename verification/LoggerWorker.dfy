/** The worker's part of the invariant, and what one step of the worker may change. */
module LoggerWorker {
  import opened Ring
  import opened Logger
  import opened LoggerInvariant

  // ----- the worker's invariant -----

  ghost predicate WorkerCoupled(s: State)
    requires Formed(s)
  {
    if s.worker.Dequeuing? then
      match s.ring.pcs[WorkerId(s)]
      case DeqLoad => true
      case DeqEmpty => true
      case DeqSequence(pos) => pos == s.ring.dequeuePos
      case DeqCas(pos) => pos == s.ring.dequeuePos
      case DeqRead(pos) => pos + 1 == s.ring.dequeuePos
      case DeqStore(pos, _) => pos + 1 == s.ring.dequeuePos
      case DeqTaken(pos, item) => pos + 1 == s.ring.dequeuePos && pos < |s.ring.items| && s.ring.items[pos] == item
      case _ => false
    else s.ring.pcs[WorkerId(s)].Idle?
  }

  /** The item in the worker's hands is the one of the last position it took. */
  ghost predicate LastTaken(s: State, item: Item) {
    0 < s.ring.dequeuePos <= |s.ring.items| && s.ring.items[s.ring.dequeuePos - 1] == item
  }

  ghost predicate WorkerLocal(s: State) {
    match s.worker
    case SinkItem(item, _) => !s.failed && LastTaken(s, item)
    case StoreTicket(item, _) => !s.failed && LastTaken(s, item) && item.FlushItem? && Durable(s, item.ticket)
    case FlushRequired(site) => !s.failed && !site.LastDrain?
    case TestActive(_) => !s.failed && Closed(s.word)
    case FailCas(_, word) => !s.failed && !Closed(word)
    case FailSet(_) => !s.failed && Closed(s.word)
    case FailRequest(_) => s.failed && Closed(s.word)
    case FailComplete(_, ticket) => s.failed && Closed(s.word) && ticket <= s.requested
    case FailNotify(_) => s.failed && Closed(s.word)
    case Failed(_) => s.failed && Closed(s.word)
    case _ => !s.failed
  }

  /** Until the worker fails, the complete ticket stands for a finished sink flush. */
  ghost predicate CompletedOk(s: State) {
    s.completed <= s.requested && (s.failed || s.completed == 0 || Durable(s, s.completed))
  }

  ghost predicate WorkerOk(s: State)
    requires Formed(s)
  {
    WorkerCoupled(s) && WorkerLocal(s) && CompletedOk(s)
  }

  lemma ClientKeepsWorker(s: State, s': State, t: nat)
    requires Formed(s) && t < |s.pcs| && ClientEffect(s, s', t) && WorkerOk(s)
    requires Closed(s.word) ==> Closed(s'.word)
    ensures WorkerOk(s')
  {
  }

  // ----- what one step inside TryDequeue does, without looking at the cells -----

  predicate InDequeue(pc: Pc<Item>) {
    pc.DeqLoad? || pc.DeqSequence? || pc.DeqCas? || pc.DeqRead? || pc.DeqStore?
  }

  ghost predicate DequeueEffect(r: Ring<Item>, r': Ring<Item>, t: nat)
    requires Counted(r) && t < |r.pcs|
  {
    var pc, pc' := r.pcs[t], if t < |r'.pcs| then r'.pcs[t] else Idle;
    && r'.pcs == r.pcs[t := pc'] && r'.capacity == r.capacity
    && r'.enqueuePos == r.enqueuePos && r'.items == r.items && r'.owners == r.owners
    && if pc.DeqCas? && pc'.DeqRead? then
         pc' == DeqRead(r.dequeuePos) && r'.dequeuePos == r.dequeuePos + 1
       else
         && r'.dequeuePos == r.dequeuePos
         && match pc
            case DeqLoad => pc' == DeqSequence(r.dequeuePos)
            case DeqSequence(pos) => pc' == DeqCas(pos) || pc' == DeqEmpty || pc' == DeqLoad
            case DeqCas(pos) => pc' == DeqSequence(r.dequeuePos)
            case DeqRead(pos) => pos < |r.items| && pc' == DeqStore(pos, r.items[pos])
            case DeqStore(pos, item) => pos < |r.items| && item == r.items[pos] && pc' == DeqTaken(pos, item)
            case _ => pc' == pc
  }

  lemma AdvanceDequeues(r: Ring<Item>, t: nat, spurious: bool)
    requires Counted(r) && t < |r.pcs| && InDequeue(r.pcs[t]) && PcOk(r, t)
    ensures DequeueEffect(r, Advance(r, t, spurious), t)
  {
  }

  // ----- what a step of the worker does -----

  ghost predicate WorkerEffect(s: State, s': State)
    requires Formed(s)
  {
    && SameShape(s, s')
    && s'.pcs == s.pcs && s'.calls == s.calls
    && s'.ring.pcs == s.ring.pcs[WorkerId(s) := s'.ring.pcs[WorkerId(s)]]
    && s'.ring.enqueuePos == s.ring.enqueuePos && s'.ring.items == s.ring.items && s'.ring.owners == s.ring.owners
    && s.ring.dequeuePos <= s'.ring.dequeuePos
    && s'.requested == s.requested && s'.ticketClaims == s.ticketClaims
    && s'.enqueued == s.enqueued && s'.dropped == s.dropped && s'.passed == s.passed && s'.undone == s.undone
    && s'.acknowledged == s.acknowledged && s'.accepted == s.accepted && s'.notifier == s.notifier
    && s.events <= s'.events && s.flushedPos <= s'.flushedPos && s.wake <= s'.wake
    && (s.failed ==> s'.failed)
    && (s'.word == s.word || (!Closed(s.word) && s'.word == s.word + GATE))
    && (Bound(s').Some? ==> Bound(s') == Bound(s) || s.requested <= Bound(s').value)
  }

  lemma WorkerRely(s: State, s': State, u: nat)
    requires Formed(s) && WorkerEffect(s, s') && u < |s.pcs| && |s.ticketClaims| == s.requested
    requires |s.ring.items| == |s.ring.owners|
    ensures Rely(s, s', u)
  {
  }

  lemma ClientRely(s: State, s': State, t: nat, u: nat)
    requires Formed(s) && t < |s.pcs| && u < |s.pcs| && u != t && ClientEffect(s, s', t)
    requires |s.ring.items| == |s.ring.owners|
    ensures Rely(s, s', u)
  {
  }

  lemma DequeueInside(s: State, s': State, ring: Ring<Item>, look: Look)
    requires Formed(s) && Counted(s.ring) && s.worker.Dequeuing? && InDequeue(s.ring.pcs[WorkerId(s)])
    requires Shaped(ring) && DequeueEffect(s.ring, ring, WorkerId(s))
    requires s' == s.(ring := ring, look := look)
    requires WorkerOk(s)
    ensures WorkerEffect(s, s') && WorkerOk(s')
  {
  }

  lemma DequeueReturn(s: State, c: Choice)
    requires Formed(s) && Counted(s.ring) && WorkerOk(s)
    requires !(s.worker.Dequeuing? && InDequeue(s.ring.pcs[WorkerId(s)]))
    ensures WorkerEffect(s, DequeueStep(s, c)) && WorkerOk(DequeueStep(s, c))
  {
  }

  lemma BeginDequeueWorker(s: State)
    requires Formed(s) && Counted(s.ring) && WorkerOk(s)
    ensures WorkerEffect(s, BeginDequeueStep(s)) && WorkerOk(BeginDequeueStep(s))
  {
  }

  lemma SinkWorker(s: State, c: Choice)
    requires Formed(s) && Counted(s.ring) && WorkerOk(s) && |s.ticketClaims| == s.requested
    requires s.worker.SinkItem? ==> s.flushedPos < s.ring.dequeuePos
    requires s.worker.SinkItem? && s.worker.item.FlushItem? ==>
               1 <= s.worker.item.ticket <= |s.ticketClaims| && s.ticketClaims[s.worker.item.ticket - 1] < s.ring.dequeuePos
    requires s.worker.SinkItem?
    ensures WorkerEffect(s, HandleStep(s, c)) && WorkerOk(HandleStep(s, c))
  {
  }

  lemma StoreWorker(s: State, c: Choice)
    requires Formed(s) && Counted(s.ring) && WorkerOk(s) && |s.ticketClaims| == s.requested
    requires s.worker.SinkItem? ==> s.flushedPos < s.ring.dequeuePos
    requires s.worker.SinkItem? && s.worker.item.FlushItem? ==>
               1 <= s.worker.item.ticket <= |s.ticketClaims| && s.ticketClaims[s.worker.item.ticket - 1] < s.ring.dequeuePos
    requires s.worker.StoreTicket?
    ensures WorkerEffect(s, HandleStep(s, c)) && WorkerOk(HandleStep(s, c))
  {
  }

  lemma HandleWorker(s: State, c: Choice)
    requires Formed(s) && Counted(s.ring) && WorkerOk(s) && |s.ticketClaims| == s.requested
    requires s.worker.SinkItem? ==> s.flushedPos < s.ring.dequeuePos
    requires s.worker.SinkItem? && s.worker.item.FlushItem? ==>
               1 <= s.worker.item.ticket <= |s.ticketClaims| && s.ticketClaims[s.worker.item.ticket - 1] < s.ring.dequeuePos
    ensures WorkerEffect(s, HandleStep(s, c)) && WorkerOk(HandleStep(s, c))
  {
    if s.worker.SinkItem? { SinkWorker(s, c); }
    else if s.worker.StoreTicket? { StoreWorker(s, c); }
  }

  lemma DueEffect(s: State, c: Choice)
    requires Formed(s) && s.flushedPos <= s.ring.dequeuePos
    requires s.worker.FlushIfDue?
    ensures WorkerEffect(s, TurnStep(s, c))
  {
  }

  lemma LastFlushEffect(s: State, c: Choice)
    requires Formed(s) && s.flushedPos <= s.ring.dequeuePos
    requires s.worker.FinalFlush?
    ensures WorkerEffect(s, TurnStep(s, c))
  {
  }

  lemma TurnEffect(s: State, c: Choice)
    requires Formed(s) && s.flushedPos <= s.ring.dequeuePos
    ensures WorkerEffect(s, TurnStep(s, c))
  {
    if s.worker.FlushIfDue? { DueEffect(s, c); }
    else if s.worker.FinalFlush? { LastFlushEffect(s, c); }
  }

  lemma DueWorker(s: State, c: Choice)
    requires Formed(s) && WorkerOk(s) && s.flushedPos <= s.ring.dequeuePos
    requires s.worker.FlushIfDue?
    ensures WorkerOk(TurnStep(s, c))
  {
  }

  lemma TurnWorker(s: State, c: Choice)
    requires Formed(s) && WorkerOk(s) && s.flushedPos <= s.ring.dequeuePos
    ensures WorkerOk(TurnStep(s, c))
  {
    if s.worker.FlushIfDue? { DueWorker(s, c); }
  }

  lemma ExitTestWorker(s: State)
    requires Formed(s) && WorkerOk(s)
    ensures WorkerEffect(s, ExitTestStep(s)) && WorkerOk(ExitTestStep(s))
  {
  }

  lemma WaitGateWorker(s: State, c: Choice)
    requires Formed(s) && WorkerOk(s)
    requires s.worker.WaitGate? || s.worker.WaitActive?
    ensures WorkerEffect(s, WaitStep(s, c)) && WorkerOk(WaitStep(s, c))
  {
  }

  lemma WaitWorker(s: State, c: Choice)
    requires Formed(s) && WorkerOk(s)
    ensures WorkerEffect(s, WaitStep(s, c)) && WorkerOk(WaitStep(s, c))
  {
    if s.worker.WaitGate? || s.worker.WaitActive? { WaitGateWorker(s, c); }
  }

  lemma FailEffect(s: State, c: Choice)
    requires Formed(s) && WorkerLocal(s)
    ensures WorkerEffect(s, FailStep(s, c))
  {
  }

  lemma FailWorker(s: State, c: Choice)
    requires Formed(s) && WorkerOk(s) && s.word < WORD
    ensures WorkerOk(FailStep(s, c))
  {
  }
}
