/** The complete ticket: the ticket of the flush item the worker handled last, which need not be the
    greatest one. */
module LoggerTickets {
  import opened Ring
  import opened Logger
  import opened LoggerInvariant
  import opened LoggerWorker
  import opened LoggerWrites

  /** The ticket of the last flush item, or 0. */
  function LastTicket(items: seq<Item>): nat {
    if items == [] then 0
    else
      match items[|items| - 1]
      case FlushItem(_, _, ticket) => ticket
      case LogItem(_, _) => LastTicket(items[..|items| - 1])
  }

  /** How many positions the worker is done with, the store of the ticket included. */
  ghost function Stored(s: State): nat
    requires Formed(s)
  {
    if InHands(s) || s.worker.StoreTicket? then Before(s.ring.dequeuePos) else s.ring.dequeuePos
  }

  /** A failing worker has overwritten the complete ticket with the request counter. */
  predicate Released(pc: WorkerPc) {
    pc.FailNotify? || pc.Failed?
  }

  ghost predicate TraceOk(s: State)
    requires Formed(s)
  {
    && Stored(s) <= |s.ring.items|
    && (!Released(s.worker) ==> s.completed == LastTicket(s.ring.items[..Stored(s)]))
  }

  ghost predicate Traces(s: State, s': State)
    requires Formed(s)
  {
    Formed(s') && TraceOk(s') && Stored(s) <= Stored(s') && (Released(s.worker) ==> Released(s'.worker))
  }

  lemma TicketSnoc(items: seq<Item>, n: nat)
    requires 0 < n <= |items|
    ensures LastTicket(items[..n]) ==
              if items[n - 1].FlushItem? then items[n - 1].ticket else LastTicket(items[..n - 1])
  {
    assert items[..n][..n - 1] == items[..n - 1];
  }

  lemma TraceClient(s: State, s': State, t: nat)
    requires Formed(s) && Counted(s.ring) && t < |s.pcs| && ClientEffect(s, s', t) && TraceOk(s)
    ensures Traces(s, s')
  {
    assert s'.ring.items[..Stored(s)] == s.ring.items[..Stored(s)];
  }

  /** A worker step that is done with no further position and leaves the complete ticket alone,
      unless it releases everybody. */
  ghost predicate SameTrace(s: State, s': State)
    requires Formed(s)
  {
    && Formed(s') && s'.ring.items == s.ring.items && Stored(s') == Stored(s)
    && (Released(s.worker) ==> Released(s'.worker))
    && (s'.completed == s.completed || Released(s'.worker))
  }

  lemma BeginDequeueTrace(s: State)
    requires Formed(s) && Counted(s.ring) && TraceOk(s)
    ensures Traces(s, BeginDequeueStep(s))
  {
    assert SameTrace(s, BeginDequeueStep(s));
  }

  lemma DequeueInsideTrace(s: State, s': State, ring: Ring<Item>, look: Look)
    requires Formed(s) && Counted(s.ring) && s.worker.Dequeuing? && InDequeue(s.ring.pcs[WorkerId(s)])
    requires Shaped(ring) && DequeueEffect(s.ring, ring, WorkerId(s))
    requires s' == s.(ring := ring, look := look)
    requires TraceOk(s)
    ensures Traces(s, s')
  {
    assert SameTrace(s, s');
  }

  lemma DequeueReturnTrace(s: State, c: Choice)
    requires Formed(s) && WorkerCoupled(s) && TraceOk(s)
    requires !(s.worker.Dequeuing? && InDequeue(s.ring.pcs[WorkerId(s)]))
    ensures Traces(s, DequeueStep(s, c))
  {
    assert SameTrace(s, DequeueStep(s, c));
  }

  lemma HandleTrace(s: State, c: Choice)
    requires Formed(s) && WorkerLocal(s) && TraceOk(s) && s.ring.dequeuePos <= |s.ring.items|
    ensures Traces(s, HandleStep(s, c))
  {
    if s.worker.SinkItem? || s.worker.StoreTicket? {
      TicketSnoc(s.ring.items, s.ring.dequeuePos);
    } else {
      assert SameTrace(s, HandleStep(s, c));
    }
  }

  lemma TurnTrace(s: State, c: Choice)
    requires Formed(s) && TraceOk(s)
    ensures Traces(s, TurnStep(s, c))
  {
    assert SameTrace(s, TurnStep(s, c));
  }

  lemma ExitTestTrace(s: State)
    requires Formed(s) && TraceOk(s)
    ensures Traces(s, ExitTestStep(s))
  {
    assert SameTrace(s, ExitTestStep(s));
  }

  lemma WaitTrace(s: State, c: Choice)
    requires Formed(s) && TraceOk(s)
    ensures Traces(s, WaitStep(s, c))
  {
    assert SameTrace(s, WaitStep(s, c));
  }

  lemma CloseTrace(s: State, c: Choice)
    requires Formed(s) && TraceOk(s)
    requires s.worker.FailCas? || s.worker.FailLoad?
    ensures Traces(s, FailStep(s, c))
  {
    assert SameTrace(s, FailStep(s, c));
  }

  lemma FailTrace(s: State, c: Choice)
    requires Formed(s) && TraceOk(s)
    ensures Traces(s, FailStep(s, c))
  {
    if s.worker.FailCas? || s.worker.FailLoad? { CloseTrace(s, c); }
    else {
      assert SameTrace(s, FailStep(s, c));
    }
  }
}
