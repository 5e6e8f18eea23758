/** What reaches the sink, and in which order. */
module LoggerWrites {
  import opened Ring
  import opened Logger
  import opened LoggerInvariant
  import opened LoggerWorker
  import opened LoggerShared

  /** The messages passed to the sink's Write, in order. */
  function Writes(events: seq<Event>): seq<Item> {
    if events == [] then []
    else Writes(events[..|events| - 1])
         + (match events[|events| - 1] case Wrote(item) => [item] case _ => [])
  }

  /** The messages written before the sink was last flushed. */
  function FlushedWrites(events: seq<Event>): seq<Item> {
    if events == [] then []
    else if events[|events| - 1].SinkFlushed? then Writes(events)
    else FlushedWrites(events[..|events| - 1])
  }

  /** The worker has taken a position whose item has not reached the sink, or was lost there. */
  ghost predicate InHands(s: State)
    requires Formed(s)
  {
    match s.worker
    case Dequeuing(_) =>
      var inRing := s.ring.pcs[WorkerId(s)];
      inRing.DeqRead? || inRing.DeqStore? || inRing.DeqTaken?
    case SinkItem(_, _) => true
    case FailLoad(lost) => lost
    case FailCas(lost, _) => lost
    case FailSet(lost) => lost
    case FailRequest(lost) => lost
    case FailComplete(lost, _) => lost
    case FailNotify(lost) => lost
    case Failed(lost) => lost
    case _ => false
  }

  /** How many positions the worker is done with. */
  ghost function Handled(s: State): nat
    requires Formed(s)
  {
    if InHands(s) then Before(s.ring.dequeuePos) else s.ring.dequeuePos
  }

  ghost predicate WritesOk(s: State)
    requires Formed(s)
  {
    && (InHands(s) ==> 0 < s.ring.dequeuePos)
    && s.flushedPos <= Handled(s) <= s.ring.dequeuePos <= |s.ring.items|
    && Writes(s.events) == Logs(s.ring.items[..Handled(s)])
    && FlushedWrites(s.events) == Logs(s.ring.items[..s.flushedPos])
    && s.written + One(s.worker.CountWritten?) == |Writes(s.events)|
    && (s.worker.Exited? ==> s.flushedPos == s.ring.dequeuePos)
  }

  lemma LogsSnoc(items: seq<Item>, n: nat)
    requires 0 < n <= |items|
    ensures Logs(items[..n]) == Logs(items[..n - 1]) + (if items[n - 1].LogItem? then [items[n - 1]] else [])
  {
    assert items[..n][..n - 1] == items[..n - 1];
  }

  lemma EventsSnoc(events: seq<Event>, event: Event)
    ensures Writes(events + [event]) == Writes(events) + (match event case Wrote(item) => [item] case _ => [])
    ensures FlushedWrites(events + [event]) == if event.SinkFlushed? then Writes(events) else FlushedWrites(events)
  {
    assert (events + [event])[..|events|] == events;
  }

  lemma WritesClient(s: State, s': State, t: nat)
    requires Formed(s) && Counted(s.ring) && t < |s.pcs| && ClientEffect(s, s', t) && WritesOk(s)
    ensures WritesOk(s')
  {
    assert s'.ring.items[..Handled(s)] == s.ring.items[..Handled(s)];
    assert s'.ring.items[..s.flushedPos] == s.ring.items[..s.flushedPos];
  }

  /** A worker step that gives the sink at most a FlushIfDue and is done with no further position. */
  ghost predicate SameWrites(s: State, s': State)
    requires Formed(s)
  {
    && Formed(s') && (s'.events == s.events || s'.events == s.events + [FlushedIfDue]) && s'.flushedPos == s.flushedPos && s'.ring.items == s.ring.items
    && Handled(s') == Handled(s) && (InHands(s') ==> 0 < s'.ring.dequeuePos)
    && s'.ring.dequeuePos <= |s'.ring.items|
    && s'.written + One(s'.worker.CountWritten?) == s.written + One(s.worker.CountWritten?)
    && (s'.worker.Exited? ==> s.worker.Exited? && s'.ring.dequeuePos == s.ring.dequeuePos)
  }

  /** A worker step that flushes the sink, after which the worker is done with `pos` positions. */
  ghost predicate FlushesSink(s: State, s': State)
    requires Formed(s)
  {
    && Formed(s') && s'.events == s.events + [SinkFlushed] && s'.flushedPos == Handled(s)
    && s'.ring == s.ring && !InHands(s')
    && (InHands(s) ==> 0 < s.ring.dequeuePos <= |s.ring.items| && s.ring.items[s.ring.dequeuePos - 1].FlushItem?)
    && s'.written == s.written && !s'.worker.CountWritten? && !s.worker.CountWritten?
    && (s'.worker.Exited? ==> !InHands(s))
  }

  lemma SameWritesKeeps(s: State, s': State)
    requires Formed(s) && WritesOk(s) && SameWrites(s, s')
    ensures WritesOk(s')
  {
    EventsSnoc(s.events, FlushedIfDue);
  }

  lemma FlushKeeps(s: State, s': State)
    requires Formed(s) && (InHands(s) ==> 0 < s.ring.dequeuePos)
    requires WritesOk(s) && FlushesSink(s, s')
    ensures WritesOk(s')
  {
    EventsSnoc(s.events, SinkFlushed);
    if InHands(s) {
      LogsSnoc(s.ring.items, s.ring.dequeuePos);
    }
  }

  lemma WriteKeeps(s: State, s': State)
    requires Formed(s) && WritesOk(s) && s.worker.SinkItem? && s.worker.item.LogItem? && LastTaken(s, s.worker.item)
    requires s' == s.(events := s.events + [Wrote(s.worker.item)], worker := CountWritten(s.worker.site))
    ensures WritesOk(s')
  {
    EventsSnoc(s.events, Wrote(s.worker.item));
    LogsSnoc(s.ring.items, s.ring.dequeuePos);
  }

  lemma DequeueInsideWrites(s: State, s': State, ring: Ring<Item>, look: Look)
    requires Formed(s) && Counted(s.ring) && s.worker.Dequeuing? && InDequeue(s.ring.pcs[WorkerId(s)])
    requires InHands(s) ==> 0 < s.ring.dequeuePos
    requires Shaped(ring) && DequeueEffect(s.ring, ring, WorkerId(s)) && Counted(ring)
    requires s' == s.(ring := ring, look := look)
    ensures SameWrites(s, s')
  {
  }

  lemma DequeueReturnWrites(s: State, c: Choice)
    requires Formed(s) && Counted(s.ring) && WorkerCoupled(s)
    requires InHands(s) ==> 0 < s.ring.dequeuePos
    requires !(s.worker.Dequeuing? && InDequeue(s.ring.pcs[WorkerId(s)]))
    ensures SameWrites(s, DequeueStep(s, c))
  {
  }

  lemma BeginDequeueWrites(s: State)
    requires Formed(s) && Counted(s.ring)
    requires InHands(s) ==> 0 < s.ring.dequeuePos
    ensures SameWrites(s, BeginDequeueStep(s))
  {
  }

  lemma HandleWrites(s: State, c: Choice)
    requires Formed(s) && Counted(s.ring) && WorkerLocal(s)
    requires InHands(s) ==> 0 < s.ring.dequeuePos
    ensures var s' := HandleStep(s, c);
            || SameWrites(s, s')
            || FlushesSink(s, s')
            || (&& s.worker.SinkItem? && s.worker.item.LogItem? && LastTaken(s, s.worker.item)
                && s' == s.(events := s.events + [Wrote(s.worker.item)], worker := CountWritten(s.worker.site)))
  {
  }

  lemma DueWrites(s: State, c: Choice)
    requires Formed(s) && Counted(s.ring)
    requires InHands(s) ==> 0 < s.ring.dequeuePos
    requires s.worker.FlushIfDue?
    ensures SameWrites(s, TurnStep(s, c)) || FlushesSink(s, TurnStep(s, c))
  {
  }

  lemma LastFlushWrites(s: State, c: Choice)
    requires Formed(s) && Counted(s.ring)
    requires InHands(s) ==> 0 < s.ring.dequeuePos
    requires s.worker.FinalFlush?
    ensures SameWrites(s, TurnStep(s, c)) || FlushesSink(s, TurnStep(s, c))
  {
  }

  lemma TurnWrites(s: State, c: Choice)
    requires Formed(s) && Counted(s.ring)
    requires InHands(s) ==> 0 < s.ring.dequeuePos
    ensures SameWrites(s, TurnStep(s, c)) || FlushesSink(s, TurnStep(s, c))
  {
    if s.worker.FlushIfDue? { DueWrites(s, c); }
    else if s.worker.FinalFlush? { LastFlushWrites(s, c); }
  }

  lemma ExitTestWrites(s: State)
    requires Formed(s) && Counted(s.ring)
    requires InHands(s) ==> 0 < s.ring.dequeuePos
    ensures SameWrites(s, ExitTestStep(s))
  {
  }

  lemma WaitWrites(s: State, c: Choice)
    requires Formed(s) && Counted(s.ring)
    requires InHands(s) ==> 0 < s.ring.dequeuePos
    ensures SameWrites(s, WaitStep(s, c))
  {
  }

  lemma CloseWrites(s: State, c: Choice)
    requires Formed(s) && Counted(s.ring)
    requires InHands(s) ==> 0 < s.ring.dequeuePos
    requires s.worker.FailCas? || s.worker.FailLoad?
    ensures SameWrites(s, FailStep(s, c))
  {
  }

  lemma FailWrites(s: State, c: Choice)
    requires Formed(s) && Counted(s.ring)
    requires InHands(s) ==> 0 < s.ring.dequeuePos
    ensures SameWrites(s, FailStep(s, c))
  {
    if s.worker.FailCas? || s.worker.FailLoad? { CloseWrites(s, c); }
  }
}
