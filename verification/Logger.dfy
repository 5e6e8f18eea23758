/** AsyncLogger as a transition system: any number of client threads and one worker.

    Each atomic load, compare-and-swap, store or fetch-and-add of the source, each plain access inside
    the ring and each call of the sink is one step; the steps of all threads interleave in any order.
    Counters, tickets, positions and the wake signal are unbounded; the gate word keeps its 64 bits. */
module Logger {
  import opened Ring

  // ----- the state -----

  const GATE: nat := 0x8000_0000_0000_0000
  const WORD: nat := 0x1_0000_0000_0000_0000

  /** A queue item: what travels through the ring.  `producer` and `call` name the call of Log or
      Flush that made it; the ticket of a flush item is 0 until the call has taken one. */
  datatype Item =
    | LogItem(producer: nat, call: nat)
    | FlushItem(producer: nat, call: nat, ticket: nat)

  /** What a call of Log or Flush is going to return. */
  datatype Outcome = Refused | Logged(pos: nat) | Flushed(ticket: nat)

  /** Where a client thread stands. */
  datatype ClientPc =
    | Ready
    // TryStartOperation
    | StartLoad(item: Item)
    | StartCas(item: Item, word: nat)
    // the tests at the head of Log and Flush
    | CheckJoinable(item: Item)
    | CheckFailure(item: Item)
    | CheckLevel(item: Item)
    | TakeTicket(item: Item)
    // Publish
    | CountUp(item: Item)
    | PublishCheck(item: Item)
    | Enqueueing(item: Item)
    | Notify(item: Item, pos: nat)
    | UndoDrop(item: Item)
    | CountDrop(item: Item)
    | UndoFail(item: Item)
    // the waiting loop of Flush
    | AwaitLoad(item: Item)
    | AwaitCheck(item: Item, seen: nat)
    | AwaitChange(item: Item, seen: nat)
    | AwaitFinal(item: Item)
    // FinishOperation
    | Finish(outcome: Outcome)
    | FinishNotify
    // Stop
    | StopLoad
    | StopCas(word: nat)
    | StopNotify
    | StopJoin

  /** Which TryDequeue of the worker is running: the one of the draining loop, with the loop's two
      flags, the one after the wake signal was sampled, or the extra one of the repaired exit. */
  datatype Site = Draining(progress: bool, flush: bool) | Recheck(signal: nat) | LastDrain

  /** Where the worker stands. */
  datatype WorkerPc =
    | CallDequeue(site: Site)
    | Dequeuing(site: Site)
    // HandleItem
    | SinkItem(item: Item, site: Site)
    | StoreTicket(item: Item, site: Site)
    | CountWritten(site: Site)
    | LoadFlushLevel(site: Site)
    // the rest of one turn of the loop
    | FlushRequired(site: Site)
    | FlushIfDue(progress: bool)
    | TestGate(progress: bool)
    | TestActive(progress: bool)
    | Sample
    // WaitForWakeup
    | WaitSignal(signal: nat)
    | WaitFailure(signal: nat)
    | WaitGate(signal: nat)
    | WaitActive(signal: nat)
    | Asleep(signal: nat)
    // the end
    | FinalFlush
    | Exited
    // RecordWorkerFailure; `lost` says that the sink threw while the worker held an item
    | FailLoad(lost: bool)
    | FailCas(lost: bool, word: nat)
    | FailSet(lost: bool)
    | FailRequest(lost: bool)
    | FailComplete(lost: bool, ticket: nat)
    | FailNotify(lost: bool)
    | Failed(lost: bool)

  /** A FlushIfDue that returned true is not a Flush: a sink of several sinks returns true when one of
      them was due. */
  datatype Event = Wrote(item: Item) | SinkFlushed | FlushedIfDue

  /** What the worker's latest empty TryDequeue saw when it read the sequence number. */
  datatype Look = Look(enqueuePos: nat, dequeuePos: nat, quiet: bool)

  /** `block` is the overflow policy.  `drainAgain` selects the repaired exit, which drains once more
      after the exit test; the source is the machine with drainAgain == false. */
  datatype Config = Config(block: bool, drainAgain: bool)

  datatype State = State(
    cfg: Config,
    // shared memory; the worker is the last thread of the ring
    ring: Ring<Item>,
    word: nat,
    wake: nat,
    requested: nat,
    completed: nat,
    failed: bool,
    joined: bool,
    enqueued: int,
    dropped: nat,
    written: nat,
    // threads
    pcs: seq<ClientPc>,
    worker: WorkerPc,
    // what the sink was asked to do
    events: seq<Event>,
    // histories, which no step reads
    calls: seq<nat>,
    ticketClaims: seq<nat>,
    flushedPos: nat,
    acknowledged: set<nat>,
    accepted: set<nat>,
    passed: nat,
    undone: nat,
    notifier: nat,
    look: Look)

  ghost predicate Formed(s: State) {
    && Shaped(s.ring)
    && |s.ring.pcs| == |s.pcs| + 1
    && |s.calls| == |s.pcs|
  }

  /** What no step changes. */
  ghost predicate SameShape(s: State, s': State) {
    && Formed(s')
    && |s'.pcs| == |s.pcs| && s'.cfg == s.cfg && s'.ring.capacity == s.ring.capacity
  }

  function Start(cfg: Config, capacity: nat, clients: nat): State {
    State(cfg, Initial(capacity, clients + 1), 0, 0, 0, 0, false, false, 0, 0, 0,
          seq(clients, i => Ready), Top(), [],
          seq(clients, i => 0), [], 0, {}, {}, 0, 0, 0, Look(0, 0, false))
  }

  predicate Closed(word: nat) { word >= GATE }

  function Active(word: nat): nat { word % GATE }

  /** The choices the environment makes for a step. */
  datatype CallKind = CallLog | CallFlush | CallStop
  datatype Choice = Choice(
    call: CallKind,     // what an idle client calls
    spurious: bool,     // a weak compare-and-swap fails although the value matches
    passes: bool,       // a level test succeeds, a deadline is due, a wait times out
    throws: bool)       // the sink throws

  function Go(s: State, t: nat, pc: ClientPc): State
    requires t < |s.pcs|
  {
    s.(pcs := s.pcs[t := pc])
  }

  // ----- client steps -----

  /** A new call, and TryStartOperation. */
  function EntryStep(s: State, t: nat, c: Choice): (s': State)
    requires Formed(s) && t < |s.pcs|
    ensures SameShape(s, s')
  {
    match s.pcs[t]
    case Ready =>
      (match c.call
       case CallLog => Go(s, t, StartLoad(LogItem(t, s.calls[t]))).(calls := s.calls[t := s.calls[t] + 1])
       case CallFlush => Go(s, t, StartLoad(FlushItem(t, s.calls[t], 0))).(calls := s.calls[t := s.calls[t] + 1])
       case CallStop => Go(s, t, StopLoad))
    case StartLoad(item) => Go(s, t, if Closed(s.word) then Ready else StartCas(item, s.word))
    case StartCas(item, word) =>
      if s.word == word && !c.spurious then
        Go(s, t, if item.FlushItem? then CheckJoinable(item) else CheckFailure(item)).(word := (word + 1) % WORD)
      else
        Go(s, t, if Closed(s.word) then Ready else StartCas(item, s.word))
    case _ => s
  }

  /** The tests at the head of Log and Flush, and the ticket of a Flush. */
  function CheckStep(s: State, t: nat, c: Choice): (s': State)
    requires Formed(s) && t < |s.pcs|
    ensures SameShape(s, s')
  {
    match s.pcs[t]
    case CheckJoinable(item) => Go(s, t, if s.joined then Finish(Refused) else CheckFailure(item))
    case CheckFailure(item) =>
      Go(s, t, if s.failed then Finish(Refused) else if item.FlushItem? then TakeTicket(item) else CheckLevel(item))
    case CheckLevel(item) =>
      if c.passes then Go(s, t, CountUp(item)).(passed := s.passed + 1) else Go(s, t, Finish(Refused))
    case TakeTicket(item) =>
      Go(s, t, PublishCheck(FlushItem(item.producer, item.call, s.requested + 1))).(
        requested := s.requested + 1, ticketClaims := s.ticketClaims + [s.ring.enqueuePos])
    case _ => s
  }

  /** Publish, apart from TryEnqueue itself. */
  function PublishStep(s: State, t: nat): (s': State)
    requires Formed(s) && t < |s.pcs|
    ensures SameShape(s, s')
  {
    match s.pcs[t]
    case CountUp(item) => Go(s, t, PublishCheck(item)).(enqueued := s.enqueued + 1)
    case PublishCheck(item) =>
      if s.failed then Go(s, t, if item.LogItem? then UndoFail(item) else Finish(Refused))
      else Go(s, t, Enqueueing(item)).(ring := Goto(s.ring, t, EnqLoad(item)))
    case Notify(item, pos) =>
      Go(s, t, if item.LogItem? then Finish(Logged(pos)) else AwaitLoad(item)).(wake := s.wake + 1)
    case _ => s
  }

  /** The counters a refused Log takes back. */
  function UndoStep(s: State, t: nat): (s': State)
    requires Formed(s) && t < |s.pcs|
    ensures SameShape(s, s')
  {
    match s.pcs[t]
    case UndoDrop(item) => Go(s, t, CountDrop(item)).(enqueued := s.enqueued - 1)
    case CountDrop(item) => Go(s, t, Finish(Refused)).(dropped := s.dropped + 1)
    case UndoFail(item) => Go(s, t, Finish(Refused)).(enqueued := s.enqueued - 1, undone := s.undone + 1)
    case _ => s
  }

  /** Inside TryEnqueue: a step of the ring, or the return with its verdict. */
  function EnqueueStep(s: State, t: nat, c: Choice): (s': State)
    requires Formed(s) && t < |s.pcs|
    ensures SameShape(s, s')
  {
    if !s.pcs[t].Enqueueing? then s else
    var item := s.pcs[t].item;
    match s.ring.pcs[t]
    case EnqAccepted(pos) => Go(s, t, Notify(item, pos)).(ring := Goto(s.ring, t, Idle))
    case EnqRefused(_) =>
      Go(s, t, if s.cfg.block || item.FlushItem? then PublishCheck(item) else UndoDrop(item)).(
        ring := Goto(s.ring, t, Idle))
    case _ => s.(ring := Advance(s.ring, t, c.spurious))
  }

  /** The waiting loop of Flush. */
  function AwaitStep(s: State, t: nat): (s': State)
    requires Formed(s) && t < |s.pcs|
    ensures SameShape(s, s')
  {
    match s.pcs[t]
    case AwaitLoad(item) =>
      Go(s, t, if item.FlushItem? && s.completed < item.ticket then AwaitCheck(item, s.completed) else AwaitFinal(item))
    case AwaitCheck(item, seen) => Go(s, t, if s.failed then Finish(Refused) else AwaitChange(item, seen))
    // the wait on the atomic returns only after the value has changed
    case AwaitChange(item, seen) => if s.completed != seen then Go(s, t, AwaitLoad(item)) else s
    case AwaitFinal(item) =>
      Go(s, t, Finish(if s.failed || item.LogItem? then Refused else Flushed(item.ticket)))
    case _ => s
  }

  /** FinishOperation. */
  function FinishStep(s: State, t: nat): (s': State)
    requires Formed(s) && t < |s.pcs|
    ensures SameShape(s, s')
  {
    match s.pcs[t]
    case Finish(outcome) =>
      var last := Closed(s.word) && Active(s.word) == 1;
      Go(s, t, if last then FinishNotify else Ready).(
        word := (s.word + WORD - 1) % WORD,
        notifier := if last then t else s.notifier,
        acknowledged := if outcome.Flushed? then s.acknowledged + {outcome.ticket} else s.acknowledged,
        accepted := if outcome.Logged? then s.accepted + {outcome.pos} else s.accepted)
    case FinishNotify => Go(s, t, Ready).(wake := s.wake + 1)
    case _ => s
  }

  /** Stop and RequestStop. */
  function StopStep(s: State, t: nat, c: Choice): (s': State)
    requires Formed(s) && t < |s.pcs|
    ensures SameShape(s, s')
  {
    match s.pcs[t]
    case StopLoad => Go(s, t, if Closed(s.word) then StopJoin else StopCas(s.word))
    case StopCas(word) =>
      if s.word == word && !c.spurious then Go(s, t, StopNotify).(word := word + GATE, notifier := t)
      else Go(s, t, if Closed(s.word) then StopJoin else StopCas(s.word))
    case StopNotify => Go(s, t, StopJoin).(wake := s.wake + 1)
    case StopJoin => if s.worker.Exited? || s.worker.Failed? then Go(s, t, Ready).(joined := true) else s
    case _ => s
  }

  // ----- worker steps -----

  function Top(): WorkerPc { CallDequeue(Draining(false, false)) }

  function WorkerId(s: State): nat { |s.pcs| }

  /** Where the worker goes when a TryDequeue returned false. */
  function AfterEmpty(site: Site): WorkerPc {
    match site
    case Draining(progress, flush) => if flush then FlushRequired(site) else FlushIfDue(progress)
    case Recheck(signal) => WaitSignal(signal)
    case LastDrain => FinalFlush
  }

  /** Where the worker goes when HandleItem returned `flush`. */
  function AfterItem(site: Site, flush: bool): WorkerPc {
    match site
    case Draining(_, earlier) => CallDequeue(Draining(true, flush || earlier))
    case Recheck(_) => if flush then FlushRequired(site) else Top()
    case LastDrain => CallDequeue(LastDrain)
  }

  /** The call of TryDequeue. */
  function BeginDequeueStep(s: State): (s': State)
    requires Formed(s)
    ensures SameShape(s, s')
  {
    if !s.worker.CallDequeue? then s else
    s.(worker := Dequeuing(s.worker.site), ring := Goto(s.ring, WorkerId(s), DeqLoad))
  }

  /** Inside TryDequeue: a step of the ring, or the return with its verdict. */
  function DequeueStep(s: State, c: Choice): (s': State)
    requires Formed(s)
    ensures SameShape(s, s')
  {
    var w := WorkerId(s);
    if !s.worker.Dequeuing? then s else
    var site := s.worker.site;
    match s.ring.pcs[w]
    case DeqTaken(_, item) => s.(worker := SinkItem(item, site), ring := Goto(s.ring, w, Idle))
    case DeqEmpty => s.(worker := AfterEmpty(site), ring := Goto(s.ring, w, Idle))
    case _ => DequeueInsideStep(s, c)
  }

  function DequeueInsideStep(s: State, c: Choice): (s': State)
    requires Formed(s)
    ensures SameShape(s, s')
  {
    var ring := Advance(s.ring, WorkerId(s), c.spurious);
    s.(ring := ring, look := if ring.pcs[WorkerId(s)].DeqEmpty? then LookNow(s) else s.look)
  }

  function LookNow(s: State): Look {
    Look(s.ring.enqueuePos, s.ring.dequeuePos, Closed(s.word) && Active(s.word) == 0)
  }

  function SinkFlush(s: State, pos: nat): State {
    s.(events := s.events + [SinkFlushed], flushedPos := pos)
  }

  /** HandleItem. */
  function HandleStep(s: State, c: Choice): (s': State)
    requires Formed(s)
    ensures SameShape(s, s')
  {
    match s.worker
    case SinkItem(item, site) =>
      if c.throws then s.(worker := FailLoad(true))
      else if item.FlushItem? then SinkFlush(s, Before(s.ring.dequeuePos)).(worker := StoreTicket(item, site))
      else s.(events := s.events + [Wrote(item)], worker := CountWritten(site))
    case StoreTicket(item, site) =>
      s.(completed := if item.FlushItem? then item.ticket else s.completed, worker := AfterItem(site, false))
    case CountWritten(site) => s.(written := s.written + 1, worker := LoadFlushLevel(site))
    case LoadFlushLevel(site) => s.(worker := AfterItem(site, c.passes))
    case _ => s
  }

  function Before(pos: nat): nat { if pos == 0 then 0 else pos - 1 }

  /** The flushes of one turn of WorkerLoop. */
  function TurnStep(s: State, c: Choice): (s': State)
    requires Formed(s)
    ensures SameShape(s, s')
  {
    match s.worker
    case FlushRequired(site) =>
      if c.throws then s.(worker := FailLoad(false))
      else SinkFlush(s, s.ring.dequeuePos).(worker := if site.Draining? then FlushIfDue(true) else Top())
    case FlushIfDue(progress) =>
      if !c.passes then s.(worker := TestGate(progress))
      else if c.throws then s.(worker := FailLoad(false))
      else s.(events := s.events + [FlushedIfDue], worker := TestGate(true))
    case FinalFlush =>
      if c.throws then s.(worker := FailLoad(false))
      else SinkFlush(s, s.ring.dequeuePos).(worker := Exited)
    case _ => s
  }

  /** The exit test, and the sampling of the wake signal. */
  function ExitTestStep(s: State): (s': State)
    requires Formed(s)
    ensures SameShape(s, s')
  {
    match s.worker
    case TestGate(progress) =>
      s.(worker := if Closed(s.word) then TestActive(progress) else if progress then Top() else Sample)
    case TestActive(progress) =>
      s.(worker := if Active(s.word) == 0 then (if s.cfg.drainAgain then CallDequeue(LastDrain) else FinalFlush)
                   else if progress then Top() else Sample)
    case Sample => s.(worker := CallDequeue(Recheck(s.wake)))
    case _ => s
  }

  /** WaitForWakeup. */
  function WaitStep(s: State, c: Choice): (s': State)
    requires Formed(s)
    ensures SameShape(s, s')
  {
    match s.worker
    case WaitSignal(signal) => s.(worker := if s.wake != signal then Top() else WaitFailure(signal))
    case WaitFailure(signal) => s.(worker := if s.failed then Top() else WaitGate(signal))
    case WaitGate(signal) => s.(worker := if Closed(s.word) then WaitActive(signal) else Asleep(signal))
    case WaitActive(signal) => s.(worker := if Active(s.word) == 0 then Top() else Asleep(signal))
    // woken, for whatever reason: the deadline passed, or the predicate is evaluated again
    case Asleep(signal) => s.(worker := if c.passes then Top() else WaitSignal(signal))
    case _ => s
  }

  /** RecordWorkerFailure. */
  function FailStep(s: State, c: Choice): (s': State)
    requires Formed(s)
    ensures SameShape(s, s')
  {
    match s.worker
    case FailLoad(lost) => s.(worker := if Closed(s.word) then FailSet(lost) else FailCas(lost, s.word))
    case FailCas(lost, word) =>
      if s.word == word && !c.spurious then s.(worker := FailSet(lost), word := word + GATE)
      else s.(worker := if Closed(s.word) then FailSet(lost) else FailCas(lost, s.word))
    case FailSet(lost) => s.(worker := FailRequest(lost), failed := true)
    case FailRequest(lost) => s.(worker := FailComplete(lost, s.requested))
    case FailComplete(lost, ticket) => s.(worker := FailNotify(lost), completed := ticket)
    case FailNotify(lost) => s.(worker := Failed(lost), wake := s.wake + 1)
    case _ => s
  }

  // ----- runs -----

  /** One move of a run: a phase of the code and the thread that takes a step in it. */
  datatype Move =
    | Entry(t: nat, c: Choice)
    | Check(t: nat, c: Choice)
    | Publish(t: nat)
    | Undo(t: nat)
    | Enqueue(t: nat, c: Choice)
    | Await(t: nat)
    | FinishOperation(t: nat)
    | Stop(t: nat, c: Choice)
    | BeginDequeue
    | Dequeue(c: Choice)
    | Handle(c: Choice)
    | Turn(c: Choice)
    | ExitTest
    | Wait(c: Choice)
    | Fail(c: Choice)

  /** A move whose thread is not in that phase, or does not exist, changes nothing. */
  function Apply(s: State, move: Move): (s': State)
    requires Formed(s)
    ensures SameShape(s, s')
  {
    match move
    case Entry(t, c) => if t < |s.pcs| then EntryStep(s, t, c) else s
    case Check(t, c) => if t < |s.pcs| then CheckStep(s, t, c) else s
    case Undo(t) => if t < |s.pcs| then UndoStep(s, t) else s
    case Publish(t) => if t < |s.pcs| then PublishStep(s, t) else s
    case Enqueue(t, c) => if t < |s.pcs| then EnqueueStep(s, t, c) else s
    case Await(t) => if t < |s.pcs| then AwaitStep(s, t) else s
    case FinishOperation(t) => if t < |s.pcs| then FinishStep(s, t) else s
    case Stop(t, c) => if t < |s.pcs| then StopStep(s, t, c) else s
    case BeginDequeue => BeginDequeueStep(s)
    case Dequeue(c) => DequeueStep(s, c)
    case Handle(c) => HandleStep(s, c)
    case Turn(c) => TurnStep(s, c)
    case ExitTest => ExitTestStep(s)
    case Wait(c) => WaitStep(s, c)
    case Fail(c) => FailStep(s, c)
  }

  /** The state after going on from s with any sequence of moves, that is, in any interleaving. */
  function Continue(s: State, moves: seq<Move>): (s': State)
    requires Formed(s)
    ensures SameShape(s, s')
  {
    if moves == [] then s else Apply(Continue(s, moves[..|moves| - 1]), moves[|moves| - 1])
  }

  function Run(cfg: Config, capacity: nat, clients: nat, moves: seq<Move>): (s: State)
    requires 2 <= capacity
    ensures Formed(s) && s.cfg == cfg && |s.pcs| == clients && s.ring.capacity == capacity
  {
    Continue(Start(cfg, capacity, clients), moves)
  }
}
