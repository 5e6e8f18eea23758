/** A run in which a log that was accepted before Stop is lost at a normal exit.

    One client logs a message, gets true, and calls Stop; the worker's last look into the ring was
    just before the message was claimed, and its exit test comes just after the gate was closed. */
module LoggerWitness {
  import opened Ring
  import opened Logger
  import opened LoggerWrites

  const LOG := Choice(CallLog, false, true, false)
  const STOP := Choice(CallStop, false, false, false)
  const MESSAGE := LogItem(0, 0)

  datatype Spot = Spot(client: ClientPc, inRing: Pc<Item>)

  /** Where the client is after j steps: a Log that returns true, and then a Stop. */
  function ClientPath(j: nat): Spot {
    match j
    case 0 => Spot(Ready, Idle)
    case 1 => Spot(StartLoad(MESSAGE), Idle)
    case 2 => Spot(StartCas(MESSAGE, 0), Idle)
    case 3 => Spot(CheckFailure(MESSAGE), Idle)
    case 4 => Spot(CheckLevel(MESSAGE), Idle)
    case 5 => Spot(CountUp(MESSAGE), Idle)
    case 6 => Spot(PublishCheck(MESSAGE), Idle)
    case 7 => Spot(Enqueueing(MESSAGE), EnqLoad(MESSAGE))
    case 8 => Spot(Enqueueing(MESSAGE), EnqSequence(MESSAGE, 0))
    case 9 => Spot(Enqueueing(MESSAGE), EnqCas(MESSAGE, 0))
    case 10 => Spot(Enqueueing(MESSAGE), EnqWrite(MESSAGE, 0))
    case 11 => Spot(Enqueueing(MESSAGE), EnqStore(0))
    case 12 => Spot(Enqueueing(MESSAGE), EnqAccepted(0))
    case 13 => Spot(Notify(MESSAGE, 0), Idle)
    case 14 => Spot(Finish(Logged(0)), Idle)
    case 15 => Spot(Ready, Idle)
    case 16 => Spot(StopLoad, Idle)
    case 17 => Spot(StopCas(0), Idle)
    case 18 => Spot(StopNotify, Idle)
    case 19 => Spot(StopJoin, Idle)
    case _ => Spot(Ready, Idle)
  }

  function ClientMove(j: nat): Move {
    if j < 3 then Entry(0, LOG)
    else if j < 5 then Check(0, LOG)
    else if j < 7 || j == 13 then Publish(0)
    else if j < 13 then Enqueue(0, LOG)
    else if j == 14 then FinishOperation(0)
    else if j == 15 then Entry(0, STOP)
    else Stop(0, STOP)
  }

  datatype WorkerSpot = WorkerSpot(worker: WorkerPc, inRing: Pc<Item>)

  /** Where the worker is after w steps: it finds the ring empty, and later leaves. */
  function WorkerPath(w: nat): WorkerSpot {
    var site := Draining(false, false);
    match w
    case 0 => WorkerSpot(CallDequeue(site), Idle)
    case 1 => WorkerSpot(Dequeuing(site), DeqLoad)
    case 2 => WorkerSpot(Dequeuing(site), DeqSequence(0))
    case 3 => WorkerSpot(Dequeuing(site), DeqEmpty)
    case 4 => WorkerSpot(FlushIfDue(false), Idle)
    case 5 => WorkerSpot(TestGate(false), Idle)
    case 6 => WorkerSpot(TestActive(false), Idle)
    case 7 => WorkerSpot(FinalFlush, Idle)
    case _ => WorkerSpot(Exited, Idle)
  }

  function WorkerMove(w: nat): Move {
    if w == 0 then BeginDequeue
    else if w < 4 then Dequeue(LOG)
    else if w == 5 || w == 6 then ExitTest
    else Turn(STOP)
  }

  ghost predicate Threads(s: State, a: nat, w: nat) {
    var client, worker := ClientPath(a), WorkerPath(w);
    && |s.pcs| == 1 && s.pcs[0] == client.client && s.worker == worker.worker
    && s.ring.pcs == [client.inRing, worker.inRing] && s.calls == [if a == 0 then 0 else 1]
  }

  ghost predicate Shared(s: State, a: nat, w: nat) {
    && !s.cfg.drainAgain && !s.failed
    && s.word == (if a >= 18 then GATE else if 3 <= a < 15 then 1 else 0)
    && s.accepted == (if a < 15 then {} else {0})
    && s.events == (if w < 8 then [] else [SinkFlushed])
  }

  ghost predicate Cells(r: Ring<Item>, a: nat) {
    && Shaped(r) && r.dequeuePos == 0 && r.enqueuePos == (if a < 10 then 0 else 1)
    && r.items == (if a < 10 then [] else [MESSAGE])
    && r.cells[0].sequence == (if a < 12 then 0 else 1)
  }

  /** After a steps of the client and w steps of the worker. */
  ghost predicate At(s: State, a: nat, w: nat) {
    Formed(s) && Threads(s, a, w) && Shared(s, a, w) && Cells(s.ring, a)
  }

  lemma Calls(s: State)
    requires At(s, 0, 0)
    ensures At(BeginDequeueStep(s), 0, 1)
  {
  }

  lemma Looks(s: State, w: nat)
    requires 1 <= w < 4 && At(s, 0, w)
    ensures At(DequeueStep(s, LOG), 0, w + 1)
  {
  }

  lemma LooksAway(s: State)
    requires At(s, 0, 4)
    ensures At(TurnStep(s, STOP), 0, 5)
  {
  }

  lemma Enters(s: State, a: nat)
    requires a < 3 && At(s, a, 5)
    ensures At(EntryStep(s, 0, LOG), a + 1, 5)
  {
  }

  lemma Prepares(s: State, a: nat)
    requires 3 <= a < 5 && At(s, a, 5)
    ensures At(CheckStep(s, 0, LOG), a + 1, 5)
  {
  }

  lemma Counts(s: State, a: nat)
    requires 5 <= a < 7 && At(s, a, 5)
    ensures At(PublishStep(s, 0), a + 1, 5)
  {
  }

  lemma Claims(s: State, a: nat)
    requires 7 <= a < 10 && At(s, a, 5)
    ensures At(EnqueueStep(s, 0, LOG), a + 1, 5)
  {
  }

  lemma Publishes(s: State, a: nat)
    requires 10 <= a < 13 && At(s, a, 5)
    ensures At(EnqueueStep(s, 0, LOG), a + 1, 5)
  {
  }

  lemma Notifies(s: State)
    requires At(s, 13, 5)
    ensures At(PublishStep(s, 0), 14, 5)
  {
  }

  lemma Returns(s: State)
    requires At(s, 14, 5)
    ensures At(FinishStep(s, 0), 15, 5)
  {
  }

  lemma CallsStop(s: State)
    requires At(s, 15, 5)
    ensures At(EntryStep(s, 0, STOP), 16, 5)
  {
  }

  lemma Closes(s: State, a: nat)
    requires 16 <= a < 19 && At(s, a, 5)
    ensures At(StopStep(s, 0, STOP), a + 1, 5)
  {
  }

  lemma Exits(s: State, w: nat)
    requires 5 <= w < 7 && At(s, 19, w)
    ensures At(ExitTestStep(s), 19, w + 1)
  {
  }

  lemma FlushesLast(s: State)
    requires At(s, 19, 7)
    ensures At(TurnStep(s, STOP), 19, 8)
  {
  }

  lemma Joins(s: State)
    requires At(s, 19, 8)
    ensures At(StopStep(s, 0, STOP), 20, 8)
  {
  }

  // ----- the whole run -----

  function Client(k: nat): nat { if k < 5 then 0 else if k < 24 then k - 5 else if k < 27 then 19 else k - 8 }

  function Worker(k: nat): nat { if k < 5 then k else if k < 24 then 5 else if k < 27 then k - 19 else 8 }

  function Script(k: nat): Move {
    if k < 5 || 24 <= k < 27 then WorkerMove(Worker(k)) else ClientMove(Client(k))
  }

  function Moves(k: nat): (moves: seq<Move>)
    ensures |moves| == k
  {
    if k == 0 then [] else Moves(k - 1) + [Script(k - 1)]
  }

  lemma ClientStep(s: State, j: nat)
    requires Formed(s) && |s.pcs| == 1
    ensures Apply(s, ClientMove(j)) == if j < 3 then EntryStep(s, 0, LOG)
                                       else if j < 5 then CheckStep(s, 0, LOG)
                                       else if j < 7 || j == 13 then PublishStep(s, 0)
                                       else if j < 13 then EnqueueStep(s, 0, LOG)
                                       else if j == 14 then FinishStep(s, 0)
                                       else if j == 15 then EntryStep(s, 0, STOP)
                                       else StopStep(s, 0, STOP)
  {
  }

  lemma WorkerStep(s: State, w: nat)
    requires Formed(s)
    ensures Apply(s, WorkerMove(w)) == if w == 0 then BeginDequeueStep(s)
                                       else if w < 4 then DequeueStep(s, LOG)
                                       else if w == 5 || w == 6 then ExitTestStep(s)
                                       else TurnStep(s, STOP)
  {
  }

  lemma LogStep(s: State, a: nat)
    requires a < 15 && At(s, a, 5)
    ensures At(Apply(s, ClientMove(a)), a + 1, 5)
  {
    ClientStep(s, a);
    if a < 3 { Enters(s, a); }
    else if a < 5 { Prepares(s, a); }
    else if a < 7 { Counts(s, a); }
    else if a < 10 { Claims(s, a); }
    else if a < 13 { Publishes(s, a); }
    else if a == 13 { Notifies(s); }
    else { Returns(s); }
  }

  lemma StopOneStep(s: State, a: nat)
    requires 15 <= a < 19 && At(s, a, 5)
    ensures At(Apply(s, ClientMove(a)), a + 1, 5)
  {
    ClientStep(s, a);
    if a == 15 { CallsStop(s); } else { Closes(s, a); }
  }

  lemma ExitOneStep(s: State, w: nat)
    requires 5 <= w < 8 && At(s, 19, w)
    ensures At(Apply(s, WorkerMove(w)), 19, w + 1)
  {
    WorkerStep(s, w);
    if w < 7 { Exits(s, w); } else { FlushesLast(s); }
  }

  lemma LookOneStep(s: State, w: nat)
    requires w < 5 && At(s, 0, w)
    ensures At(Apply(s, WorkerMove(w)), 0, w + 1)
  {
    WorkerStep(s, w);
    if w == 0 { Calls(s); } else if w < 4 { Looks(s, w); } else { LooksAway(s); }
  }

  lemma OneStep(s: State, k: nat)
    requires k < 28 && At(s, Client(k), Worker(k))
    ensures At(Apply(s, Script(k)), Client(k + 1), Worker(k + 1))
  {
    if k < 5 { LookOneStep(s, k); }
    else if k < 20 { LogStep(s, k - 5); }
    else if k < 24 { StopOneStep(s, k - 5); }
    else if k < 27 { ExitOneStep(s, k - 19); }
    else {
      ClientStep(s, 19);
      Joins(s);
    }
  }

  lemma {:induction false} Follows(cfg: Config, capacity: nat, k: nat)
    requires 2 <= capacity && !cfg.drainAgain && k <= 28
    ensures At(Run(cfg, capacity, 1, Moves(k)), Client(k), Worker(k))
  {
    if k > 0 {
      Follows(cfg, capacity, k - 1);
      assert Moves(k)[..k - 1] == Moves(k - 1);
      OneStep(Run(cfg, capacity, 1, Moves(k - 1)), k - 1);
    }
  }

  lemma Arrives(cfg: Config, capacity: nat, s: State, k: nat)
    requires 2 <= capacity && !cfg.drainAgain && k == 28 && s == Run(cfg, capacity, 1, Moves(k))
    ensures s.worker.Exited? && !s.failed && s.word == GATE && s.pcs == [Ready]
    ensures s.accepted == {0} && s.ring.items == [MESSAGE] && s.events == [SinkFlushed]
  {
    Follows(cfg, capacity, k);
  }

  /** In the source's own exit, for either overflow policy and every capacity: the log at position 0
      was accepted, Stop has returned, the worker has exited normally, and nothing was ever written. */
  lemma AcceptedLogCanBeLost(cfg: Config, capacity: nat)
    requires 2 <= capacity && !cfg.drainAgain
    ensures var s := Run(cfg, capacity, 1, Moves(28));
            s.worker.Exited? && !s.failed && Closed(s.word) && s.pcs == [Ready] && s.accepted == {0} && s.ring.items == [MESSAGE]
            && Writes(s.events) == []
  {
    Arrives(cfg, capacity, Run(cfg, capacity, 1, Moves(28)), 28);
  }
}
