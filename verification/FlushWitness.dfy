/** A run in which a Flush misses its ticket.  Two clients take the tickets 1 and 2, and ticket 2
    enters the ring first; the worker stores 2 and then 1 before the second client looks. */
module FlushWitness {
  import opened Options
  import opened Ring
  import opened Logger
  import opened LoggerTickets
  import opened LoggerRuns
  import opened LoggerFlushOrder

  const CALL := Choice(CallFlush, false, false, false)
  const EARLY := FlushItem(0, 0, 1)
  const LATE := FlushItem(1, 0, 2)

  datatype Spot = Spot(client: ClientPc, inRing: Pc<Item>)

  /** Where client u, which gets ticket u + 1, is after j steps of its Flush. */
  function FlushPath(u: nat, item: Item, pos: nat, j: nat): Spot {
    var untaken := FlushItem(u, 0, 0);
    match j
    case 0 => Spot(Ready, Idle)
    case 1 => Spot(StartLoad(untaken), Idle)
    case 2 => Spot(StartCas(untaken, u), Idle)
    case 3 => Spot(CheckJoinable(untaken), Idle)
    case 4 => Spot(CheckFailure(untaken), Idle)
    case 5 => Spot(TakeTicket(untaken), Idle)
    case 6 => Spot(PublishCheck(item), Idle)
    case 7 => Spot(Enqueueing(item), EnqLoad(item))
    case 8 => Spot(Enqueueing(item), EnqSequence(item, pos))
    case 9 => Spot(Enqueueing(item), EnqCas(item, pos))
    case 10 => Spot(Enqueueing(item), EnqWrite(item, pos))
    case 11 => Spot(Enqueueing(item), EnqStore(pos))
    case 12 => Spot(Enqueueing(item), EnqAccepted(pos))
    case 13 => Spot(Notify(item, pos), Idle)
    case 14 => Spot(AwaitLoad(item), Idle)
    case 15 => Spot(if u == 0 then AwaitFinal(item) else AwaitCheck(item, 1), Idle)
    case 16 => Spot(if u == 0 then Finish(Flushed(1)) else AwaitChange(item, 1), Idle)
    case _ => Spot(Ready, Idle)
  }

  function FlushMove(u: nat, j: nat): Move {
    if j < 3 then Entry(u, CALL)
    else if j < 6 then Check(u, CALL)
    else if j == 6 || j == 13 then Publish(u)
    else if j < 13 then Enqueue(u, CALL)
    else if j < 16 then Await(u)
    else FinishOperation(u)
  }

  datatype WorkerSpot = WorkerSpot(worker: WorkerPc, inRing: Pc<Item>)

  /** Where the worker is after j steps with the item at pos. */
  function WorkerPath(item: Item, pos: nat, j: nat): WorkerSpot {
    var site := Draining(pos > 0, false);
    match j
    case 0 => WorkerSpot(CallDequeue(site), Idle)
    case 1 => WorkerSpot(Dequeuing(site), DeqLoad)
    case 2 => WorkerSpot(Dequeuing(site), DeqSequence(pos))
    case 3 => WorkerSpot(Dequeuing(site), DeqCas(pos))
    case 4 => WorkerSpot(Dequeuing(site), DeqRead(pos))
    case 5 => WorkerSpot(Dequeuing(site), DeqStore(pos, item))
    case 6 => WorkerSpot(Dequeuing(site), DeqTaken(pos, item))
    case 7 => WorkerSpot(SinkItem(item, site), Idle)
    case 8 => WorkerSpot(StoreTicket(item, site), Idle)
    case _ => WorkerSpot(CallDequeue(Draining(true, false)), Idle)
  }

  function WorkerMove(j: nat): Move {
    if j == 0 then BeginDequeue else if j < 7 then Dequeue(CALL) else Handle(CALL)
  }

  /** The threads after a and b steps of the clients and w steps of the worker. */
  ghost predicate Threads(s: State, a: nat, b: nat, w: nat) {
    var early, late := FlushPath(0, EARLY, 1, a), FlushPath(1, LATE, 0, b);
    var worker := if w < 9 then WorkerPath(LATE, 0, w) else WorkerPath(EARLY, 1, w - 9);
    && |s.pcs| == 2 && s.pcs[0] == early.client && s.pcs[1] == late.client && s.worker == worker.worker
    && s.ring.pcs == [early.inRing, late.inRing, worker.inRing]
    && s.calls == [if a == 0 then 0 else 1, if b == 0 then 0 else 1]
  }

  /** The shared words, and the cells until their items are taken out. */
  ghost predicate Shared(s: State, a: nat, b: nat, w: nat) {
    && s.word == (if 3 <= a < 17 then 1 else 0) + (if b < 3 then 0 else 1) && !s.failed && !s.joined
    && s.requested == (if a < 6 then 0 else 1) + (if b < 6 then 0 else 1)
    && s.completed == (if w < 9 then 0 else if w < 18 then 2 else 1)
    && s.acknowledged == (if a < 17 then {} else {1})
  }

  ghost predicate Cells(r: Ring<Item>, a: nat, b: nat, w: nat) {
    && Shaped(r)
    && r.enqueuePos == (if b < 10 then 0 else if a < 10 then 1 else 2)
    && r.dequeuePos == (if w < 4 then 0 else if w < 13 then 1 else 2)
    && r.items == (if b < 10 then [] else if a < 10 then [LATE] else [LATE, EARLY])
    && (w < 5 ==> r.cells[0] == Cell(if b < 12 then 0 else 1, if b < 11 then None else Some(LATE)))
    && (w < 14 ==> r.cells[1] == Cell(if a < 12 then 1 else 2, if a < 11 then None else Some(EARLY)))
  }

  ghost predicate At(s: State, a: nat, b: nat, w: nat) {
    Formed(s) && Threads(s, a, b, w) && Shared(s, a, b, w) && Cells(s.ring, a, b, w)
  }

  lemma EarlyEnters(s: State, a: nat)
    requires a < 3 && At(s, a, 0, 0)
    ensures At(EntryStep(s, 0, CALL), a + 1, 0, 0)
  {
  }

  lemma EarlyChecks(s: State, a: nat)
    requires 3 <= a < 6 && At(s, a, 0, 0)
    ensures At(CheckStep(s, 0, CALL), a + 1, 0, 0)
  {
  }

  lemma LateEnters(s: State, b: nat)
    requires b < 3 && At(s, 6, b, 0)
    ensures At(EntryStep(s, 1, CALL), 6, b + 1, 0)
  {
  }

  lemma LateChecks(s: State, b: nat)
    requires 3 <= b < 6 && At(s, 6, b, 0)
    ensures At(CheckStep(s, 1, CALL), 6, b + 1, 0)
  {
  }

  lemma LateBegins(s: State)
    requires At(s, 6, 6, 0)
    ensures At(PublishStep(s, 1), 6, 7, 0)
  {
  }

  lemma LateClaims(s: State, b: nat)
    requires 7 <= b < 10 && At(s, 6, b, 0)
    ensures At(EnqueueStep(s, 1, CALL), 6, b + 1, 0)
  {
  }

  lemma LatePublishes(s: State, b: nat)
    requires 10 <= b < 13 && At(s, 6, b, 0)
    ensures At(EnqueueStep(s, 1, CALL), 6, b + 1, 0)
  {
  }

  lemma LateNotifies(s: State)
    requires At(s, 6, 13, 0)
    ensures At(PublishStep(s, 1), 6, 14, 0)
  {
  }

  lemma EarlyBegins(s: State)
    requires At(s, 6, 14, 0)
    ensures At(PublishStep(s, 0), 7, 14, 0)
  {
  }

  lemma EarlyClaims(s: State, a: nat)
    requires 7 <= a < 10 && At(s, a, 14, 0)
    ensures At(EnqueueStep(s, 0, CALL), a + 1, 14, 0)
  {
  }

  lemma EarlyPublishes(s: State, a: nat)
    requires 10 <= a < 13 && At(s, a, 14, 0)
    ensures At(EnqueueStep(s, 0, CALL), a + 1, 14, 0)
  {
  }

  lemma EarlyNotifies(s: State)
    requires At(s, 13, 14, 0)
    ensures At(PublishStep(s, 0), 14, 14, 0)
  {
  }

  lemma WorkerCallsForLate(s: State)
    requires At(s, 14, 14, 0)
    ensures At(BeginDequeueStep(s), 14, 14, 1)
  {
  }

  lemma WorkerLooksAtLate(s: State, w: nat)
    requires 1 <= w < 4 && At(s, 14, 14, w)
    ensures At(DequeueStep(s, CALL), 14, 14, w + 1)
  {
  }

  lemma WorkerTakesLate(s: State, w: nat)
    requires 4 <= w < 7 && At(s, 14, 14, w)
    ensures At(DequeueStep(s, CALL), 14, 14, w + 1)
  {
  }

  lemma WorkerHandlesLate(s: State, w: nat)
    requires 7 <= w < 9 && At(s, 14, 14, w)
    ensures At(HandleStep(s, CALL), 14, 14, w + 1)
  {
  }

  lemma WorkerCallsForEarly(s: State)
    requires At(s, 14, 14, 9)
    ensures At(BeginDequeueStep(s), 14, 14, 10)
  {
  }

  lemma WorkerLooksAtEarly(s: State, w: nat)
    requires 10 <= w < 13 && At(s, 14, 14, w)
    ensures At(DequeueStep(s, CALL), 14, 14, w + 1)
  {
  }

  lemma WorkerTakesEarly(s: State, w: nat)
    requires 13 <= w < 16 && At(s, 14, 14, w)
    ensures At(DequeueStep(s, CALL), 14, 14, w + 1)
  {
  }

  lemma WorkerHandlesEarly(s: State, w: nat)
    requires 16 <= w < 18 && At(s, 14, 14, w)
    ensures At(HandleStep(s, CALL), 14, 14, w + 1)
  {
  }

  lemma LateMisses(s: State, b: nat)
    requires 14 <= b < 16 && At(s, 14, b, 18)
    ensures At(AwaitStep(s, 1), 14, b + 1, 18)
  {
  }

  lemma EarlyLooks(s: State, a: nat)
    requires 14 <= a < 16 && At(s, a, 16, 18)
    ensures At(AwaitStep(s, 0), a + 1, 16, 18)
  {
  }

  lemma EarlyFinishes(s: State)
    requires At(s, 16, 16, 18)
    ensures At(FinishStep(s, 0), 17, 16, 18)
  {
  }

  // ----- the whole run -----

  function Early(k: nat): nat {
    if k < 6 then k else if k < 20 then 6 else if k < 28 then k - 14 else if k < 48 then 14 else k - 34
  }

  function Late(k: nat): nat {
    if k < 6 then 0 else if k < 20 then k - 6 else if k < 46 then 14 else if k < 48 then k - 32 else 16
  }

  function Worked(k: nat): nat {
    if k < 28 then 0 else if k < 46 then k - 28 else 18
  }

  function Script(k: nat): Move {
    if 28 <= k < 46 then WorkerMove(if k < 37 then k - 28 else k - 37)
    else if 6 <= k < 20 || 46 <= k < 48 then FlushMove(1, Late(k))
    else FlushMove(0, Early(k))
  }

  function Moves(k: nat): (moves: seq<Move>)
    ensures |moves| == k
  {
    if k == 0 then [] else Moves(k - 1) + [Script(k - 1)]
  }

  lemma ClientStep(s: State, u: nat, j: nat)
    requires Formed(s) && u < |s.pcs|
    ensures Apply(s, FlushMove(u, j)) == if j < 3 then EntryStep(s, u, CALL)
                                         else if j < 6 then CheckStep(s, u, CALL)
                                         else if j == 6 || j == 13 then PublishStep(s, u)
                                         else if j < 13 then EnqueueStep(s, u, CALL)
                                         else if j < 16 then AwaitStep(s, u)
                                         else FinishStep(s, u)
  {
  }

  lemma WorkerStep(s: State, j: nat)
    requires Formed(s)
    ensures Apply(s, WorkerMove(j)) == if j == 0 then BeginDequeueStep(s)
                                       else if j < 7 then DequeueStep(s, CALL)
                                       else HandleStep(s, CALL)
  {
  }

  lemma TakingStep(s: State, k: nat)
    requires k < 12 && At(s, Early(k), Late(k), 0)
    ensures At(Apply(s, Script(k)), Early(k + 1), Late(k + 1), 0)
  {
    if k < 6 {
      ClientStep(s, 0, k);
      if k < 3 { EarlyEnters(s, k); } else { EarlyChecks(s, k); }
    } else {
      ClientStep(s, 1, k - 6);
      if k < 9 { LateEnters(s, k - 6); } else { LateChecks(s, k - 6); }
    }
  }

  lemma LateEnqueueStep(s: State, b: nat)
    requires 6 <= b < 14 && At(s, 6, b, 0)
    ensures At(Apply(s, FlushMove(1, b)), 6, b + 1, 0)
  {
    ClientStep(s, 1, b);
    if b == 6 { LateBegins(s); } else if b < 10 { LateClaims(s, b); } else if b < 13 { LatePublishes(s, b); } else { LateNotifies(s); }
  }

  lemma EarlyEnqueueStep(s: State, a: nat)
    requires 6 <= a < 14 && At(s, a, 14, 0)
    ensures At(Apply(s, FlushMove(0, a)), a + 1, 14, 0)
  {
    ClientStep(s, 0, a);
    if a == 6 { EarlyBegins(s); } else if a < 10 { EarlyClaims(s, a); } else if a < 13 { EarlyPublishes(s, a); } else { EarlyNotifies(s); }
  }

  lemma LateWorkerStep(s: State, w: nat)
    requires w < 9 && At(s, 14, 14, w)
    ensures At(Apply(s, WorkerMove(w)), 14, 14, w + 1)
  {
    WorkerStep(s, w);
    if w == 0 { WorkerCallsForLate(s); } else if w < 4 { WorkerLooksAtLate(s, w); } else if w < 7 { WorkerTakesLate(s, w); } else { WorkerHandlesLate(s, w); }
  }

  lemma EarlyWorkerStep(s: State, w: nat)
    requires 9 <= w < 18 && At(s, 14, 14, w)
    ensures At(Apply(s, WorkerMove(w - 9)), 14, 14, w + 1)
  {
    WorkerStep(s, w - 9);
    if w == 9 { WorkerCallsForEarly(s); } else if w < 13 { WorkerLooksAtEarly(s, w); } else if w < 16 { WorkerTakesEarly(s, w); } else { WorkerHandlesEarly(s, w); }
  }

  lemma WaitingStep(s: State, k: nat)
    requires 46 <= k < 51 && At(s, Early(k), Late(k), 18)
    ensures At(Apply(s, Script(k)), Early(k + 1), Late(k + 1), 18)
  {
    if k < 48 {
      ClientStep(s, 1, k - 32);
      LateMisses(s, k - 32);
    } else {
      ClientStep(s, 0, k - 34);
      if k < 50 { EarlyLooks(s, k - 34); } else { EarlyFinishes(s); }
    }
  }

  lemma EnqueueingLate(s: State, k: nat)
    requires 12 <= k < 20 && At(s, Early(k), Late(k), 0)
    ensures At(Apply(s, Script(k)), Early(k + 1), Late(k + 1), 0)
  {
    assert Early(k) == Early(k + 1) == 6 && Late(k) == k - 6 && Late(k + 1) == k - 5;
    LateEnqueueStep(s, k - 6);
  }

  lemma EnqueueingEarly(s: State, k: nat)
    requires 20 <= k < 28 && At(s, Early(k), Late(k), 0)
    ensures At(Apply(s, Script(k)), Early(k + 1), Late(k + 1), 0)
  {
    assert Late(k) == Late(k + 1) == 14 && Early(k) == k - 14 && Early(k + 1) == k - 13;
    EarlyEnqueueStep(s, k - 14);
  }

  lemma HandlingStep(s: State, k: nat)
    requires 28 <= k < 46 && At(s, 14, 14, Worked(k))
    ensures At(Apply(s, Script(k)), 14, 14, Worked(k + 1))
  {
    if k < 37 { LateWorkerStep(s, k - 28); } else { EarlyWorkerStep(s, k - 28); }
  }

  lemma OneStep(s: State, k: nat)
    requires k < 51 && At(s, Early(k), Late(k), Worked(k))
    ensures At(Apply(s, Script(k)), Early(k + 1), Late(k + 1), Worked(k + 1))
  {
    if k < 12 { TakingStep(s, k); }
    else if k < 20 { EnqueueingLate(s, k); }
    else if k < 28 { EnqueueingEarly(s, k); }
    else if k < 46 { HandlingStep(s, k); }
    else { WaitingStep(s, k); }
  }

  lemma {:induction false} Follows(cfg: Config, capacity: nat, k: nat)
    requires 2 <= capacity && k <= 51
    ensures At(Run(cfg, capacity, 2, Moves(k)), Early(k), Late(k), Worked(k))
  {
    if k > 0 {
      Follows(cfg, capacity, k - 1);
      assert Moves(k)[..k - 1] == Moves(k - 1);
      OneStep(Run(cfg, capacity, 2, Moves(k - 1)), k - 1);
    }
  }

  lemma Arrives(cfg: Config, capacity: nat, s: State, k: nat)
    requires 2 <= capacity && k == 51 && s == Run(cfg, capacity, 2, Moves(k))
    ensures s.acknowledged == {1} && s.pcs == [Ready, AwaitChange(LATE, 1)] && s.completed == 1
    ensures s.ring.items == [LATE, EARLY] && s.ring.dequeuePos == 2 && !s.failed && s.worker == CallDequeue(Draining(true, false))
  {
    Follows(cfg, capacity, k);
  }

  /** For every capacity and overflow policy, two concurrent calls of Flush can end like this: the one
      with ticket 1 has returned true, the ring is empty, nothing has failed, and the one with ticket
      2, whose item was handled, is blocked; it stays blocked for as long as no other flush item is
      handled and nothing fails. */
  lemma FlushCanMissItsTicket(cfg: Config, capacity: nat, rest: seq<Move>)
    requires 2 <= capacity
    ensures var s, s' := Run(cfg, capacity, 2, Moves(51)), Continue(Run(cfg, capacity, 2, Moves(51)), rest);
            && s.acknowledged == {1} && s.pcs == [Ready, AwaitChange(LATE, 1)]
            && s.ring.items == [LATE, EARLY] && s.ring.dequeuePos == 2 && !s.failed
            && (!Released(s'.worker) && NoFlush(s'.ring.items, 2, Stored(s')) ==> s'.pcs[1] == AwaitChange(LATE, 1))
  {
    var s := Run(cfg, capacity, 2, Moves(51));
    Arrives(cfg, capacity, s, 51);
    Reachable(cfg, capacity, 2, Moves(51));
    if !Released(Continue(s, rest).worker) && NoFlush(Continue(s, rest).ring.items, 2, Stored(Continue(s, rest))) {
      BlockedUntilNextTicket(s, rest, 1);
    }
  }
}
