/** Every move keeps the whole invariant, so every reachable state satisfies it. */
module LoggerRuns {
  import opened Ring
  import opened Logger
  import opened LoggerInvariant
  import opened LoggerQueueSteps
  import opened LoggerWorker
  import opened LoggerShared
  import opened LoggerWake
  import opened LoggerWrites
  import opened LoggerExit
  import opened LoggerTickets
  import opened LoggerFrames
  import RingTheorems

  // ----- the invariant, part by part -----

  /** The parts of the invariant.  The invariant quantifies over them, so that a proof that mentions it
      deals only with the parts it asks for. */
  datatype Part =
    | RingPart | ClientPart | GatePart | TicketPart | CounterPart
    | WorkerPart | WakePart | WritePart | ExitPart | TracePart

  ghost predicate Holds(s: State, part: Part)
    requires Formed(s) && Counted(s.ring)
  {
    match part
    case RingPart => Inv(s.ring)
    case ClientPart => (forall u :: ClientOk(s, u)) && (forall u :: OrderOk(s, u))
    case GatePart => GateOk(s)
    case TicketPart => TicketsOk(s) && (forall p :: ItemOk(s, p)) && AnswersOk(s)
    case CounterPart => CountersOk(s)
    case WorkerPart => WorkerOk(s)
    case WakePart => WakeOk(s)
    case WritePart => WritesOk(s)
    case ExitPart => ExitOk(s)
    case TracePart => TraceOk(s)
  }

  ghost predicate Invariant(s: State) {
    Formed(s) && Counted(s.ring) && forall part :: Holds(s, part)
  }

  /** What every move preserves between two states: histories grow, what has ended stays ended, and
      no client goes back to an earlier call. */
  datatype Growth = HistoryGrowth | GateGrowth | ClaimGrowth | TraceGrowth | CallGrowth

  ghost predicate GrowsIn(s: State, s': State, growth: Growth)
    requires Formed(s) && SameShape(s, s')
  {
    match growth
    case HistoryGrowth =>
      && s.ring.items <= s'.ring.items && s.ring.dequeuePos <= s'.ring.dequeuePos
      && s.ticketClaims <= s'.ticketClaims && s.events <= s'.events && (s.failed ==> s'.failed)
    case GateGrowth => Closed(s.word) ==> Closed(s'.word) && Active(s'.word) <= Active(s.word)
    case ClaimGrowth =>
      Closed(s.word) ==>
        s'.ring.enqueuePos + Count(MayClaimFlags(s')) <= s.ring.enqueuePos + Count(MayClaimFlags(s))
    case TraceGrowth => Traces(s, s')
    case CallGrowth => forall u :: LaterCalls(s, s', u)
  }

  ghost predicate Grows(s: State, s': State)
    requires Formed(s)
  {
    SameShape(s, s') && forall growth :: GrowsIn(s, s', growth)
  }

  /** What is known of one client. */
  lemma OwnClient(s: State, u: nat)
    requires Invariant(s)
    ensures ClientOk(s, u) && OrderOk(s, u)
  {
    assert Holds(s, ClientPart);
  }

  /** Who claimed position p, and for which call. */
  lemma ItemAt(s: State, p: nat)
    requires Invariant(s) && p < |s.ring.items|
    ensures |s.ring.owners| == |s.ring.items| && s.ring.owners[p] < |s.pcs|
    ensures ItemOk(s, p) && Ordered(s, s.ring.owners[p]) && s.ring.items[p].producer == s.ring.owners[p]
  {
    assert Holds(s, TicketPart);
    assert ItemOk(s, p);
    OwnClient(s, s.ring.owners[p]);
  }

  // ----- client moves -----

  /** What has to be shown of a client step. */
  datatype Duty = EffectDuty | TallyDuty | AnnounceDuty | ClientDuty | OrderDuty | RingDuty

  ghost predicate Does(s: State, s': State, t: nat, duty: Duty)
    requires Formed(s) && SameShape(s, s') && t < |s.pcs|
  {
    match duty
    case EffectDuty => ClientEffect(s, s', t)
    case TallyDuty => Tallies(s, s', t)
    case AnnounceDuty => Announces(s, s', t)
    case ClientDuty => ClientOk(s', t)
    case OrderDuty => OrderOk(s', t) && LaterCalls(s, s', t)
    case RingDuty => Inv(s'.ring)
  }

  ghost predicate ClientDuties(s: State, s': State, t: nat)
    requires Formed(s)
  {
    SameShape(s, s') && t < |s.pcs| && forall duty :: Does(s, s', t, duty)
  }

  lemma OthersAfterClient(s: State, s': State, t: nat, u: nat)
    requires Formed(s) && Counted(s.ring) && t < |s.pcs| && ClientEffect(s, s', t)
    requires ClientOk(s, u) && OrderOk(s, u) && u != t
    ensures ClientOk(s', u) && OrderOk(s', u) && LaterCalls(s, s', u)
  {
    if u < |s.pcs| {
      ClientRely(s, s', t, u);
      RelyKeepsClient(s, s', u);
      RelyKeepsOrder(s, s', u);
    }
  }

  lemma ClientsAfterClient(s: State, s': State, t: nat)
    requires Invariant(s) && ClientDuties(s, s', t) && Counted(s'.ring)
    ensures Holds(s', ClientPart) && GrowsIn(s, s', CallGrowth)
  {
    assert Does(s, s', t, EffectDuty) && Does(s, s', t, ClientDuty) && Does(s, s', t, OrderDuty);
    forall u: nat ensures ClientOk(s', u) && OrderOk(s', u) && LaterCalls(s, s', u) {
      if u != t {
        OwnClient(s, u);
        OthersAfterClient(s, s', t, u);
      }
    }
  }

  lemma TicketsAfterClient(s: State, s': State, t: nat)
    requires Formed(s) && Counted(s.ring) && t < |s.pcs| && LocalOk(s, t) && ClientEffect(s, s', t)
    requires TicketsOk(s) && (forall p :: ItemOk(s, p)) && AnswersOk(s)
    ensures TicketsOk(s') && (forall p :: ItemOk(s', p)) && AnswersOk(s')
  {
    TicketsClient(s, s', t);
    forall p ensures ItemOk(s', p) {
      assert ItemOk(s, p);
      ItemClient(s, s', t, p);
    }
    AnswersClient(s, s', t);
  }

  /** What the step of client t must be known to do for one part of the invariant. */
  lemma PartAfterClient(s: State, s': State, t: nat, part: Part)
    requires Invariant(s) && SameShape(s, s') && t < |s.pcs| && Counted(s'.ring)
    requires ClientEffect(s, s', t) && Tallies(s, s', t) && Announces(s, s', t) && LocalOk(s, t)
    requires !part.RingPart? && !part.ClientPart?
    ensures Holds(s', part)
  {
    assert Holds(s, part);
    match part
    case GatePart => GateClient(s, s', t);
    case TicketPart => TicketsAfterClient(s, s', t);
    case CounterPart => CountersClient(s, s', t);
    case WorkerPart =>
      assert Holds(s, GatePart);
      GateClient(s, s', t);
      ClientKeepsWorker(s, s', t);
    case WakePart => WakeClient(s, s', t);
    case WritePart => WritesClient(s, s', t);
    case ExitPart =>
      assert Holds(s, GatePart);
      ExitClient(s, s', t);
    case TracePart => TraceClient(s, s', t);
  }

  lemma GrowsAfterClient(s: State, s': State, t: nat, growth: Growth)
    requires Invariant(s) && SameShape(s, s') && t < |s.pcs| && ClientEffect(s, s', t) && Tallies(s, s', t)
    requires !growth.CallGrowth?
    ensures GrowsIn(s, s', growth)
  {
    match growth
    case HistoryGrowth =>
    case GateGrowth =>
      assert Holds(s, GatePart);
      GateClient(s, s', t);
    case ClaimGrowth =>
      assert Holds(s, CounterPart);
      CountersClient(s, s', t);
    case TraceGrowth =>
      assert Holds(s, TracePart);
      TraceClient(s, s', t);
  }

  lemma ClientKeepsInv(s: State, s': State, t: nat)
    requires Invariant(s) && ClientDuties(s, s', t)
    ensures Invariant(s') && Grows(s, s')
  {
    OwnClient(s, t);
    assert Does(s, s', t, EffectDuty) && Does(s, s', t, TallyDuty) && Does(s, s', t, AnnounceDuty) && Does(s, s', t, RingDuty);
    ClientsAfterClient(s, s', t);
    forall part ensures Holds(s', part) {
      if part.RingPart? { assert Inv(s'.ring); }
      else if !part.ClientPart? { PartAfterClient(s, s', t, part); }
    }
    forall growth ensures GrowsIn(s, s', growth) {
      if !growth.CallGrowth? { GrowsAfterClient(s, s', t, growth); }
    }
  }

  // the phases of a client's call

  lemma EntryDuties(s: State, t: nat, c: Choice)
    requires Formed(s) && t < |s.pcs| && ClientOk(s, t) && OrderOk(s, t) && Inv(s.ring)
    requires s.pcs[t].StartCas? ==> Active(s.word) + 1 < GATE
    ensures ClientDuties(s, EntryStep(s, t, c), t)
  {
    forall duty ensures Does(s, EntryStep(s, t, c), t, duty) {
      match duty
      case EffectDuty => EntryEffect(s, t, c);
      case TallyDuty => EntryTallies(s, t, c);
      case AnnounceDuty => EntryAnnounces(s, t, c);
      case ClientDuty => EntryOk(s, t, c);
      case OrderDuty =>
        EntryOrder(s, t, c);
        KeepsNextKeepsOrder(s, EntryStep(s, t, c), t);
      case RingDuty => assert EntryStep(s, t, c).ring == s.ring;
    }
  }

  lemma EntryKeepsInv(s: State, t: nat, c: Choice)
    requires Invariant(s) && t < |s.pcs|
    ensures Invariant(EntryStep(s, t, c)) && Grows(s, EntryStep(s, t, c))
  {
    OwnClient(s, t);
    assert Holds(s, RingPart) && Holds(s, GatePart);
    if s.pcs[t].StartCas? { RoomForOneMore(s, t); }
    EntryDuties(s, t, c);
    ClientKeepsInv(s, EntryStep(s, t, c), t);
  }

  lemma CheckDuties(s: State, t: nat, c: Choice)
    requires Formed(s) && t < |s.pcs| && ClientOk(s, t) && OrderOk(s, t) && Inv(s.ring)
    requires |s.ticketClaims| == s.requested
    ensures ClientDuties(s, CheckStep(s, t, c), t)
  {
    forall duty ensures Does(s, CheckStep(s, t, c), t, duty) {
      match duty
      case EffectDuty => CheckEffect(s, t, c);
      case TallyDuty => CheckTallies(s, t, c);
      case AnnounceDuty => CheckAnnounces(s, t, c);
      case ClientDuty => CheckOk(s, t, c);
      case OrderDuty =>
        CheckOrder(s, t, c);
        KeepsNextKeepsOrder(s, CheckStep(s, t, c), t);
      case RingDuty => assert CheckStep(s, t, c).ring == s.ring;
    }
  }

  lemma CheckKeepsInv(s: State, t: nat, c: Choice)
    requires Invariant(s) && t < |s.pcs|
    ensures Invariant(CheckStep(s, t, c)) && Grows(s, CheckStep(s, t, c))
  {
    OwnClient(s, t);
    assert Holds(s, RingPart) && Holds(s, TicketPart);
    CheckDuties(s, t, c);
    ClientKeepsInv(s, CheckStep(s, t, c), t);
  }

  lemma PublishDuties(s: State, t: nat)
    requires Formed(s) && t < |s.pcs| && ClientOk(s, t) && OrderOk(s, t) && Inv(s.ring)
    requires Bound(s).Some? ==> s.failed
    ensures ClientDuties(s, PublishStep(s, t), t)
  {
    forall duty ensures Does(s, PublishStep(s, t), t, duty) {
      match duty
      case EffectDuty => PublishEffect(s, t);
      case TallyDuty => PublishTallies(s, t);
      case AnnounceDuty => PublishAnnounces(s, t);
      case ClientDuty => PublishOk(s, t);
      case OrderDuty =>
        PublishOrder(s, t);
        KeepsNextKeepsOrder(s, PublishStep(s, t), t);
      case RingDuty => if s.pcs[t].PublishCheck? { RingTheorems.CallOrReturnKeepsInv(s.ring, t, EnqLoad(s.pcs[t].item)); }
    }
  }

  lemma PublishKeepsInv(s: State, t: nat)
    requires Invariant(s) && t < |s.pcs|
    ensures Invariant(PublishStep(s, t)) && Grows(s, PublishStep(s, t))
  {
    OwnClient(s, t);
    assert Holds(s, RingPart) && Holds(s, WorkerPart);
    PublishDuties(s, t);
    ClientKeepsInv(s, PublishStep(s, t), t);
  }

  lemma UndoDuties(s: State, t: nat)
    requires Formed(s) && t < |s.pcs| && ClientOk(s, t) && OrderOk(s, t) && Inv(s.ring)
    ensures ClientDuties(s, UndoStep(s, t), t)
  {
    forall duty ensures Does(s, UndoStep(s, t), t, duty) {
      match duty
      case EffectDuty => UndoEffect(s, t);
      case TallyDuty => UndoTallies(s, t);
      case AnnounceDuty => UndoAnnounces(s, t);
      case ClientDuty => UndoOk(s, t);
      case OrderDuty =>
        UndoOrder(s, t);
        KeepsNextKeepsOrder(s, UndoStep(s, t), t);
      case RingDuty => assert UndoStep(s, t).ring == s.ring;
    }
  }

  lemma UndoKeepsInv(s: State, t: nat)
    requires Invariant(s) && t < |s.pcs|
    ensures Invariant(UndoStep(s, t)) && Grows(s, UndoStep(s, t))
  {
    OwnClient(s, t);
    assert Holds(s, RingPart);
    UndoDuties(s, t);
    ClientKeepsInv(s, UndoStep(s, t), t);
  }

  /** The ticket of a waiting flush is durable once a later or equal one is. */
  lemma TicketOrder(s: State, t: nat)
    requires Invariant(s) && t < |s.pcs|
    ensures s.pcs[t].AwaitLoad? && s.pcs[t].item.FlushItem? && s.pcs[t].item.ticket <= s.completed ==>
              s.failed || Durable(s, s.pcs[t].item.ticket)
  {
    OwnClient(s, t);
    assert Holds(s, WorkerPart) && Holds(s, TicketPart);
  }

  lemma AwaitDuties(s: State, t: nat)
    requires Formed(s) && t < |s.pcs| && ClientOk(s, t) && OrderOk(s, t) && Inv(s.ring)
    requires s.pcs[t].AwaitLoad? && s.pcs[t].item.FlushItem? && s.pcs[t].item.ticket <= s.completed ==>
               s.failed || Durable(s, s.pcs[t].item.ticket)
    ensures ClientDuties(s, AwaitStep(s, t), t)
  {
    forall duty ensures Does(s, AwaitStep(s, t), t, duty) {
      match duty
      case EffectDuty => AwaitEffect(s, t);
      case TallyDuty => AwaitTallies(s, t);
      case AnnounceDuty => AwaitAnnounces(s, t);
      case ClientDuty => AwaitOk(s, t);
      case OrderDuty =>
        AwaitOrder(s, t);
        KeepsNextKeepsOrder(s, AwaitStep(s, t), t);
      case RingDuty => assert AwaitStep(s, t).ring == s.ring;
    }
  }

  lemma AwaitKeepsInv(s: State, t: nat)
    requires Invariant(s) && t < |s.pcs|
    ensures Invariant(AwaitStep(s, t)) && Grows(s, AwaitStep(s, t))
  {
    OwnClient(s, t);
    assert Holds(s, RingPart);
    TicketOrder(s, t);
    AwaitDuties(s, t);
    ClientKeepsInv(s, AwaitStep(s, t), t);
  }

  lemma GuardIsCounted(s: State, t: nat)
    requires GateOk(s) && t < |s.pcs| && Live(s.pcs[t])
    ensures Active(s.word) > 0
  {
    LiveUpdate(s.pcs, t, Ready);
  }

  lemma FinishDuties(s: State, t: nat)
    requires Formed(s) && t < |s.pcs| && ClientOk(s, t) && OrderOk(s, t) && Inv(s.ring)
    requires s.word < WORD && (s.pcs[t].Finish? ==> Active(s.word) > 0)
    ensures ClientDuties(s, FinishStep(s, t), t)
  {
    forall duty ensures Does(s, FinishStep(s, t), t, duty) {
      match duty
      case EffectDuty => FinishEffect(s, t);
      case TallyDuty => FinishTallies(s, t);
      case AnnounceDuty => FinishAnnounces(s, t);
      case ClientDuty => FinishOk(s, t);
      case OrderDuty =>
        FinishOrder(s, t);
        KeepsNextKeepsOrder(s, FinishStep(s, t), t);
      case RingDuty => assert FinishStep(s, t).ring == s.ring;
    }
  }

  lemma FinishKeepsInv(s: State, t: nat)
    requires Invariant(s) && t < |s.pcs|
    ensures Invariant(FinishStep(s, t)) && Grows(s, FinishStep(s, t))
  {
    OwnClient(s, t);
    assert Holds(s, RingPart) && Holds(s, GatePart);
    if s.pcs[t].Finish? { GuardIsCounted(s, t); }
    FinishDuties(s, t);
    ClientKeepsInv(s, FinishStep(s, t), t);
  }

  lemma StopDuties(s: State, t: nat, c: Choice)
    requires Formed(s) && t < |s.pcs| && ClientOk(s, t) && OrderOk(s, t) && Inv(s.ring)
    ensures ClientDuties(s, StopStep(s, t, c), t)
  {
    forall duty ensures Does(s, StopStep(s, t, c), t, duty) {
      match duty
      case EffectDuty => StopEffect(s, t, c);
      case TallyDuty => StopTallies(s, t, c);
      case AnnounceDuty => StopAnnounces(s, t, c);
      case ClientDuty => StopOk(s, t, c);
      case OrderDuty =>
        StopOrder(s, t, c);
        KeepsNextKeepsOrder(s, StopStep(s, t, c), t);
      case RingDuty => assert StopStep(s, t, c).ring == s.ring;
    }
  }

  lemma StopKeepsInv(s: State, t: nat, c: Choice)
    requires Invariant(s) && t < |s.pcs|
    ensures Invariant(StopStep(s, t, c)) && Grows(s, StopStep(s, t, c))
  {
    OwnClient(s, t);
    assert Holds(s, RingPart);
    StopDuties(s, t, c);
    ClientKeepsInv(s, StopStep(s, t, c), t);
  }

  lemma EnqueueInsideDuties(s: State, t: nat, c: Choice)
    requires Formed(s) && Inv(s.ring) && t < |s.pcs| && ClientOk(s, t) && OrderOk(s, t)
    requires s.pcs[t].Enqueueing? && InEnqueue(s.ring.pcs[t])
    ensures ClientDuties(s, EnqueueStep(s, t, c), t)
  {
    var ring := Advance(s.ring, t, c.spurious);
    var s' := s.(ring := ring);
    AdvanceEnqueues(s.ring, t, c.spurious);
    forall duty ensures Does(s, s', t, duty) {
      match duty
      case EffectDuty => EnqueueInsideEffect(s, s', t, ring);
      case TallyDuty => EnqueueInsideTallies(s, s', t, ring);
      case AnnounceDuty => EnqueueInsideAnnounces(s, s', t, ring);
      case ClientDuty => EnqueueInsideEffect(s, s', t, ring);
      case OrderDuty => EnqueueInsideOrder(s, s', t, ring);
      case RingDuty => AdvanceKeepsInv(s.ring, t, c.spurious);
    }
  }

  lemma EnqueueReturnDuties(s: State, t: nat, c: Choice)
    requires Formed(s) && Inv(s.ring) && t < |s.pcs| && ClientOk(s, t) && OrderOk(s, t)
    requires !(s.pcs[t].Enqueueing? && InEnqueue(s.ring.pcs[t]))
    ensures ClientDuties(s, EnqueueStep(s, t, c), t)
  {
    assert PcOkAt(s.ring, t);
    forall duty ensures Does(s, EnqueueStep(s, t, c), t, duty) {
      match duty
      case EffectDuty => EnqueueReturnEffect(s, t, c);
      case TallyDuty => EnqueueReturnTallies(s, t, c);
      case AnnounceDuty => EnqueueReturnAnnounces(s, t, c);
      case ClientDuty => EnqueueReturnEffect(s, t, c);
      case OrderDuty =>
        EnqueueReturnOrder(s, t, c);
        KeepsNextKeepsOrder(s, EnqueueStep(s, t, c), t);
      case RingDuty => if s.pcs[t].Enqueueing? { RingTheorems.CallOrReturnKeepsInv(s.ring, t, Idle); }
    }
  }

  lemma EnqueueKeepsInv(s: State, t: nat, c: Choice)
    requires Invariant(s) && t < |s.pcs|
    ensures Invariant(EnqueueStep(s, t, c)) && Grows(s, EnqueueStep(s, t, c))
  {
    OwnClient(s, t);
    assert Holds(s, RingPart);
    if s.pcs[t].Enqueueing? && InEnqueue(s.ring.pcs[t]) { EnqueueInsideDuties(s, t, c); }
    else { EnqueueReturnDuties(s, t, c); }
    ClientKeepsInv(s, EnqueueStep(s, t, c), t);
  }

  // ----- worker moves -----

  ghost predicate WorkerDoes(s: State, s': State, part: Part)
    requires Formed(s) && SameShape(s, s')
  {
    match part
    case RingPart => Inv(s'.ring)
    case WorkerPart => WorkerOk(s')
    case WakePart => WakeOk(s')
    case WritePart => WritesOk(s')
    case ExitPart => ExitOk(s')
    case TracePart => Traces(s, s')
    case _ => WorkerEffect(s, s')
  }

  /** What has to be shown of a worker step, part by part. */
  ghost predicate WorkerDuties(s: State, s': State)
    requires Formed(s)
  {
    SameShape(s, s') && forall part :: WorkerDoes(s, s', part)
  }

  lemma ClientAfterWorker(s: State, s': State, u: nat)
    requires Formed(s) && Counted(s.ring) && ClientOk(s, u) && OrderOk(s, u) && WorkerEffect(s, s')
    requires |s.ticketClaims| == s.requested
    ensures ClientOk(s', u) && OrderOk(s', u) && LaterCalls(s, s', u)
  {
    if u < |s.pcs| {
      WorkerRely(s, s', u);
      RelyKeepsClient(s, s', u);
      RelyKeepsOrder(s, s', u);
    }
  }

  lemma ClientsAfterWorker(s: State, s': State)
    requires Invariant(s) && WorkerEffect(s, s') && Counted(s'.ring) && |s.ticketClaims| == s.requested
    ensures Holds(s', ClientPart) && GrowsIn(s, s', CallGrowth)
  {
    forall u: nat ensures ClientOk(s', u) && OrderOk(s', u) && LaterCalls(s, s', u) {
      OwnClient(s, u);
      ClientAfterWorker(s, s', u);
    }
  }

  lemma TicketsAfterWorker(s: State, s': State)
    requires Formed(s) && Counted(s.ring) && WorkerEffect(s, s')
    requires TicketsOk(s) && (forall p :: ItemOk(s, p)) && AnswersOk(s)
    ensures TicketsOk(s') && (forall p :: ItemOk(s', p)) && AnswersOk(s')
  {
    forall p ensures ItemOk(s', p) {
      assert ItemOk(s, p);
    }
  }

  lemma PartAfterWorker(s: State, s': State, part: Part)
    requires Invariant(s) && WorkerEffect(s, s') && Counted(s'.ring)
    requires part.GatePart? || part.TicketPart? || part.CounterPart?
    ensures Holds(s', part)
  {
    assert Holds(s, part);
    match part
    case GatePart =>
    case TicketPart => TicketsAfterWorker(s, s');
    case CounterPart => CountersWorker(s, s');
  }

  lemma GrowsAfterWorker(s: State, s': State, growth: Growth)
    requires Invariant(s) && WorkerEffect(s, s') && Traces(s, s') && !growth.CallGrowth?
    ensures GrowsIn(s, s', growth)
  {
    if growth.ClaimGrowth? {
      assert Holds(s, CounterPart);
      CountersWorker(s, s');
    }
    if growth.GateGrowth? { assert Holds(s, GatePart); }
  }

  lemma WorkerKeepsInv(s: State, s': State)
    requires Invariant(s) && WorkerDuties(s, s')
    ensures Invariant(s') && Grows(s, s')
  {
    assert WorkerDoes(s, s', ClientPart) && WorkerDoes(s, s', RingPart) && WorkerDoes(s, s', TracePart);
    assert Holds(s, TicketPart);
    ClientsAfterWorker(s, s');
    forall part ensures Holds(s', part) {
      if part.GatePart? || part.TicketPart? || part.CounterPart? { PartAfterWorker(s, s', part); }
      else if !part.ClientPart? { assert WorkerDoes(s, s', part); }
    }
    forall growth ensures GrowsIn(s, s', growth) {
      if !growth.CallGrowth? { GrowsAfterWorker(s, s', growth); }
    }
  }

  lemma BeginDequeueDuties(s: State)
    requires Formed(s) && Counted(s.ring)
    requires Inv(s.ring) && WorkerOk(s) && WakeOk(s) && WritesOk(s) && ExitOk(s) && TraceOk(s)
    ensures WorkerDuties(s, BeginDequeueStep(s))
  {
    forall part ensures WorkerDoes(s, BeginDequeueStep(s), part) {
      match part
      case RingPart => if s.worker.CallDequeue? { RingTheorems.CallOrReturnKeepsInv(s.ring, WorkerId(s), DeqLoad); }
      case WakePart => BeginDequeueWake(s);
      case WritePart =>
        BeginDequeueWrites(s);
        SameWritesKeeps(s, BeginDequeueStep(s));
      case ExitPart => BeginDequeueExit(s);
      case TracePart => BeginDequeueTrace(s);
      case _ => BeginDequeueWorker(s);
    }
  }

  lemma BeginDequeueKeepsInv(s: State)
    requires Invariant(s)
    ensures Invariant(BeginDequeueStep(s)) && Grows(s, BeginDequeueStep(s))
  {
    assert Holds(s, RingPart) && Holds(s, WorkerPart) && Holds(s, WakePart) && Holds(s, WritePart) && Holds(s, ExitPart);
    assert Holds(s, TracePart);
    BeginDequeueDuties(s);
    WorkerKeepsInv(s, BeginDequeueStep(s));
  }

  /** An empty report leaves no announced work behind. */
  lemma WhatEmptyMeans(s: State, spurious: bool)
    requires Invariant(s) && s.worker.Dequeuing? && InDequeue(s.ring.pcs[WorkerId(s)])
    ensures Advance(s.ring, WorkerId(s), spurious).pcs[WorkerId(s)].DeqEmpty? ==>
              HeadUnannounced(s) && (Quiet(s) ==> s.ring.dequeuePos == s.ring.enqueuePos)
  {
    if Advance(s.ring, WorkerId(s), spurious).pcs[WorkerId(s)].DeqEmpty? {
      assert Holds(s, RingPart) && Holds(s, ClientPart) && Holds(s, GatePart) && Holds(s, WorkerPart);
      assert PcOkAt(s.ring, WorkerId(s));
      RingTheorems.EmptyIsHonest(s.ring, WorkerId(s), spurious);
      EmptyLeavesHeadUnannounced(s);
      if Quiet(s) { QuietLook(s); }
    }
  }

  lemma DequeueInsideDuties(s: State, s': State, ring: Ring<Item>, look: Look)
    requires Invariant(s) && s.worker.Dequeuing? && InDequeue(s.ring.pcs[WorkerId(s)])
    requires Shaped(ring) && DequeueEffect(s.ring, ring, WorkerId(s)) && Inv(ring)
    requires s' == s.(ring := ring, look := look)
    requires look == if ring.pcs[WorkerId(s)].DeqEmpty? then LookNow(s) else s.look
    requires ring.pcs[WorkerId(s)].DeqEmpty? ==>
               HeadUnannounced(s) && (Quiet(s) ==> s.ring.dequeuePos == s.ring.enqueuePos)
    ensures WorkerDuties(s, s')
  {
    assert Holds(s, WorkerPart);
    DequeueInside(s, s', ring, look);
    forall part ensures WorkerDoes(s, s', part) {
      assert Holds(s, part);
      match part
      case WakePart => DequeueInsideWake(s, s', ring, look);
      case WritePart =>
        DequeueInsideWrites(s, s', ring, look);
        SameWritesKeeps(s, s');
      case ExitPart => DequeueInsideExit(s, s', ring, look);
      case TracePart => DequeueInsideTrace(s, s', ring, look);
      case _ =>
    }
  }

  /** A step inside TryDequeue, as the ring sees it. */
  lemma DequeueInsideRing(s: State, spurious: bool)
    requires Invariant(s) && s.worker.Dequeuing? && InDequeue(s.ring.pcs[WorkerId(s)])
    ensures var ring := Advance(s.ring, WorkerId(s), spurious);
            DequeueEffect(s.ring, ring, WorkerId(s)) && Inv(ring)
  {
    assert Holds(s, RingPart);
    assert PcOkAt(s.ring, WorkerId(s));
    AdvanceKeepsInv(s.ring, WorkerId(s), spurious);
    AdvanceDequeues(s.ring, WorkerId(s), spurious);
  }

  lemma DequeueReturnDuties(s: State, c: Choice)
    requires Formed(s) && Inv(s.ring) && WorkerOk(s) && WakeOk(s) && WritesOk(s) && ExitOk(s) && TraceOk(s)
    requires !(s.worker.Dequeuing? && InDequeue(s.ring.pcs[WorkerId(s)]))
    ensures WorkerDuties(s, DequeueStep(s, c))
  {
    forall part ensures WorkerDoes(s, DequeueStep(s, c), part) {
      match part
      case RingPart => if s.worker.Dequeuing? { RingTheorems.CallOrReturnKeepsInv(s.ring, WorkerId(s), Idle); }
      case WakePart => DequeueReturnWake(s, c);
      case WritePart =>
        DequeueReturnWrites(s, c);
        SameWritesKeeps(s, DequeueStep(s, c));
      case ExitPart => DequeueReturnExit(s, c);
      case TracePart => DequeueReturnTrace(s, c);
      case _ => DequeueReturn(s, c);
    }
  }

  lemma DequeueInsideKeepsInv(s: State, c: Choice)
    requires Invariant(s) && s.worker.Dequeuing? && InDequeue(s.ring.pcs[WorkerId(s)])
    ensures Invariant(DequeueStep(s, c)) && Grows(s, DequeueStep(s, c))
  {
    var ring := Advance(s.ring, WorkerId(s), c.spurious);
    DequeueInsideRing(s, c.spurious);
    WhatEmptyMeans(s, c.spurious);
    DequeueInsideDuties(s, DequeueStep(s, c), ring, if ring.pcs[WorkerId(s)].DeqEmpty? then LookNow(s) else s.look);
    WorkerKeepsInv(s, DequeueStep(s, c));
  }

  lemma DequeueReturnKeepsInv(s: State, c: Choice)
    requires Invariant(s) && !(s.worker.Dequeuing? && InDequeue(s.ring.pcs[WorkerId(s)]))
    ensures Invariant(DequeueStep(s, c)) && Grows(s, DequeueStep(s, c))
  {
    assert Holds(s, RingPart) && Holds(s, WorkerPart) && Holds(s, WakePart) && Holds(s, WritePart) && Holds(s, ExitPart);
    assert Holds(s, TracePart);
    DequeueReturnDuties(s, c);
    WorkerKeepsInv(s, DequeueStep(s, c));
  }

  lemma HandleKeepsWrites(s: State, c: Choice)
    requires Formed(s) && Counted(s.ring) && WorkerLocal(s) && WritesOk(s)
    ensures WritesOk(HandleStep(s, c))
  {
    HandleWrites(s, c);
    if SameWrites(s, HandleStep(s, c)) {
      SameWritesKeeps(s, HandleStep(s, c));
    } else if FlushesSink(s, HandleStep(s, c)) {
      FlushKeeps(s, HandleStep(s, c));
    } else {
      WriteKeeps(s, HandleStep(s, c));
    }
  }

  lemma HandleDuties(s: State, c: Choice)
    requires Formed(s) && Counted(s.ring)
    requires Inv(s.ring) && WorkerOk(s) && WakeOk(s) && WritesOk(s) && ExitOk(s) && TraceOk(s)
    requires |s.ticketClaims| == s.requested && (s.worker.SinkItem? ==> ItemOk(s, s.ring.dequeuePos - 1))
    ensures WorkerDuties(s, HandleStep(s, c))
  {
    forall part ensures WorkerDoes(s, HandleStep(s, c), part) {
      match part
      case RingPart => assert HandleStep(s, c).ring == s.ring;
      case WakePart => HandleWake(s, c);
      case WritePart => HandleKeepsWrites(s, c);
      case ExitPart => HandleExit(s, c);
      case TracePart => HandleTrace(s, c);
      case _ => HandleWorker(s, c);
    }
  }

  lemma HandleKeepsInv(s: State, c: Choice)
    requires Invariant(s)
    ensures Invariant(HandleStep(s, c)) && Grows(s, HandleStep(s, c))
  {
    assert Holds(s, RingPart) && Holds(s, WorkerPart) && Holds(s, WakePart) && Holds(s, WritePart) && Holds(s, ExitPart);
    assert Holds(s, TracePart);
    assert Holds(s, TicketPart);
    if s.worker.SinkItem? { assert ItemOk(s, s.ring.dequeuePos - 1); }
    HandleDuties(s, c);
    WorkerKeepsInv(s, HandleStep(s, c));
  }

  lemma TurnKeepsWrites(s: State, c: Choice)
    requires Formed(s) && Counted(s.ring) && WritesOk(s)
    ensures WritesOk(TurnStep(s, c))
  {
    TurnWrites(s, c);
    if SameWrites(s, TurnStep(s, c)) { SameWritesKeeps(s, TurnStep(s, c)); } else { FlushKeeps(s, TurnStep(s, c)); }
  }

  lemma TurnDuties(s: State, c: Choice)
    requires Formed(s) && Counted(s.ring)
    requires Inv(s.ring) && WorkerOk(s) && WakeOk(s) && WritesOk(s) && ExitOk(s) && TraceOk(s)
    requires s.worker.FlushRequired? || s.worker.FlushIfDue? || s.worker.FinalFlush?
    ensures WorkerDuties(s, TurnStep(s, c))
  {
    forall part ensures WorkerDoes(s, TurnStep(s, c), part) {
      match part
      case RingPart => assert TurnStep(s, c).ring == s.ring;
      case WorkerPart => TurnWorker(s, c);
      case WakePart => TurnWake(s, c);
      case WritePart => TurnKeepsWrites(s, c);
      case ExitPart => TurnExit(s, c);
      case TracePart => TurnTrace(s, c);
      case _ => TurnEffect(s, c);
    }
  }

  lemma TurnKeepsInv(s: State, c: Choice)
    requires Invariant(s) && (s.worker.FlushRequired? || s.worker.FlushIfDue? || s.worker.FinalFlush?)
    ensures Invariant(TurnStep(s, c)) && Grows(s, TurnStep(s, c))
  {
    assert Holds(s, RingPart) && Holds(s, WorkerPart) && Holds(s, WakePart) && Holds(s, WritePart) && Holds(s, ExitPart);
    assert Holds(s, TracePart);
    TurnDuties(s, c);
    WorkerKeepsInv(s, TurnStep(s, c));
  }

  lemma ExitTestDuties(s: State)
    requires Formed(s) && Counted(s.ring)
    requires Inv(s.ring) && WorkerOk(s) && WakeOk(s) && WritesOk(s) && ExitOk(s) && TraceOk(s)
    ensures WorkerDuties(s, ExitTestStep(s))
  {
    forall part ensures WorkerDoes(s, ExitTestStep(s), part) {
      match part
      case RingPart => assert ExitTestStep(s).ring == s.ring;
      case WakePart => ExitTestWake(s);
      case WritePart =>
        ExitTestWrites(s);
        SameWritesKeeps(s, ExitTestStep(s));
      case ExitPart => ExitTestExit(s);
      case TracePart => ExitTestTrace(s);
      case _ => ExitTestWorker(s);
    }
  }

  lemma ExitTestKeepsInv(s: State)
    requires Invariant(s)
    ensures Invariant(ExitTestStep(s)) && Grows(s, ExitTestStep(s))
  {
    assert Holds(s, RingPart) && Holds(s, WorkerPart) && Holds(s, WakePart) && Holds(s, WritePart) && Holds(s, ExitPart);
    assert Holds(s, TracePart);
    ExitTestDuties(s);
    WorkerKeepsInv(s, ExitTestStep(s));
  }

  lemma WaitDuties(s: State, c: Choice)
    requires Formed(s) && Counted(s.ring)
    requires Inv(s.ring) && WorkerOk(s) && WakeOk(s) && WritesOk(s) && ExitOk(s) && TraceOk(s)
    requires s.word < WORD
    ensures WorkerDuties(s, WaitStep(s, c))
  {
    forall part ensures WorkerDoes(s, WaitStep(s, c), part) {
      match part
      case RingPart => assert WaitStep(s, c).ring == s.ring;
      case WakePart => WaitWake(s, c);
      case WritePart =>
        WaitWrites(s, c);
        SameWritesKeeps(s, WaitStep(s, c));
      case ExitPart => WaitExit(s, c);
      case TracePart => WaitTrace(s, c);
      case _ => WaitWorker(s, c);
    }
  }

  lemma WaitKeepsInv(s: State, c: Choice)
    requires Invariant(s)
    ensures Invariant(WaitStep(s, c)) && Grows(s, WaitStep(s, c))
  {
    assert Holds(s, RingPart) && Holds(s, WorkerPart) && Holds(s, WakePart) && Holds(s, WritePart) && Holds(s, ExitPart);
    assert Holds(s, TracePart);
    assert Holds(s, GatePart);
    WaitDuties(s, c);
    WorkerKeepsInv(s, WaitStep(s, c));
  }

  lemma FailDuties(s: State, c: Choice)
    requires Formed(s) && Counted(s.ring)
    requires Inv(s.ring) && WorkerOk(s) && WakeOk(s) && WritesOk(s) && ExitOk(s) && TraceOk(s)
    requires s.word < WORD
    ensures WorkerDuties(s, FailStep(s, c))
  {
    forall part ensures WorkerDoes(s, FailStep(s, c), part) {
      match part
      case RingPart => assert FailStep(s, c).ring == s.ring;
      case WorkerPart => FailWorker(s, c);
      case WakePart => FailWake(s, c);
      case WritePart =>
        FailWrites(s, c);
        SameWritesKeeps(s, FailStep(s, c));
      case ExitPart => FailExit(s, c);
      case TracePart => FailTrace(s, c);
      case _ => FailEffect(s, c);
    }
  }

  lemma FailKeepsInv(s: State, c: Choice)
    requires Invariant(s)
    ensures Invariant(FailStep(s, c)) && Grows(s, FailStep(s, c))
  {
    assert Holds(s, RingPart) && Holds(s, WorkerPart) && Holds(s, WakePart) && Holds(s, WritePart) && Holds(s, ExitPart);
    assert Holds(s, TracePart);
    assert Holds(s, GatePart);
    FailDuties(s, c);
    WorkerKeepsInv(s, FailStep(s, c));
  }

  // ----- all moves -----

  lemma LaterTrans(a: State, b: State, c: State, u: nat)
    requires Formed(a) && SameShape(a, b) && SameShape(b, c) && b.ring.items <= c.ring.items
    requires LaterCalls(a, b, u) && LaterCalls(b, c, u)
    ensures LaterCalls(a, c, u)
  {
  }

  lemma CallsTrans(a: State, b: State, c: State)
    requires Formed(a) && SameShape(a, b) && SameShape(b, c) && b.ring.items <= c.ring.items
    requires GrowsIn(a, b, CallGrowth) && GrowsIn(b, c, CallGrowth)
    ensures GrowsIn(a, c, CallGrowth)
  {
    forall u ensures LaterCalls(a, c, u) {
      assert LaterCalls(a, b, u) && LaterCalls(b, c, u);
      LaterTrans(a, b, c, u);
    }
  }

  lemma GrowsTrans(a: State, b: State, c: State)
    requires Formed(a) && Grows(a, b) && Grows(b, c)
    ensures Grows(a, c)
  {
    assert GrowsIn(b, c, HistoryGrowth) && GrowsIn(a, b, GateGrowth);
    forall growth ensures GrowsIn(a, c, growth) {
      assert GrowsIn(a, b, growth) && GrowsIn(b, c, growth);
      if growth.CallGrowth? { CallsTrans(a, b, c); }
    }
  }

  lemma GrowsItself(s: State)
    requires Invariant(s)
    ensures Grows(s, s)
  {
    assert Holds(s, TracePart);
    forall growth ensures GrowsIn(s, s, growth) {
    }
  }

  lemma ClientMoveKeepsInv(s: State, move: Move)
    requires Invariant(s) && !IsWorkerMove(move) && move.t < |s.pcs|
    ensures Invariant(Apply(s, move)) && Grows(s, Apply(s, move))
  {
    match move
    case Entry(t, c) => EntryKeepsInv(s, t, c);
    case Check(t, c) => CheckKeepsInv(s, t, c);
    case Publish(t) => PublishKeepsInv(s, t);
    case Undo(t) => UndoKeepsInv(s, t);
    case Enqueue(t, c) => EnqueueKeepsInv(s, t, c);
    case Await(t) => AwaitKeepsInv(s, t);
    case FinishOperation(t) => FinishKeepsInv(s, t);
    case Stop(t, c) => StopKeepsInv(s, t, c);
  }

  lemma DequeueKeepsInv(s: State, c: Choice)
    requires Invariant(s)
    ensures Invariant(DequeueStep(s, c)) && Grows(s, DequeueStep(s, c))
  {
    if s.worker.Dequeuing? && InDequeue(s.ring.pcs[WorkerId(s)]) { DequeueInsideKeepsInv(s, c); }
    else { DequeueReturnKeepsInv(s, c); }
  }

  lemma AnyTurnKeepsInv(s: State, c: Choice)
    requires Invariant(s)
    ensures Invariant(TurnStep(s, c)) && Grows(s, TurnStep(s, c))
  {
    if s.worker.FlushRequired? || s.worker.FlushIfDue? || s.worker.FinalFlush? { TurnKeepsInv(s, c); }
    else { GrowsItself(s); }
  }

  lemma WorkerMoveKeepsInv(s: State, move: Move)
    requires Invariant(s) && IsWorkerMove(move)
    ensures Invariant(Apply(s, move)) && Grows(s, Apply(s, move))
  {
    match move
    case BeginDequeue => BeginDequeueKeepsInv(s);
    case Dequeue(c) => DequeueKeepsInv(s, c);
    case Handle(c) => HandleKeepsInv(s, c);
    case Turn(c) => AnyTurnKeepsInv(s, c);
    case ExitTest => ExitTestKeepsInv(s);
    case Wait(c) => WaitKeepsInv(s, c);
    case Fail(c) => FailKeepsInv(s, c);
  }

  lemma MoveKeepsInv(s: State, move: Move)
    requires Invariant(s)
    ensures Invariant(Apply(s, move)) && Grows(s, Apply(s, move))
  {
    if IsWorkerMove(move) { WorkerMoveKeepsInv(s, move); }
    else if move.t < |s.pcs| { ClientMoveKeepsInv(s, move); }
    else { GrowsItself(s); }
  }

  lemma StartInvariant(cfg: Config, capacity: nat, clients: nat)
    requires 2 <= capacity && clients < GATE
    ensures Invariant(Start(cfg, capacity, clients))
  {
    var s := Start(cfg, capacity, clients);
    RingTheorems.InitialInv<Item>(capacity, clients + 1);
    forall part ensures Holds(s, part) {
      match part
      case GatePart => CountBounds(LiveFlags(s.pcs));
      case CounterPart =>
        CountBounds(PendingFlags(s));
        CountBounds(UncountedFlags(s));
      case _ =>
    }
  }

  lemma {:induction false} ContinueKeepsInv(s: State, moves: seq<Move>)
    requires Invariant(s)
    ensures Invariant(Continue(s, moves)) && Grows(s, Continue(s, moves))
  {
    if moves == [] {
      GrowsItself(s);
    } else {
      var n := |moves| - 1;
      ContinueKeepsInv(s, moves[..n]);
      MoveKeepsInv(Continue(s, moves[..n]), moves[n]);
      GrowsTrans(s, Continue(s, moves[..n]), Continue(s, moves));
    }
  }

  /** Going on twice is going on once. */
  lemma {:induction false} ContinueTwice(s: State, a: seq<Move>, b: seq<Move>)
    requires Formed(s)
    ensures Continue(s, a + b) == Continue(Continue(s, a), b)
  {
    if b == [] {
      assert a + b == a;
    } else {
      var n := |b| - 1;
      assert (a + b)[..|a + b| - 1] == a + b[..n] && (a + b)[|a + b| - 1] == b[n];
      ContinueTwice(s, a, b[..n]);
    }
  }

  lemma ContinueOnce(s: State, move: Move)
    requires Formed(s)
    ensures Continue(s, [move]) == Apply(s, move)
  {
    assert [move][..0] == [];
  }

  /** Every reachable state satisfies the invariant. */
  lemma Reachable(cfg: Config, capacity: nat, clients: nat, moves: seq<Move>)
    requires 2 <= capacity && clients < GATE
    ensures Invariant(Run(cfg, capacity, clients, moves))
  {
    StartInvariant(cfg, capacity, clients);
    ContinueKeepsInv(Start(cfg, capacity, clients), moves);
  }
}
