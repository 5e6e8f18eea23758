/** The invariant of the logger: what holds of each client, of the worker and of the shared counters
    in every reachable state, and what one step may change as seen by everybody else. */
module LoggerInvariant {
  import opened Options
  import opened Ring
  import opened Logger

  // ----- clients -----

  predicate Unclaimed(pc: Pc<Item>) {
    pc.EnqLoad? || pc.EnqSequence? || pc.EnqCas? || pc.EnqRefused?
  }

  /** The client is inside TryEnqueue with this item, or its claimed position holds it. */
  ghost predicate Carrying(r: Ring<Item>, pc: Pc<Item>, item: Item) {
    match pc
    case EnqLoad(it) => it == item
    case EnqSequence(it, _) => it == item
    case EnqCas(it, _) => it == item
    case EnqRefused(it) => it == item
    case EnqWrite(_, pos) => pos < |r.items| && r.items[pos] == item
    case EnqStore(pos) => pos < |r.items| && r.items[pos] == item
    case EnqAccepted(pos) => pos < |r.items| && r.items[pos] == item
    case _ => false
  }

  ghost predicate Coupled(s: State, u: nat)
    requires Formed(s) && u < |s.pcs|
  {
    if s.pcs[u].Enqueueing? then Carrying(s.ring, s.ring.pcs[u], s.pcs[u].item) else s.ring.pcs[u].Idle?
  }

  /** The log and flush items claimed before ticket k was taken precede the last sink flush. */
  ghost predicate Durable(s: State, k: nat) {
    1 <= k <= |s.ticketClaims| && s.ticketClaims[k - 1] <= s.flushedPos
  }

  ghost predicate Ticketed(s: State, item: Item) {
    item.FlushItem? ==> 1 <= item.ticket <= |s.ticketClaims|
  }

  ghost predicate LocalOk(s: State, u: nat)
    requires u < |s.pcs|
  {
    match s.pcs[u]
    case StartCas(_, word) => !Closed(word)
    case StopCas(word) => !Closed(word)
    case CheckJoinable(item) => item.FlushItem?
    case CheckLevel(item) => item.LogItem?
    case TakeTicket(item) => item.FlushItem?
    case CountUp(item) => item.LogItem?
    case PublishCheck(item) => Ticketed(s, item)
    case Enqueueing(item) => Ticketed(s, item)
    case Notify(item, pos) =>
      Ticketed(s, item) && pos < |s.ring.items| && s.ring.items[pos] == item
      && pos < |s.ring.owners| && s.ring.owners[pos] == u
    case UndoDrop(item) => item.LogItem?
    case CountDrop(item) => item.LogItem?
    case UndoFail(item) => item.LogItem? && s.failed
    case AwaitLoad(item) => item.FlushItem? && Ticketed(s, item)
    case AwaitCheck(item, seen) => item.FlushItem? && Ticketed(s, item) && seen < item.ticket
    case AwaitChange(item, seen) => item.FlushItem? && Ticketed(s, item) && seen < item.ticket
    case AwaitFinal(item) => item.FlushItem? && Ticketed(s, item) && (s.failed || Durable(s, item.ticket))
    case Finish(Logged(pos)) => pos < |s.ring.items| && s.ring.items[pos].LogItem?
    case Finish(Flushed(k)) => Durable(s, k)
    case _ => true
  }

  /** The ticket a client has put, or is putting, into the ring. */
  function SentTicket(pc: ClientPc): Option<nat> {
    match pc
    case Enqueueing(item) => if item.FlushItem? then Some(item.ticket) else None
    case Notify(item, _) => if item.FlushItem? then Some(item.ticket) else None
    case AwaitLoad(item) => if item.FlushItem? then Some(item.ticket) else None
    case AwaitCheck(item, _) => if item.FlushItem? then Some(item.ticket) else None
    case AwaitChange(item, _) => if item.FlushItem? then Some(item.ticket) else None
    case _ => None
  }

  /** Once a failing worker has read the request counter, the ticket it releases everybody with. */
  function Bound(s: State): Option<nat> {
    match s.worker
    case FailComplete(_, ticket) => Some(ticket)
    case FailNotify(_) => Some(s.completed)
    case Failed(_) => Some(s.completed)
    case _ => None
  }

  ghost predicate Bounded(s: State, u: nat)
    requires u < |s.pcs|
  {
    SentTicket(s.pcs[u]).Some? && Bound(s).Some? ==> SentTicket(s.pcs[u]).value <= Bound(s).value
  }

  /** The item of a running call that has not claimed a position yet. */
  function FreshItem(pc: ClientPc, inRing: Pc<Item>): Option<Item> {
    match pc
    case StartLoad(item) => Some(item)
    case StartCas(item, _) => Some(item)
    case CheckJoinable(item) => Some(item)
    case CheckFailure(item) => Some(item)
    case CheckLevel(item) => Some(item)
    case TakeTicket(item) => Some(item)
    case CountUp(item) => Some(item)
    case PublishCheck(item) => Some(item)
    case Enqueueing(item) => if Unclaimed(inRing) then Some(item) else None
    case _ => None
  }

  /** The number of the call that will claim the next position for client u. */
  function NextCall(s: State, u: nat): nat
    requires Formed(s) && u < |s.pcs|
  {
    var coming := FreshItem(s.pcs[u], s.ring.pcs[u]);
    if coming.Some? then coming.value.call else s.calls[u]
  }

  ghost predicate ComingOk(s: State, u: nat)
    requires Formed(s) && u < |s.pcs|
  {
    var coming := FreshItem(s.pcs[u], s.ring.pcs[u]);
    coming.Some? ==> coming.value.producer == u && coming.value.call < s.calls[u]
  }

  /** The positions claimed by u hold u's items in the order of u's calls, and a call that has not
      claimed yet comes after all of them. */
  ghost predicate Ordered(s: State, u: nat)
    requires Formed(s) && u < |s.pcs|
  {
    var r := s.ring;
    && |r.owners| == |r.items|
    && (forall p | 0 <= p < |r.owners| && r.owners[p] == u ::
          r.items[p].producer == u && r.items[p].call < NextCall(s, u))
    && (forall p, q | 0 <= p < q < |r.owners| && r.owners[p] == u && r.owners[q] == u ::
          r.items[p].call < r.items[q].call)
    && ComingOk(s, u)
  }

  /** The next call of u never goes back, and whatever u claims belongs to it or to a later one. */
  ghost predicate LaterCalls(s: State, s': State, u: nat)
    requires Formed(s)
  {
    u < |s.pcs| ==>
      && SameShape(s, s') && NextCall(s, u) <= NextCall(s', u) && s.calls[u] <= s'.calls[u]
      && s.ring.owners <= s'.ring.owners && |s'.ring.owners| == |s'.ring.items|
      && forall p | |s.ring.owners| <= p < |s'.ring.owners| && s'.ring.owners[p] == u ::
           s'.ring.items[p].call >= NextCall(s, u)
  }

  ghost predicate ClientOk(s: State, u: nat)
    requires Formed(s)
  {
    u < |s.pcs| ==> Coupled(s, u) && LocalOk(s, u) && Bounded(s, u)
  }

  ghost predicate OrderOk(s: State, u: nat)
    requires Formed(s)
  {
    u < |s.pcs| ==> Ordered(s, u)
  }

  // ----- what a step of somebody else looks like to client u -----

  /** The ring's histories only grow, and a position claimed by another thread is not u's. */
  ghost predicate Rely(s: State, s': State, u: nat)
    requires Formed(s) && u < |s.pcs|
  {
    && SameShape(s, s')
    && s'.pcs[u] == s.pcs[u] && s'.ring.pcs[u] == s.ring.pcs[u] && s'.calls[u] == s.calls[u]
    && s.ring.items <= s'.ring.items && s.ring.owners <= s'.ring.owners
    && |s'.ring.items| == |s'.ring.owners|
    && (forall p | |s.ring.owners| <= p < |s'.ring.owners| :: s'.ring.owners[p] != u)
    && s.ticketClaims <= s'.ticketClaims && s.flushedPos <= s'.flushedPos
    && (s.failed ==> s'.failed)
    && (Bound(s').Some? ==> Bound(s') == Bound(s) || |s.ticketClaims| <= Bound(s').value)
  }

  lemma RelyKeepsClient(s: State, s': State, u: nat)
    requires Formed(s) && u < |s.pcs| && Rely(s, s', u) && ClientOk(s, u)
    ensures ClientOk(s', u)
  {
  }

  lemma RelyKeepsOrder(s: State, s': State, u: nat)
    requires Formed(s) && u < |s.pcs| && Rely(s, s', u) && OrderOk(s, u)
    ensures OrderOk(s', u) && LaterCalls(s, s', u)
  {
  }

  // ----- what a client step does -----

  ghost predicate Claims(s: State, s': State, t: nat)
    requires Formed(s) && t < |s.pcs|
  {
    var r, r', coming := s.ring, s'.ring, FreshItem(s.pcs[t], s.ring.pcs[t]);
    || (r'.items == r.items && r'.owners == r.owners && r'.enqueuePos == r.enqueuePos)
    || (&& coming.Some? && s.pcs[t].Enqueueing? && s'.pcs == s.pcs && r'.items == r.items + [coming.value] && r'.owners == r.owners + [t]
        && r'.enqueuePos == r.enqueuePos + 1 && s'.ticketClaims == s.ticketClaims)
  }

  ghost predicate Tickets(s: State, s': State) {
    || (s'.requested == s.requested && s'.ticketClaims == s.ticketClaims)
    || (s'.requested == s.requested + 1 && s'.ticketClaims == s.ticketClaims + [s.ring.enqueuePos])
  }

  /** What a finishing call reports. */
  ghost predicate Answers(s: State, s': State, t: nat)
    requires t < |s.pcs|
  {
    || (s'.acknowledged == s.acknowledged && s'.accepted == s.accepted)
    || (&& s.pcs[t].Finish? && s.pcs[t].outcome.Flushed? && s'.accepted == s.accepted
        && s'.acknowledged == s.acknowledged + {s.pcs[t].outcome.ticket})
    || (&& s.pcs[t].Finish? && s.pcs[t].outcome.Logged? && s'.acknowledged == s.acknowledged
        && s'.accepted == s.accepted + {s.pcs[t].outcome.pos})
  }

  /** A call holds the operation guard from its entry to its FinishOperation. */
  predicate Live(pc: ClientPc) {
    !(pc.Ready? || pc.StartLoad? || pc.StartCas? || pc.FinishNotify?
      || pc.StopLoad? || pc.StopCas? || pc.StopNotify? || pc.StopJoin?)
  }

  ghost predicate MovesWord(s: State, s': State, t: nat)
    requires t < |s.pcs| == |s'.pcs|
  {
    var before, after := Live(s.pcs[t]), Live(s'.pcs[t]);
    || (s'.word == s.word && after == before)
    || (!Closed(s.word) && s'.word == (s.word + 1) % WORD && !before && after)
    || (s'.word == (s.word + WORD - 1) % WORD && before && !after)
    || (!Closed(s.word) && s'.word == s.word + GATE && after == before)
  }

  /** All that client t may change, as far as the other threads are concerned. */
  ghost predicate ClientEffect(s: State, s': State, t: nat)
    requires Formed(s) && t < |s.pcs|
  {
    && SameShape(s, s')
    && s'.pcs == s.pcs[t := s'.pcs[t]] && s'.ring.pcs == s.ring.pcs[t := s'.ring.pcs[t]]
    && s'.calls == s.calls[t := s'.calls[t]]
    && s'.ring.dequeuePos == s.ring.dequeuePos && s'.ring.takers == s.ring.takers
    && Claims(s, s', t) && Tickets(s, s') && MovesWord(s, s', t) && Answers(s, s', t)
    && s'.worker == s.worker && s'.completed == s.completed && s'.failed == s.failed
    && s'.written == s.written && s'.events == s.events && s'.flushedPos == s.flushedPos && s'.look == s.look
    && s.wake <= s'.wake
  }

  lemma StopCallEffect(s: State, t: nat, c: Choice)
    requires Formed(s) && t < |s.pcs| && LocalOk(s, t)
    requires s.pcs[t].Ready?
    requires c.call.CallStop?
    ensures ClientEffect(s, EntryStep(s, t, c), t)
  {
  }

  lemma CallEffect(s: State, t: nat, c: Choice)
    requires Formed(s) && t < |s.pcs| && LocalOk(s, t)
    requires s.pcs[t].Ready?
    ensures ClientEffect(s, EntryStep(s, t, c), t)
  {
    if c.call.CallStop? { StopCallEffect(s, t, c); }
  }

  lemma GateEffect(s: State, t: nat, c: Choice)
    requires Formed(s) && t < |s.pcs| && LocalOk(s, t)
    requires s.pcs[t].StartCas?
    ensures ClientEffect(s, EntryStep(s, t, c), t)
  {
  }

  lemma EntryEffect(s: State, t: nat, c: Choice)
    requires Formed(s) && t < |s.pcs| && LocalOk(s, t)
    ensures ClientEffect(s, EntryStep(s, t, c), t)
  {
    if s.pcs[t].Ready? { CallEffect(s, t, c); }
    else if s.pcs[t].StartCas? { GateEffect(s, t, c); }
  }

  lemma CallOk(s: State, t: nat, c: Choice)
    requires Formed(s) && t < |s.pcs| && ClientOk(s, t)
    requires s.pcs[t].Ready?
    ensures ClientOk(EntryStep(s, t, c), t)
  {
  }

  lemma EntryOk(s: State, t: nat, c: Choice)
    requires Formed(s) && t < |s.pcs| && ClientOk(s, t)
    ensures ClientOk(EntryStep(s, t, c), t)
  {
    if s.pcs[t].Ready? { CallOk(s, t, c); }
  }

  lemma LevelEffect(s: State, t: nat, c: Choice)
    requires Formed(s) && t < |s.pcs|
    requires s.pcs[t].CheckLevel?
    ensures ClientEffect(s, CheckStep(s, t, c), t)
  {
  }

  lemma TicketEffect(s: State, t: nat, c: Choice)
    requires Formed(s) && t < |s.pcs|
    requires s.pcs[t].TakeTicket?
    ensures ClientEffect(s, CheckStep(s, t, c), t)
  {
  }

  lemma CheckEffect(s: State, t: nat, c: Choice)
    requires Formed(s) && t < |s.pcs|
    ensures ClientEffect(s, CheckStep(s, t, c), t)
  {
    if s.pcs[t].CheckLevel? { LevelEffect(s, t, c); }
    else if s.pcs[t].TakeTicket? { TicketEffect(s, t, c); }
  }

  lemma LevelOk(s: State, t: nat, c: Choice)
    requires Formed(s) && t < |s.pcs| && ClientOk(s, t) && |s.ticketClaims| == s.requested
    requires s.pcs[t].CheckLevel?
    ensures ClientOk(CheckStep(s, t, c), t)
  {
  }

  lemma TicketOk(s: State, t: nat, c: Choice)
    requires Formed(s) && t < |s.pcs| && ClientOk(s, t) && |s.ticketClaims| == s.requested
    requires s.pcs[t].TakeTicket?
    ensures ClientOk(CheckStep(s, t, c), t)
  {
  }

  lemma CheckOk(s: State, t: nat, c: Choice)
    requires Formed(s) && t < |s.pcs| && ClientOk(s, t) && |s.ticketClaims| == s.requested
    ensures ClientOk(CheckStep(s, t, c), t)
  {
    if s.pcs[t].CheckLevel? { LevelOk(s, t, c); }
    else if s.pcs[t].TakeTicket? { TicketOk(s, t, c); }
  }

  lemma PublishCheckEffect(s: State, t: nat)
    requires Formed(s) && t < |s.pcs|
    requires s.pcs[t].PublishCheck?
    ensures ClientEffect(s, PublishStep(s, t), t)
  {
  }

  lemma NotifyEffect(s: State, t: nat)
    requires Formed(s) && t < |s.pcs|
    requires s.pcs[t].Notify?
    ensures ClientEffect(s, PublishStep(s, t), t)
  {
  }

  lemma PublishEffect(s: State, t: nat)
    requires Formed(s) && t < |s.pcs|
    ensures ClientEffect(s, PublishStep(s, t), t)
  {
    if s.pcs[t].PublishCheck? { PublishCheckEffect(s, t); }
    else if s.pcs[t].Notify? { NotifyEffect(s, t); }
  }

  lemma PublishCheckOk(s: State, t: nat)
    requires Formed(s) && t < |s.pcs| && ClientOk(s, t) && (Bound(s).Some? ==> s.failed)
    requires s.pcs[t].PublishCheck?
    ensures ClientOk(PublishStep(s, t), t)
  {
  }

  lemma NotifyOk(s: State, t: nat)
    requires Formed(s) && t < |s.pcs| && ClientOk(s, t) && (Bound(s).Some? ==> s.failed)
    requires s.pcs[t].Notify?
    ensures ClientOk(PublishStep(s, t), t)
  {
  }

  lemma PublishOk(s: State, t: nat)
    requires Formed(s) && t < |s.pcs| && ClientOk(s, t) && (Bound(s).Some? ==> s.failed)
    ensures ClientOk(PublishStep(s, t), t)
  {
    if s.pcs[t].PublishCheck? { PublishCheckOk(s, t); }
    else if s.pcs[t].Notify? { NotifyOk(s, t); }
  }

  lemma DropEffect(s: State, t: nat)
    requires Formed(s) && t < |s.pcs|
    requires s.pcs[t].UndoDrop?
    ensures ClientEffect(s, UndoStep(s, t), t)
  {
  }

  lemma CountDropEffect(s: State, t: nat)
    requires Formed(s) && t < |s.pcs|
    requires s.pcs[t].CountDrop?
    ensures ClientEffect(s, UndoStep(s, t), t)
  {
  }

  lemma UndoEffect(s: State, t: nat)
    requires Formed(s) && t < |s.pcs|
    ensures ClientEffect(s, UndoStep(s, t), t)
  {
    if s.pcs[t].UndoDrop? { DropEffect(s, t); }
    else if s.pcs[t].CountDrop? { CountDropEffect(s, t); }
  }

  lemma UndoOk(s: State, t: nat)
    requires Formed(s) && t < |s.pcs| && ClientOk(s, t)
    ensures ClientOk(UndoStep(s, t), t)
  {
  }

  lemma LookEffect(s: State, t: nat)
    requires Formed(s) && t < |s.pcs|
    requires s.pcs[t].AwaitLoad? || s.pcs[t].AwaitFinal?
    ensures ClientEffect(s, AwaitStep(s, t), t)
  {
  }

  lemma AwaitEffect(s: State, t: nat)
    requires Formed(s) && t < |s.pcs|
    ensures ClientEffect(s, AwaitStep(s, t), t)
  {
    if s.pcs[t].AwaitLoad? || s.pcs[t].AwaitFinal? { LookEffect(s, t); }
  }

  lemma LookOk(s: State, t: nat)
    requires Formed(s) && t < |s.pcs| && ClientOk(s, t)
    requires s.pcs[t].AwaitLoad? && s.pcs[t].item.FlushItem? && s.pcs[t].item.ticket <= s.completed ==>
               s.failed || Durable(s, s.pcs[t].item.ticket)
    requires s.pcs[t].AwaitLoad? || s.pcs[t].AwaitFinal?
    ensures ClientOk(AwaitStep(s, t), t)
  {
  }

  lemma AwaitOk(s: State, t: nat)
    requires Formed(s) && t < |s.pcs| && ClientOk(s, t)
    requires s.pcs[t].AwaitLoad? && s.pcs[t].item.FlushItem? && s.pcs[t].item.ticket <= s.completed ==>
               s.failed || Durable(s, s.pcs[t].item.ticket)
    ensures ClientOk(AwaitStep(s, t), t)
  {
    if s.pcs[t].AwaitLoad? || s.pcs[t].AwaitFinal? { LookOk(s, t); }
  }

  lemma FinishEffect(s: State, t: nat)
    requires Formed(s) && t < |s.pcs|
    ensures ClientEffect(s, FinishStep(s, t), t)
  {
  }

  lemma FinishOk(s: State, t: nat)
    requires Formed(s) && t < |s.pcs| && ClientOk(s, t)
    ensures ClientOk(FinishStep(s, t), t)
  {
  }

  lemma CloseEffect(s: State, t: nat, c: Choice)
    requires Formed(s) && t < |s.pcs| && LocalOk(s, t)
    requires s.pcs[t].StopCas?
    ensures ClientEffect(s, StopStep(s, t, c), t)
  {
  }

  lemma StopEffect(s: State, t: nat, c: Choice)
    requires Formed(s) && t < |s.pcs| && LocalOk(s, t)
    ensures ClientEffect(s, StopStep(s, t, c), t)
  {
    if s.pcs[t].StopCas? { CloseEffect(s, t, c); }
  }

  lemma StopLoadOk(s: State, t: nat, c: Choice)
    requires Formed(s) && t < |s.pcs| && ClientOk(s, t)
    requires s.pcs[t].StopLoad? || s.pcs[t].StopCas?
    requires s.pcs[t].StopLoad?
    ensures ClientOk(StopStep(s, t, c), t)
  {
    assert StopStep(s, t, c).ring == s.ring;
    assert StopStep(s, t, c) == s || SentTicket(StopStep(s, t, c).pcs[t]) == None;
  }

  lemma StopCasOk(s: State, t: nat, c: Choice)
    requires Formed(s) && t < |s.pcs| && ClientOk(s, t)
    requires s.pcs[t].StopCas?
    ensures ClientOk(StopStep(s, t, c), t)
  {
  }

  lemma StopOk(s: State, t: nat, c: Choice)
    requires Formed(s) && t < |s.pcs| && ClientOk(s, t)
    ensures ClientOk(StopStep(s, t, c), t)
  {
    if s.pcs[t].StopLoad? { StopLoadOk(s, t, c); }
    else if s.pcs[t].StopCas? { StopCasOk(s, t, c); }
    else {
      assert StopStep(s, t, c).ring == s.ring;
      assert StopStep(s, t, c) == s || SentTicket(StopStep(s, t, c).pcs[t]) == None;
    }
  }

  // the order of a client's claims

  /** A step that claims nothing and does not move the next call backwards. */
  ghost predicate KeepsNext(s: State, s': State, t: nat)
    requires Formed(s) && t < |s.pcs|
  {
    && SameShape(s, s') && s'.ring.items == s.ring.items && s'.ring.owners == s.ring.owners
    && NextCall(s, t) <= NextCall(s', t) && s.calls[t] <= s'.calls[t] && ComingOk(s', t)
  }

  lemma KeepsNextKeepsOrder(s: State, s': State, t: nat)
    requires Formed(s) && t < |s.pcs| && Ordered(s, t) && KeepsNext(s, s', t)
    ensures Ordered(s', t) && LaterCalls(s, s', t)
  {
  }

  lemma CallOrder(s: State, t: nat, c: Choice)
    requires Formed(s) && t < |s.pcs| && ComingOk(s, t)
    requires s.pcs[t].Ready?
    ensures KeepsNext(s, EntryStep(s, t, c), t)
  {
  }

  lemma EntryOrder(s: State, t: nat, c: Choice)
    requires Formed(s) && t < |s.pcs| && ComingOk(s, t)
    ensures KeepsNext(s, EntryStep(s, t, c), t)
  {
    if s.pcs[t].Ready? { CallOrder(s, t, c); }
  }

  lemma CheckOrder(s: State, t: nat, c: Choice)
    requires Formed(s) && t < |s.pcs| && ComingOk(s, t)
    ensures KeepsNext(s, CheckStep(s, t, c), t)
  {
  }

  lemma PublishOrder(s: State, t: nat)
    requires Formed(s) && t < |s.pcs| && ComingOk(s, t)
    ensures KeepsNext(s, PublishStep(s, t), t)
  {
  }

  lemma UndoOrder(s: State, t: nat)
    requires Formed(s) && t < |s.pcs| && ComingOk(s, t)
    ensures KeepsNext(s, UndoStep(s, t), t)
  {
  }

  lemma AwaitOrder(s: State, t: nat)
    requires Formed(s) && t < |s.pcs| && ComingOk(s, t)
    ensures KeepsNext(s, AwaitStep(s, t), t)
  {
  }

  lemma FinishOrder(s: State, t: nat)
    requires Formed(s) && t < |s.pcs| && ComingOk(s, t)
    ensures KeepsNext(s, FinishStep(s, t), t)
  {
  }

  lemma CloseOrder(s: State, t: nat, c: Choice)
    requires Formed(s) && t < |s.pcs| && ComingOk(s, t)
    requires s.pcs[t].StopLoad? || s.pcs[t].StopCas?
    ensures KeepsNext(s, StopStep(s, t, c), t)
  {
    assert StopStep(s, t, c).ring == s.ring && StopStep(s, t, c).calls == s.calls;
  }

  lemma StopOrder(s: State, t: nat, c: Choice)
    requires Formed(s) && t < |s.pcs| && ComingOk(s, t)
    ensures KeepsNext(s, StopStep(s, t, c), t)
  {
    if s.pcs[t].StopLoad? || s.pcs[t].StopCas? { CloseOrder(s, t, c); }
    else {
      assert StopStep(s, t, c).ring == s.ring && StopStep(s, t, c).calls == s.calls;
    }
  }
}
