/** A Flush that no other Flush overlaps never misses its ticket. */
module LoggerOverlap {
  import opened Options
  import opened Ring
  import opened Logger
  import opened LoggerInvariant
  import opened LoggerQueueSteps
  import opened LoggerShared
  import opened LoggerTickets
  import opened LoggerFrames
  import opened LoggerRuns
  import opened LoggerClaims

  /** The ticket a client has taken and not yet claimed a position for. */
  function HeldTicket(s: State, u: nat): Option<nat>
    requires Formed(s) && u < |s.pcs|
  {
    match s.pcs[u]
    case PublishCheck(item) => if item.FlushItem? then Some(item.ticket) else None
    case Enqueueing(item) => if item.FlushItem? && Unclaimed(s.ring.pcs[u]) then Some(item.ticket) else None
    case _ => None
  }

  /** Ticket k's item is among the positions the worker is done with. */
  ghost predicate TicketHandled(s: State, k: nat)
    requires Formed(s)
  {
    exists p :: 0 <= p < Stored(s) && p < |s.ring.items| && s.ring.items[p].FlushItem? && s.ring.items[p].ticket == k
  }

  // ----- where held tickets come from -----

  ghost predicate HeldSince(s: State, s': State, u: nat)
    requires Formed(s) && SameShape(s, s') && u < |s.pcs|
  {
    HeldTicket(s', u).Some? ==> HeldTicket(s', u) == HeldTicket(s, u) || HeldTicket(s', u) == Some(s.requested + 1)
  }

  lemma EntryHolds(s: State, t: nat, c: Choice)
    requires Formed(s) && t < |s.pcs|
    ensures HeldSince(s, EntryStep(s, t, c), t)
  {
  }

  lemma CheckHolds(s: State, t: nat, c: Choice)
    requires Formed(s) && t < |s.pcs| && LocalOk(s, t)
    ensures HeldSince(s, CheckStep(s, t, c), t)
  {
  }

  lemma PublishHolds(s: State, t: nat)
    requires Formed(s) && t < |s.pcs| && LocalOk(s, t)
    ensures HeldSince(s, PublishStep(s, t), t)
  {
  }

  lemma EnqueueHolds(s: State, t: nat, c: Choice)
    requires Formed(s) && Counted(s.ring) && t < |s.pcs| && Coupled(s, t)
    ensures HeldSince(s, EnqueueStep(s, t, c), t)
  {
    if s.pcs[t].Enqueueing? && InEnqueue(s.ring.pcs[t]) { AdvanceEnqueues(s.ring, t, c.spurious); }
  }

  lemma OtherPhasesHold(s: State, move: Move)
    requires Formed(s) && !IsWorkerMove(move) && move.t < |s.pcs|
    requires !move.Entry? && !move.Check? && !move.Publish? && !move.Enqueue?
    ensures HeldSince(s, Apply(s, move), move.t)
  {
    if move.Stop? { StopHolds(s, move.t, move.c); }
  }

  lemma StopHolds(s: State, t: nat, c: Choice)
    requires Formed(s) && t < |s.pcs|
    ensures HeldSince(s, StopStep(s, t, c), t)
  {
    if Stopping(s.pcs[t]) { StopTalliesNothing(s, t, c); }
  }

  lemma MoveHolds(s: State, move: Move, u: nat)
    requires Invariant(s) && u < |s.pcs|
    ensures HeldSince(s, Apply(s, move), u)
  {
    if IsWorkerMove(move) || move.t != u {
      OthersKeepRingPc(s, move, u);
      if IsWorkerMove(move) { WorkerMovesNoClient(s, move); } else { OthersDoNotMove(s, move, u); }
    } else {
      OwnClient(s, u);
      match move
      case Entry(t, c) => EntryHolds(s, t, c);
      case Check(t, c) => CheckHolds(s, t, c);
      case Publish(t) => PublishHolds(s, t);
      case Enqueue(t, c) => EnqueueHolds(s, t, c);
      case _ => OtherPhasesHold(s, move);
    }
  }

  // ----- from a ticket on, only greater ones -----

  ghost predicate HeldAbove(s: State, u: nat, k: nat)
    requires Formed(s)
  {
    u < |s.pcs| && HeldTicket(s, u).Some? ==> k <= HeldTicket(s, u).value
  }

  /** All tickets held, and all flush items from position n on, are at least k. */
  ghost predicate Above(s: State, k: nat, n: nat)
    requires Formed(s)
  {
    && k <= s.requested && n <= |s.ring.items|
    && (forall u :: HeldAbove(s, u, k))
    && forall p | n <= p < |s.ring.items| && s.ring.items[p].FlushItem? :: k <= s.ring.items[p].ticket
  }

  lemma ClaimAbove(s: State, move: Move, k: nat, n: nat)
    requires Invariant(s) && Above(s, k, n)
    ensures var items := Apply(s, move).ring.items;
            n <= |items| && forall p | n <= p < |items| && items[p].FlushItem? :: k <= items[p].ticket
  {
    WhoClaims(s, move);
    if move.Enqueue? { assert HeldAbove(s, move.t, k); }
  }

  lemma RequestsGrow(s: State, s': State)
    requires Invariant(s) && Invariant(s') && Grows(s, s')
    ensures s.requested <= s'.requested
  {
    assert GrowsIn(s, s', HistoryGrowth) && Holds(s, TicketPart) && Holds(s', TicketPart);
  }

  lemma MoveAbove(s: State, move: Move, k: nat, n: nat)
    requires Invariant(s) && Above(s, k, n)
    ensures Above(Apply(s, move), k, n)
  {
    var s' := Apply(s, move);
    MoveKeepsInv(s, move);
    RequestsGrow(s, s');
    ClaimAbove(s, move, k, n);
    forall u: nat ensures HeldAbove(s', u, k) {
      assert HeldAbove(s, u, k);
      if u < |s.pcs| { MoveHolds(s, move, u); }
    }
  }

  lemma {:induction false} RunAbove(s: State, rest: seq<Move>, k: nat, n: nat)
    requires Invariant(s) && Above(s, k, n)
    ensures Above(Continue(s, rest), k, n)
  {
    if rest != [] {
      var m := |rest| - 1;
      RunAbove(s, rest[..m], k, n);
      ContinueKeepsInv(s, rest[..m]);
      MoveAbove(Continue(s, rest[..m]), rest[m], k, n);
    }
  }

  // ----- the complete ticket -----

  lemma {:induction false} LastTicketAbove(items: seq<Item>, n: nat, p: nat, m: nat, k: nat)
    requires n <= p < m <= |items| && items[p].FlushItem?
    requires forall q | n <= q < m && items[q].FlushItem? :: k <= items[q].ticket
    ensures k <= LastTicket(items[..m])
    decreases m
  {
    TicketSnoc(items, m);
    if items[m - 1].LogItem? { LastTicketAbove(items, n, p, m - 1, k); }
  }

  /** No other client holds a ticket when client t takes its own. */
  ghost predicate Alone(s: State, t: nat)
    requires Formed(s)
  {
    forall u: nat | u < |s.pcs| && u != t :: HeldTicket(s, u).None?
  }

  lemma TakingIsAbove(s: State, t: nat, c: Choice)
    requires Invariant(s) && t < |s.pcs| && s.pcs[t].TakeTicket? && Alone(s, t)
    ensures Above(Apply(s, Check(t, c)), s.requested + 1, |s.ring.items|)
  {
    var s', k := Apply(s, Check(t, c)), s.requested + 1;
    forall u: nat ensures HeldAbove(s', u, k) {
      if u < |s.pcs| { MoveHolds(s, Check(t, c), u); }
    }
  }

  /** Flush items sit at positions claimed after their ticket was taken. */
  lemma TicketPosition(s: State, k: nat, n: nat, p: nat)
    requires Invariant(s) && p < |s.ring.items| && s.ring.items[p].FlushItem? && s.ring.items[p].ticket == k
    requires 1 <= k <= |s.ticketClaims| && s.ticketClaims[k - 1] == n
    ensures n <= p
  {
    ItemAt(s, p);
  }

  /** If no other client holds a ticket when client t takes ticket k, then in every continuation the
      complete ticket is at least k once k's item was handled, and t is not left waiting. */
  lemma AloneNeverMisses(s: State, t: nat, c: Choice, rest: seq<Move>)
    requires Invariant(s) && t < |s.pcs| && s.pcs[t].TakeTicket? && Alone(s, t)
    ensures var s' := Continue(Apply(s, Check(t, c)), rest);
            TicketHandled(s', s.requested + 1) && !Released(s'.worker) ==> s.requested + 1 <= s'.completed
  {
    var s1, k, n := Apply(s, Check(t, c)), s.requested + 1, |s.ring.items|;
    var s' := Continue(s1, rest);
    MoveKeepsInv(s, Check(t, c));
    TakingIsAbove(s, t, c);
    RunAbove(s1, rest, k, n);
    ContinueKeepsInv(s1, rest);
    if TicketHandled(s', k) && !Released(s'.worker) {
      var p :| 0 <= p < Stored(s') && p < |s'.ring.items| && s'.ring.items[p].FlushItem? && s'.ring.items[p].ticket == k;
      TicketRemembered(s, t, c, s');
      TicketPosition(s', k, n, p);
      assert Holds(s', TracePart);
      LastTicketAbove(s'.ring.items, n, p, Stored(s'), k);
    }
  }

  lemma TicketRemembered(s: State, t: nat, c: Choice, s': State)
    requires Invariant(s) && t < |s.pcs| && s.pcs[t].TakeTicket? && Grows(Apply(s, Check(t, c)), s')
    ensures s.requested < |s'.ticketClaims| && s'.ticketClaims[s.requested] == |s.ring.items|
  {
    assert Holds(s, TicketPart) && GrowsIn(Apply(s, Check(t, c)), s', HistoryGrowth);
  }
}
