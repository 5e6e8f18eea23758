/** When a waiting Flush goes on: the complete ticket is the one stored last, tickets can enter the
    ring out of order, and a Flush that misses its value waits for the next flush item. */
module LoggerFlushOrder {
  import opened Logger
  import opened LoggerTickets
  import opened LoggerFrames
  import opened LoggerRuns

  /** Until a failure releases everybody, the complete ticket is that of the last flush item in claim
      order among the positions the worker is done with, and a waiting Flush goes on to its final test
      exactly when this ticket has reached its own. */
  lemma WaitIsExact(cfg: Config, capacity: nat, clients: nat, moves: seq<Move>, t: nat)
    requires 2 <= capacity && clients < GATE && t < clients
    ensures var s := Run(cfg, capacity, clients, moves);
            && Stored(s) <= |s.ring.items|
            && (!Released(s.worker) ==>
                  && s.completed == LastTicket(s.ring.items[..Stored(s)])
                  && (s.pcs[t].AwaitLoad? ==>
                        && s.pcs[t].item.FlushItem?
                        && (Apply(s, Await(t)).pcs[t].AwaitFinal?
                            <==> s.pcs[t].item.ticket <= LastTicket(s.ring.items[..Stored(s)]))))
  {
    Reachable(cfg, capacity, clients, moves);
    var s := Run(cfg, capacity, clients, moves);
    OwnClient(s, t);
    assert Holds(s, TracePart);
  }

  // ----- missing the value -----

  /** Client t is blocked on the complete ticket. */
  ghost predicate Blocked(s: State, t: nat)
    requires Formed(s)
  {
    t < |s.pcs| && s.pcs[t].AwaitChange? && s.completed == s.pcs[t].seen
  }

  lemma BlockedAcrossClientMove(s: State, move: Move, t: nat)
    requires Formed(s) && Blocked(s, t) && !IsWorkerMove(move)
    ensures Apply(s, move).pcs[t] == s.pcs[t]
  {
    if move.t == t { OnlyAwaitMoves(s, move, t); } else { OthersDoNotMove(s, move, t); }
  }

  lemma OnlyAwaitMoves(s: State, move: Move, t: nat)
    requires Formed(s) && Blocked(s, t) && !IsWorkerMove(move) && move.t == t
    ensures Apply(s, move) == s
  {
  }

  ghost predicate NoFlush(items: seq<Item>, a: nat, b: nat) {
    b <= |items| && forall p | a <= p < b :: items[p].LogItem?
  }

  lemma {:induction false} SameLastTicket(items: seq<Item>, a: nat, b: nat)
    requires a <= b && NoFlush(items, a, b)
    ensures LastTicket(items[..b]) == LastTicket(items[..a])
    decreases b
  {
    if a < b {
      TicketSnoc(items, b);
      SameLastTicket(items, a, b - 1);
    }
  }

  lemma SameCompleted(s: State, s': State)
    requires Formed(s) && TraceOk(s) && Traces(s, s') && s.ring.items <= s'.ring.items && !Released(s'.worker)
    requires NoFlush(s'.ring.items, Stored(s), Stored(s'))
    ensures s'.completed == s.completed
  {
    SameLastTicket(s'.ring.items, Stored(s), Stored(s'));
    assert s'.ring.items[..Stored(s)] == s.ring.items[..Stored(s)];
  }

  /** A blocked Flush stays blocked in every continuation in which the worker is done with no further
      flush item and does not release everybody because of a failure. */
  lemma {:induction false} BlockedUntilNextTicket(s: State, rest: seq<Move>, t: nat)
    requires Invariant(s) && Blocked(s, t)
    requires var s' := Continue(s, rest);
             !Released(s'.worker) && NoFlush(s'.ring.items, Stored(s), Stored(s'))
    ensures Blocked(Continue(s, rest), t) && Continue(s, rest).pcs[t] == s.pcs[t]
  {
    ContinueKeepsInv(s, rest);
    assert Holds(s, TracePart) && GrowsIn(s, Continue(s, rest), TraceGrowth) && GrowsIn(s, Continue(s, rest), HistoryGrowth);
    SameCompleted(s, Continue(s, rest));
    if rest != [] {
      var n := |rest| - 1;
      var before := Continue(s, rest[..n]);
      ContinueKeepsInv(s, rest[..n]);
      MoveKeepsInv(before, rest[n]);
      assert GrowsIn(s, before, TraceGrowth) && GrowsIn(before, Continue(s, rest), TraceGrowth);
      assert GrowsIn(before, Continue(s, rest), HistoryGrowth);
      BlockedUntilNextTicket(s, rest[..n], t);
      if IsWorkerMove(rest[n]) { WorkerMovesNoClient(before, rest[n]); } else { BlockedAcrossClientMove(before, rest[n], t); }
    }
  }
}
