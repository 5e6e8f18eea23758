/** What AsyncLogger guarantees in every run: any number of clients, any interleaving, any choices. */
module LoggerTheorems {
  import opened Options
  import opened Ring
  import opened Logger
  import opened LoggerInvariant
  import opened LoggerShared
  import opened LoggerWake
  import opened LoggerWrites
  import opened LoggerRuns

  // ----- Flush -----

  lemma {:induction false} LogsPrefix(items: seq<Item>, m: nat, n: nat)
    requires m <= n <= |items|
    ensures Logs(items[..m]) <= Logs(items[..n])
    decreases n
  {
    if m < n {
      LogsPrefix(items, m, n - 1);
      LogsSnoc(items, n);
    }
  }

  /** Flush() returning true.  When client t takes a ticket in a reachable state s, and in some later
      state s' that ticket has been answered with true, then every log claimed before s has been
      written by s', and the sink was flushed after all those writes. */
  lemma FlushIsHonest(cfg: Config, capacity: nat, clients: nat, first: seq<Move>, rest: seq<Move>,
                      s: State, s': State, t: nat, c: Choice)
    requires 2 <= capacity && clients < GATE && t < clients
    requires s == Run(cfg, capacity, clients, first) && s.pcs[t].TakeTicket?
    requires s' == Continue(Apply(s, Check(t, c)), rest)
    requires s.requested + 1 in s'.acknowledged
    ensures Logs(s.ring.items) <= FlushedWrites(s'.events)
  {
    Reachable(cfg, capacity, clients, first);
    TicketRemembersClaims(s, t, c);
    MoveKeepsInv(s, Check(t, c));
    ContinueKeepsInv(Apply(s, Check(t, c)), rest);
    assert GrowsIn(Apply(s, Check(t, c)), s', HistoryGrowth);
    DurableFlush(s', s.requested + 1, s.ring.items);
  }

  lemma TicketRemembersClaims(s: State, t: nat, c: Choice)
    requires Invariant(s) && t < |s.pcs| && s.pcs[t].TakeTicket?
    ensures var s' := Apply(s, Check(t, c));
            s'.ring == s.ring && |s'.ticketClaims| == s.requested + 1 && s'.ticketClaims[s.requested] == |s.ring.items|
  {
    assert Holds(s, TicketPart);
  }

  lemma DurableFlush(s: State, k: nat, items: seq<Item>)
    requires Invariant(s) && k in s.acknowledged && items <= s.ring.items
    requires 1 <= k <= |s.ticketClaims| && s.ticketClaims[k - 1] == |items|
    ensures Logs(items) <= FlushedWrites(s.events)
  {
    assert Holds(s, TicketPart) && Holds(s, WritePart);
    assert Durable(s, k) && s.ring.items[..|items|] == items;
    LogsPrefix(s.ring.items, |items|, s.flushedPos);
  }

  // ----- what is written, and in which order -----

  /** The sink's writes are exactly the log items of the positions the worker is done with, in claim
      order; at most one taken position is not done. */
  lemma WritesFollowClaims(cfg: Config, capacity: nat, clients: nat, moves: seq<Move>)
    requires 2 <= capacity && clients < GATE
    ensures var s := Run(cfg, capacity, clients, moves);
            && Handled(s) <= s.ring.dequeuePos <= Handled(s) + 1 && s.ring.dequeuePos <= |s.ring.items|
            && Writes(s.events) == Logs(s.ring.items[..Handled(s)])
  {
    Reachable(cfg, capacity, clients, moves);
    assert Holds(Run(cfg, capacity, clients, moves), WritePart);
  }

  /** Positions claimed by one client carry its calls in program order. */
  ghost predicate InCallOrder(items: seq<Item>) {
    forall i, j | 0 <= i < j < |items| && items[i].producer == items[j].producer :: items[i].call < items[j].call
  }

  lemma {:induction false} LogsInCallOrder(items: seq<Item>, n: nat)
    requires n <= |items| && InCallOrder(items)
    ensures forall x | x in Logs(items[..n]) :: x.LogItem? && x in items[..n]
    ensures InCallOrder(Logs(items[..n]))
  {
    if n > 0 {
      LogsInCallOrder(items, n - 1);
      LogsSnoc(items, n);
      var before, after := Logs(items[..n - 1]), Logs(items[..n]);
      forall i, j | 0 <= i < j < |after| && after[i].producer == after[j].producer
        ensures after[i].call < after[j].call
      {
        if j == |before| {
          assert after[i] in before && after[j] == items[n - 1];
          var p :| 0 <= p < n - 1 && items[p] == after[i];
        }
      }
    }
  }

  /** Each client's messages reach the sink in the order of its calls, and none reaches it twice. */
  lemma ProgramOrderIsKept(cfg: Config, capacity: nat, clients: nat, moves: seq<Move>)
    requires 2 <= capacity && clients < GATE
    ensures InCallOrder(Writes(Run(cfg, capacity, clients, moves).events))
  {
    Reachable(cfg, capacity, clients, moves);
    var s := Run(cfg, capacity, clients, moves);
    forall i, j | 0 <= i < j < |s.ring.items| && s.ring.items[i].producer == s.ring.items[j].producer
      ensures s.ring.items[i].call < s.ring.items[j].call
    {
      ItemAt(s, i);
      ItemAt(s, j);
    }
    assert Holds(s, WritePart);
    LogsInCallOrder(s.ring.items, Handled(s));
  }

  /** The verdict of TryEnqueue is honest towards Publish: an accepted item sits at a position claimed
      by this client; a refused item is still the caller's own, and nowhere in the ring, so that
      offering it again cannot duplicate it. */
  lemma VerdictIsExact(cfg: Config, capacity: nat, clients: nat, moves: seq<Move>, t: nat)
    requires 2 <= capacity && clients < GATE && t < clients
    ensures var s := Run(cfg, capacity, clients, moves);
            s.pcs[t].Enqueueing? ==>
              match s.ring.pcs[t]
              case EnqAccepted(pos) =>
                pos < |s.ring.items| == |s.ring.owners| && s.ring.items[pos] == s.pcs[t].item && s.ring.owners[pos] == t
              case EnqRefused(item) => item == s.pcs[t].item && item !in s.ring.items
              case _ => true
  {
    Reachable(cfg, capacity, clients, moves);
    var s := Run(cfg, capacity, clients, moves);
    OwnClient(s, t);
    if s.pcs[t].Enqueueing? && s.ring.pcs[t].EnqRefused? { FreshIsUnclaimed(s, t, s.pcs[t].item); }
    assert Holds(s, RingPart);
    assert PcOkAt(s.ring, t);
  }

  lemma FreshIsUnclaimed(s: State, t: nat, item: Item)
    requires Invariant(s) && t < |s.pcs| && FreshItem(s.pcs[t], s.ring.pcs[t]) == Some(item)
    ensures item !in s.ring.items
  {
    OwnClient(s, t);
    forall p | 0 <= p < |s.ring.items| ensures s.ring.items[p] != item {
      ItemAt(s, p);
    }
  }

  // ----- the gate word -----

  lemma {:induction false} CountMonotone(a: seq<bool>, b: seq<bool>)
    requires |a| == |b| && forall i | 0 <= i < |a| :: a[i] ==> b[i]
    ensures Count(a) <= Count(b)
  {
    if a != [] {
      CountMonotone(a[..|a| - 1], b[..|b| - 1]);
    }
  }

  /** The low 63 bits count the live guards, the gate bit never clears, and after it is set the
      count never rises and at most `active` further positions are claimed. */
  lemma GateIsHonest(cfg: Config, capacity: nat, clients: nat, first: seq<Move>, rest: seq<Move>, s: State, s': State)
    requires 2 <= capacity && clients < GATE
    requires s == Run(cfg, capacity, clients, first) && s' == Continue(s, rest)
    ensures Active(s.word) == LiveCalls(s) && s.word < WORD
    ensures Closed(s.word) ==>
              && Closed(s'.word) && Active(s'.word) <= Active(s.word)
              && s'.ring.enqueuePos <= s.ring.enqueuePos + Active(s.word)
              // so the worker takes at most the queued and the active ones
              && s'.ring.dequeuePos - s.ring.dequeuePos <= (s.ring.enqueuePos - s.ring.dequeuePos) + Active(s.word)
  {
    Reachable(cfg, capacity, clients, first);
    ContinueKeepsInv(s, rest);
    assert GrowsIn(s, s', GateGrowth);
    GateCounts(s);
    ClaimsAfterClosing(s, s');
  }

  lemma GateCounts(s: State)
    requires Invariant(s)
    ensures Active(s.word) == LiveCalls(s) && s.word < WORD
  {
    assert Holds(s, GatePart);
  }

  lemma ClaimsAfterClosing(s: State, s': State)
    requires Invariant(s) && Invariant(s') && Grows(s, s')
    ensures Closed(s.word) ==>
              && s'.ring.enqueuePos <= s.ring.enqueuePos + Active(s.word)
              && s'.ring.dequeuePos - s.ring.dequeuePos <= (s.ring.enqueuePos - s.ring.dequeuePos) + Active(s.word)
  {
    GateCounts(s);
    assert GrowsIn(s, s', ClaimGrowth);
    CountMonotone(MayClaimFlags(s), LiveFlags(s.pcs));
  }

  // ----- waking -----

  /** Whenever the worker is asleep and its sampled signal is still current, either no position is
      claimed and untaken, or the owner of the head has yet to raise the signal; and if the gate is
      closed, either an operation is live, whose finish will raise it, or a client is about to. */
  lemma NoSleepOnAnnouncedWork(cfg: Config, capacity: nat, clients: nat, moves: seq<Move>)
    requires 2 <= capacity && clients < GATE
    ensures var s := Run(cfg, capacity, clients, moves);
            s.worker == Asleep(s.wake) ==>
              && HeadUnannounced(s)
              && (Closed(s.word) ==> LiveCalls(s) > 0 || StopUnannounced(s))
              && (Quiet(s) ==> s.notifier < clients && (s.pcs[s.notifier].StopNotify? || s.pcs[s.notifier].FinishNotify?))
  {
    Reachable(cfg, capacity, clients, moves);
    var s := Run(cfg, capacity, clients, moves);
    assert Holds(s, WakePart) && Holds(s, GatePart);
  }

  /** The last operation to finish behind a closed gate raises the signal. */
  lemma LastFinishNotifies(cfg: Config, capacity: nat, clients: nat, moves: seq<Move>, t: nat)
    requires 2 <= capacity && clients < GATE && t < clients
    ensures var s := Run(cfg, capacity, clients, moves);
            s.pcs[t].Finish? && Closed(s.word) && LiveCalls(s) == 1 ==>
              var s' := Apply(s, FinishOperation(t));
              Quiet(s') && s'.pcs[t].FinishNotify? && Apply(s', FinishOperation(t)).wake == s.wake + 1
  {
    Reachable(cfg, capacity, clients, moves);
    assert Holds(Run(cfg, capacity, clients, moves), GatePart);
    LastFinish(Run(cfg, capacity, clients, moves), t);
  }

  lemma LastFinish(s: State, t: nat)
    requires Formed(s) && GateOk(s) && t < |s.pcs|
    ensures s.pcs[t].Finish? && Closed(s.word) && LiveCalls(s) == 1 ==>
              var s' := Apply(s, FinishOperation(t));
              Quiet(s') && s'.pcs[t].FinishNotify? && Apply(s', FinishOperation(t)).wake == s.wake + 1
  {
  }

  // ----- failure -----

  predicate AwaitsFlush(pc: ClientPc) {
    pc.AwaitLoad? || pc.AwaitCheck? || pc.AwaitChange? || pc.AwaitFinal?
  }

  /** Once a failed worker is done, every Flush that got its item into the ring has a ticket no
      greater than the complete ticket, and three steps of its own let it return false. */
  lemma FailureStrandsNobody(cfg: Config, capacity: nat, clients: nat, moves: seq<Move>, t: nat)
    requires 2 <= capacity && clients < GATE && t < clients
    ensures var s := Run(cfg, capacity, clients, moves);
            s.worker.Failed? ==>
              && (SentTicket(s.pcs[t]).Some? ==> SentTicket(s.pcs[t]).value <= s.completed)
              && (AwaitsFlush(s.pcs[t]) ==>
                    Apply(Apply(Apply(s, Await(t)), Await(t)), Await(t)).pcs[t] == Finish(Refused))
  {
    Reachable(cfg, capacity, clients, moves);
    var s := Run(cfg, capacity, clients, moves);
    if s.worker.Failed? {
      OwnClient(s, t);
      assert Holds(s, WorkerPart);
      if AwaitsFlush(s.pcs[t]) { ReleasedAfterFailure(s, t); }
    }
  }

  lemma ReleasedAfterFailure(s: State, t: nat)
    requires Formed(s) && t < |s.pcs| && s.failed && LocalOk(s, t) && AwaitsFlush(s.pcs[t])
    requires SentTicket(s.pcs[t]).Some? ==> SentTicket(s.pcs[t]).value <= s.completed
    ensures Apply(Apply(Apply(s, Await(t)), Await(t)), Await(t)).pcs[t] == Finish(Refused)
  {
    AwaitAfterFailure(s, t);
    AwaitAfterFailure(Apply(s, Await(t)), t);
    AwaitAfterFailure(Apply(Apply(s, Await(t)), Await(t)), t);
  }

  /** One step of a waiting client after the failure. */
  lemma AwaitAfterFailure(s: State, t: nat)
    requires Formed(s) && t < |s.pcs| && s.failed
    requires s.pcs[t] == Finish(Refused) || (AwaitsFlush(s.pcs[t]) && s.pcs[t].item.FlushItem?)
    requires s.pcs[t].AwaitLoad? || s.pcs[t].AwaitChange? ==> s.pcs[t].item.ticket <= s.completed
    requires s.pcs[t].AwaitChange? ==> s.pcs[t].seen < s.pcs[t].item.ticket
    ensures var s' := Apply(s, Await(t));
            && s'.failed && s'.completed == s.completed
            && match s.pcs[t]
               case AwaitChange(item, _) => s'.pcs[t] == AwaitLoad(item)
               case AwaitLoad(item) => s'.pcs[t] == AwaitFinal(item)
               case _ => s'.pcs[t] == Finish(Refused)
  {
  }

  // ----- counters -----

  lemma {:induction false} LogsConcat(a: seq<Item>, b: seq<Item>)
    ensures Logs(a + b) == Logs(a) + Logs(b)
  {
    if b == [] {
      assert a + b == a;
    } else {
      assert (a + b)[..|a + b| - 1] == a + b[..|b| - 1];
      LogsConcat(a, b[..|b| - 1]);
    }
  }

  /** Where the claimed logs are: written, in the worker's hands, or still in the ring. */
  ghost predicate ClaimsAccounted(s: State)
    requires Formed(s)
  {
    var r := s.ring;
    && Handled(s) <= r.dequeuePos <= Handled(s) + 1 && r.dequeuePos <= |r.items|
    && |Logs(r.items)| == s.written + One(s.worker.CountWritten?)
                          + |Logs(r.items[Handled(s)..r.dequeuePos])| + |Logs(r.items[r.dequeuePos..])|
  }

  lemma NothingPending(s: State)
    requires Formed(s) && GateOk(s) && Active(s.word) == 0
    ensures Count(PendingFlags(s)) == 0 && Count(UncountedFlags(s)) == 0
  {
    forall u | 0 <= u < |s.pcs| ensures !PendingFlags(s)[u] && !UncountedFlags(s)[u] {
      QuietMeansIdle(s, u);
    }
    CountBounds(PendingFlags(s));
    CountBounds(UncountedFlags(s));
  }

  /** Conservation: every counted log is about to claim a position or has claimed one; the claimed
      ones are accounted for; and, when no operation is live and nothing failed, every log that
      passed its filter is counted or dropped. */
  lemma CountersAreConserved(cfg: Config, capacity: nat, clients: nat, moves: seq<Move>)
    requires 2 <= capacity && clients < GATE
    ensures var s := Run(cfg, capacity, clients, moves);
            && s.enqueued == Count(PendingFlags(s)) + |Logs(s.ring.items)|
            && ClaimsAccounted(s) && s.written <= s.enqueued
            && (LiveCalls(s) == 0 && !s.failed ==> s.enqueued + s.dropped == s.passed)
  {
    Reachable(cfg, capacity, clients, moves);
    var s := Run(cfg, capacity, clients, moves);
    assert Holds(s, CounterPart) && Holds(s, WritePart) && Holds(s, GatePart);
    AccountForClaims(s);
    if LiveCalls(s) == 0 { NothingPending(s); }
  }

  lemma AccountForClaims(s: State)
    requires Formed(s) && WritesOk(s)
    requires Handled(s) <= s.ring.dequeuePos <= Handled(s) + 1
    ensures ClaimsAccounted(s)
    ensures s.written <= |Logs(s.ring.items)|
  {
    SplitLogs(s.ring.items, Handled(s), s.ring.dequeuePos);
  }

  lemma SplitLogs(items: seq<Item>, h: nat, d: nat)
    requires h <= d <= |items|
    ensures |Logs(items)| == |Logs(items[..h])| + |Logs(items[h..d])| + |Logs(items[d..])|
  {
    assert items == items[..h] + items[h..] && items[h..] == items[h..d] + items[d..];
    LogsConcat(items[..h], items[h..]);
    LogsConcat(items[h..d], items[d..]);
  }
}
