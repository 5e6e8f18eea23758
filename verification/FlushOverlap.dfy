/** Exactly when a Flush can miss its ticket: when another client holds a ticket as it takes its own. */
module FlushOverlap {
  import opened Options
  import opened Ring
  import RingTheorems
  import opened Logger
  import opened LoggerInvariant
  import opened LoggerQueueSteps
  import opened LoggerShared
  import opened LoggerTickets
  import opened LoggerWrites
  import opened LoggerFrames
  import opened LoggerRuns
  import opened LoggerClaims
  import opened LoggerStop
  import opened LoggerFlushOrder
  import opened LoggerOverlap
  import opened LoggerSchedule

  // ----- a held ticket goes into the empty ring -----

  /** How many steps an enqueuer is from its claim in an empty ring, at most. */
  function RankOutside(pc: Pc<Item>, enqueuePos: nat): nat {
    match pc
    case EnqRefused(_) => 5
    case EnqSequence(_, pos) => if pos == enqueuePos then 2 else 4
    case EnqCas(_, pos) => if pos == enqueuePos then 1 else 3
    case _ => 3
  }

  lemma RingClaims(r: Ring<Item>, x: nat)
    requires Inv(r) && x < |r.pcs| && (r.pcs[x].EnqLoad? || r.pcs[x].EnqSequence? || r.pcs[x].EnqCas?)
    requires r.dequeuePos == r.enqueuePos
    requires forall v | 0 <= v < |r.pcs| :: !r.pcs[v].DeqRead? && !r.pcs[v].DeqStore?
    ensures var pc, pc' := r.pcs[x], Advance(r, x, false).pcs[x];
            || pc' == EnqWrite(pc.item, r.enqueuePos)
            || (&& (pc'.EnqLoad? || pc'.EnqSequence? || pc'.EnqCas?) && pc'.item == pc.item
                && RankOutside(pc', r.enqueuePos) < RankOutside(pc, r.enqueuePos))
  {
    assert PcOkAt(r, x) && CellOkAt(r, r.enqueuePos);
    if r.pcs[x].EnqSequence? && r.pcs[x].pos < r.enqueuePos { RingTheorems.SequenceReached(r, r.pcs[x].pos); }
  }

  /** The ring is empty and the worker outside of it. */
  ghost predicate Empty(s: State)
    requires Formed(s)
  {
    AtTop(s.worker) && s.ring.dequeuePos == s.ring.enqueuePos
  }

  lemma NobodyTakes(s: State)
    requires Invariant(s) && Empty(s)
    ensures forall v | 0 <= v < |s.ring.pcs| :: !s.ring.pcs[v].DeqRead? && !s.ring.pcs[v].DeqStore?
  {
    forall v | 0 <= v < |s.ring.pcs| ensures !s.ring.pcs[v].DeqRead? && !s.ring.pcs[v].DeqStore? {
      if v < |s.pcs| { OwnClient(s, v); } else { assert Holds(s, WorkerPart); }
    }
  }

  /** Nobody but client x moves, and nothing is taken out of the ring. */
  ghost predicate OnlyClient(s: State, s': State, x: nat)
    requires Formed(s)
  {
    && SameShape(s, s') && s'.worker == s.worker && s'.requested == s.requested
    && s'.ring.dequeuePos == s.ring.dequeuePos
    && forall v :: ClientKept(s, s', x, v)
  }

  ghost predicate ClientKept(s: State, s': State, x: nat, v: nat)
    requires Formed(s) && SameShape(s, s')
  {
    v < |s.pcs| && v != x ==> s'.pcs[v] == s.pcs[v] && s'.ring.pcs[v] == s.ring.pcs[v]
  }

  lemma OnlyClientTrans(a: State, b: State, c: State, x: nat)
    requires Formed(a) && OnlyClient(a, b, x) && OnlyClient(b, c, x)
    ensures OnlyClient(a, c, x)
  {
    forall v: nat ensures ClientKept(a, c, x, v) {
      assert ClientKept(a, b, x, v) && ClientKept(b, c, x, v);
    }
  }

  function ClaimMove(pc: ClientPc, x: nat): Move {
    if pc.PublishCheck? then Publish(x) else Enqueue(x, CALM)
  }

  function ClaimRank(s: State, x: nat): nat
    requires Formed(s) && x < |s.pcs|
  {
    if s.pcs[x].Enqueueing? then RankOutside(s.ring.pcs[x], s.ring.enqueuePos) else 4
  }

  /** Client x has claimed a position for its item, or is one step closer to that. */
  ghost predicate ClaimsSoon(s: State, s': State, x: nat, item: Item)
    requires Formed(s) && SameShape(s, s') && x < |s.pcs|
  {
    || (&& s'.pcs[x] == Enqueueing(item) && s'.ring.pcs[x].EnqWrite?
        && s'.ring.items == s.ring.items + [item])
    || (&& HeldTicket(s', x).Some? && (s'.pcs[x].PublishCheck? || s'.pcs[x].Enqueueing?) && s'.pcs[x].item == item
        && s'.ring.items == s.ring.items && s'.ring.enqueuePos == s.ring.enqueuePos
        && ClaimRank(s', x) < ClaimRank(s, x))
  }

  lemma PublishOnly(s: State, x: nat)
    requires Formed(s) && x < |s.pcs| && s.pcs[x].PublishCheck? && s.pcs[x].item.FlushItem? && !s.failed
    ensures var s' := PublishStep(s, x);
            && SameShape(s, s') && s'.worker == s.worker && s'.requested == s.requested
            && s'.ring.dequeuePos == s.ring.dequeuePos && ClaimsSoon(s, s', x, s.pcs[x].item)
  {
  }

  lemma ReturnOnly(s: State, x: nat)
    requires Formed(s) && x < |s.pcs| && s.pcs[x].Enqueueing? && s.pcs[x].item.FlushItem? && s.ring.pcs[x].EnqRefused?
    ensures var s' := EnqueueStep(s, x, CALM);
            && SameShape(s, s') && s'.worker == s.worker && s'.requested == s.requested
            && s'.ring.dequeuePos == s.ring.dequeuePos && ClaimsSoon(s, s', x, s.pcs[x].item)
  {
  }

  lemma InsideOnly(s: State, x: nat)
    requires Formed(s) && Inv(s.ring) && x < |s.pcs| && s.pcs[x].Enqueueing? && s.pcs[x].item.FlushItem? && Coupled(s, x)
    requires s.ring.pcs[x].EnqLoad? || s.ring.pcs[x].EnqSequence? || s.ring.pcs[x].EnqCas?
    requires s.ring.dequeuePos == s.ring.enqueuePos
    requires forall v | 0 <= v < |s.ring.pcs| :: !s.ring.pcs[v].DeqRead? && !s.ring.pcs[v].DeqStore?
    ensures var s' := EnqueueStep(s, x, CALM);
            && SameShape(s, s') && s'.worker == s.worker && s'.requested == s.requested
            && s'.ring.dequeuePos == s.ring.dequeuePos && ClaimsSoon(s, s', x, s.pcs[x].item)
  {
    RingClaims(s.ring, x);
    AdvanceEnqueues(s.ring, x, CALM.spurious);
  }

  lemma ClaimStep(s: State, x: nat)
    requires Calm(s, x) && Empty(s) && HeldTicket(s, x).Some?
    ensures var s' := Apply(s, ClaimMove(s.pcs[x], x));
            Calm(s', x) && OnlyClient(s, s', x) && ClaimsSoon(s, s', x, s.pcs[x].item)
  {
    MoveKeepsInv(s, ClaimMove(s.pcs[x], x));
    ClaimsInOneStep(s, x);
    OnlyOne(s, ClaimMove(s.pcs[x], x));
  }

  lemma ClaimsInOneStep(s: State, x: nat)
    requires Calm(s, x) && Empty(s) && HeldTicket(s, x).Some?
    ensures var s' := Apply(s, ClaimMove(s.pcs[x], x));
            && SameShape(s, s') && s'.worker == s.worker && s'.requested == s.requested
            && s'.ring.dequeuePos == s.ring.dequeuePos && ClaimsSoon(s, s', x, s.pcs[x].item)
  {
    if s.pcs[x].PublishCheck? {
      CalmFacts(s, x);
      PublishOnly(s, x);
    } else if s.ring.pcs[x].EnqRefused? {
      ReturnOnly(s, x);
    } else {
      NobodyTakes(s);
      InsideOnlyInv(s, x);
    }
  }

  lemma InsideOnlyInv(s: State, x: nat)
    requires Invariant(s) && Empty(s) && x < |s.pcs| && s.pcs[x].Enqueueing? && HeldTicket(s, x).Some?
    requires !s.ring.pcs[x].EnqRefused?
    requires forall v | 0 <= v < |s.ring.pcs| :: !s.ring.pcs[v].DeqRead? && !s.ring.pcs[v].DeqStore?
    ensures var s' := EnqueueStep(s, x, CALM);
            && SameShape(s, s') && s'.worker == s.worker && s'.requested == s.requested
            && s'.ring.dequeuePos == s.ring.dequeuePos && ClaimsSoon(s, s', x, s.pcs[x].item)
  {
    OwnClient(s, x);
    assert Holds(s, RingPart);
    InsideOnly(s, x);
  }

  lemma OnlyOne(s: State, move: Move)
    requires Formed(s) && !IsWorkerMove(move)
    ensures forall v :: ClientKept(s, Apply(s, move), move.t, v)
  {
    forall v: nat ensures ClientKept(s, Apply(s, move), move.t, v) {
      if v < |s.pcs| && v != move.t {
        OthersDoNotMove(s, move, v);
        OthersKeepRingPc(s, move, v);
      }
    }
  }

  /** A client that holds a ticket can claim a position of the empty ring for it. */
  lemma {:induction false} ClaimTicket(s: State, x: nat) returns (rest: seq<Move>)
    requires Calm(s, x) && Empty(s) && HeldTicket(s, x).Some?
    ensures var s' := Continue(s, rest);
            && Calm(s', x) && OnlyClient(s, s', x)
            && s'.pcs[x] == Enqueueing(s.pcs[x].item) && s'.ring.pcs[x].EnqWrite?
            && s'.ring.items == s.ring.items + [s.pcs[x].item]
    decreases ClaimRank(s, x)
  {
    var move := ClaimMove(s.pcs[x], x);
    var s1 := Apply(s, move);
    ClaimStep(s, x);
    ContinueOnce(s, move);
    rest := [move];
    if !s1.ring.pcs[x].EnqWrite? {
      var more := ClaimTicket(s1, x);
      Then(s, [move], s1, more);
      rest := [move] + more;
      OnlyClientTrans(s, s1, Continue(s, rest), x);
    }
  }

  // ----- two tickets race -----

  lemma HeldAcross(s: State, s': State, v: nat)
    requires Formed(s) && Frame(s, s') && v < |s.pcs| && HeldTicket(s, v).Some?
    ensures HeldTicket(s', v) == HeldTicket(s, v)
  {
    assert RingPcKept(s, s', v);
  }

  lemma HeldIsLive(s: State, v: nat)
    requires Formed(s) && v < |s.pcs| && HeldTicket(s, v).Some?
    ensures Live(s.pcs[v]) && (s.pcs[v].PublishCheck? || s.pcs[v].Enqueueing?)
    ensures s.pcs[v].item.FlushItem? && s.pcs[v].item.ticket == HeldTicket(s, v).value
  {
  }

  /** The ring is emptied, x puts its ticket in, and the ring is emptied again. */
  lemma OneMore(s: State, x: nat) returns (rest: seq<Move>)
    requires Calm(s, x) && HeldTicket(s, x).Some?
    ensures var s' := Continue(s, rest);
            && Calm(s', x) && Empty(s') && s'.ring.items == s.ring.items + [s.pcs[x].item]
            && s'.pcs[x] == Enqueueing(s.pcs[x].item) && Claimed(s'.ring.pcs[x])
            && (forall v :: Spectates(s, s', x, v))
  {
    var r1 := Drain(s, x);
    var s1 := Continue(s, r1);
    HeldAcross(s, s1, x);
    var r2 := ClaimTicket(s1, x);
    var s2 := Continue(s1, r2);
    var r3 := Drain(s2, x);
    var s3 := Continue(s2, r3);
    Then(s1, r2, s2, r3);
    Then(s, r1, s1, r2 + r3);
    rest := r1 + (r2 + r3);
    assert RingPcKept(s2, s3, x);
    forall v: nat ensures Spectates(s, s3, x, v) {
      assert RingPcKept(s, s1, v) && ClientKept(s1, s2, x, v) && RingPcKept(s2, s3, v);
    }
  }

  /** Meanwhile client v stays where it was, or only publishes what it had claimed. */
  ghost predicate Spectates(s: State, s': State, x: nat, v: nat)
    requires Formed(s) && SameShape(s, s')
  {
    v < |s.pcs| && v != x ==>
      && s'.pcs[v] == s.pcs[v]
      && if Claimed(s.ring.pcs[v]) then Claimed(s'.ring.pcs[v]) else s'.ring.pcs[v] == s.ring.pcs[v]
  }

  lemma Race(s: State, t: nat, u: nat) returns (rest: seq<Move>)
    requires Calm(s, u) && t < |s.pcs| && t != u && HeldTicket(s, t).Some? && HeldTicket(s, u).Some?
    ensures var s' := Continue(s, rest);
            && Calm(s', u) && Empty(s') && s'.ring.items == s.ring.items + [s.pcs[t].item] + [s.pcs[u].item]
            && s'.pcs[t] == Enqueueing(s.pcs[t].item) && Claimed(s'.ring.pcs[t])
  {
    HeldIsLive(s, t);
    var r1 := OneMore(s, t);
    var s1 := Continue(s, r1);
    assert Spectates(s, s1, t, u);
    HeldIsLive(s, u);
    var r2 := OneMore(s1, u);
    assert Spectates(s1, Continue(s1, r2), u, t);
    Then(s, r1, s1, r2);
    rest := r1 + r2;
  }

  /** In an empty ring the ticket stored last is the one at the last position. */
  lemma LastStored(s: State, k: nat)
    requires Invariant(s) && Empty(s) && |s.ring.items| >= 2
    requires var n := |s.ring.items|; s.ring.items[n - 1].FlushItem? && s.ring.items[n - 2].FlushItem? && s.ring.items[n - 2].ticket == k
    ensures s.completed == s.ring.items[|s.ring.items| - 1].ticket && TicketHandled(s, k) && !Released(s.worker)
  {
    var n := |s.ring.items|;
    assert Holds(s, TracePart);
    TicketSnoc(s.ring.items, n);
    assert n - 2 < Stored(s) && s.ring.items[n - 2].ticket == k;
  }

  // ----- a client waits in vain -----

  lemma ClaimIsAccepted(s: State, t: nat)
    requires Invariant(s) && Empty(s) && t < |s.pcs| && Claimed(s.ring.pcs[t])
    ensures s.ring.pcs[t].EnqAccepted?
  {
    assert Holds(s, RingPart);
    assert PcOkAt(s.ring, t);
  }

  /** The worker and what it has done are the same. */
  ghost predicate SameWork(s: State, s': State) {
    && s'.worker == s.worker && s'.completed == s.completed && s'.failed == s.failed
    && s'.ring.items == s.ring.items && s'.ring.dequeuePos == s.ring.dequeuePos
  }

  lemma WaitsOne(s: State, t: nat)
    requires Formed(s) && t < |s.pcs| && s.pcs[t].Enqueueing? && s.ring.pcs[t].EnqAccepted?
    ensures var s' := Apply(s, Enqueue(t, CALM));
            SameShape(s, s') && SameWork(s, s') && s'.pcs[t] == Notify(s.pcs[t].item, s.ring.pcs[t].pos)
  {
  }

  lemma WaitsTwo(s: State, t: nat)
    requires Formed(s) && t < |s.pcs| && s.pcs[t].Notify? && s.pcs[t].item.FlushItem?
    ensures var s' := Apply(s, Publish(t));
            SameShape(s, s') && SameWork(s, s') && s'.pcs[t] == AwaitLoad(s.pcs[t].item)
  {
  }

  lemma WaitsThree(s: State, t: nat)
    requires Formed(s) && t < |s.pcs| && s.pcs[t].AwaitLoad? && s.pcs[t].item.FlushItem? && s.completed < s.pcs[t].item.ticket
    requires !s.failed
    ensures var s1 := Apply(s, Await(t)); var s' := Apply(s1, Await(t));
            SameShape(s, s') && SameWork(s, s') && s'.pcs[t] == AwaitChange(s.pcs[t].item, s.completed)
  {
  }

  lemma WaitsInVain(s: State, t: nat) returns (rest: seq<Move>)
    requires Formed(s) && t < |s.pcs| && s.pcs[t].Enqueueing? && s.ring.pcs[t].EnqAccepted? && !s.failed
    requires s.pcs[t].item.FlushItem? && s.completed < s.pcs[t].item.ticket
    ensures var s' := Continue(s, rest);
            SameShape(s, s') && SameWork(s, s') && s'.pcs[t] == AwaitChange(s.pcs[t].item, s.completed)
  {
    var s1 := Apply(s, Enqueue(t, CALM));
    var s2 := Apply(s1, Publish(t));
    var s3 := Apply(s2, Await(t));
    WaitsOne(s, t);
    WaitsTwo(s1, t);
    WaitsThree(s2, t);
    ContinueOnce(s, Enqueue(t, CALM));
    ContinueOnce(s1, Publish(t));
    ContinueOnce(s2, Await(t));
    ContinueOnce(s3, Await(t));
    Then(s2, [Await(t)], s3, [Await(t)]);
    Then(s1, [Publish(t)], s2, [Await(t)] + [Await(t)]);
    Then(s, [Enqueue(t, CALM)], s1, [Publish(t)] + ([Await(t)] + [Await(t)]));
    rest := [Enqueue(t, CALM)] + ([Publish(t)] + ([Await(t)] + [Await(t)]));
  }

  // ----- theorems -----

  /** Client t's Flush with ticket k is left behind: its item was handled, nobody was released by a
      failure, and it is blocked. */
  ghost predicate Missed(s: State, t: nat, k: nat)
    requires Formed(s)
  {
    && TicketHandled(s, k) && !Released(s.worker)
    && Blocked(s, t) && s.pcs[t].item.FlushItem? && s.pcs[t].item.ticket == k
  }

  /** Some continuation leaves it behind. */
  ghost predicate CanBeMissed(s: State, t: nat, k: nat)
    requires Formed(s)
  {
    exists rest :: Missed(Continue(s, rest), t, k)
  }

  lemma TakingFacts(s: State, t: nat, u: nat, c: Choice)
    requires Invariant(s) && t < |s.pcs| && s.pcs[t].TakeTicket? && u < |s.pcs| && u != t && HeldTicket(s, u).Some?
    ensures var s1 := Apply(s, Check(t, c));
            && s1.worker == s.worker && HeldTicket(s1, t) == Some(s.requested + 1)
            && HeldTicket(s1, u) == HeldTicket(s, u) && HeldTicket(s, u).value <= s.requested
  {
    OwnClient(s, u);
    assert Holds(s, TicketPart);
  }

  /** With an overlapping ticket, there is a run in which this Flush is left behind. */
  lemma OverlapMisses(s: State, t: nat, u: nat, c: Choice) returns (rest: seq<Move>)
    requires Invariant(s) && t < |s.pcs| && s.pcs[t].TakeTicket? && !Failing(s.worker)
    requires u < |s.pcs| && u != t && HeldTicket(s, u).Some?
    ensures Missed(Continue(Apply(s, Check(t, c)), rest), t, s.requested + 1)
  {
    var s1 := Apply(s, Check(t, c));
    MoveKeepsInv(s, Check(t, c));
    TakingFacts(s, t, u, c);
    HeldIsLive(s1, u);
    HeldIsLive(s1, t);
    var race := Race(s1, t, u);
    var s2 := Continue(s1, race);
    LastStored(s2, s.requested + 1);
    ClaimIsAccepted(s2, t);
    CalmFacts(s2, u);
    var wait := WaitsInVain(s2, t);
    Then(s1, race, s2, wait);
    rest := race + wait;
    HandledAcross(s2, Continue(s2, wait), s.requested + 1);
  }

  lemma HandledAcross(s: State, s': State, k: nat)
    requires Formed(s) && SameShape(s, s') && SameWork(s, s') && AtTop(s.worker) && TicketHandled(s, k)
    ensures TicketHandled(s', k)
  {
    var p :| 0 <= p < Stored(s) && p < |s.ring.items| && s.ring.items[p].FlushItem? && s.ring.items[p].ticket == k;
    assert p < Stored(s') && s'.ring.items[p].ticket == k;
  }

  // a worker that is failing handles nothing more

  lemma FailingWorkerMove(s: State, move: Move)
    requires Formed(s) && Failing(s.worker) && IsWorkerMove(move)
    ensures Failing(Apply(s, move).worker) && Stored(Apply(s, move)) == Stored(s)
  {
    match move
    case Fail(c) => FailStores(s, c);
    case Handle(c) => HandleIdles(s, c);
    case Wait(c) => WaitIdles(s, c);
    case _ => OthersIdle(s, move);
  }

  lemma FailStores(s: State, c: Choice)
    requires Formed(s) && Failing(s.worker)
    ensures Failing(FailStep(s, c).worker) && Stored(FailStep(s, c)) == Stored(s)
  {
  }

  lemma HandleIdles(s: State, c: Choice)
    requires Formed(s) && Failing(s.worker)
    ensures HandleStep(s, c) == s
  {
  }

  lemma WaitIdles(s: State, c: Choice)
    requires Formed(s) && Failing(s.worker)
    ensures WaitStep(s, c) == s
  {
  }

  lemma OthersIdle(s: State, move: Move)
    requires Formed(s) && Failing(s.worker) && (move.BeginDequeue? || move.Dequeue? || move.Turn? || move.ExitTest?)
    ensures Apply(s, move) == s
  {
  }

  lemma {:induction false} FailingHandlesNothing(s: State, rest: seq<Move>)
    requires Invariant(s) && Failing(s.worker)
    ensures Failing(Continue(s, rest).worker) && Stored(Continue(s, rest)) == Stored(s)
  {
    if rest != [] {
      var n := |rest| - 1;
      var before := Continue(s, rest[..n]);
      FailingHandlesNothing(s, rest[..n]);
      ContinueKeepsInv(s, rest[..n]);
      if IsWorkerMove(rest[n]) { FailingWorkerMove(before, rest[n]); } else { ClientTakesNothing(before, rest[n]); }
    }
  }

  lemma FailingNeverHandles(s: State, t: nat, c: Choice, rest: seq<Move>)
    requires Invariant(s) && t < |s.pcs| && s.pcs[t].TakeTicket? && Failing(s.worker)
    ensures !TicketHandled(Continue(Apply(s, Check(t, c)), rest), s.requested + 1)
  {
    var s1, k := Apply(s, Check(t, c)), s.requested + 1;
    var s' := Continue(s1, rest);
    MoveKeepsInv(s, Check(t, c));
    ContinueKeepsInv(s1, rest);
    ClientTakesNothing(s, Check(t, c));
    FailingHandlesNothing(s1, rest);
    TicketRemembered(s, t, c, s');
    assert Holds(s, TracePart);
    if TicketHandled(s', k) {
      var p :| 0 <= p < Stored(s') && p < |s'.ring.items| && s'.ring.items[p].FlushItem? && s'.ring.items[p].ticket == k;
      TicketPosition(s', k, |s.ring.items|, p);
    }
  }

  lemma AloneIsNotMissed(s: State, t: nat, c: Choice, rest: seq<Move>)
    requires Invariant(s) && t < |s.pcs| && s.pcs[t].TakeTicket?
    requires Alone(s, t) || Failing(s.worker)
    ensures !Missed(Continue(Apply(s, Check(t, c)), rest), t, s.requested + 1)
  {
    MoveKeepsInv(s, Check(t, c));
    ContinueKeepsInv(Apply(s, Check(t, c)), rest);
    OwnClient(Continue(Apply(s, Check(t, c)), rest), t);
    if Failing(s.worker) { FailingNeverHandles(s, t, c, rest); } else { AloneNeverMisses(s, t, c, rest); }
  }

  /** Exactly when a Flush can be left behind.  Let client t take its ticket in a reachable state.  In
      some continuation its item is handled and it is blocked for good unless another flush item
      comes, if and only if some other client holds a ticket there that it has not put into the ring,
      and the worker has not begun to fail.  Calls of Flush that start later do no harm. */
  lemma FlushMissesExactly(cfg: Config, capacity: nat, clients: nat, first: seq<Move>, s: State, t: nat, c: Choice)
    requires 2 <= capacity && clients < GATE && t < clients
    requires s == Run(cfg, capacity, clients, first) && s.pcs[t].TakeTicket?
    ensures CanBeMissed(Apply(s, Check(t, c)), t, s.requested + 1) <==> !Failing(s.worker) && !Alone(s, t)
  {
    Reachable(cfg, capacity, clients, first);
    if Failing(s.worker) || Alone(s, t) {
      forall rest: seq<Move> ensures !Missed(Continue(Apply(s, Check(t, c)), rest), t, s.requested + 1) {
        AloneIsNotMissed(s, t, c, rest);
      }
    } else {
      var u: nat :| u < |s.pcs| && u != t && HeldTicket(s, u).Some?;
      var rest := OverlapMisses(s, t, u, c);
      assert Missed(Continue(Apply(s, Check(t, c)), rest), t, s.requested + 1);
    }
  }

  /** A Flush that no other Flush overlaps as it takes its ticket k: once its item was handled, the
      complete ticket is at least k in every continuation. */
  lemma FlushAloneIsServed(cfg: Config, capacity: nat, clients: nat, first: seq<Move>, rest: seq<Move>,
                           s: State, s': State, t: nat, c: Choice)
    requires 2 <= capacity && clients < GATE && t < clients
    requires s == Run(cfg, capacity, clients, first) && s.pcs[t].TakeTicket? && Alone(s, t)
    requires s' == Continue(Apply(s, Check(t, c)), rest)
    ensures TicketHandled(s', s.requested + 1) && !Released(s'.worker) ==> s.requested + 1 <= s'.completed
  {
    Reachable(cfg, capacity, clients, first);
    AloneNeverMisses(s, t, c, rest);
  }

  /** As long as some call is running and nothing fails, the ring can be emptied: no reachable state
      is a dead end for the items in it. */
  lemma RingCanBeEmptied(cfg: Config, capacity: nat, clients: nat, first: seq<Move>, s: State, u: nat)
    requires 2 <= capacity && clients < GATE && u < clients
    requires s == Run(cfg, capacity, clients, first) && Live(s.pcs[u]) && !Failing(s.worker)
    ensures exists rest :: var s' := Continue(s, rest);
              Empty(s') && s'.pcs == s.pcs && s'.ring.items == s.ring.items && Writes(s'.events) == Logs(s.ring.items)
  {
    Reachable(cfg, capacity, clients, first);
    var rest := Drain(s, u);
    EmptyIsWritten(Continue(s, rest));
  }

  lemma EmptyIsWritten(s: State)
    requires Invariant(s) && Empty(s)
    ensures Writes(s.events) == Logs(s.ring.items)
  {
    assert Holds(s, WritePart);
    assert s.ring.items[..s.ring.dequeuePos] == s.ring.items;
  }
}
