/** The shared words of the logger: the gate, the counters, the tickets and the wake signal. */
module LoggerShared {
  import opened Ring
  import opened Logger
  import opened LoggerInvariant
  import opened LoggerQueueSteps

  // ----- counting -----

  function Count(flags: seq<bool>): nat {
    if flags == [] then 0 else Count(flags[..|flags| - 1]) + (if flags[|flags| - 1] then 1 else 0)
  }

  function One(b: bool): nat { if b then 1 else 0 }

  lemma {:induction false} CountUpdate(flags: seq<bool>, i: nat, b: bool)
    requires i < |flags|
    ensures Count(flags[i := b]) == Count(flags) - One(flags[i]) + One(b)
    ensures One(flags[i]) <= Count(flags)
  {
    var n := |flags| - 1;
    assert flags[i := b][..n] == if i == n then flags[..n] else flags[..n][i := b];
    if i < n {
      CountUpdate(flags[..n], i, b);
    }
  }

  lemma {:induction false} CountBounds(flags: seq<bool>)
    ensures Count(flags) <= |flags|
    ensures Count(flags) == 0 <==> forall i | 0 <= i < |flags| :: !flags[i]
  {
    if flags != [] {
      var n := |flags| - 1;
      CountBounds(flags[..n]);
      assert forall i | 0 <= i < n :: flags[i] == flags[..n][i];
    }
  }

  // ----- the gate word -----

  function LiveFlags(pcs: seq<ClientPc>): (flags: seq<bool>) {
    seq(|pcs|, i requires 0 <= i < |pcs| => Live(pcs[i]))
  }

  function LiveCalls(s: State): nat { Count(LiveFlags(s.pcs)) }

  /** The low 63 bits are the number of live guards. */
  ghost predicate GateOk(s: State) {
    s.word < WORD && |s.pcs| < GATE && Active(s.word) == LiveCalls(s)
  }

  /** Stop was requested and every operation has finished. */
  ghost predicate Quiet(s: State) {
    Closed(s.word) && Active(s.word) == 0
  }

  /** One step of the word, when the word counts `live` guards before it. */
  lemma WordStep(word: nat, word': nat, live: nat, before: bool, after: bool)
    requires word < WORD && Active(word) == live && One(before) <= live && live - One(before) + One(after) < GATE
    requires
      || (word' == word && after == before)
      || (!Closed(word) && word' == (word + 1) % WORD && !before && after)
      || (word' == (word + WORD - 1) % WORD && before && !after)
      || (!Closed(word) && word' == word + GATE && after == before)
    ensures word' < WORD && Active(word') == live - One(before) + One(after)
    ensures Closed(word) ==> Closed(word') && Active(word') <= Active(word)
  {
  }

  lemma GateClient(s: State, s': State, t: nat)
    requires t < |s.pcs| == |s'.pcs| && s'.pcs == s.pcs[t := s'.pcs[t]] && MovesWord(s, s', t) && GateOk(s)
    ensures GateOk(s')
    ensures Closed(s.word) ==> Closed(s'.word) && Active(s'.word) <= Active(s.word)
    ensures Live(s.pcs[t]) ==> Active(s.word) > 0
  {
    LiveUpdate(s.pcs, t, s'.pcs[t]);
    WordStep(s.word, s'.word, LiveCalls(s), Live(s.pcs[t]), Live(s'.pcs[t]));
  }

  lemma LiveUpdate(pcs: seq<ClientPc>, t: nat, pc: ClientPc)
    requires t < |pcs|
    ensures Count(LiveFlags(pcs[t := pc])) == Count(LiveFlags(pcs)) - One(Live(pcs[t])) + One(Live(pc))
    ensures One(Live(pcs[t])) <= Count(LiveFlags(pcs)) && Count(LiveFlags(pcs[t := pc])) <= |pcs|
  {
    assert LiveFlags(pcs[t := pc]) == LiveFlags(pcs)[t := Live(pc)];
    CountUpdate(LiveFlags(pcs), t, Live(pc));
    CountBounds(LiveFlags(pcs[t := pc]));
  }

  lemma RoomForOneMore(s: State, t: nat)
    requires GateOk(s) && t < |s.pcs| && !Live(s.pcs[t])
    ensures Active(s.word) + 1 < GATE
  {
    LiveUpdate(s.pcs, t, Finish(Refused));
  }

  lemma QuietMeansIdle(s: State, u: nat)
    requires GateOk(s) && Active(s.word) == 0 && u < |s.pcs|
    ensures !Live(s.pcs[u])
  {
    CountBounds(LiveFlags(s.pcs));
    assert LiveFlags(s.pcs)[u] == Live(s.pcs[u]);
  }

  // ----- tickets -----

  ghost predicate TicketsOk(s: State) {
    && |s.ticketClaims| == s.requested
    && (forall i, j | 0 <= i <= j < |s.ticketClaims| :: s.ticketClaims[i] <= s.ticketClaims[j])
    && (forall i | 0 <= i < |s.ticketClaims| :: s.ticketClaims[i] <= s.ring.enqueuePos)
  }

  /** Only clients claim positions, and a flush item sits at a position claimed after its ticket was
      taken. */
  ghost predicate ItemOk(s: State, p: nat) {
    && (p < |s.ring.owners| ==> s.ring.owners[p] < |s.pcs|)
    && (p < |s.ring.items| && s.ring.items[p].FlushItem? ==>
          1 <= s.ring.items[p].ticket <= |s.ticketClaims| && s.ticketClaims[s.ring.items[p].ticket - 1] <= p)
  }

  ghost predicate AnswersOk(s: State) {
    && (forall k | k in s.acknowledged :: Durable(s, k))
    && (forall p | p in s.accepted :: p < |s.ring.items| && s.ring.items[p].LogItem?)
  }

  lemma TicketsClient(s: State, s': State, t: nat)
    requires Formed(s) && t < |s.pcs| && TicketsOk(s) && Claims(s, s', t) && Tickets(s, s')
    ensures TicketsOk(s')
  {
  }

  lemma ItemClient(s: State, s': State, t: nat, p: nat)
    requires Formed(s) && Counted(s.ring) && t < |s.pcs| && TicketsOk(s) && Claims(s, s', t) && Tickets(s, s')
    requires ItemOk(s, p) && LocalOk(s, t) && |s'.pcs| == |s.pcs|
    ensures ItemOk(s', p)
  {
  }

  lemma AnswersClient(s: State, s': State, t: nat)
    requires Formed(s) && t < |s.pcs| && ClientEffect(s, s', t) && AnswersOk(s) && LocalOk(s, t)
    ensures AnswersOk(s')
  {
  }

  // ----- counters -----

  function Logs(items: seq<Item>): seq<Item> {
    if items == [] then []
    else Logs(items[..|items| - 1]) + (if items[|items| - 1].LogItem? then [items[|items| - 1]] else [])
  }

  /** A Log that has raised the counter and has neither claimed a position nor taken the count back. */
  predicate Pending(pc: ClientPc, inRing: Pc<Item>) {
    match pc
    case PublishCheck(item) => item.LogItem?
    case Enqueueing(item) => item.LogItem? && Unclaimed(inRing)
    case UndoDrop(_) => true
    case UndoFail(_) => true
    case _ => false
  }

  /** A Log that passed its filter and is in neither counter: about to be counted, or about to be
      counted as dropped. */
  predicate Uncounted(pc: ClientPc) {
    pc.CountUp? || pc.CountDrop?
  }

  /** A live call that may still claim a position. */
  predicate MayClaim(pc: ClientPc, inRing: Pc<Item>) {
    match pc
    case CheckJoinable(_) => true
    case CheckFailure(_) => true
    case CheckLevel(_) => true
    case TakeTicket(_) => true
    case CountUp(_) => true
    case PublishCheck(_) => true
    case Enqueueing(_) => Unclaimed(inRing)
    case _ => false
  }

  function PendingFlags(s: State): seq<bool>
    requires Formed(s)
  {
    seq(|s.pcs|, i requires 0 <= i < |s.pcs| => Pending(s.pcs[i], s.ring.pcs[i]))
  }

  function UncountedFlags(s: State): seq<bool> {
    seq(|s.pcs|, i requires 0 <= i < |s.pcs| => Uncounted(s.pcs[i]))
  }

  function MayClaimFlags(s: State): seq<bool>
    requires Formed(s)
  {
    seq(|s.pcs|, i requires 0 <= i < |s.pcs| => MayClaim(s.pcs[i], s.ring.pcs[i]))
  }

  ghost predicate CountersOk(s: State)
    requires Formed(s)
  {
    && s.enqueued == Count(PendingFlags(s)) + |Logs(s.ring.items)|
    && s.passed == s.enqueued + s.dropped + s.undone + Count(UncountedFlags(s))
    && (!s.failed ==> s.undone == 0)
  }

  /** The step claims a position for a log. */
  ghost predicate ClaimsLog(s: State, s': State) {
    |s.ring.items| < |s'.ring.items| && s'.ring.items[|s'.ring.items| - 1].LogItem?
  }

  /** How one client step moves the counters, seen from its own thread alone. */
  ghost predicate Tallies(s: State, s': State, t: nat)
    requires Formed(s) && Formed(s') && t < |s.pcs| == |s'.pcs|
  {
    var pc, pc', inRing, inRing' := s.pcs[t], s'.pcs[t], s.ring.pcs[t], s'.ring.pcs[t];
    && s'.enqueued - s.enqueued
       == One(Pending(pc', inRing')) - One(Pending(pc, inRing)) + One(ClaimsLog(s, s'))
    && s'.passed - s.passed
       == (s'.enqueued - s.enqueued) + (s'.dropped - s.dropped) + (s'.undone - s.undone)
          + One(Uncounted(pc')) - One(Uncounted(pc))
    && (s'.undone == s.undone || s.failed)
    && (Closed(s.word) ==>
          s'.ring.enqueuePos + One(MayClaim(pc', inRing')) <= s.ring.enqueuePos + One(MayClaim(pc, inRing)))
  }

  lemma FlagsUpdate(s: State, s': State, t: nat)
    requires Formed(s) && t < |s.pcs| && ClientEffect(s, s', t)
    ensures Count(PendingFlags(s')) == Count(PendingFlags(s)) - One(Pending(s.pcs[t], s.ring.pcs[t]))
                                       + One(Pending(s'.pcs[t], s'.ring.pcs[t]))
    ensures Count(UncountedFlags(s')) == Count(UncountedFlags(s)) - One(Uncounted(s.pcs[t])) + One(Uncounted(s'.pcs[t]))
    ensures Count(MayClaimFlags(s')) == Count(MayClaimFlags(s)) - One(MayClaim(s.pcs[t], s.ring.pcs[t]))
                                        + One(MayClaim(s'.pcs[t], s'.ring.pcs[t]))
  {
    assert PendingFlags(s') == PendingFlags(s)[t := Pending(s'.pcs[t], s'.ring.pcs[t])];
    assert UncountedFlags(s') == UncountedFlags(s)[t := Uncounted(s'.pcs[t])];
    assert MayClaimFlags(s') == MayClaimFlags(s)[t := MayClaim(s'.pcs[t], s'.ring.pcs[t])];
    CountUpdate(PendingFlags(s), t, Pending(s'.pcs[t], s'.ring.pcs[t]));
    CountUpdate(UncountedFlags(s), t, Uncounted(s'.pcs[t]));
    CountUpdate(MayClaimFlags(s), t, MayClaim(s'.pcs[t], s'.ring.pcs[t]));
  }

  lemma CountersClient(s: State, s': State, t: nat)
    requires Formed(s) && t < |s.pcs| && ClientEffect(s, s', t) && Tallies(s, s', t) && CountersOk(s)
    ensures CountersOk(s')
    ensures Closed(s.word) ==>
              s'.ring.enqueuePos + Count(MayClaimFlags(s')) <= s.ring.enqueuePos + Count(MayClaimFlags(s))
  {
    FlagsUpdate(s, s', t);
    if s'.ring.items != s.ring.items {
      assert s'.ring.items[..|s'.ring.items| - 1] == s.ring.items;
    }
  }

  lemma CountersWorker(s: State, s': State)
    requires Formed(s) && SameShape(s, s') && s'.pcs == s.pcs && CountersOk(s) && s'.ring.items == s.ring.items
    requires forall i | 0 <= i < |s.pcs| :: s'.ring.pcs[i] == s.ring.pcs[i]
    requires s'.enqueued == s.enqueued && s'.dropped == s.dropped && s'.passed == s.passed && s'.undone == s.undone
    requires s.failed ==> s'.failed
    ensures CountersOk(s') && MayClaimFlags(s') == MayClaimFlags(s)
  {
    assert PendingFlags(s') == PendingFlags(s);
    assert UncountedFlags(s') == UncountedFlags(s);
  }

  lemma CallTallies(s: State, t: nat, c: Choice)
    requires Formed(s) && t < |s.pcs| && LocalOk(s, t)
    requires s.pcs[t].Ready?
    ensures Tallies(s, EntryStep(s, t, c), t)
  {
  }

  lemma EntryTallies(s: State, t: nat, c: Choice)
    requires Formed(s) && t < |s.pcs| && LocalOk(s, t)
    ensures Tallies(s, EntryStep(s, t, c), t)
  {
    if s.pcs[t].Ready? { CallTallies(s, t, c); }
  }

  lemma LevelTallies(s: State, t: nat, c: Choice)
    requires Formed(s) && t < |s.pcs| && LocalOk(s, t)
    requires s.pcs[t].CheckLevel? || s.pcs[t].TakeTicket?
    ensures Tallies(s, CheckStep(s, t, c), t)
  {
  }

  lemma CheckTallies(s: State, t: nat, c: Choice)
    requires Formed(s) && t < |s.pcs| && LocalOk(s, t)
    ensures Tallies(s, CheckStep(s, t, c), t)
  {
    if s.pcs[t].CheckLevel? || s.pcs[t].TakeTicket? { LevelTallies(s, t, c); }
  }

  lemma PublishCheckTallies(s: State, t: nat)
    requires Formed(s) && t < |s.pcs| && LocalOk(s, t)
    requires s.pcs[t].PublishCheck?
    ensures Tallies(s, PublishStep(s, t), t)
  {
  }

  lemma PublishTallies(s: State, t: nat)
    requires Formed(s) && t < |s.pcs| && LocalOk(s, t)
    ensures Tallies(s, PublishStep(s, t), t)
  {
    if s.pcs[t].PublishCheck? { PublishCheckTallies(s, t); }
  }

  lemma UndoTallies(s: State, t: nat)
    requires Formed(s) && t < |s.pcs| && LocalOk(s, t)
    ensures Tallies(s, UndoStep(s, t), t)
  {
  }

  lemma EnqueueInsideTallies(s: State, s': State, t: nat, ring: Ring<Item>)
    requires Formed(s) && Counted(s.ring) && t < |s.pcs| && s.pcs[t].Enqueueing? && InEnqueue(s.ring.pcs[t])
    requires Shaped(ring) && EnqueueEffect(s.ring, ring, t)
    requires s' == s.(ring := ring) && Coupled(s, t)
    ensures Formed(s') && Tallies(s, s', t)
  {
  }

  lemma EnqueueReturnTallies(s: State, t: nat, c: Choice)
    requires Formed(s) && t < |s.pcs| && Coupled(s, t)
    requires !(s.pcs[t].Enqueueing? && InEnqueue(s.ring.pcs[t]))
    ensures Tallies(s, EnqueueStep(s, t, c), t)
  {
  }

  lemma LookTallies(s: State, t: nat)
    requires Formed(s) && t < |s.pcs|
    requires s.pcs[t].AwaitLoad? || s.pcs[t].AwaitFinal?
    ensures Tallies(s, AwaitStep(s, t), t)
  {
  }

  lemma AwaitTallies(s: State, t: nat)
    requires Formed(s) && t < |s.pcs|
    ensures Tallies(s, AwaitStep(s, t), t)
  {
    if s.pcs[t].AwaitLoad? || s.pcs[t].AwaitFinal? { LookTallies(s, t); }
  }

  lemma LeaveTallies(s: State, t: nat)
    requires Formed(s) && t < |s.pcs|
    requires s.pcs[t].Finish?
    ensures Tallies(s, FinishStep(s, t), t)
  {
  }

  lemma FinishTallies(s: State, t: nat)
    requires Formed(s) && t < |s.pcs|
    ensures Tallies(s, FinishStep(s, t), t)
  {
    if s.pcs[t].Finish? { LeaveTallies(s, t); }
  }

  lemma StopTallies(s: State, t: nat, c: Choice)
    requires Formed(s) && t < |s.pcs|
    ensures Tallies(s, StopStep(s, t, c), t)
  {
    if Stopping(s.pcs[t]) { StopTalliesNothing(s, t, c); }
  }

  /** Stop neither counts nor claims. */
  lemma StopTalliesNothing(s: State, t: nat, c: Choice)
    requires Formed(s) && t < |s.pcs| && Stopping(s.pcs[t])
    ensures var s' := StopStep(s, t, c);
            && s'.ring == s.ring && s'.enqueued == s.enqueued && s'.passed == s.passed
            && s'.dropped == s.dropped && s'.undone == s.undone
            && (Stopping(s'.pcs[t]) || s'.pcs[t].Ready?)
  {
  }

  predicate Stopping(pc: ClientPc) {
    pc.StopLoad? || pc.StopCas? || pc.StopNotify? || pc.StopJoin?
  }
}
