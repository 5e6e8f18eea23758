/** What the ring of LockFreeRingBuffer guarantees in every run of any number of threads. */
module RingTheorems {
  import opened Options
  import opened Ring

  // ----- runs -----

  /** One move of a run: a thread starts a call, takes a step inside one, or leaves a finished call. */
  datatype Move<+T> =
    | CallEnqueue(t: nat, item: T)
    | CallDequeue(t: nat)
    | Return(t: nat)
    | Step(t: nat, spurious: bool)

  /** A move that is not possible in r changes nothing. */
  function Apply<T>(r: Ring<T>, move: Move<T>): Ring<T>
    requires Shaped(r)
  {
    if move.t >= |r.pcs| then r else
    match move
    case CallEnqueue(t, item) => if r.pcs[t].Idle? then Goto(r, t, EnqLoad(item)) else r
    case CallDequeue(t) => if r.pcs[t].Idle? then Goto(r, t, DeqLoad) else r
    case Return(t) => if Returned(r.pcs[t]) then Goto(r, t, Idle) else r
    case Step(t, spurious) => Advance(r, t, spurious)
  }

  /** The ring after any sequence of moves, that is, after any interleaving. */
  function Run<T>(capacity: nat, threads: nat, moves: seq<Move<T>>): (r: Ring<T>)
    requires 2 <= capacity
    ensures Shaped(r) && r.capacity == capacity && |r.pcs| == threads
  {
    if moves == [] then Initial(capacity, threads)
    else Apply(Run(capacity, threads, moves[..|moves| - 1]), moves[|moves| - 1])
  }

  lemma InitialInv<T>(capacity: nat, threads: nat)
    requires 2 <= capacity
    ensures Inv(Initial<T>(capacity, threads))
  {
    var r := Initial<T>(capacity, threads);
    forall pos ensures CellOkAt(r, pos) {
      assert InWindow(r, pos) ==> Slot(pos, capacity) == pos;
    }
  }

  lemma CallOrReturnKeepsInv<T>(r: Ring<T>, t: nat, pc: Pc<T>)
    requires Inv(r) && t < |r.pcs| && (r.pcs[t].Idle? || Returned(r.pcs[t]))
    requires pc.Idle? || pc.EnqLoad? || pc.DeqLoad?
    ensures Inv(Goto(r, t, pc))
  {
    var r' := Goto(r, t, pc);
    forall pos ensures CellOkAt(r', pos) {
      assert CellOkAt(r, pos);
      GotoKeepsCell(r, t, pc, pos);
    }
    forall u ensures PcOkAt(r', u) {
      assert PcOkAt(r, u);
      GotoKeepsPc(r, t, pc, u);
    }
  }

  lemma ApplyKeepsInv<T>(r: Ring<T>, move: Move<T>)
    requires Inv(r)
    ensures Inv(Apply(r, move))
  {
    if move.t < |r.pcs| {
      match move
      case Step(t, spurious) => AdvanceKeepsInv(r, t, spurious);
      case CallEnqueue(t, item) => if r.pcs[t].Idle? { CallOrReturnKeepsInv(r, t, EnqLoad(item)); }
      case CallDequeue(t) => if r.pcs[t].Idle? { CallOrReturnKeepsInv(r, t, DeqLoad); }
      case Return(t) => if Returned(r.pcs[t]) { CallOrReturnKeepsInv(r, t, Idle); }
    }
  }

  /** Every state of every run satisfies the invariant, and with it the ring's bounds. */
  lemma {:induction false} RunKeepsInv<T>(capacity: nat, threads: nat, moves: seq<Move<T>>)
    requires 2 <= capacity
    ensures var r := Run(capacity, threads, moves);
            Inv(r) && r.dequeuePos <= r.enqueuePos <= r.dequeuePos + capacity
  {
    if moves == [] {
      InitialInv<T>(capacity, threads);
    } else {
      RunKeepsInv(capacity, threads, moves[..|moves| - 1]);
      ApplyKeepsInv(Run(capacity, threads, moves[..|moves| - 1]), moves[|moves| - 1]);
    }
  }

  // ----- refinement of a bounded FIFO queue -----

  /** The abstract queue: what was claimed for writing and not yet claimed for reading. */
  function Queue<T>(r: Ring<T>): seq<T>
    requires r.dequeuePos <= |r.items|
  {
    r.items[r.dequeuePos..]
  }

  /** One step of one thread is one step of a bounded FIFO queue. */
  lemma StepRefinesQueue<T>(r: Ring<T>, t: nat, spurious: bool)
    requires Inv(r) && t < |r.pcs|
    ensures Inv(Advance(r, t, spurious))
    ensures var pc, r' := r.pcs[t], Advance(r, t, spurious);
            // nothing enters or leaves,
            || Queue(r') == Queue(r)
            // or the item its thread was called with enters a queue that has room,
            || (&& pc.EnqCas? && r'.pcs[t] == EnqWrite(pc.item, r.enqueuePos)
                && |Queue(r)| < r.capacity && Queue(r') == Queue(r) + [pc.item])
            // or the head leaves, and its position was never taken before
            || (&& pc.DeqCas? && r'.pcs[t] == DeqRead(r.dequeuePos) && |r.takers| == r.dequeuePos
                && Queue(r) != [] && Queue(r') == Queue(r)[1..])
  {
    AdvanceKeepsInv(r, t, spurious);
    assert PcOkAt(r, t) && CellOkAt(r, r.dequeuePos);
    var pc, r' := r.pcs[t], Advance(r, t, spurious);
    if pc.EnqCas? && r'.enqueuePos != r.enqueuePos {
      assert Queue(r') == Queue(r) + [pc.item];
    }
  }

  /** A thread that leaves with an item took it from a position nobody else takes, and the item is
      exactly what the thread that claimed that position was called with. */
  lemma DeliveryIsExact<T>(r: Ring<T>, t: nat, u: nat)
    requires Inv(r) && t < |r.pcs| && u < |r.pcs|
    requires r.pcs[t].DeqTaken?
    ensures r.pcs[t].pos < |r.items| && r.pcs[t].item == r.items[r.pcs[t].pos]
    ensures (r.pcs[u].DeqTaken? || r.pcs[u].DeqRead? || r.pcs[u].DeqStore?) && r.pcs[u].pos == r.pcs[t].pos ==> u == t
  {
    assert PcOkAt(r, t) && PcOkAt(r, u);
  }

  // ----- exclusive ownership of a cell -----

  /** The spans in which a thread reads or writes the plain value of a cell. */
  function OwnedSlot<T>(r: Ring<T>, t: nat): Option<nat>
    requires Shaped(r) && t < |r.pcs|
  {
    match r.pcs[t]
    case EnqWrite(_, pos) => Some(Slot(pos, r.capacity))
    case EnqStore(pos) => Some(Slot(pos, r.capacity))
    case DeqRead(pos) => Some(Slot(pos, r.capacity))
    case DeqStore(pos, _) => Some(Slot(pos, r.capacity))
    case _ => None
  }

  lemma OneOwnerPerCell<T>(r: Ring<T>, t: nat, u: nat)
    requires Inv(r) && t < |r.pcs| && u < |r.pcs| && t != u
    requires OwnedSlot(r, t).Some?
    ensures OwnedSlot(r, t) != OwnedSlot(r, u)
  {
    assert PcOkAt(r, t) && PcOkAt(r, u);
    if OwnsCell(r.pcs[u]) {
      SlotsApart(r, Focus(r, t), Focus(r, u));
      SlotsApart(r, r.enqueuePos, Focus(r, t));
      SlotsApart(r, r.enqueuePos, Focus(r, u));
    }
  }

  // ----- honest refusals -----

  /** Every position up to the enqueue cursor shares its cell with a position of the window, and the
      cell's sequence number has at least reached the position. */
  lemma {:induction false} SequenceReached<T>(r: Ring<T>, pos: nat)
    requires Inv(r) && pos <= r.enqueuePos && pos < r.dequeuePos + r.capacity
    ensures pos < r.enqueuePos ==> r.cells[Slot(pos, r.capacity)].sequence >= pos
    ensures pos < r.dequeuePos ==> r.cells[Slot(pos, r.capacity)].sequence > pos
    decreases r.enqueuePos + r.capacity - pos
  {
    assert CellOkAt(r, pos);
    if pos < r.dequeuePos {
      assert Slot(pos + r.capacity, r.capacity) == Slot(pos, r.capacity);
      assert CellOkAt(r, pos + r.capacity);
      if pos + r.capacity < r.dequeuePos {
        SequenceReached(r, pos + r.capacity);
      }
    }
  }

  /** The ring is full for a new position: the cell of the cursor is a whole lap behind. */
  ghost predicate Full<T>(r: Ring<T>)
    requires Counted(r)
  {
    || r.enqueuePos == r.dequeuePos + r.capacity
    || (r.enqueuePos >= r.capacity && Unreleased(r, r.enqueuePos - r.capacity))
  }

  /** TryEnqueue refuses exactly when, at its load of the sequence number, its position is still the
      cursor and the position one lap earlier has not been handed back.  The item stays with the
      caller, so trying again with it is sound. */
  lemma RefusalIsHonest<T>(r: Ring<T>, t: nat, spurious: bool)
    requires Inv(r) && t < |r.pcs| && r.pcs[t].EnqSequence?
    ensures var pc, r' := r.pcs[t], Advance(r, t, spurious);
            && (r'.pcs[t].EnqRefused? <==> pc.pos == r.enqueuePos && Full(r))
            && (r'.pcs[t].EnqRefused? ==> r' == Goto(r, t, EnqRefused(pc.item)))
  {
    var pos := r.pcs[t].pos;
    assert PcOkAt(r, t);
    assert CellOkAt(r, r.enqueuePos) && CellOkAt(r, r.dequeuePos);
    assert Slot(r.dequeuePos + r.capacity, r.capacity) == Slot(r.dequeuePos, r.capacity);
    if pos < r.enqueuePos {
      SequenceReached(r, pos);
    }
  }

  /** TryDequeue reports empty exactly when, at its load of the sequence number, its position is
      still the cursor and that position has not been published. */
  lemma EmptyIsHonest<T>(r: Ring<T>, t: nat, spurious: bool)
    requires Inv(r) && t < |r.pcs| && r.pcs[t].DeqSequence?
    ensures Advance(r, t, spurious).pcs[t].DeqEmpty? <==>
              r.pcs[t].pos == r.dequeuePos && (Queue(r) == [] || Unpublished(r, r.dequeuePos))
  {
    var pos := r.pcs[t].pos;
    assert PcOkAt(r, t);
    assert CellOkAt(r, r.dequeuePos);
    if pos < r.dequeuePos {
      SequenceReached(r, pos);
    }
  }

  /** With no enqueuer between its claim and its publication, an empty report means an empty ring. */
  lemma EmptyMeansEmpty<T>(r: Ring<T>, t: nat, spurious: bool)
    requires Inv(r) && t < |r.pcs| && r.pcs[t].DeqSequence?
    requires forall u | 0 <= u < |r.pcs| :: !r.pcs[u].EnqWrite? && !r.pcs[u].EnqStore?
    ensures Advance(r, t, spurious).pcs[t].DeqEmpty? ==> Queue(r) == []
  {
    EmptyIsHonest(r, t, spurious);
  }
}
