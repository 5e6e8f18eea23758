/** The bounded ring of LockFreeRingBuffer as a transition system.

    Any number of threads run TryEnqueue and TryDequeue at the same time.  Every atomic load,
    compare-and-swap and store of the source is one step of one thread, and so is every plain access
    to a cell's value; threads interleave in any order.  Positions are unbounded naturals, so the
    source's signed difference between a sequence number and a position is a comparison. */
module Ring {

  import opened Options

  datatype Cell<+T> = Cell(sequence: nat, value: Option<T>)

  /** Where one thread stands inside TryEnqueue or TryDequeue. */
  datatype Pc<+T> =
    | Idle
    // TryEnqueue: load the cursor, load the sequence, swap the cursor, move the value in, publish
    | EnqLoad(item: T)
    | EnqSequence(item: T, pos: nat)
    | EnqCas(item: T, pos: nat)
    | EnqWrite(item: T, pos: nat)
    | EnqStore(pos: nat)
    | EnqAccepted(pos: nat)
    | EnqRefused(item: T)
    // TryDequeue: load the cursor, load the sequence, swap the cursor, move the value out, release
    | DeqLoad
    | DeqSequence(pos: nat)
    | DeqCas(pos: nat)
    | DeqRead(pos: nat)
    | DeqStore(pos: nat, item: T)
    | DeqTaken(pos: nat, item: T)
    | DeqEmpty

  /** The shared ring, the threads, and three histories: what was claimed at each position, by whom,
      and which thread claimed the position for reading.  No step reads a history. */
  datatype Ring<+T> = Ring(
    capacity: nat,
    cells: seq<Cell<T>>,
    enqueuePos: nat,
    dequeuePos: nat,
    pcs: seq<Pc<T>>,
    items: seq<T>,
    owners: seq<nat>,
    takers: seq<nat>)

  /** The remainder of pos by the capacity; the source masks the position instead, and
      Capacity.MaskIsSlot shows that the mask computes this. */
  function Slot(pos: nat, capacity: nat): (slot: nat)
    requires 0 < capacity
    ensures slot < capacity
  {
    if pos < capacity then pos else Slot(pos - capacity, capacity)
  }

  ghost predicate Shaped<T>(r: Ring<T>) {
    2 <= r.capacity && |r.cells| == r.capacity
  }

  function Initial<T>(capacity: nat, threads: nat): Ring<T> {
    Ring(capacity, seq(capacity, i requires 0 <= i => Cell(i, None)), 0, 0,
         seq(threads, i => Idle), [], [], [])
  }

  // ----- steps -----

  function Goto<T>(r: Ring<T>, t: nat, pc: Pc<T>): Ring<T>
    requires t < |r.pcs|
  {
    r.(pcs := r.pcs[t := pc])
  }

  /** The next step of thread t; `spurious` lets a weak compare-and-swap fail for no reason. */
  function Advance<T>(r: Ring<T>, t: nat, spurious: bool): (r': Ring<T>)
    requires Shaped(r) && t < |r.pcs|
    ensures Shaped(r') && r'.capacity == r.capacity && |r'.pcs| == |r.pcs|
  {
    match r.pcs[t]
    case EnqLoad(item) => Goto(r, t, EnqSequence(item, r.enqueuePos))
    case EnqSequence(item, pos) =>
      var sequence := r.cells[Slot(pos, r.capacity)].sequence;
      Goto(r, t, if sequence == pos then EnqCas(item, pos)
                 else if sequence < pos then EnqRefused(item)
                 else EnqLoad(item))
    case EnqCas(item, pos) =>
      if r.enqueuePos == pos && !spurious then
        Goto(r, t, EnqWrite(item, pos)).(enqueuePos := pos + 1, items := r.items + [item], owners := r.owners + [t])
      else
        Goto(r, t, EnqSequence(item, r.enqueuePos))
    case EnqWrite(item, pos) =>
      var slot := Slot(pos, r.capacity);
      Goto(r, t, EnqStore(pos)).(cells := r.cells[slot := r.cells[slot].(value := Some(item))])
    case EnqStore(pos) =>
      var slot := Slot(pos, r.capacity);
      Goto(r, t, EnqAccepted(pos)).(cells := r.cells[slot := r.cells[slot].(sequence := pos + 1)])
    case DeqLoad => Goto(r, t, DeqSequence(r.dequeuePos))
    case DeqSequence(pos) =>
      var sequence := r.cells[Slot(pos, r.capacity)].sequence;
      Goto(r, t, if sequence == pos + 1 then DeqCas(pos)
                 else if sequence < pos + 1 then DeqEmpty
                 else DeqLoad)
    case DeqCas(pos) =>
      if r.dequeuePos == pos && !spurious then
        Goto(r, t, DeqRead(pos)).(dequeuePos := pos + 1, takers := r.takers + [t])
      else
        Goto(r, t, DeqSequence(r.dequeuePos))
    case DeqRead(pos) =>
      var slot := Slot(pos, r.capacity);
      match r.cells[slot].value {
        case Some(item) => Goto(r, t, DeqStore(pos, item)).(cells := r.cells[slot := r.cells[slot].(value := None)])
        case None => r
      }
    case DeqStore(pos, item) =>
      var slot := Slot(pos, r.capacity);
      Goto(r, t, DeqTaken(pos, item)).(cells := r.cells[slot := r.cells[slot].(sequence := pos + r.capacity)])
    case _ => r
  }

  predicate Returned<T>(pc: Pc<T>) {
    pc.EnqAccepted? || pc.EnqRefused? || pc.DeqTaken? || pc.DeqEmpty?
  }

  // ----- the invariant -----

  /** Position pos was claimed by an enqueuer that has not stored its sequence yet. */
  ghost predicate Unpublished<T>(r: Ring<T>, pos: nat)
    requires pos < |r.owners|
  {
    var t := r.owners[pos];
    t < |r.pcs| && ((r.pcs[t].EnqWrite? || r.pcs[t].EnqStore?) && r.pcs[t].pos == pos)
  }

  /** Position pos was claimed by a dequeuer that has not handed the cell back yet. */
  ghost predicate Unreleased<T>(r: Ring<T>, pos: nat)
    requires pos < |r.takers|
  {
    var t := r.takers[pos];
    t < |r.pcs| && ((r.pcs[t].DeqRead? || r.pcs[t].DeqStore?) && r.pcs[t].pos == pos)
  }

  ghost predicate Counted<T>(r: Ring<T>) {
    && Shaped(r)
    && r.dequeuePos <= r.enqueuePos <= r.dequeuePos + r.capacity
    && |r.items| == |r.owners| == r.enqueuePos
    && |r.takers| == r.dequeuePos
  }

  ghost predicate InWindow<T>(r: Ring<T>, pos: nat) {
    r.dequeuePos <= pos < r.dequeuePos + r.capacity
  }

  ghost predicate CellOk<T>(r: Ring<T>, pos: nat)
    requires Counted(r) && InWindow(r, pos)
  {
    var cell := r.cells[Slot(pos, r.capacity)];
    if pos < r.enqueuePos then
      if Unpublished(r, pos) then cell.sequence == pos
      else cell.sequence == pos + 1 && cell.value == Some(r.items[pos])
    else if pos >= r.capacity && Unreleased(r, pos - r.capacity) then
      cell.sequence == pos - r.capacity + 1
    else
      cell.sequence == pos
  }

  ghost predicate PcOk<T>(r: Ring<T>, t: nat)
    requires Counted(r) && t < |r.pcs|
  {
    match r.pcs[t]
    case EnqSequence(_, pos) => pos <= r.enqueuePos
    case EnqCas(_, pos) =>
      pos <= r.enqueuePos && (pos == r.enqueuePos ==> r.cells[Slot(pos, r.capacity)].sequence == pos)
    case EnqWrite(item, pos) =>
      r.dequeuePos <= pos < r.enqueuePos && r.owners[pos] == t && r.items[pos] == item
    case EnqStore(pos) =>
      r.dequeuePos <= pos < r.enqueuePos && r.owners[pos] == t
      && r.cells[Slot(pos, r.capacity)].value == Some(r.items[pos])
    case EnqAccepted(pos) => pos < r.enqueuePos && r.owners[pos] == t
    case DeqSequence(pos) => pos <= r.dequeuePos
    case DeqCas(pos) =>
      pos <= r.dequeuePos
      && (pos == r.dequeuePos ==> r.cells[Slot(pos, r.capacity)].sequence == pos + 1)
    case DeqRead(pos) =>
      pos < r.dequeuePos && r.enqueuePos <= pos + r.capacity && r.takers[pos] == t
      && r.cells[Slot(pos, r.capacity)].value == Some(r.items[pos])
    case DeqStore(pos, item) =>
      pos < r.dequeuePos && r.enqueuePos <= pos + r.capacity && r.takers[pos] == t && r.items[pos] == item
    case DeqTaken(pos, item) => pos < r.dequeuePos && r.takers[pos] == t && r.items[pos] == item
    case _ => true
  }

  ghost predicate CellOkAt<T>(r: Ring<T>, pos: nat)
    requires Counted(r)
  {
    InWindow(r, pos) ==> CellOk(r, pos)
  }

  ghost predicate PcOkAt<T>(r: Ring<T>, t: nat)
    requires Counted(r)
  {
    t < |r.pcs| ==> PcOk(r, t)
  }

  ghost predicate Inv<T>(r: Ring<T>) {
    && Counted(r)
    && (forall pos :: CellOkAt(r, pos))
    && (forall t :: PcOkAt(r, t))
  }

  // ----- every step keeps the invariant -----

  lemma {:induction false} SlotsDiffer(p: nat, q: nat, capacity: nat)
    requires 0 < capacity && p < q < p + capacity
    ensures Slot(p, capacity) != Slot(q, capacity)
  {
    if p >= capacity {
      SlotsDiffer(p - capacity, q - capacity, capacity);
    } else if q >= capacity {
      assert Slot(q, capacity) == q - capacity;
    }
  }

  /** The position of the window whose cell the next step of thread t looks at or changes. */
  ghost function Focus<T>(r: Ring<T>, t: nat): nat
    requires t < |r.pcs|
  {
    match r.pcs[t]
    case EnqWrite(_, pos) => pos
    case EnqStore(pos) => pos
    case DeqCas(_) => r.dequeuePos
    case DeqRead(pos) => pos + r.capacity
    case DeqStore(pos, _) => pos + r.capacity
    case _ => r.enqueuePos
  }

  lemma SlotsApart<T>(r: Ring<T>, p: nat, q: nat)
    requires 0 < r.capacity
    ensures InWindow(r, p) && InWindow(r, q) && p != q ==> Slot(p, r.capacity) != Slot(q, r.capacity)
    ensures q >= r.capacity ==> Slot(q - r.capacity, r.capacity) == Slot(q, r.capacity)
  {
    if InWindow(r, p) && InWindow(r, q) && p != q {
      if p < q { SlotsDiffer(p, q, r.capacity); } else { SlotsDiffer(q, p, r.capacity); }
    }
  }

  /** What one step may assume about its own thread and the cell it works on. */
  ghost predicate Enabled<T>(r: Ring<T>, r': Ring<T>, t: nat, spurious: bool) {
    && Counted(r) && t < |r.pcs| && PcOk(r, t) && CellOkAt(r, Focus(r, t))
    && r' == Advance(r, t, spurious) && Counted(r')
  }

  lemma AdvanceKeepsCounts<T>(r: Ring<T>, t: nat, spurious: bool)
    requires Counted(r) && t < |r.pcs| && PcOk(r, t) && CellOkAt(r, r.dequeuePos)
    ensures Counted(Advance(r, t, spurious))
  {
    assert Slot(r.dequeuePos + r.capacity, r.capacity) == Slot(r.dequeuePos, r.capacity);
  }

  lemma EnqCasKeepsCell<T>(r: Ring<T>, r': Ring<T>, t: nat, spurious: bool, pos: nat)
    requires Enabled(r, r', t, spurious) && r.pcs[t].EnqCas? && CellOkAt(r, pos)
    ensures CellOkAt(r', pos)
  {
    if r'.enqueuePos == r.enqueuePos {
      GotoKeepsCell(r, t, r'.pcs[t], pos);
    } else {
      ClaimKeepsCell(r, r', t, r.pcs[t].item, pos);
    }
  }

  lemma ClaimKeepsCell<T>(r: Ring<T>, r': Ring<T>, t: nat, item: T, pos: nat)
    requires Counted(r) && Counted(r') && t < |r.pcs| && r.pcs[t].EnqCas? && CellOkAt(r, pos)
    requires r.cells[Slot(r.enqueuePos, r.capacity)].sequence == r.enqueuePos
    requires r' == Goto(r, t, EnqWrite(item, r.enqueuePos)).(
                     enqueuePos := r.enqueuePos + 1, items := r.items + [item], owners := r.owners + [t])
    ensures CellOkAt(r', pos)
  {
  }

  lemma EnqCasKeepsPc<T>(r: Ring<T>, r': Ring<T>, t: nat, spurious: bool, u: nat)
    requires Enabled(r, r', t, spurious) && r.pcs[t].EnqCas? && PcOkAt(r, u)
    ensures PcOkAt(r', u)
  {
    if r'.enqueuePos == r.enqueuePos {
      GotoKeepsPc(r, t, r'.pcs[t], u);
    } else {
      ClaimKeepsPc(r, r', t, r.pcs[t].item, u);
    }
  }

  lemma ClaimKeepsPc<T>(r: Ring<T>, r': Ring<T>, t: nat, item: T, u: nat)
    requires Counted(r) && Counted(r') && t < |r.pcs| && r.pcs[t].EnqCas? && PcOkAt(r, u)
    requires CellOkAt(r, r.enqueuePos) && r.cells[Slot(r.enqueuePos, r.capacity)].sequence == r.enqueuePos
    requires r' == Goto(r, t, EnqWrite(item, r.enqueuePos)).(
                     enqueuePos := r.enqueuePos + 1, items := r.items + [item], owners := r.owners + [t])
    ensures PcOkAt(r', u)
  {
  }

  lemma EnqWriteKeepsCell<T>(r: Ring<T>, r': Ring<T>, t: nat, pos: nat)
    requires Enabled(r, r', t, false) && r.pcs[t].EnqWrite? && CellOkAt(r, pos)
    ensures CellOkAt(r', pos)
  {
    SlotsApart(r, Focus(r, t), pos);
  }

  lemma EnqWriteKeepsPc<T>(r: Ring<T>, r': Ring<T>, t: nat, u: nat)
    requires Enabled(r, r', t, false) && r.pcs[t].EnqWrite? && PcOkAt(r, u)
    ensures PcOkAt(r', u)
  {
    if u < |r.pcs| { SlotsApart(r, Focus(r, t), Focus(r, u)); }
  }

  lemma EnqStoreKeepsCell<T>(r: Ring<T>, r': Ring<T>, t: nat, pos: nat)
    requires Enabled(r, r', t, false) && r.pcs[t].EnqStore? && CellOkAt(r, pos)
    ensures CellOkAt(r', pos)
  {
    SlotsApart(r, Focus(r, t), pos);
  }

  lemma EnqStoreKeepsPc<T>(r: Ring<T>, r': Ring<T>, t: nat, u: nat)
    requires Enabled(r, r', t, false) && r.pcs[t].EnqStore? && PcOkAt(r, u)
    ensures PcOkAt(r', u)
  {
    if u < |r.pcs| { SlotsApart(r, Focus(r, t), Focus(r, u)); }
  }

  lemma DeqCasKeepsCell<T>(r: Ring<T>, r': Ring<T>, t: nat, spurious: bool, pos: nat)
    requires Enabled(r, r', t, spurious) && r.pcs[t].DeqCas? && CellOkAt(r, pos)
    ensures CellOkAt(r', pos)
  {
    if r'.dequeuePos == r.dequeuePos {
      GotoKeepsCell(r, t, r'.pcs[t], pos);
    } else if pos == r.dequeuePos + r.capacity {
      assert Slot(pos, r.capacity) == Slot(r.dequeuePos, r.capacity);
    }
  }

  lemma DeqCasKeepsPc<T>(r: Ring<T>, r': Ring<T>, t: nat, spurious: bool, u: nat)
    requires Enabled(r, r', t, spurious) && r.pcs[t].DeqCas? && PcOkAt(r, u)
    ensures PcOkAt(r', u)
  {
  }

  lemma DeqReadKeepsCell<T>(r: Ring<T>, r': Ring<T>, t: nat, pos: nat)
    requires Enabled(r, r', t, false) && r.pcs[t].DeqRead? && CellOkAt(r, pos)
    ensures CellOkAt(r', pos)
  {
    var taken := r.pcs[t].pos;
    var slot := Slot(taken, r.capacity);
    SlotsApart(r, Focus(r, t), pos);
    TakeKeepsCell(r, r', t, r.items[taken], r.cells[slot].(value := None), pos);
  }

  lemma TakeKeepsCell<T>(r: Ring<T>, r': Ring<T>, t: nat, item: T, cell: Cell<T>, pos: nat)
    requires Counted(r) && t < |r.pcs| && PcOk(r, t) && r.pcs[t].DeqRead? && CellOkAt(r, pos)
    requires var slot := Slot(r.pcs[t].pos, r.capacity);
             && cell.sequence == r.cells[slot].sequence
             && r' == Goto(r, t, DeqStore(r.pcs[t].pos, item)).(cells := r.cells[slot := cell])
             && (InWindow(r, pos) && pos != r.pcs[t].pos + r.capacity ==> Slot(pos, r.capacity) != slot)
    ensures CellOkAt(r', pos)
  {
  }

  lemma DeqReadKeepsPc<T>(r: Ring<T>, r': Ring<T>, t: nat, u: nat)
    requires Enabled(r, r', t, false) && r.pcs[t].DeqRead? && PcOkAt(r, u)
    ensures PcOkAt(r', u)
  {
    if u < |r.pcs| { SlotsApart(r, Focus(r, t), Focus(r, u)); }
  }

  lemma DeqStoreKeepsCell<T>(r: Ring<T>, r': Ring<T>, t: nat, pos: nat)
    requires Enabled(r, r', t, false) && r.pcs[t].DeqStore? && CellOkAt(r, pos)
    ensures CellOkAt(r', pos)
  {
    SlotsApart(r, Focus(r, t), pos);
    ReleaseKeepsCell(r, r', t, r'.cells[Slot(r.pcs[t].pos, r.capacity)], pos);
  }

  lemma ReleaseKeepsCell<T>(r: Ring<T>, r': Ring<T>, t: nat, cell: Cell<T>, pos: nat)
    requires Counted(r) && t < |r.pcs| && PcOk(r, t) && r.pcs[t].DeqStore? && CellOkAt(r, pos)
    requires var slot := Slot(r.pcs[t].pos, r.capacity);
             && cell.sequence == r.pcs[t].pos + r.capacity
             && r' == Goto(r, t, DeqTaken(r.pcs[t].pos, r.pcs[t].item)).(cells := r.cells[slot := cell])
             && (pos == r.pcs[t].pos + r.capacity ==> Slot(pos, r.capacity) == slot)
             && (InWindow(r, pos) && pos != r.pcs[t].pos + r.capacity ==> Slot(pos, r.capacity) != slot)
    ensures CellOkAt(r', pos)
  {
  }

  lemma DeqStoreKeepsPc<T>(r: Ring<T>, r': Ring<T>, t: nat, u: nat)
    requires Enabled(r, r', t, false) && r.pcs[t].DeqStore? && PcOkAt(r, u)
    ensures PcOkAt(r', u)
  {
    if u < |r.pcs| { SlotsApart(r, Focus(r, t), Focus(r, u)); }
  }

  ghost predicate OwnsCell<T>(pc: Pc<T>) {
    pc.EnqWrite? || pc.EnqStore? || pc.DeqRead? || pc.DeqStore?
  }

  /** A step that changes only the program counter of t, outside the spans in which t owns a cell. */
  lemma GotoKeepsCell<T>(r: Ring<T>, t: nat, pc: Pc<T>, pos: nat)
    requires Counted(r) && t < |r.pcs| && !OwnsCell(r.pcs[t]) && !OwnsCell(pc) && CellOkAt(r, pos)
    ensures CellOkAt(Goto(r, t, pc), pos)
  {
  }

  lemma GotoKeepsPc<T>(r: Ring<T>, t: nat, pc: Pc<T>, u: nat)
    requires Counted(r) && t < |r.pcs| && PcOkAt(r, u)
    requires PcOkAt(Goto(r, t, pc), t)
    ensures PcOkAt(Goto(r, t, pc), u)
  {
  }

  lemma LoadKeepsOwnPc<T>(r: Ring<T>, t: nat, spurious: bool)
    requires Counted(r) && t < |r.pcs| && PcOk(r, t) && !OwnsCell(r.pcs[t]) && !r.pcs[t].EnqCas? && !r.pcs[t].DeqCas?
    ensures var r' := Advance(r, t, spurious);
            r' == Goto(r, t, r'.pcs[t]) && !OwnsCell(r'.pcs[t]) && PcOkAt(r', t)
  {
  }

  lemma AdvanceKeepsCell<T>(r: Ring<T>, r': Ring<T>, t: nat, spurious: bool, pos: nat)
    requires Enabled(r, r', t, spurious) && CellOkAt(r, pos)
    ensures CellOkAt(r', pos)
  {
    match r.pcs[t]
    case EnqCas(_, _) => EnqCasKeepsCell(r, r', t, spurious, pos);
    case EnqWrite(_, _) => EnqWriteKeepsCell(r, r', t, pos);
    case EnqStore(_) => EnqStoreKeepsCell(r, r', t, pos);
    case DeqCas(_) => DeqCasKeepsCell(r, r', t, spurious, pos);
    case DeqRead(_) => DeqReadKeepsCell(r, r', t, pos);
    case DeqStore(_, _) => DeqStoreKeepsCell(r, r', t, pos);
    case _ => LoadKeepsOwnPc(r, t, spurious); GotoKeepsCell(r, t, r'.pcs[t], pos);
  }

  lemma LoadKeepsPc<T>(r: Ring<T>, r': Ring<T>, t: nat, spurious: bool, u: nat)
    requires Enabled(r, r', t, spurious) && PcOkAt(r, u)
    requires !OwnsCell(r.pcs[t]) && !r.pcs[t].EnqCas? && !r.pcs[t].DeqCas?
    ensures PcOkAt(r', u)
  {
    LoadKeepsOwnPc(r, t, spurious);
    GotoKeepsPc(r, t, r'.pcs[t], u);
  }

  lemma AdvanceKeepsPc<T>(r: Ring<T>, r': Ring<T>, t: nat, spurious: bool, u: nat)
    requires Enabled(r, r', t, spurious) && PcOkAt(r, u)
    ensures PcOkAt(r', u)
  {
    match r.pcs[t]
    case EnqCas(_, _) => EnqCasKeepsPc(r, r', t, spurious, u);
    case EnqWrite(_, _) => EnqWriteKeepsPc(r, r', t, u);
    case EnqStore(_) => EnqStoreKeepsPc(r, r', t, u);
    case DeqCas(_) => DeqCasKeepsPc(r, r', t, spurious, u);
    case DeqRead(_) => DeqReadKeepsPc(r, r', t, u);
    case DeqStore(_, _) => DeqStoreKeepsPc(r, r', t, u);
    case _ => LoadKeepsPc(r, r', t, spurious, u);
  }

  lemma AdvanceKeepsInv<T>(r: Ring<T>, t: nat, spurious: bool)
    requires Inv(r) && t < |r.pcs|
    ensures Inv(Advance(r, t, spurious))
  {
    var r' := Advance(r, t, spurious);
    assert CellOkAt(r, r.dequeuePos) && CellOkAt(r, Focus(r, t)) && PcOkAt(r, t);
    AdvanceKeepsCounts(r, t, spurious);
    forall pos ensures CellOkAt(r', pos) {
      assert CellOkAt(r, pos);
      AdvanceKeepsCell(r, r', t, spurious, pos);
    }
    forall u ensures PcOkAt(r', u) {
      assert PcOkAt(r, u);
      AdvanceKeepsPc(r, r', t, spurious, u);
    }
  }
}
