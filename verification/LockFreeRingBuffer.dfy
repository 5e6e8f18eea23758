/** LockFreeRingBuffer as the object it is in the source, used by one thread.

    A ghost field follows the object through the transition system of module Ring with one thread:
    every access to an atomic field or to a cell's value is accompanied by the step that stands for it
    there.  What other threads do between two steps is the subject of RingTheorems alone: here the
    compare-and-swap fails only for no reason, and the branch that reloads the cursor is dead. */
module RingObject {
  import opened Options
  import opened Ring
  import opened RingTheorems
  import Capacity

  /** The transition system of one thread that is between two calls. */
  ghost predicate AtRest<T>(r: Ring<T>) {
    Inv(r) && r.pcs == [Idle]
  }

  /** The thread is at pc, and no call has completed since the queue was q. */
  ghost predicate Inside<T>(r: Ring<T>, pc: Pc<T>, q: seq<T>) {
    Inv(r) && r.pcs == [pc] && Queue(r) == q
  }

  function Next<T>(r: Ring<T>, spurious: bool): Ring<T>
    requires Shaped(r) && |r.pcs| == 1
  {
    Advance(r, 0, spurious)
  }

  /** Starting or leaving a call. */
  lemma Turn<T>(r: Ring<T>, pc: Pc<T>)
    requires Inv(r) && |r.pcs| == 1 && (r.pcs[0].Idle? || Returned(r.pcs[0]))
    requires pc.Idle? || pc.EnqLoad? || pc.DeqLoad?
    ensures Inside(Goto(r, 0, pc), pc, Queue(r))
  {
    CallOrReturnKeepsInv(r, 0, pc);
    assert Goto(r, 0, pc).pcs == [pc];
  }

  /** The index that the source computes with its mask. */
  lemma MaskedIndex(pos: nat, capacity: nat, k: nat)
    requires capacity == Capacity.Pow2(k)
    ensures Capacity.And(pos, capacity - 1) == Slot(pos, capacity)
  {
    Capacity.MaskIsSlot(pos, k);
  }

  // ----- TryEnqueue, step by step -----

  lemma EnqueueLoads<T>(r: Ring<T>, value: T, q: seq<T>)
    requires Inside(r, EnqLoad(value), q)
    ensures Inside(Next(r, false), EnqSequence(value, r.enqueuePos), q)
  {
    AdvanceKeepsInv(r, 0, false);
  }

  lemma EnqueueLooks<T>(r: Ring<T>, value: T, q: seq<T>)
    requires Inside(r, EnqSequence(value, r.enqueuePos), q)
    ensures var sequence := r.cells[Slot(r.enqueuePos, r.capacity)].sequence;
            && sequence <= r.enqueuePos
            && (sequence == r.enqueuePos <==> |q| < r.capacity)
            && Inside(Next(r, false), if |q| < r.capacity then EnqCas(value, r.enqueuePos) else EnqRefused(value), q)
  {
    AdvanceKeepsInv(r, 0, false);
    RefusalIsHonest(r, 0, false);
    assert CellOkAt(r, r.enqueuePos) && CellOkAt(r, r.dequeuePos);
    assert Slot(r.dequeuePos + r.capacity, r.capacity) == Slot(r.dequeuePos, r.capacity);
  }

  lemma EnqueueSwaps<T>(r: Ring<T>, value: T, q: seq<T>, spurious: bool)
    requires Inside(r, EnqCas(value, r.enqueuePos), q)
    ensures spurious ==> Inside(Next(r, spurious), EnqSequence(value, r.enqueuePos), q)
    ensures !spurious ==> Inside(Next(r, spurious), EnqWrite(value, r.enqueuePos), q + [value])
  {
    StepRefinesQueue(r, 0, spurious);
  }

  lemma EnqueueFinishes<T>(r: Ring<T>, value: T, pos: nat, q: seq<T>)
    requires Inside(r, EnqWrite(value, pos), q)
    ensures Inside(Next(r, false), EnqStore(pos), q)
    ensures Inside(Next(Next(r, false), false), EnqAccepted(pos), q)
  {
    StepRefinesQueue(r, 0, false);
    StepRefinesQueue(Next(r, false), 0, false);
  }

  // ----- TryDequeue, step by step -----

  lemma DequeueLoads<T>(r: Ring<T>, q: seq<T>)
    requires Inside(r, DeqLoad, q)
    ensures Inside(Next(r, false), DeqSequence(r.dequeuePos), q)
  {
    AdvanceKeepsInv(r, 0, false);
  }

  lemma DequeueLooks<T>(r: Ring<T>, q: seq<T>)
    requires Inside(r, DeqSequence(r.dequeuePos), q)
    ensures var sequence := r.cells[Slot(r.dequeuePos, r.capacity)].sequence;
            && sequence <= r.dequeuePos + 1
            && (sequence == r.dequeuePos + 1 <==> q != [])
            && Inside(Next(r, false), if q != [] then DeqCas(r.dequeuePos) else DeqEmpty, q)
  {
    AdvanceKeepsInv(r, 0, false);
    EmptyIsHonest(r, 0, false);
    assert CellOkAt(r, r.dequeuePos);
  }

  lemma DequeueSwaps<T>(r: Ring<T>, q: seq<T>, spurious: bool)
    requires Inside(r, DeqCas(r.dequeuePos), q) && q != []
    ensures spurious ==> Inside(Next(r, spurious), DeqSequence(r.dequeuePos), q)
    ensures !spurious ==> Inside(Next(r, spurious), DeqRead(r.dequeuePos), q[1..])
    ensures !spurious ==> Next(r, spurious).cells[Slot(r.dequeuePos, r.capacity)].value == Some(q[0])
  {
    StepRefinesQueue(r, 0, spurious);
    assert PcOkAt(Next(r, spurious), 0);
  }

  lemma DequeueFinishes<T>(r: Ring<T>, value: T, pos: nat, q: seq<T>)
    requires Inside(r, DeqRead(pos), q) && r.cells[Slot(pos, r.capacity)].value == Some(value)
    ensures Inside(Next(r, false), DeqStore(pos, value), q)
    ensures Inside(Next(Next(r, false), false), DeqTaken(pos, value), q)
  {
    StepRefinesQueue(r, 0, false);
    StepRefinesQueue(Next(r, false), 0, false);
  }

  class LockFreeRingBuffer<T> {
    const capacity: nat
    const mask: nat
    const buffer: array<Cell<T>>
    var enqueuePos: nat
    var dequeuePos: nat
    ghost var machine: Ring<T>

    /** The fields are those of the machine. */
    ghost predicate Follows()
      reads this, buffer
    {
      && machine.capacity == capacity && buffer.Length == capacity
      && machine.cells == buffer[..]
      && machine.enqueuePos == enqueuePos && machine.dequeuePos == dequeuePos
      && capacity >= 2 && mask == capacity - 1 && (exists k: nat :: capacity == Capacity.Pow2(k))
    }

    ghost predicate Valid()
      reads this, buffer
    {
      Follows() && AtRest(machine)
    }

    ghost function Contents(): seq<T>
      reads this, buffer
      requires Valid()
    {
      Queue(machine)
    }

    /** A size above 2^63 is rounded to 0: such an object has no cells, and a mask of ones. */
    constructor (requestedCapacity: nat)
      requires requestedCapacity < Capacity.WORD
      ensures fresh(buffer)
      ensures requestedCapacity <= Capacity.WORD / 2 ==>
                && Valid() && Contents() == []
                && Capacity.LeastPowerOfTwo(capacity, if requestedCapacity < 2 then 2 else requestedCapacity)
      ensures requestedCapacity > Capacity.WORD / 2 ==>
                capacity == 0 && buffer.Length == 0 && mask == Capacity.WORD - 1
    {
      var rounded := Capacity.RoundUpPowerOfTwo(requestedCapacity);
      capacity := rounded;
      mask := if rounded == 0 then Capacity.WORD - 1 else rounded - 1;
      buffer := new Cell<T>[rounded](i requires 0 <= i => Cell(0, None));
      enqueuePos, dequeuePos := 0, 0;
      machine := Initial(rounded, 1);
      new;
      var i := 0;
      while i < capacity
        invariant 0 <= i <= capacity && buffer.Length == capacity
        invariant forall j | 0 <= j < i :: buffer[j] == Cell(j, None)
        invariant forall j | i <= j < capacity :: buffer[j] == Cell(0, None)
        modifies buffer
      {
        buffer[i] := Cell(i, buffer[i].value);
        i := i + 1;
      }
      if requestedCapacity <= Capacity.WORD / 2 {
        InitialInv<T>(capacity, 1);
        assert machine.cells == buffer[..];
      }
    }

    /** The end of TryEnqueue: moves the value into the claimed cell and publishes it. */
    method Fill(slot: nat, position: nat, value: T, ghost q: seq<T>)
      requires Follows() && Inside(machine, EnqWrite(value, position), q) && slot == Slot(position, capacity)
      modifies this`machine, buffer
      ensures Valid() && Contents() == q
    {
      EnqueueFinishes(machine, value, position, q);
      machine := Next(machine, false);
      buffer[slot] := buffer[slot].(value := Some(value));
      machine := Next(machine, false);
      buffer[slot] := buffer[slot].(sequence := position + 1);
      Turn(machine, Idle);
      machine := Goto(machine, 0, Idle);
    }

    /** The end of TryDequeue: moves the value out of the claimed cell and hands the cell back. */
    method Vacate(slot: nat, position: nat, ghost oldest: T, ghost q: seq<T>) returns (value: Option<T>)
      requires Follows() && Inside(machine, DeqRead(position), q) && slot == Slot(position, capacity)
      requires machine.cells[slot].value == Some(oldest)
      modifies this`machine, buffer
      ensures Valid() && Contents() == q && value == Some(oldest)
    {
      DequeueFinishes(machine, oldest, position, q);
      machine := Next(machine, false);
      value := buffer[slot].value;
      buffer[slot] := buffer[slot].(value := None);
      machine := Next(machine, false);
      buffer[slot] := buffer[slot].(sequence := position + capacity);
      Turn(machine, Idle);
      machine := Goto(machine, 0, Idle);
    }

    /** The thread leaves a finished call. */
    ghost method Leave(pc: Pc<T>, q: seq<T>)
      requires Follows() && Inside(machine, pc, q) && Returned(pc)
      modifies this`machine
      ensures Valid() && Contents() == q
    {
      Turn(machine, Idle);
      machine := Goto(machine, 0, Idle);
    }

    ghost method Enter(pc: Pc<T>)
      requires Valid() && (pc.EnqLoad? || pc.DeqLoad?)
      modifies this`machine
      ensures Follows() && Inside(machine, pc, old(Contents()))
    {
      Turn(machine, pc);
      machine := Goto(machine, 0, pc);
    }

    /** The head of TryEnqueue's loop: loads the sequence number of the cell at the position. */
    method LookToEnqueue(value: T, ghost q: seq<T>) returns (slot: nat, sequence: nat)
      requires Follows() && Inside(machine, EnqSequence(value, enqueuePos), q)
      modifies this`machine
      ensures Follows() && slot == Slot(enqueuePos, capacity)
      ensures sequence <= enqueuePos && (sequence == enqueuePos <==> |q| < capacity)
      ensures Inside(machine, if |q| < capacity then EnqCas(value, enqueuePos) else EnqRefused(value), q)
    {
      ghost var k: nat :| capacity == Capacity.Pow2(k);
      MaskedIndex(enqueuePos, capacity, k);
      slot := Capacity.And(enqueuePos, mask);
      EnqueueLooks(machine, value, q);
      machine := Next(machine, false);
      sequence := buffer[slot].sequence;
    }

    /** The head of TryDequeue's loop. */
    method LookToDequeue(ghost q: seq<T>) returns (slot: nat, sequence: nat)
      requires Follows() && Inside(machine, DeqSequence(dequeuePos), q)
      modifies this`machine
      ensures Follows() && slot == Slot(dequeuePos, capacity)
      ensures sequence <= dequeuePos + 1 && (sequence == dequeuePos + 1 <==> q != [])
      ensures Inside(machine, if q != [] then DeqCas(dequeuePos) else DeqEmpty, q)
    {
      ghost var k: nat :| capacity == Capacity.Pow2(k);
      MaskedIndex(dequeuePos, capacity, k);
      slot := Capacity.And(dequeuePos, mask);
      DequeueLooks(machine, q);
      machine := Next(machine, false);
      sequence := buffer[slot].sequence;
    }

    /** Appends the value unless the ring is full.  `failures` is the number of times the weak
        compare-and-swap fails for no reason. */
    method TryEnqueue(value: T, failures: nat) returns (accepted: bool)
      requires Valid()
      modifies this, buffer
      ensures Valid()
      ensures accepted <==> |old(Contents())| < capacity
      ensures Contents() == if accepted then old(Contents()) + [value] else old(Contents())
    {
      ghost var q := Contents();
      Enter(EnqLoad(value));
      var left: nat := failures;
      EnqueueLoads(machine, value, q);
      machine := Next(machine, false);
      var position := enqueuePos;
      while true
        invariant Follows() && position == enqueuePos
        invariant Inside(machine, EnqSequence(value, position), q)
        decreases left
      {
        var slot, sequence := LookToEnqueue(value, q);
        if sequence == position {
          EnqueueSwaps(machine, value, q, left > 0);
          machine := Next(machine, left > 0);
          if left == 0 {
            enqueuePos := position + 1;
            Fill(slot, position, value, q + [value]);
            return true;
          }
          left := left - 1;
        } else if sequence < position {
          Leave(EnqRefused(value), q);
          return false;
        } else {
          // only the progress of another thread leads here
          assert false;
        }
      }
    }

    /** Removes the oldest value unless the ring is empty. */
    method TryDequeue(failures: nat) returns (value: Option<T>)
      requires Valid()
      modifies this, buffer
      ensures Valid()
      ensures value == (if old(Contents()) == [] then None else Some(old(Contents())[0]))
      ensures Contents() == if old(Contents()) == [] then [] else old(Contents())[1..]
    {
      ghost var q := Contents();
      Enter(DeqLoad);
      var left: nat := failures;
      DequeueLoads(machine, q);
      machine := Next(machine, false);
      var position := dequeuePos;
      while true
        invariant Follows() && position == dequeuePos
        invariant Inside(machine, DeqSequence(position), q)
        decreases left
      {
        var slot, sequence := LookToDequeue(q);
        if sequence == position + 1 {
          DequeueSwaps(machine, q, left > 0);
          machine := Next(machine, left > 0);
          if left == 0 {
            dequeuePos := position + 1;
            value := Vacate(slot, position, q[0], q[1..]);
            return;
          }
          left := left - 1;
        } else if sequence < position + 1 {
          Leave(DeqEmpty, q);
          return None;
        } else {
          // only the progress of another thread leads here
          assert false;
        }
      }
    }
  }
}
