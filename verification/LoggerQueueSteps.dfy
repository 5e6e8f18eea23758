/** A client inside TryEnqueue: what one step of the ring means to the rest of the logger. */
module LoggerQueueSteps {
  import opened Options
  import opened Ring
  import opened Logger
  import opened LoggerInvariant

  // ----- what one step inside TryEnqueue does, without looking at the cells -----

  ghost predicate EnqueueEffect(r: Ring<Item>, r': Ring<Item>, t: nat)
    requires Counted(r) && t < |r.pcs|
  {
    var pc, pc' := r.pcs[t], if t < |r'.pcs| then r'.pcs[t] else Idle;
    && r'.pcs == r.pcs[t := pc'] && r'.capacity == r.capacity
    && r'.dequeuePos == r.dequeuePos && r'.takers == r.takers
    && if pc.EnqCas? && pc'.EnqWrite? then
         pc' == EnqWrite(pc.item, r.enqueuePos) && r'.enqueuePos == r.enqueuePos + 1
         && r'.items == r.items + [pc.item] && r'.owners == r.owners + [t]
       else
         && r'.enqueuePos == r.enqueuePos && r'.items == r.items && r'.owners == r.owners
         && match pc
            case EnqLoad(item) => pc' == EnqSequence(item, r.enqueuePos)
            case EnqSequence(item, pos) => pc' == EnqCas(item, pos) || pc' == EnqRefused(item) || pc' == EnqLoad(item)
            case EnqCas(item, pos) => pc' == EnqSequence(item, r.enqueuePos)
            case EnqWrite(_, pos) => pc' == EnqStore(pos)
            case EnqStore(pos) => pc' == EnqAccepted(pos)
            case _ => pc' == pc
  }

  predicate InEnqueue(pc: Pc<Item>) {
    pc.EnqLoad? || pc.EnqSequence? || pc.EnqCas? || pc.EnqWrite? || pc.EnqStore?
  }

  lemma AdvanceEnqueues(r: Ring<Item>, t: nat, spurious: bool)
    requires Counted(r) && t < |r.pcs| && InEnqueue(r.pcs[t])
    ensures EnqueueEffect(r, Advance(r, t, spurious), t)
  {
  }

  lemma EnqueueInsideEffect(s: State, s': State, t: nat, ring: Ring<Item>)
    requires Formed(s) && Counted(s.ring) && t < |s.pcs| && s.pcs[t].Enqueueing? && InEnqueue(s.ring.pcs[t])
    requires Shaped(ring) && EnqueueEffect(s.ring, ring, t)
    requires s' == s.(ring := ring)
    requires ClientOk(s, t)
    ensures ClientEffect(s, s', t) && ClientOk(s', t)
  {
  }

  lemma EnqueueInsideOrder(s: State, s': State, t: nat, ring: Ring<Item>)
    requires Formed(s) && Counted(s.ring) && t < |s.pcs| && s.pcs[t].Enqueueing? && InEnqueue(s.ring.pcs[t])
    requires Shaped(ring) && EnqueueEffect(s.ring, ring, t)
    requires s' == s.(ring := ring)
    requires Ordered(s, t) && Coupled(s, t)
    ensures Formed(s') && Ordered(s', t) && LaterCalls(s, s', t)
  {
    var pc := s.ring.pcs[t];
    if pc.EnqCas? && ring.pcs[t].EnqWrite? {
      assert FreshItem(s.pcs[t], pc) == Some(s.pcs[t].item);
      forall p | 0 <= p < |ring.owners| && ring.owners[p] == t
        ensures ring.items[p].producer == t && ring.items[p].call < NextCall(s', t) {
      }
    } else {
      assert KeepsNext(s, s', t);
      KeepsNextKeepsOrder(s, s', t);
    }
  }

  lemma EnqueueReturnEffect(s: State, t: nat, c: Choice)
    requires Formed(s) && Counted(s.ring) && t < |s.pcs| && ClientOk(s, t) && PcOk(s.ring, t)
    requires !(s.pcs[t].Enqueueing? && InEnqueue(s.ring.pcs[t]))
    ensures ClientEffect(s, EnqueueStep(s, t, c), t)
    ensures ClientOk(EnqueueStep(s, t, c), t)
  {
  }

  lemma EnqueueReturnOrder(s: State, t: nat, c: Choice)
    requires Formed(s) && t < |s.pcs| && ComingOk(s, t) && Coupled(s, t)
    requires !(s.pcs[t].Enqueueing? && InEnqueue(s.ring.pcs[t]))
    ensures KeepsNext(s, EnqueueStep(s, t, c), t)
  {
  }
}
