/** Which threads a move leaves alone. */
module LoggerFrames {
  import opened Logger

  predicate IsWorkerMove(move: Move) {
    move.BeginDequeue? || move.Dequeue? || move.Handle? || move.Turn? || move.ExitTest? || move.Wait? || move.Fail?
  }

  lemma OthersDoNotMove(s: State, move: Move, t: nat)
    requires Formed(s) && t < |s.pcs| && !IsWorkerMove(move) && move.t != t
    ensures Apply(s, move).pcs[t] == s.pcs[t]
  {
    if move.t < |s.pcs| {
      match move
      case Entry(u, c) => EntryOf(s, u, c, t);
      case Check(u, c) => CheckOf(s, u, c, t);
      case Publish(u) => PublishOf(s, u, t);
      case Enqueue(u, c) => EnqueueOf(s, u, c, t);
      case Stop(u, c) => StopOf(s, u, c, t);
      case FinishOperation(u) => FinishOf(s, u, t);
      case _ =>
    }
  }

  lemma EntryOf(s: State, u: nat, c: Choice, t: nat)
    requires Formed(s) && t < |s.pcs| && u < |s.pcs| && u != t
    ensures EntryStep(s, u, c).pcs[t] == s.pcs[t]
  {
  }

  lemma CheckOf(s: State, u: nat, c: Choice, t: nat)
    requires Formed(s) && t < |s.pcs| && u < |s.pcs| && u != t
    ensures CheckStep(s, u, c).pcs[t] == s.pcs[t]
  {
  }

  lemma PublishOf(s: State, u: nat, t: nat)
    requires Formed(s) && t < |s.pcs| && u < |s.pcs| && u != t
    ensures PublishStep(s, u).pcs[t] == s.pcs[t]
  {
  }

  lemma EnqueueOf(s: State, u: nat, c: Choice, t: nat)
    requires Formed(s) && t < |s.pcs| && u < |s.pcs| && u != t
    ensures EnqueueStep(s, u, c).pcs[t] == s.pcs[t]
  {
  }

  lemma StopOf(s: State, u: nat, c: Choice, t: nat)
    requires Formed(s) && t < |s.pcs| && u < |s.pcs| && u != t
    ensures StopStep(s, u, c).pcs[t] == s.pcs[t]
  {
  }

  lemma FinishOf(s: State, u: nat, t: nat)
    requires Formed(s) && t < |s.pcs| && u < |s.pcs| && u != t
    ensures FinishStep(s, u).pcs[t] == s.pcs[t]
  {
  }

  lemma WorkerMovesNoClient(s: State, move: Move)
    requires Formed(s) && IsWorkerMove(move)
    ensures Apply(s, move).pcs == s.pcs
  {
  }

  lemma OthersKeepRingPc(s: State, move: Move, u: nat)
    requires Formed(s) && u < |s.pcs| && (!IsWorkerMove(move) ==> move.t != u)
    ensures Apply(s, move).ring.pcs[u] == s.ring.pcs[u]
  {
    match move
    case Enqueue(t, c) => if t < |s.pcs| { EnqueueKeepsRingPc(s, t, c, u); }
    case Publish(t) => if t < |s.pcs| { PublishKeepsRingPc(s, t, u); }
    case Dequeue(c) => DequeueKeepsRingPc(s, c, u);
    case BeginDequeue =>
    case _ => OtherPhasesKeepRing(s, move);
  }

  lemma OtherPhasesKeepRing(s: State, move: Move)
    requires Formed(s) && !move.Enqueue? && !move.Publish? && !move.Dequeue? && !move.BeginDequeue?
    ensures Apply(s, move).ring == s.ring
  {
    if IsWorkerMove(move) { WorkerKeepsRing(s, move); }
  }

  lemma WorkerKeepsRing(s: State, move: Move)
    requires Formed(s) && IsWorkerMove(move) && !move.Dequeue? && !move.BeginDequeue?
    ensures Apply(s, move).ring == s.ring
  {
  }

  lemma EnqueueKeepsRingPc(s: State, t: nat, c: Choice, u: nat)
    requires Formed(s) && t < |s.pcs| && u < |s.pcs| && u != t
    ensures EnqueueStep(s, t, c).ring.pcs[u] == s.ring.pcs[u]
  {
  }

  lemma PublishKeepsRingPc(s: State, t: nat, u: nat)
    requires Formed(s) && t < |s.pcs| && u < |s.pcs| && u != t
    ensures PublishStep(s, t).ring.pcs[u] == s.ring.pcs[u]
  {
  }

  lemma DequeueKeepsRingPc(s: State, c: Choice, u: nat)
    requires Formed(s) && u < |s.pcs|
    ensures DequeueStep(s, c).ring.pcs[u] == s.ring.pcs[u]
  {
  }
}
