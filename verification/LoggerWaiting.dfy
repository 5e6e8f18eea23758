/** What the wait of WaitForWakeup decides. */
module LoggerWaiting {
  import opened Logger
  import opened LoggerStop

  /** What the wait of WaitForWakeup is for. */
  ghost predicate ShouldWake(s: State, signal: nat) {
    s.wake != signal || s.failed || (Closed(s.word) && Active(s.word) == 0)
  }

  /** The worker alone, n steps of the wait. */
  function Waited(s: State, n: nat): (s': State)
    requires Formed(s)
    ensures SameShape(s, s')
    decreases n
  {
    if n == 0 then s else Waited(WaitStep(s, CALM), n - 1)
  }

  lemma DecideStep(s: State, signal: nat)
    requires Formed(s)
    requires s.worker == WaitFailure(signal) || s.worker == WaitGate(signal) || s.worker == WaitActive(signal)
    ensures var s' := WaitStep(s, CALM);
            && s' == s.(worker := s'.worker)
            && match s.worker
               case WaitFailure(_) => s'.worker == if s.failed then Top() else WaitGate(signal)
               case WaitGate(_) => s'.worker == if Closed(s.word) then WaitActive(signal) else Asleep(signal)
               case _ => s'.worker == if Active(s.word) == 0 then Top() else Asleep(signal)
  {
  }

  lemma SignalStep(s: State, signal: nat)
    requires Formed(s) && s.worker == WaitSignal(signal)
    ensures WaitStep(s, CALM) == s.(worker := if s.wake != signal then Top() else WaitFailure(signal))
  {
  }

  /** Evaluated without interference, the wait's predicate sends the worker back to the top of its loop
      exactly when the signal has changed, or the worker has failed, or the gate is closed and nothing
      is active; else the worker sleeps.  A sleeper that is woken evaluates it again. */
  lemma WaitDecidesExactly(s: State, signal: nat)
    requires Formed(s) && s.worker == WaitSignal(signal)
    ensures exists n | 0 < n <= 4 ::
              Waited(s, n).worker == if ShouldWake(s, signal) then Top() else Asleep(signal)
  {
    SignalStep(s, signal);
    var s1 := WaitStep(s, CALM);
    if s.wake != signal {
      WaitedOnce(s);
    } else {
      DecideStep(s1, signal);
      var s2 := WaitStep(s1, CALM);
      if s.failed {
        WaitedMore(s, 1);
        WaitedOnce(s1);
      } else {
        DecideStep(s2, signal);
        var s3 := WaitStep(s2, CALM);
        WaitedMore(s, 2);
        WaitedMore(s1, 1);
        WaitedOnce(s2);
        if Closed(s.word) {
          DecideStep(s3, signal);
          WaitedMore(s, 3);
          WaitedMore(s1, 2);
          WaitedMore(s2, 1);
          WaitedOnce(s3);
        }
      }
    }
  }

  lemma WaitedOnce(s: State)
    requires Formed(s)
    ensures Waited(s, 1) == WaitStep(s, CALM)
  {
  }

  lemma WaitedMore(s: State, n: nat)
    requires Formed(s)
    ensures Waited(s, n + 1) == Waited(WaitStep(s, CALM), n)
  {
  }

  lemma SleeperLooksAgain(s: State, c: Choice)
    requires Formed(s) && s.worker.Asleep?
    ensures WaitStep(s, c).worker == if c.passes then Top() else WaitSignal(s.worker.signal)
  {
  }
}
