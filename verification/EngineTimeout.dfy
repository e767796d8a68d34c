/** With a connection timeout configured two of the guarantees fail: the timeout goroutine is not
    waited for before the channel is closed, and the reader may wait for it in vain. */
module EngineTimeout {
  import opened Apollows
  import opened Operation
  import opened Engine
  import opened EngineSafety
  import opened EngineTheorems
  import opened EngineTermination

  lemma ReachableStep(d: Dialect, timeout: bool, s: State, a: Action)
    requires Reachable(d, timeout, s) && Enabled(s, a)
    ensures Reachable(d, timeout, Step(s, a))
  {
    var acts :| Leads(Start0(d, timeout), acts, s);
    LeadsLast(Start0(d, timeout), acts, s, a);
  }

  lemma ReachableStart(d: Dialect, timeout: bool)
    ensures Reachable(d, timeout, Start0(d, timeout))
  {
    LeadsNone(Start0(d, timeout));
  }

  /** The timer fires and the client disconnects: the reader tears the connection down while the
      timeout goroutine still has its report to send. */
  lemma DisconnectedAfterFire(d: Dialect) returns (t: State)
    ensures Reachable(d, true, t) && !t.panicked && t.reader.CancelRequestContext?
    ensures TimerSends(t.timer) && t.waitGroup == 0 && !t.closed
  {
    t := Fired(d);
    ReachableStep(d, true, t, ReceiveFailure);
    t := Step(t, ReceiveFailure);
    assert t.reader == Exit(Ordinary);
    t := LeavingMove(d, t);
    t := FarewellMove(d, t);
  }

  lemma Fired(d: Dialect) returns (t: State)
    ensures Reachable(d, true, t) && Untouched(t) && t.reader.Reading? && !t.init && TimerSends(t.timer)
  {
    ReachableStart(d, true);
    ReachableStep(d, true, Start0(d, true), TimerFire);
    t := Step(Start0(d, true), TimerFire);
  }

  predicate Untouched(s: State) {
    !s.panicked && s.waitGroup == 0 && !s.closed && s.runs == [] && s.queue == []
  }

  /** The reader's loop has been left. */
  lemma LeavingMove(d: Dialect, s: State) returns (t: State)
    requires Reachable(d, true, s) && Untouched(s) && s.reader == Exit(Ordinary)
    ensures Reachable(d, true, t) && t.timer == s.timer && t.reader.ExitError? && Untouched(t)
  {
    ReachableStep(d, true, s, GO);
    assert !Crashes(s, GO) && NextTimer(s, GO) == s.timer && NextRuns(s, GO) == s.runs;
    t := Step(s, GO);
  }

  /** The reader sends its last message. */
  lemma FarewellMove(d: Dialect, s: State) returns (t: State)
    requires Reachable(d, true, s) && Untouched(s) && s.reader.ExitError?
    ensures Reachable(d, true, t) && t.timer == s.timer && t.reader.CancelRequestContext?
    ensures !t.panicked && t.waitGroup == 0 && !t.closed
  {
    ReachableStep(d, true, s, GO);
    assert !Crashes(s, GO) && NextTimer(s, GO) == s.timer;
    t := Step(s, GO);
  }

  /** One step of the reader's shutdown sequence, with no operation to wait for. */
  lemma ShutdownMove(d: Dialect, s: State) returns (t: State)
    requires Reachable(d, true, s) && !s.panicked && s.waitGroup == 0 && !s.closed
    requires s.reader.CancelRequestContext? || s.reader.Wait? || s.reader.CloseChannel?
    ensures Reachable(d, true, t) && !t.panicked && t.waitGroup == 0 && t.timer == s.timer
    ensures (s.reader.CancelRequestContext? ==> t.reader.Wait?) && (s.reader.Wait? ==> t.reader.CloseChannel?)
    ensures t.closed <==> s.reader.CloseChannel?
  {
    ReachableStep(d, true, s, GO);
    assert !Crashes(s, GO) && NextTimer(s, GO) == s.timer;
    t := Step(s, GO);
  }

  /** The reader closes the channel without waiting for the timeout goroutine. */
  lemma ClosedBeforeReport(d: Dialect) returns (t: State)
    ensures Reachable(d, true, t) && !t.panicked && t.closed && TimerSends(t.timer)
  {
    t := DisconnectedAfterFire(d);
    t := ShutdownMove(d, t);
    t := ShutdownMove(d, t);
    t := ShutdownMove(d, t);
  }

  /** With a timeout a send on the closed channel is reachable, in either dialect. */
  lemma TimeoutCanPanic(d: Dialect) returns (t: State)
    ensures Reachable(d, true, t) && t.panicked
  {
    var s := ClosedBeforeReport(d);
    t := Step(s, TimerGo(Proceed));
    ReachableStep(d, true, s, TimerGo(Proceed));
  }

  /** Panics are excluded exactly when no connection timeout is configured. */
  lemma PanicFreeIffNoTimeout(d: Dialect, timeout: bool)
    ensures (forall t: State :: Reachable(d, timeout, t) ==> !t.panicked) <==> !timeout
  {
    if timeout {
      var t := TimeoutCanPanic(d);
    } else {
      forall t: State | Reachable(d, false, t) ensures !t.panicked { NeverPanics(d, t); }
    }
  }

  /** A reader announcing an init to a timeout goroutine that has stopped listening. */
  predicate Abandoned(s: State) {
    s.reader.Signal? && !s.timer.Waiting? && !s.timer.Off?
  }

  lemma AbandonedKept()
    ensures Kept((s: State) => Abandoned(s))
  {
  }

  /** The connection can still reach its final state. */
  ghost predicate CanComplete(s: State) {
    exists acts, t: State :: Leads(s, acts, t) && Final(t)
  }

  lemma AbandonedNeverCompletes(s: State)
    requires Abandoned(s)
    ensures !CanComplete(s)
  {
    forall acts, t: State | Leads(s, acts, t) ensures !Final(t) {
      AbandonedKept();
      KeptLeads((x: State) => Abandoned(x), s, acts, t);
      assert Abandoned(t);
    }
  }

  /** The timer fires just before the client's init arrives. */
  lemma TimeoutCanBlock(d: Dialect) returns (s: State)
    ensures Reachable(d, true, s) && Abandoned(s)
  {
    s := Fired(d);
    ReachableStep(d, true, s, Receive(Init(NoFailure)));
    s := Step(s, Receive(Init(NoFailure)));
  }

  /** Every reachable state can still be torn down exactly when no timeout is configured: with one,
      the reader may block for ever on a goroutine that has stopped listening. */
  lemma TeardownIffNoTimeout(d: Dialect, timeout: bool)
    ensures (forall s: State :: Reachable(d, timeout, s) ==> CanComplete(s)) <==> !timeout
  {
    if timeout {
      var s := TimeoutCanBlock(d);
      AbandonedNeverCompletes(s);
    } else {
      forall s: State | Reachable(d, false, s) ensures CanComplete(s) {
        var acts, t := Completes(d, s);
      }
    }
  }
}
