/** What becomes of a connection whose interceptors return before their handler calls have: results
    after an error, messages after the end of an operation, and a send on the closed channel. */
module EngineAwaiting {
  import opened Apollows
  import opened Operation
  import opened OperationMessages
  import opened Engine
  import opened EngineChannel
  import opened EngineRegistry
  import opened EngineSafety
  import opened EngineTheorems
  import opened EngineTimeout
  import opened EngineWitness
  import opened ConnectionSteps

  /** `t` is reached in some interleaving of a connection whose interceptors await their handler calls
      or, if not `awaits`, need not. */
  ghost predicate ReachableAs(d: Dialect, timeout: bool, awaits: bool, t: State) {
    exists acts :: Leads(Start0(d, timeout).(awaits := awaits), acts, t)
  }

  lemma AwaitedIsReachable(d: Dialect, timeout: bool, t: State)
    ensures ReachableAs(d, timeout, true, t) <==> Reachable(d, timeout, t)
  {
    assert Start0(d, timeout).(awaits := true) == Start0(d, timeout);
  }

  function Relaxed(s: State): State {
    s.(awaits := false)
  }

  lemma RelaxedTurn(v: View, room: bool, r: Run, m: Turn)
    ensures CanStep(v, room, r, m) ==> CanStep(v.(awaits := false), room, r, m)
    ensures Advance(v.(awaits := false), r, m) == Advance(v, r, m)
    ensures Sending(r, m) ==> ItemOf(v.(awaits := false), r, m) == ItemOf(v, r, m)
  {
  }

  lemma RelaxedOperation(s: State, i: nat, m: Turn)
    ensures var a := OperationGo(i, m);
            Emitted(Relaxed(s), a) == Emitted(s, a) && NextRuns(Relaxed(s), a) == NextRuns(s, a)
  {
    if i < |s.runs| { RelaxedTurn(ViewOf(s), Room(s), s.runs[i], m); }
  }

  lemma RelaxedParts(s: State, a: Action)
    ensures Emitted(Relaxed(s), a) == Emitted(s, a) && NextRuns(Relaxed(s), a) == NextRuns(s, a)
  {
    if a.OperationGo? { RelaxedOperation(s, a.run, a.turn); }
  }

  lemma RelaxedEnabled(s: State, a: Action)
    requires Enabled(s, a)
    ensures Enabled(Relaxed(s), a)
  {
    if a.OperationGo? { RelaxedTurn(ViewOf(s), Room(s), s.runs[a.run], a.turn); }
  }

  lemma RelaxedReader(s: State, a: Action)
    ensures NextReader(Relaxed(s), a) == NextReader(s, a) && Events(Relaxed(s), a) == Events(s, a)
    ensures NextReaderSent(Relaxed(s), a) == NextReaderSent(s, a) && NextTimer(Relaxed(s), a) == NextTimer(s, a)
  {
  }

  lemma RelaxedRegistry(s: State, a: Action)
    ensures NextOperations(Relaxed(s), a) == NextOperations(s, a) && NextWaitGroup(Relaxed(s), a) == NextWaitGroup(s, a)
  {
  }

  lemma RelaxedWriter(s: State, a: Action)
    requires Emitted(Relaxed(s), a) == Emitted(s, a)
    ensures NextQueue(Relaxed(s), a) == NextQueue(s, a) && NextDelivered(Relaxed(s), a) == NextDelivered(s, a)
    ensures NextWriter(Relaxed(s), a) == NextWriter(s, a) && NextFrames(Relaxed(s), a) == NextFrames(s, a)
  {
  }

  lemma RelaxedCrash(s: State, a: Action)
    ensures Crashes(Relaxed(s), a) <==> Crashes(s, a)
  {
    RelaxedParts(s, a);
    RelaxedRegistry(s, a);
  }

  lemma RelaxedMove(s: State, a: Action)
    requires !Crashes(s, a) && !Crashes(Relaxed(s), a)
    ensures Step(Relaxed(s), a) == Relaxed(Step(s, a))
  {
    RelaxedParts(s, a);
    RelaxedReader(s, a);
    RelaxedRegistry(s, a);
    RelaxedWriter(s, a);
  }

  lemma RelaxedStep(s: State, a: Action)
    ensures Step(Relaxed(s), a) == Relaxed(Step(s, a))
  {
    RelaxedCrash(s, a);
    if !Crashes(s, a) { RelaxedMove(s, a); }
  }

  /** Not having to wait allows everything that waiting does. */
  lemma {:induction false} RelaxedLeads(s: State, acts: seq<Action>, t: State)
    requires Leads(s, acts, t)
    ensures Leads(Relaxed(s), acts, Relaxed(t))
    decreases |acts|
  {
    LeadsRest(s, acts, t);
    if acts == [] {
      LeadsNone(Relaxed(s));
    } else {
      RelaxedEnabled(s, acts[0]);
      RelaxedStep(s, acts[0]);
      RelaxedLeads(Step(s, acts[0]), acts[1..], t);
      LeadsFirst(Relaxed(s), acts[0], Relaxed(Step(s, acts[0])), acts[1..], Relaxed(t));
      assert [acts[0]] + acts[1..] == acts;
    }
  }

  lemma ReachableRelaxed(d: Dialect, timeout: bool, t: State)
    requires Reachable(d, timeout, t)
    ensures ReachableAs(d, timeout, false, Relaxed(t))
  {
    var acts :| Leads(Start0(d, timeout), acts, t);
    RelaxedLeads(Start0(d, timeout), acts, t);
  }

  // ----- Steps of a connection that does not wait

  lemma EarlyStep(d: Dialect, timeout: bool, s: State, a: Action)
    requires ReachableAs(d, timeout, false, s) && Enabled(s, a)
    ensures ReachableAs(d, timeout, false, Step(s, a))
  {
    var acts :| Leads(Start0(d, timeout).(awaits := false), acts, s);
    LeadsLast(Start0(d, timeout).(awaits := false), acts, s, a);
  }

  /** The goroutine takes itself off the map and the WaitGroup. */
  predicate Unwinds(r: Run, m: Turn) {
    m.Own? && (r.pc.Unregister? || r.pc.WgDone?)
  }

  lemma TurnParts(s: State, i: nat, m: Turn)
    requires s.waitGroup >= 0 && i < |s.runs| && !Enqueues(s.runs[i], m) && !Unwinds(s.runs[i], m)
    ensures var a := OperationGo(i, m);
            && Emitted(s, a) == [] && Events(s, a) == []
            && NextOperations(s, a) == s.operations && NextWaitGroup(s, a) == s.waitGroup
  {
  }

  /** A turn that only changes its operation. */
  lemma EarlyTurn(d: Dialect, timeout: bool, s: State, i: nat, m: Turn) returns (t: State)
    requires ReachableAs(d, timeout, false, s) && !s.panicked && s.waitGroup >= 0
    requires i < |s.runs| && CanStep(ViewOf(s), Room(s), s.runs[i], m)
    requires !Enqueues(s.runs[i], m) && !Unwinds(s.runs[i], m)
    ensures ReachableAs(d, timeout, false, t)
    ensures t == s.(runs := s.runs[i := Advance(ViewOf(s), s.runs[i], m)])
  {
    TurnParts(s, i, m);
    EarlyStep(d, timeout, s, OperationGo(i, m));
    t := Step(s, OperationGo(i, m));
  }

  lemma SendParts(s: State, i: nat, m: Turn)
    requires s.waitGroup >= 0 && i < |s.runs| && Enqueues(s.runs[i], m)
    ensures var a := OperationGo(i, m);
            && Emitted(s, a) == [Entry(ByOperation(i), ItemOf(ViewOf(s), s.runs[i], m))] && Events(s, a) == []
            && NextOperations(s, a) == s.operations && NextWaitGroup(s, a) == s.waitGroup
  {
  }

  lemma EarlySend(d: Dialect, timeout: bool, s: State, i: nat, m: Turn) returns (t: State)
    requires ReachableAs(d, timeout, false, s) && !s.panicked && s.waitGroup >= 0 && !s.closed && s.queue == []
    requires i < |s.runs| && CanStep(ViewOf(s), true, s.runs[i], m) && Enqueues(s.runs[i], m)
    ensures ReachableAs(d, timeout, false, t)
    ensures var e := Entry(ByOperation(i), ItemOf(ViewOf(s), s.runs[i], m));
            t == s.(runs := s.runs[i := Advance(ViewOf(s), s.runs[i], m)], queue := [e], log := s.log + [e])
  {
    SendParts(s, i, m);
    EarlyStep(d, timeout, s, OperationGo(i, m));
    t := Step(s, OperationGo(i, m));
    assert [] + Emitted(s, OperationGo(i, m)) == Emitted(s, OperationGo(i, m));
  }

  lemma EarlyTake(d: Dialect, timeout: bool, s: State) returns (t: State)
    requires ReachableAs(d, timeout, false, s) && !s.panicked && s.waitGroup >= 0 && |s.queue| == 1 && s.writer.Idle?
    ensures ReachableAs(d, timeout, false, t)
    ensures t == s.(queue := [], writer := Writing(s.queue[0]), delivered := s.delivered + s.queue)
  {
    EarlyStep(d, timeout, s, WriterTake);
    t := Step(s, WriterTake);
    assert s.queue[1..] == [] && s.queue == [s.queue[0]];
  }

  // ----- An operation whose interceptors are running

  /** The writer is idle and the channel empty. */
  lemma Idles(s: State) returns (t: State)
    requires Sound(s)
    ensures CanReach(s, t) && Sound(t) && SameButWriter(s, t) && t.queue == [] && t.writer.Idle?
  {
    var u := Drain(s);
    if u.writer.Idle? {
      t := u;
    } else {
      var a := if u.writer.Reacting? then WriterReact else WriterWrite(true);
      WriterNeverCrashes(u, a);
      WriterOnly(u, a);
      InvStep(u, a);
      ReachesStep(s, u, a);
      t := Step(u, a);
    }
  }

  /** The only operation, with the reader waiting for the client and nothing in the channel. */
  ghost predicate Alone(d: Dialect, s: State, r: Run) {
    && s.dialect == d && !s.panicked && s.reader.Reading? && s.runs == [r] && s.waitGroup == 1 && !s.closed
    && !s.requestDone && !s.requestStopped && s.queue == [] && s.writer.Idle?
  }

  lemma OneCounted(s: State)
    requires CountOk(s) && |s.runs| == 1 && Counted(s.runs[0])
    ensures s.waitGroup == 1
  {
    assert CountRuns(s.runs[..0]) == 0;
  }

  lemma Settles(d: Dialect, timeout: bool, s: State, r: Run) returns (t: State)
    requires Reachable(d, timeout, s) && Sound(s) && s.runs == [r] && Counted(r)
    requires s.reader.Reading? && !s.requestDone && !s.requestStopped
    ensures Reachable(d, timeout, t) && Sound(t) && Alone(d, t, r)
  {
    t := Idles(s);
    ReachableOn(d, timeout, s, t);
    SameDialect(d, timeout, t);
    OneCounted(t);
  }

  lemma Intercepted(d: Dialect, timeout: bool, plan: Plan) returns (t: State)
    requires plan.decodes
    ensures Reachable(d, timeout, t) && Sound(t) && Alone(d, t, NewRun("1", plan).(pc := Intercept))
  {
    var s := Launched(d, timeout, "1", plan);
    InvReachable(d, timeout, s);
    UnfinishedIsOpen(s, 0);
    var u := OperationMoves(s, 0, Own(Proceed));
    ReachableOn(d, timeout, s, u);
    t := Settles(d, timeout, u, NewRun("1", plan).(pc := Intercept));
  }

  // ----- An error after a result

  const X := Outcome(0, false)

  /** Its goroutine has decided to report an error. */
  function Deciding(): Run {
    NewRun("1", Plan(true, [[X]], Ordinary)).(pc := MarkStopped, failure := Ordinary)
  }

  /** Then a handler call reaches execution, and its result passes the check. */
  function Overtaken(): Run {
    Deciding().(calls := [], executed := true, active := [Call(SendData, [], X, [X], [])])
  }

  lemma DecidingTurns(v: View)
    ensures var r0 := NewRun("1", Plan(true, [[X]], Ordinary)).(pc := Intercept);
            var r1 := r0.(pc := CheckExecuted, failure := Ordinary);
            Advance(v, r0, Own(Proceed)) == r1 && Advance(v, r1, Own(Proceed)) == Deciding()
  {
  }

  lemma OvertakingTurns(v: View)
    requires !v.requestStopped
    ensures var r0 := Deciding().(calls := [], executed := true, active := [NewCall([X])]);
            var r1 := r0.(active := [Call(CheckData, [], X, [X], [])]);
            && Advance(v, Deciding(), Begin) == r0
            && Advance(v, r0, OfCall(0, Proceed)) == r1 && Advance(v, r1, OfCall(0, Proceed)) == Overtaken()
  {
    assert [[X]][1..] == [] && [] + [NewCall([X])] == [NewCall([X])] && [X][1..] == [] && [] + [X] == [X];
  }

  lemma Decides(d: Dialect, timeout: bool) returns (t: State)
    ensures ReachableAs(d, timeout, false, t) && Alone(d, t, Deciding()) && !t.awaits
  {
    var s := Intercepted(d, timeout, Plan(true, [[X]], Ordinary));
    ReachableRelaxed(d, timeout, s);
    DecidingTurns(ViewOf(Relaxed(s)));
    t := EarlyTurn(d, timeout, Relaxed(s), 0, Own(Proceed));
    t := EarlyTurn(d, timeout, t, 0, Own(Proceed));
  }

  lemma IsOvertaken(d: Dialect, timeout: bool) returns (t: State)
    ensures ReachableAs(d, timeout, false, t) && Alone(d, t, Overtaken()) && !t.awaits
  {
    t := Decides(d, timeout);
    OvertakingTurns(ViewOf(t));
    t := EarlyTurn(d, timeout, t, 0, Begin);
    t := EarlyTurn(d, timeout, t, 0, OfCall(0, Proceed));
    t := EarlyTurn(d, timeout, t, 0, OfCall(0, Proceed));
  }

  /** The result is sent. */
  lemma SendsResult(d: Dialect, timeout: bool) returns (t: State)
    ensures ReachableAs(d, timeout, false, t) && !t.panicked && !t.closed && t.waitGroup == 1 && t.queue == []
    ensures |t.runs| == 1 && t.runs[0].pc.MarkStopped? && t.runs[0].executed && t.runs[0].id == "1"
    ensures t.runs[0].sent == [Message("1", ResultKind(d, X))]
  {
    t := IsOvertaken(d, timeout);
    t := EarlySend(d, timeout, t, 0, OfCall(0, Proceed));
    t := EarlyTake(d, timeout, t);
  }

  /** A result, sent by a late handler call, and an error of the same operation. */
  lemma ResultAndError(d: Dialect, timeout: bool) returns (t: State)
    ensures ReachableAs(d, timeout, false, t) && |t.runs| == 1 && t.runs[0].executed
    ensures Kinds(t.runs[0].sent) == [ResultKind(d, X), Error]
  {
    t := SendsResult(d, timeout);
    t := EarlyTurn(d, timeout, t, 0, Own(Proceed));
    t := EarlySend(d, timeout, t, 0, Own(Proceed));
    ResultErrorWord(d);
  }

  lemma ResultErrorWord(d: Dialect)
    ensures Kinds([Message("1", ResultKind(d, X))] + [Message("1", Error)]) == [ResultKind(d, X), Error]
  {
    KindsAppend([], Message("1", ResultKind(d, X)));
    KindsAppend([Message("1", ResultKind(d, X))], Message("1", Error));
  }

  /** Results and errors of an operation exclude each other, whatever its interceptors do, exactly if
      they await their handler calls. */
  lemma ExclusiveIffAwaited(d: Dialect, timeout: bool, awaits: bool)
    ensures (forall t: State, i: nat :: ReachableAs(d, timeout, awaits, t) && i < |t.runs| ==> Exclusive(t.runs[i]))
            <==> awaits
  {
    if awaits {
      forall t: State, i: nat | ReachableAs(d, timeout, true, t) && i < |t.runs| ensures Exclusive(t.runs[i]) {
        AwaitedIsReachable(d, timeout, t);
        ReachableLocal(d, timeout, t, i);
      }
    } else {
      var t := ResultAndError(d, timeout);
      assert Kinds(t.runs[0].sent)[1] == Error;
      assert !Exclusive(t.runs[0]);
    }
  }

  // ----- A message after the operation's end

  /** A handler call is about to send its result, with the interceptors still running. */
  function Lingering(): Run {
    NewRun("1", Plan(true, [[X]], NoFailure)).(pc := Intercept, calls := [], executed := true,
                                               active := [Call(SendData, [], X, [X], [])])
  }

  /** The goroutine has finished without it. */
  function Outlived(): Run {
    Lingering().(pc := Finished, cancelled := true)
  }

  lemma LingeringTurns(v: View)
    ensures Advance(v, NewRun("1", Plan(true, [[X]], NoFailure)).(pc := Intercept), Begin)
         == Lingering().(active := [NewCall([X])])
  {
    assert [[X]][1..] == [] && [] + [NewCall([X])] == [NewCall([X])];
  }

  lemma CallBegun(d: Dialect, timeout: bool) returns (t: State)
    ensures Reachable(d, timeout, t) && Sound(t) && t.runs == [Lingering().(active := [NewCall([X])])]
    ensures t.reader.Reading? && !t.requestDone && !t.requestStopped
  {
    var s := Intercepted(d, timeout, Plan(true, [[X]], NoFailure));
    LingeringTurns(ViewOf(s));
    t := OperationMoves(s, 0, Begin);
    ReachableOn(d, timeout, s, t);
  }

  lemma Lingers(d: Dialect, timeout: bool) returns (t: State)
    ensures Reachable(d, timeout, t) && Alone(d, t, Lingering())
  {
    var s := CallBegun(d, timeout);
    t := CallPasses(s, 0, X);
    assert [NewCall([X])][0 := Call(SendData, [], X, [X], [])] == [Call(SendData, [], X, [X], [])];
    assert t.runs == [Lingering()];
    ReachableOn(d, timeout, s, t);
    t := Settles(d, timeout, t, Lingering());
  }

  lemma AheadTurns(v: View)
    requires !v.requestStopped
    ensures var r0 := Lingering(); var r1 := r0.(pc := CheckExecuted); var r2 := r0.(pc := CheckStopped);
            && Advance(v, r0, Own(Proceed)) == r1 && Advance(v, r1, Own(Proceed)) == r2
            && Advance(v, r2, Own(Proceed)) == r0.(pc := SendComplete)
  {
  }

  lemma RequestCancelled(d: Dialect, timeout: bool) returns (t: State)
    ensures ReachableAs(d, timeout, false, t) && Alone(d, t.(requestDone := false), Lingering())
    ensures !t.awaits && t.requestDone
  {
    var s := Lingers(d, timeout);
    ReachableRelaxed(d, timeout, s);
    EarlyStep(d, timeout, Relaxed(s), CancelRequest);
    t := Step(Relaxed(s), CancelRequest);
    assert t.runs == NextRuns(Relaxed(s), CancelRequest) && t.queue == NextQueue(Relaxed(s), CancelRequest);
  }

  /** The request is cancelled, and the goroutine gone ahead to its `complete`. */
  lemma GoesAhead(d: Dialect, timeout: bool) returns (t: State)
    ensures ReachableAs(d, timeout, false, t) && Alone(d, t.(requestDone := false), Lingering().(pc := SendComplete))
    ensures !t.awaits && t.requestDone
  {
    t := RequestCancelled(d, timeout);
    AheadTurns(ViewOf(t));
    t := EarlyTurn(d, timeout, t, 0, Own(Proceed));
    t := EarlyTurn(d, timeout, t, 0, Own(Proceed));
    t := EarlyTurn(d, timeout, t, 0, Own(Proceed));
  }

  /** An operation that has finished with one of its handler calls about to send. */
  ghost predicate Late(s: State) {
    && !s.panicked && s.reader.Reading? && s.runs == [Outlived()] && s.waitGroup == 0 && !s.closed
    && s.requestDone && s.queue == [] && !s.awaits
  }

  lemma Unwound(d: Dialect, timeout: bool, s: State) returns (t: State)
    requires ReachableAs(d, timeout, false, s) && !s.panicked && s.waitGroup == 1
    requires s.runs == [Lingering().(pc := Unregister, cancelled := true)]
    ensures ReachableAs(d, timeout, false, t)
    ensures t == s.(runs := [Outlived()], waitGroup := 0, operations := t.operations, script := t.script)
  {
    var start := Start0(d, timeout).(awaits := false);
    var acts :| Leads(start, acts, s);
    Deletes(start, acts, s, 0);
    var u := s.(runs := s.runs[0 := s.runs[0].(pc := Pc.WgDone)], operations := s.operations - {s.runs[0].id},
                script := s.script + [EndedEvent(s.runs[0].id)]);
    Dones(start, acts + [OperationGo(0, OWN)], u, 0);
    t := u.(runs := u.runs[0 := u.runs[0].(pc := Finished)], waitGroup := u.waitGroup - 1);
    assert t.runs == [Outlived()];
  }

  lemma FinishesEarly(d: Dialect, timeout: bool) returns (t: State)
    ensures ReachableAs(d, timeout, false, t) && Late(t)
  {
    t := GoesAhead(d, timeout);
    t := EarlyTurn(d, timeout, t, 0, Own(Abandon));
    t := EarlyTurn(d, timeout, t, 0, Own(Proceed));
    t := Unwound(d, timeout, t);
  }

  /** A finished operation enqueues nothing more, whatever happens, exactly if interceptors await their
      handler calls. */
  lemma SilentIffAwaited(d: Dialect, timeout: bool, awaits: bool)
    ensures (forall s: State, acts, t: State, i: nat ::
               ReachableAs(d, timeout, awaits, s) && Leads(s, acts, t) && i < |s.runs| && s.runs[i].pc.Finished? ==>
                 SentBy(t, i) == SentBy(s, i)) <==> awaits
  {
    if awaits {
      forall s: State, acts, t: State, i: nat
        | ReachableAs(d, timeout, true, s) && Leads(s, acts, t) && i < |s.runs| && s.runs[i].pc.Finished?
        ensures SentBy(t, i) == SentBy(s, i)
      {
        FinishedStaysSilent(d, timeout, s, acts, t, i);
      }
    } else {
      var s := FinishesEarly(d, timeout);
      var a := OperationGo(0, OfCall(0, Proceed));
      LateSend(s);
      LeadsNone(s);
      LeadsLast(s, [], s, a);
      assert Leads(s, [] + [a], Step(s, a));
    }
  }

  lemma FinishedStaysSilent(d: Dialect, timeout: bool, s: State, acts: seq<Action>, t: State, i: nat)
    requires ReachableAs(d, timeout, true, s) && Leads(s, acts, t) && i < |s.runs| && s.runs[i].pc.Finished?
    ensures SentBy(t, i) == SentBy(s, i)
  {
    AwaitedIsReachable(d, timeout, s);
    EndedRunsStaySilent(d, timeout, s, i, acts, t);
    var all :| Leads(Start0(d, timeout), all, s);
    LeadsOn(Start0(d, timeout), all, s, acts, t);
    InvReachable(d, timeout, s);
    InvReachable(d, timeout, t);
    assert ItemsOf(s.log, ByOperation(i)) == SentBy(s, i) && ItemsOf(t.log, ByOperation(i)) == SentBy(t, i);
  }

  lemma LateSend(s: State)
    requires Late(s)
    ensures var a := OperationGo(0, OfCall(0, Proceed));
            Enabled(s, a) && SentBy(Step(s, a), 0) == [Message("1", ResultKind(s.dialect, X))]
  {
    assert Advance(ViewOf(s), Outlived(), OfCall(0, Proceed)).sent == [] + [Message("1", ResultKind(s.dialect, X))];
  }

  // ----- A send on the closed channel

  /** Everything but the late handler call is torn down. */
  lemma ClosesEarly(d: Dialect, timeout: bool) returns (t: State)
    ensures ReachableAs(d, timeout, false, t) && !t.panicked && t.closed && t.runs == [Outlived()] && t.waitGroup >= 0
  {
    var s := FinishesEarly(d, timeout);
    var start := Start0(d, timeout).(awaits := false);
    var acts :| Leads(start, acts, s);
    HearsFailure(start, acts, s);
    acts, s := acts + [ReceiveFailure], s.(script := s.script + [FailureEvent], reader := Exit(Ordinary));
    Leaves(start, acts, s, Ordinary);
    acts, s := acts + [GO], s.(reader := ExitError);
    ReaderDropsItem(start, acts, s);
    acts, s := acts + [ReaderGo(Abandon)], s.(reader := CancelRequestContext, ackDropped := s.ackDropped || false);
    CancelsRequest(start, acts, s);
    acts, s := acts + [GO], s.(reader := ReaderPc.Wait, requestDone := true);
    EndsWaiting(start, acts, s);
    acts, s := acts + [GO], s.(reader := ReaderPc.CloseChannel);
    ClosesChannel(start, acts, s);
    t := s.(reader := Gone, closed := true);
  }

  lemma LatePanic(d: Dialect, timeout: bool) returns (t: State)
    ensures ReachableAs(d, timeout, false, t) && t.panicked
  {
    var s := ClosesEarly(d, timeout);
    var a := OperationGo(0, OfCall(0, Proceed));
    SendParts(s, 0, OfCall(0, Proceed));
    EarlyStep(d, timeout, s, a);
    t := Step(s, a);
  }

  /** No goroutine can panic exactly if no connection timeout is configured and interceptors await
      their handler calls. */
  lemma PanicFreeIff(d: Dialect, timeout: bool, awaits: bool)
    ensures (forall t: State :: ReachableAs(d, timeout, awaits, t) ==> !t.panicked) <==> !timeout && awaits
  {
    if !awaits {
      var t := LatePanic(d, timeout);
    } else {
      forall t: State ensures ReachableAs(d, timeout, true, t) <==> Reachable(d, timeout, t) {
        AwaitedIsReachable(d, timeout, t);
      }
      PanicFreeIffNoTimeout(d, timeout);
    }
  }
}
