/** The atomic steps of the reader and of an operation's goroutine as changes of the connection's
    fields, and what the steps of the others leave alone meanwhile. */
module ConnectionSteps {
  import opened Wrappers
  import opened Apollows
  import opened Operation
  import opened OperationMessages
  import opened OperationSafety
  import opened Engine
  import opened EngineRegistry
  import opened EngineSafety

  /** The goroutine whose function a method follows; all others may step whenever it pauses. */
  datatype Actor = Reader | Goroutine(index: nat)

  /** Steps the actor takes itself. That interceptors begin another handler call is foreign code. */
  predicate Mine(actor: Actor, a: Action) {
    match actor
    case Reader => a.Receive? || a.ReceiveFailure? || a.ReaderGo?
    case Goroutine(i) => a.OperationGo? && a.run == i && a.turn.Own?
  }

  /** The reader can neither go on nor take the other branch of its select; it is not waiting for the
      client. */
  predicate ReaderBlocked(s: State) {
    s.panicked || (!s.reader.Reading? && !s.reader.Gone? && !ReaderCan(s, Proceed) && !ReaderCan(s, Abandon))
  }

  /** The operation's goroutine can neither go on nor take the other branch of its select, or its
      interceptors have not returned. */
  predicate OperationBlocked(s: State, i: nat) {
    || s.panicked
    || (i < |s.runs| && !s.runs[i].pc.Finished?
        && !OwnCan(ViewOf(s), Room(s), s.runs[i], Proceed) && !OwnCan(ViewOf(s), Room(s), s.runs[i], Abandon))
  }

  lemma SendIsBlocked(s: State, i: nat)
    requires i < |s.runs| && Droppable(s.runs[i].pc) && s.queue != [] && !s.closed && !s.requestDone
    ensures OperationBlocked(s, i)
  {
  }

  // ----- What the reader has read

  /** The messages the reader has received, and the read that failed, in order. */
  function Reads(acts: seq<Action>): seq<Option<ClientMessage>> {
    if acts == [] then []
    else
      var last := acts[|acts| - 1];
      Reads(acts[..|acts| - 1])
        + (if last.Receive? then [Some(last.message)] else if last.ReceiveFailure? then [None] else [])
  }

  lemma ReadsAppend(acts: seq<Action>, a: Action)
    ensures Reads(acts + [a])
         == Reads(acts) + (if a.Receive? then [Some(a.message)] else if a.ReceiveFailure? then [None] else [])
  {
    assert (acts + [a])[..|acts|] == acts;
  }

  lemma NothingRead(acts: seq<Action>, a: Action)
    requires !a.Receive? && !a.ReceiveFailure?
    ensures Reads(acts + [a]) == Reads(acts)
  {
    ReadsAppend(acts, a);
  }

  lemma EachMore(messages: seq<ClientMessage>, k: nat)
    requires k < |messages|
    ensures Each(messages[..k + 1]) == Each(messages[..k]) + [Some(messages[k])]
  {
  }

  function Each(messages: seq<ClientMessage>): (r: seq<Option<ClientMessage>>)
    ensures |r| == |messages|
  {
    seq(|messages|, k requires 0 <= k < |messages| => Some(messages[k]))
  }

  predicate EndsWith(items: seq<Item>, item: Item) {
    items != [] && items[|items| - 1] == item
  }

  // ----- What interference leaves alone

  /** The same operation at a later time. */
  predicate Kin(r: Run, r': Run) {
    && r'.id == r.id && r'.plan == r.plan
    && (r.stopped ==> r'.stopped) && (r.cancelled ==> r'.cancelled) && (!Live(r) ==> !Live(r'))
  }

  predicate AllKin(rs: seq<Run>, rs': seq<Run>) {
    |rs| == |rs'| && forall i :: 0 <= i < |rs| ==> Kin(rs[i], rs'[i])
  }

  /** Which operations there are, by ID and plan. */
  function Plans(rs: seq<Run>): seq<(string, Plan)> {
    seq(|rs|, k requires 0 <= k < |rs| => (rs[k].id, rs[k].plan))
  }

  lemma PlansKept(rs: seq<Run>, rs': seq<Run>)
    requires AllKin(rs, rs')
    ensures Plans(rs') == Plans(rs)
  {
  }

  lemma PlansUpdated(rs: seq<Run>, i: nat, r': Run)
    requires i < |rs| && r'.id == rs[i].id && r'.plan == rs[i].plan
    ensures Plans(rs[i := r']) == Plans(rs)
  {
  }

  lemma PlansAdded(rs: seq<Run>, r: Run)
    ensures Plans(rs + [r]) == Plans(rs) + [(r.id, r.plan)]
  {
  }

  predicate StableForReader(s: State, t: State) {
    && t.reader == s.reader && t.init == s.init && t.requestStopped == s.requestStopped && t.readerSent == s.readerSent
    && t.closed == s.closed && (s.requestDone ==> t.requestDone)
    && t.operations.Keys <= s.operations.Keys && AllKin(s.runs, t.runs)
  }

  /** Outside the interceptors only flags of an operation change behind its back. */
  predicate StableRun(r: Run, r': Run) {
    if r.pc.Intercept? then r'.pc.Intercept? && r'.id == r.id && r'.plan == r.plan else Disturbed(r, r')
  }

  /** The same operation at another program point. */
  predicate SameOperation(r: Run, r': Run, pc: Pc) {
    r'.id == r.id && r'.plan == r.plan && r'.pc == pc
  }

  /** Nor has it been executed or failed meanwhile. */
  predicate Continues(r: Run, r': Run, pc: Pc) {
    SameOperation(r, r', pc) && r'.executed == r.executed && r'.failure == r.failure
  }

  predicate StableForOperation(s: State, t: State, i: nat) {
    i < |s.runs| <= |t.runs| && StableRun(s.runs[i], t.runs[i]) && (s.requestDone ==> t.requestDone)
  }

  predicate Stable(actor: Actor, s: State, t: State) {
    match actor
    case Reader => StableForReader(s, t)
    case Goroutine(i) => i < |s.runs| && !Unlaunched(s.runs[i]) ==> StableForOperation(s, t, i)
  }

  lemma StableItself(actor: Actor, s: State)
    ensures Stable(actor, s, s)
  {
  }

  lemma StableTrans(actor: Actor, s: State, t: State, u: State)
    requires Stable(actor, s, t) && Stable(actor, t, u)
    ensures Stable(actor, s, u)
  {
  }

  lemma KinAdvance(v: View, room: bool, r: Run, m: Turn)
    requires CanStep(v, room, r, m) && OnPlan(v.dialect, r)
    ensures Kin(r, Advance(v, r, m))
  {
    AdvanceRegistry(v, room, r, m);
  }

  lemma OneKin(runs: seq<Run>, i: nat, r': Run)
    requires i < |runs| && Kin(runs[i], r')
    ensures AllKin(runs, runs[i := r'])
  {
  }

  lemma OperationKin(s: State, i: nat, m: Turn)
    requires Enabled(s, OperationGo(i, m)) && OnPlan(s.dialect, s.runs[i])
    ensures AllKin(s.runs, NextRuns(s, OperationGo(i, m)))
  {
    KinAdvance(ViewOf(s), Room(s), s.runs[i], m);
    OneKin(s.runs, i, Advance(ViewOf(s), s.runs[i], m));
  }

  lemma OnPlanOf(s: State, i: nat)
    requires LocalsOk(s) && i < |s.runs|
    ensures OnPlan(s.dialect, s.runs[i])
  {
    assert LocalOk(ViewOf(s), s.runs[i]);
  }

  lemma RunsKin(s: State, a: Action)
    requires LocalsOk(s) && Enabled(s, a) && !Mine(Reader, a)
    ensures AllKin(s.runs, NextRuns(s, a))
  {
    if a.OperationGo? {
      OnPlanOf(s, a.run);
      OperationKin(s, a.run, a.turn);
    } else {
      OthersKin(s, a);
    }
  }

  lemma OthersKin(s: State, a: Action)
    requires Enabled(s, a) && !Mine(Reader, a) && !a.OperationGo?
    ensures AllKin(s.runs, NextRuns(s, a))
  {
    if a.Detach? { OneKin(s.runs, a.run, s.runs[a.run].(detached := true)); }
  }

  lemma ReaderFields(s: State, a: Action)
    requires Enabled(s, a) && !Mine(Reader, a) && !Crashes(s, a)
    ensures var t := Step(s, a);
            && t.reader == s.reader && t.init == s.init && t.requestStopped == s.requestStopped
            && t.readerSent == s.readerSent && t.closed == s.closed
            && t.operations == NextOperations(s, a) && t.runs == NextRuns(s, a)
  {
  }

  lemma ReaderStable(s: State, a: Action)
    requires AllKin(s.runs, NextRuns(s, a)) && Enabled(s, a) && !Mine(Reader, a)
    ensures StableForReader(s, Step(s, a))
  {
    if Crashes(s, a) {
      assert AllKin(s.runs, s.runs);
    } else {
      ReaderFields(s, a);
      ViewStep(s, a);
      assert NextOperations(s, a).Keys <= s.operations.Keys;
    }
  }

  lemma OtherTurn(v: View, room: bool, r: Run, m: Turn)
    requires OnPlan(v.dialect, r) && CanStep(v, room, r, m) && !m.Own?
    ensures StableRun(r, Advance(v, r, m))
  {
    if m.OfCall? { CallStays(v, room, r, m); }
  }

  lemma TouchedStable(r: Run, r': Run)
    requires Touched(r, r') && !Unlaunched(r)
    ensures StableRun(r, r')
  {
  }

  lemma RunStable(s: State, a: Action, i: nat)
    requires LocalsOk(s) && LaunchOk(s) && Enabled(s, a) && i < |s.runs| && !Unlaunched(s.runs[i])
    requires !Mine(Goroutine(i), a)
    ensures i < |NextRuns(s, a)| && StableRun(s.runs[i], NextRuns(s, a)[i])
  {
    if a.OperationGo? && a.run == i {
      OnPlanOf(s, i);
      OtherTurn(ViewOf(s), Room(s), s.runs[i], a.turn);
    } else {
      TouchedByOthers(s, a, i);
      TouchedStable(s.runs[i], NextRuns(s, a)[i]);
    }
  }

  lemma OperationStable(s: State, a: Action, i: nat)
    requires Enabled(s, a) && i < |s.runs| && |s.runs| <= |NextRuns(s, a)| && StableRun(s.runs[i], NextRuns(s, a)[i])
    ensures StableForOperation(s, Step(s, a), i)
  {
    if !Crashes(s, a) {
      RegistryFields(s, a);
      ViewStep(s, a);
    }
  }

  lemma StableStep(actor: Actor, s: State, a: Action)
    requires Inv(s) && Enabled(s, a) && !Mine(actor, a)
    ensures Stable(actor, s, Step(s, a))
  {
    match actor
    case Reader =>
      RunsKin(s, a);
      ReaderStable(s, a);
    case Goroutine(i) =>
      if i < |s.runs| && !Unlaunched(s.runs[i]) {
        RunStable(s, a, i);
        RunsGrow(s, a);
        OperationStable(s, a, i);
      }
  }

  // ----- Where one atomic step leads

  lemma Moves(start: State, acts: seq<Action>, s: State, a: Action)
    requires Leads(start, acts, s) && Enabled(s, a)
    ensures Leads(start, acts + [a], Step(s, a))
  {
    LeadsLast(start, acts, s, a);
  }

  lemma HearsInit(start: State, acts: seq<Action>, s: State, outcome: Failure)
    requires Leads(start, acts, s) && !s.panicked && s.waitGroup >= 0 && s.reader.Reading?
    ensures Leads(start, acts + [Receive(Init(outcome))],
            s.(script := s.script + [InitEvent(outcome)], init := true, reader := OnMessage(s, Init(outcome))))
  {
    Moves(start, acts, s, Receive(Init(outcome)));
  }

  lemma Hears(start: State, acts: seq<Action>, s: State, m: ClientMessage)
    requires Leads(start, acts, s) && !s.panicked && s.waitGroup >= 0 && s.reader.Reading? && !m.Init?
    ensures Leads(start, acts + [Receive(m)], s.(script := Extend(s.script, EventOf(s, m)), reader := OnMessage(s, m)))
  {
    Moves(start, acts, s, Receive(m));
  }

  lemma HearsFailure(start: State, acts: seq<Action>, s: State)
    requires Leads(start, acts, s) && !s.panicked && s.waitGroup >= 0 && s.reader.Reading?
    ensures Leads(start, acts + [ReceiveFailure], s.(script := s.script + [FailureEvent], reader := Exit(Ordinary)))
  {
    Moves(start, acts, s, ReceiveFailure);
  }

  lemma Intercepts(start: State, acts: seq<Action>, s: State, outcome: Failure)
    requires Leads(start, acts, s) && !s.panicked && s.waitGroup >= 0 && s.reader == InitCall(outcome)
    ensures Leads(start, acts + [GO], s.(reader := if outcome.NoFailure? then SendAck else Exit(outcome)))
  {
    Moves(start, acts, s, GO);
  }

  lemma FindsStopped(start: State, acts: seq<Action>, s: State, id: string)
    requires Leads(start, acts, s) && !s.panicked && s.waitGroup >= 0 && s.reader == StopLookup(id)
    ensures Leads(start, acts + [GO], s.(reader := if id in s.operations then StopMark(s.operations[id]) else Reading))
  {
    Moves(start, acts, s, GO);
  }

  function FarewellPc(d: Dialect, err: Failure): ReaderPc {
    if !err.Protocol? then ExitError else if d.GraphqlWs? then ExitConnectionError(err.code) else ExitClose(err.code)
  }

  lemma Leaves(start: State, acts: seq<Action>, s: State, err: Failure)
    requires Leads(start, acts, s) && !s.panicked && s.waitGroup >= 0 && s.reader == Exit(err)
    ensures Leads(start, acts + [GO], s.(reader := FarewellPc(s.dialect, err)))
  {
    Moves(start, acts, s, GO);
  }

  lemma EndsWaiting(start: State, acts: seq<Action>, s: State)
    requires Leads(start, acts, s) && !s.panicked && s.waitGroup >= 0 && s.reader.Wait? && s.waitGroup == 0
    ensures Leads(start, acts + [GO], s.(reader := ReaderPc.CloseChannel))
  {
    Moves(start, acts, s, GO);
  }

  lemma Signals(start: State, acts: seq<Action>, s: State)
    requires Leads(start, acts, s) && !s.panicked && s.waitGroup >= 0 && s.reader.Signal? && s.timer.Waiting?
    ensures Leads(start, acts + [GO], s.(reader := InitCall(s.reader.outcome), timer := Expired))
  {
    Moves(start, acts, s, GO);
  }

  lemma LooksUp(start: State, acts: seq<Action>, s: State, id: string, plan: Plan)
    requires Leads(start, acts, s) && !s.panicked && s.waitGroup >= 0 && s.reader == Lookup(id, plan)
    ensures Leads(start, acts + [GO],
            s.(reader := Looked(id, plan, id in s.operations), script := s.script + [StartEvent(id)]))
  {
    Moves(start, acts, s, GO);
  }

  function Looked(id: string, plan: Plan, live: bool): ReaderPc {
    if live then Exit(Protocol(SUBSCRIBER_ALREADY_EXISTS)) else Insert(id, plan)
  }

  lemma Inserts(start: State, acts: seq<Action>, s: State, id: string, plan: Plan)
    requires Leads(start, acts, s) && !s.panicked && s.waitGroup >= 0 && s.reader == Insert(id, plan)
    ensures Leads(start, acts + [GO], s.(reader := WgAdd(|s.runs|), operations := s.operations[id := |s.runs|],
                                         runs := s.runs + [NewRun(id, plan)]))
  {
    Moves(start, acts, s, GO);
  }

  lemma Adds(start: State, acts: seq<Action>, s: State, i: nat)
    requires Leads(start, acts, s) && !s.panicked && s.waitGroup >= 0 && i < |s.runs| && s.reader == WgAdd(i)
    ensures Leads(start, acts + [GO], s.(reader := Spawn(i), waitGroup := s.waitGroup + 1,
                                         runs := s.runs[i := s.runs[i].(pc := Added)]))
  {
    Moves(start, acts, s, GO);
  }

  lemma Spawns(start: State, acts: seq<Action>, s: State, i: nat)
    requires Leads(start, acts, s) && !s.panicked && s.waitGroup >= 0 && i < |s.runs| && s.reader == Spawn(i)
    ensures Leads(start, acts + [GO], s.(reader := Reading, runs := s.runs[i := s.runs[i].(pc := Decode)]))
  {
    Moves(start, acts, s, GO);
  }

  lemma Marks(start: State, acts: seq<Action>, s: State, i: nat)
    requires Leads(start, acts, s) && !s.panicked && s.waitGroup >= 0 && i < |s.runs| && s.reader == StopMark(i)
    ensures Leads(start, acts + [GO], s.(reader := StopCancel(i), runs := s.runs[i := s.runs[i].(stopped := true)]))
  {
    Moves(start, acts, s, GO);
  }

  lemma Cancels(start: State, acts: seq<Action>, s: State, i: nat)
    requires Leads(start, acts, s) && !s.panicked && s.waitGroup >= 0 && i < |s.runs| && s.reader == StopCancel(i)
    ensures Leads(start, acts + [GO], s.(reader := Reading, runs := s.runs[i := s.runs[i].(cancelled := true)]))
  {
    Moves(start, acts, s, GO);
  }

  lemma Terminates(start: State, acts: seq<Action>, s: State)
    requires Leads(start, acts, s) && !s.panicked && s.waitGroup >= 0 && s.reader.TerminateMark?
    ensures Leads(start, acts + [GO], s.(reader := SendTermination, requestStopped := true))
  {
    Moves(start, acts, s, GO);
  }

  lemma ReaderSendMove(s: State, item: Item)
    requires !s.panicked && s.waitGroup >= 0 && ReaderSends(s.reader) && item == ReaderItem(s.reader)
    requires !s.closed && s.queue == []
    ensures Enabled(s, GO) && !Crashes(s, GO)
    ensures Emitted(s, GO) == [Entry(ByReader, item)] && NextReader(s, GO) == AfterReaderSend(s.reader)
    ensures NextReaderSent(s, GO) == s.readerSent + [item] && Events(s, GO) == []
  {
  }

  lemma ReaderSendsItem(start: State, acts: seq<Action>, s: State, item: Item)
    requires Leads(start, acts, s) && !s.panicked && s.waitGroup >= 0 && ReaderSends(s.reader)
    requires item == ReaderItem(s.reader)
    requires !s.closed && s.queue == []
    ensures Leads(start, acts + [GO], s.(reader := AfterReaderSend(s.reader), queue := [Entry(ByReader, item)],
                                         log := s.log + [Entry(ByReader, item)], readerSent := s.readerSent + [item]))
  {
    ReaderSendMove(s, item);
    Moves(start, acts, s, GO);
  }

  lemma DropMove(s: State)
    requires !s.panicked && s.waitGroup >= 0 && ReaderDroppable(s.reader) && s.requestDone
    ensures var a := ReaderGo(Abandon);
            && Enabled(s, a) && !Crashes(s, a) && Emitted(s, a) == [] && Events(s, a) == []
            && NextReader(s, a) == AfterReaderSend(s.reader) && NextReaderSent(s, a) == s.readerSent
                && NextTimer(s, a) == s.timer
  {
  }

  lemma ReaderDropsItem(start: State, acts: seq<Action>, s: State)
    requires Leads(start, acts, s) && !s.panicked && s.waitGroup >= 0 && ReaderDroppable(s.reader) && s.requestDone
    ensures Leads(start, acts + [ReaderGo(Abandon)],
                  s.(reader := AfterReaderSend(s.reader), ackDropped := s.ackDropped || s.reader.SendAck?))
  {
    DropMove(s);
    Moves(start, acts, s, ReaderGo(Abandon));
  }

  lemma CancelsRequest(start: State, acts: seq<Action>, s: State)
    requires Leads(start, acts, s) && !s.panicked && s.waitGroup >= 0 && s.reader.CancelRequestContext?
    ensures Leads(start, acts + [GO], s.(reader := ReaderPc.Wait, requestDone := true))
  {
    Moves(start, acts, s, GO);
  }

  lemma ClosesChannel(start: State, acts: seq<Action>, s: State)
    requires Leads(start, acts, s) && !s.panicked && s.waitGroup >= 0 && s.reader.CloseChannel? && !s.closed
    ensures Leads(start, acts + [GO], s.(reader := Gone, closed := true))
  {
    Moves(start, acts, s, GO);
  }

  /** Steps of an operation's goroutine that only change its own record. */
  predicate Private(r: Run) {
    || r.pc.Decode? || r.pc.CheckExecuted? || r.pc.MarkStopped? || r.pc.CheckStopped? || r.pc.CancelContext?
    || (r.pc.Intercept? && r.calls == [] && AllOver(r.active))
  }

  const OWN := Own(Proceed)

  lemma PrivateFields(s: State, i: nat)
    requires !s.panicked && s.waitGroup >= 0 && i < |s.runs| && Private(s.runs[i])
    ensures var a := OperationGo(i, OWN);
            && Enabled(s, a) && Emitted(s, a) == [] && Events(s, a) == [] && NextWaitGroup(s, a) == s.waitGroup
            && NextOperations(s, a) == s.operations
            && NextRuns(s, a) == s.runs[i := AdvanceOwn(ViewOf(s), s.runs[i], OWN)]
  {
  }

  lemma PrivateMove(s: State, i: nat)
    requires !s.panicked && s.waitGroup >= 0 && i < |s.runs| && Private(s.runs[i])
    ensures Enabled(s, OperationGo(i, OWN))
    ensures Step(s, OperationGo(i, OWN)) == s.(runs := s.runs[i := AdvanceOwn(ViewOf(s), s.runs[i], OWN)])
  {
    PrivateFields(s, i);
  }

  lemma Privately(start: State, acts: seq<Action>, s: State, i: nat, r': Run)
    requires Leads(start, acts, s) && !s.panicked && s.waitGroup >= 0 && i < |s.runs| && Private(s.runs[i])
    requires r' == AdvanceOwn(ViewOf(s), s.runs[i], OWN)
    ensures Leads(start, acts + [OperationGo(i, OWN)], s.(runs := s.runs[i := r']))
  {
    PrivateMove(s, i);
    Moves(start, acts, s, OperationGo(i, OWN));
  }

  lemma OwnSendMove(s: State, i: nat, item: Item)
    requires !s.panicked && s.waitGroup >= 0 && i < |s.runs| && OwnSend(s.runs[i].pc) && item == OwnItem(s.runs[i])
    requires !s.closed && s.queue == []
    ensures var a := OperationGo(i, OWN); var r := s.runs[i];
            && Enabled(s, a) && !Crashes(s, a) && Emitted(s, a) == [Entry(ByOperation(i), item)] && Events(s, a) == []
            && NextRuns(s, a) == s.runs[i := r.(pc := AfterSend(r.pc), sent := r.sent + [item])]
            && NextOperations(s, a) == s.operations && NextWaitGroup(s, a) == s.waitGroup
  {
  }

  lemma OwnSendsItem(start: State, acts: seq<Action>, s: State, i: nat, item: Item)
    requires Leads(start, acts, s) && !s.panicked && s.waitGroup >= 0 && i < |s.runs|
    requires OwnSend(s.runs[i].pc) && item == OwnItem(s.runs[i]) && !s.closed && s.queue == []
    ensures var r := s.runs[i];
            Leads(start, acts + [OperationGo(i, OWN)],
                  s.(runs := s.runs[i := r.(pc := AfterSend(r.pc), sent := r.sent + [item])],
                     queue := [Entry(ByOperation(i), item)], log := s.log + [Entry(ByOperation(i), item)]))
  {
    OwnSendMove(s, i, item);
    Moves(start, acts, s, OperationGo(i, OWN));
  }

  lemma OwnDropMove(s: State, i: nat)
    requires !s.panicked && s.waitGroup >= 0 && i < |s.runs| && Droppable(s.runs[i].pc) && s.requestDone
    ensures var a := OperationGo(i, Own(Abandon)); var r := s.runs[i];
            && Enabled(s, a) && Emitted(s, a) == [] && Events(s, a) == [] && NextWaitGroup(s, a) == s.waitGroup
            && NextOperations(s, a) == s.operations && NextRuns(s, a) == s.runs[i := r.(pc := AfterSend(r.pc))]
  {
  }

  lemma OwnDropsItem(start: State, acts: seq<Action>, s: State, i: nat)
    requires Leads(start, acts, s) && !s.panicked && s.waitGroup >= 0 && i < |s.runs|
    requires Droppable(s.runs[i].pc) && s.requestDone
    ensures var r := s.runs[i];
            Leads(start, acts + [OperationGo(i, Own(Abandon))], s.(runs := s.runs[i := r.(pc := AfterSend(r.pc))]))
  {
    OwnDropMove(s, i);
    Moves(start, acts, s, OperationGo(i, Own(Abandon)));
  }

  lemma UnwindMove(s: State, i: nat)
    requires !s.panicked && s.waitGroup > 0 && i < |s.runs| && (s.runs[i].pc.Unregister? || s.runs[i].pc.WgDone?)
    ensures var a := OperationGo(i, OWN); var r := s.runs[i];
            && Enabled(s, a) && !Crashes(s, a) && Emitted(s, a) == []
            && NextRuns(s, a) == s.runs[i := r.(pc := if r.pc.Unregister? then Pc.WgDone else Finished)]
            && Events(s, a) == (if r.pc.Unregister? then [EndedEvent(r.id)] else [])
            && NextOperations(s, a) == (if r.pc.Unregister? then s.operations - {r.id} else s.operations)
            && NextWaitGroup(s, a) == (if r.pc.Unregister? then s.waitGroup else s.waitGroup - 1)
  {
  }

  lemma Deletes(start: State, acts: seq<Action>, s: State, i: nat)
    requires Leads(start, acts, s) && !s.panicked && s.waitGroup > 0 && i < |s.runs| && s.runs[i].pc.Unregister?
    ensures var r := s.runs[i];
            Leads(start, acts + [OperationGo(i, OWN)],
                  s.(runs := s.runs[i := r.(pc := Pc.WgDone)], operations := s.operations - {r.id},
                     script := s.script + [EndedEvent(r.id)]))
  {
    UnwindMove(s, i);
    Moves(start, acts, s, OperationGo(i, OWN));
  }

  lemma Dones(start: State, acts: seq<Action>, s: State, i: nat)
    requires Leads(start, acts, s) && !s.panicked && s.waitGroup > 0 && i < |s.runs| && s.runs[i].pc.WgDone?
    ensures Leads(start, acts + [OperationGo(i, OWN)],
                  s.(runs := s.runs[i := s.runs[i].(pc := Finished)], waitGroup := s.waitGroup - 1))
  {
    UnwindMove(s, i);
    Moves(start, acts, s, OperationGo(i, OWN));
  }

  /** `steps` have been taken since `acts` without the actor, from `s0` to `s`. */
  ghost predicate Aside(actor: Actor, start: State, acts: seq<Action>, s0: State, steps: seq<Action>, s: State) {
    && Leads(start, steps, s) && acts <= steps && Stable(actor, s0, s)
    && (actor.Reader? ==> Reads(steps) == Reads(acts))
  }

  lemma StaysAside(actor: Actor, d: Dialect, timeout: bool, acts: seq<Action>, s0: State, steps: seq<Action>, s: State,
                   a: Action)
    requires Aside(actor, Start0(d, timeout), acts, s0, steps, s) && Enabled(s, a) && !Mine(actor, a)
    ensures Aside(actor, Start0(d, timeout), acts, s0, steps + [a], Step(s, a))
  {
    StepsAside(actor, d, timeout, steps, s, a);
    StableTrans(actor, s0, s, Step(s, a));
    if actor.Reader? { NothingRead(steps, a); }
  }

  lemma StepsAside(actor: Actor, d: Dialect, timeout: bool, acts: seq<Action>, s: State, a: Action)
    requires Leads(Start0(d, timeout), acts, s) && Enabled(s, a) && !Mine(actor, a)
    ensures Leads(Start0(d, timeout), acts + [a], Step(s, a)) && Stable(actor, s, Step(s, a))
  {
    InvAtStart(d, timeout);
    InvLeads(Start0(d, timeout), acts, s);
    StableStep(actor, s, a);
    Moves(Start0(d, timeout), acts, s, a);
  }

  /** The others' turns, as far as they can be taken. */
  method Interfere(actor: Actor, d: Dialect, timeout: bool, ghost acts: seq<Action>, s0: State, turns: seq<Action>)
    returns (s: State, ghost steps: seq<Action>)
    requires Leads(Start0(d, timeout), acts, s0) && s0.dialect == d
    ensures Aside(actor, Start0(d, timeout), acts, s0, steps, s) && s.dialect == d
  {
    s, steps := s0, acts;
    StableItself(actor, s);
    for k := 0 to |turns|
      invariant Aside(actor, Start0(d, timeout), acts, s0, steps, s) && s.dialect == d
    {
      if Enabled(s, turns[k]) && !Mine(actor, turns[k]) {
        StaysAside(actor, d, timeout, acts, s0, steps, s, turns[k]);
        s := Step(s, turns[k]);
        steps := steps + [turns[k]];
      }
    }
  }

  lemma {:induction false} CountPositive(rs: seq<Run>, i: nat)
    requires i < |rs| && Counted(rs[i])
    ensures CountRuns(rs) > 0
  {
    if i < |rs| - 1 { CountPositive(rs[..|rs| - 1], i); }
  }

  lemma {:induction false} Unfinished(rs: seq<Run>)
    requires AllFinished(rs)
    ensures CountRuns(rs) == 0
  {
    if rs != [] { Unfinished(rs[..|rs| - 1]); }
  }
}
