/** Runs that exist: an operation left alone finishes, whatever its plan, and the bounds that the
    theorems give are reached. */
module EngineWitness {
  import opened Apollows
  import opened Operation
  import opened OperationMessages
  import opened OperationSafety
  import opened Engine
  import opened EngineChannel
  import opened EngineRegistry
  import opened EngineSafety
  import opened EngineTheorems
  import opened EngineTermination
  import opened EngineTimeout

  /** Some continuation of `s` leads to `t`. */
  ghost predicate CanReach(s: State, t: State) {
    exists acts :: Leads(s, acts, t)
  }

  lemma ReachesItself(s: State)
    ensures CanReach(s, s)
  {
    LeadsNone(s);
  }

  lemma ReachesStep(s: State, u: State, a: Action)
    requires CanReach(s, u) && Enabled(u, a)
    ensures CanReach(s, Step(u, a))
  {
    var acts :| Leads(s, acts, u);
    LeadsLast(s, acts, u, a);
  }

  lemma {:induction false} LeadsOn(s: State, acts: seq<Action>, u: State, more: seq<Action>, t: State)
    requires Leads(s, acts, u) && Leads(u, more, t)
    ensures Leads(s, acts + more, t)
    decreases |acts|
  {
    LeadsRest(s, acts, u);
    if acts == [] {
      assert acts + more == more;
    } else {
      LeadsOn(Step(s, acts[0]), acts[1..], u, more, t);
      LeadsFirst(s, acts[0], Step(s, acts[0]), acts[1..] + more, t);
      assert [acts[0]] + (acts[1..] + more) == acts + more;
    }
  }

  lemma ReachesOn(s: State, u: State, t: State)
    requires CanReach(s, u) && CanReach(u, t)
    ensures CanReach(s, t)
  {
    var acts :| Leads(s, acts, u);
    var more :| Leads(u, more, t);
    LeadsOn(s, acts, u, more, t);
  }

  lemma ReachableOn(d: Dialect, timeout: bool, s: State, t: State)
    requires Reachable(d, timeout, s) && CanReach(s, t)
    ensures Reachable(d, timeout, t)
  {
    ReachesOn(Start0(d, timeout), s, t);
  }

  // ----- Room in the channel

  ghost predicate Sound(s: State) {
    Inv(s) && !s.panicked && !s.closed
  }

  /** Nothing but the channel and the writer differs. */
  predicate SameButWriter(s: State, t: State) {
    t == s.(queue := t.queue, writer := t.writer, delivered := t.delivered, frames := t.frames)
  }

  lemma WriterOnly(s: State, a: Action)
    requires WriterAction(a) && !Crashes(s, a)
    ensures SameButWriter(s, Step(s, a))
    ensures Step(s, a).queue == NextQueue(s, a) && Step(s, a).writer == NextWriter(s, a)
  {
  }

  lemma WriterNeverCrashes(s: State, a: Action)
    requires CountOk(s) && WriterAction(a)
    ensures !Crashes(s, a)
  {
  }

  lemma WriterStep(s: State) returns (t: State)
    requires Sound(s) && s.queue != []
    ensures CanReach(s, t) && Sound(t) && SameButWriter(s, t)
    ensures 3 * |t.queue| + WriterWeight(t.writer) < 3 * |s.queue| + WriterWeight(s.writer)
  {
    var a := WriterProgress(s);
    WriterNeverCrashes(s, a);
    WriterOnly(s, a);
    WriterDecreases(s, a);
    InvStep(s, a);
    ReachesItself(s);
    ReachesStep(s, s, a);
    t := Step(s, a);
  }

  /** The writer can always make room. */
  lemma {:induction false} Drain(s: State) returns (t: State)
    requires Sound(s)
    ensures CanReach(s, t) && Sound(t) && SameButWriter(s, t) && t.queue == []
    decreases 3 * |s.queue| + WriterWeight(s.writer)
  {
    if s.queue == [] {
      ReachesItself(s);
      t := s;
    } else {
      var u := WriterStep(s);
      t := Drain(u);
      ReachesOn(s, u, t);
    }
  }

  // ----- Steps of one operation

  /** Only the i-th operation, the channel and the writer differ. */
  predicate OnlyOperation(s: State, t: State, i: nat) {
    && t.reader == s.reader && t.init == s.init && ViewOf(t) == ViewOf(s)
    && |t.runs| == |s.runs| && forall j :: 0 <= j < |s.runs| && j != i ==> t.runs[j] == s.runs[j]
  }

  lemma OperationOnly(s: State, i: nat, m: Turn)
    requires i < |s.runs| && !Crashes(s, OperationGo(i, m))
    ensures var t := Step(s, OperationGo(i, m));
            && OnlyOperation(s, t, i) && t.runs == s.runs[i := Advance(ViewOf(s), s.runs[i], m)]
            && t.panicked == s.panicked && t.closed == s.closed
  {
  }

  lemma OperationNeverCrashes(s: State, i: nat, m: Turn)
    requires CountOk(s) && LaunchOk(s) && !s.closed && Enabled(s, OperationGo(i, m))
    ensures !Crashes(s, OperationGo(i, m))
  {
    CountStep(s, OperationGo(i, m));
  }

  /** A turn that needs no more than room in the channel can be taken. */
  lemma OperationMoves(s: State, i: nat, m: Turn) returns (t: State)
    requires Sound(s) && i < |s.runs| && CanStep(ViewOf(s), true, s.runs[i], m)
    ensures CanReach(s, t) && Sound(t) && OnlyOperation(s, t, i)
    ensures t.runs == s.runs[i := Advance(ViewOf(s), s.runs[i], m)]
  {
    var u := Drain(s);
    var a := OperationGo(i, m);
    assert ViewOf(u) == ViewOf(s) && u.runs == s.runs && Room(u);
    OperationNeverCrashes(u, i, m);
    OperationOnly(u, i, m);
    InvStep(u, a);
    ReachesStep(s, u, a);
    t := Step(u, a);
  }

  // ----- An operation left alone

  /** A turn that waits for nothing but room in the channel and the next result. */
  function Onward(r: Run): Turn {
    if !r.pc.Intercept? then Own(Proceed)
    else if r.calls != [] then Begin
    else if AllOver(r.active) then Own(Proceed)
    else OfCall(FirstRunning(r.active), Proceed)
  }

  lemma OnwardIsOpen(v: View, r: Run)
    requires Counted(r) && !r.pc.Added?
    ensures CanStep(v, true, r, Onward(r))
  {
  }

  /** Nobody but the operation itself has touched it: only a failure of its own stops it. */
  predicate OnItsOwn(r: Run, r': Run) {
    && r'.id == r.id && r'.plan == r.plan && r'.detached == r.detached
    && (r'.stopped ==> r.stopped || (Late(r'.pc) && !r'.executed))
  }

  lemma OwnAlone(v: View, r: Run, m: Turn)
    requires WordSoFar(v.dialect, r) && m.Own? && !Unlaunched(r)
    ensures OnItsOwn(r, AdvanceOwn(v, r, m)) && (Late(r.pc) ==> Late(AdvanceOwn(v, r, m).pc))
  {
    assert Late(r.pc) ==> Late(NextPc(v, r));
  }

  lemma AloneStep(v: View, room: bool, r: Run, m: Turn)
    requires v.awaits && WordSoFar(v.dialect, r) && !Unlaunched(r) && CanStep(v, room, r, m)
    ensures OnItsOwn(r, Advance(v, r, m))
    ensures Late(r.pc) ==> Late(Advance(v, r, m).pc) && Advance(v, r, m).executed == r.executed
  {
    if m.Own? { OwnAlone(v, r, m); }
  }

  lemma AloneOn(r0: Run, r: Run, r': Run)
    requires OnItsOwn(r0, r) && OnItsOwn(r, r') && (Late(r.pc) ==> Late(r'.pc) && r'.executed == r.executed)
    ensures OnItsOwn(r0, r')
  {
  }

  lemma StaysLaunched(v: View, r: Run, m: Turn)
    requires !Unlaunched(r)
    ensures !Unlaunched(Advance(v, r, m))
  {
    if !m.Own? {
      assert Advance(v, r, m).pc == r.pc;
    } else {
      assert Advance(v, r, m).pc == NextPc(v, r);
    }
  }

  lemma UnfinishedIsOpen(s: State, i: nat)
    requires Inv(s) && i < |s.runs| && !s.runs[i].pc.Finished?
    ensures !s.closed && LocalOk(ViewOf(s), s.runs[i])
  {
  }

  /** `t` follows from `s` by steps of the i-th operation and the writer alone. */
  ghost predicate Onwards(s: State, t: State, i: nat)
    requires i < |s.runs|
  {
    && CanReach(s, t) && OnlyOperation(s, t, i) && OnItsOwn(s.runs[i], t.runs[i])
    && (Late(s.runs[i].pc) ==> Late(t.runs[i].pc) && t.runs[i].executed == s.runs[i].executed)
  }

  lemma OnwardsOn(s: State, u: State, t: State, i: nat)
    requires i < |s.runs| && Onwards(s, u, i) && Onwards(u, t, i)
    ensures Onwards(s, t, i)
  {
    ReachesOn(s, u, t);
    AloneOn(s.runs[i], u.runs[i], t.runs[i]);
  }

  lemma OperationProgress(s: State, i: nat) returns (t: State)
    requires Sound(s) && i < |s.runs| && !Unlaunched(s.runs[i]) && !s.runs[i].pc.Finished?
    ensures Onwards(s, t, i) && Sound(t) && !Unlaunched(t.runs[i]) && RunWeight(t.runs[i]) < RunWeight(s.runs[i])
  {
    var r := s.runs[i];
    var m := Onward(r);
    UnfinishedIsOpen(s, i);
    OnwardIsOpen(ViewOf(s), r);
    t := OperationMoves(s, i, m);
    RunDecreases(ViewOf(s), true, r, m);
    AloneStep(ViewOf(s), true, r, m);
    StaysLaunched(ViewOf(s), r, m);
  }

  /** An operation whose goroutine has started can finish with everything else as it is, the
      channel and the writer apart. */
  lemma {:induction false} Finishes(s: State, i: nat) returns (t: State)
    requires Sound(s) && i < |s.runs| && !Unlaunched(s.runs[i])
    ensures Onwards(s, t, i) && Sound(t) && t.runs[i].pc.Finished?
    decreases RunWeight(s.runs[i])
  {
    if s.runs[i].pc.Finished? {
      ReachesItself(s);
      t := s;
    } else {
      var u := OperationProgress(s, i);
      t := Finishes(u, i);
      OnwardsOn(s, u, t, i);
    }
  }

  /** From every reachable state an operation can finish undisturbed: with the request, the reader and
      all other operations as they are. */
  lemma OperationCanFinish(d: Dialect, timeout: bool, s: State, i: nat) returns (t: State)
    requires Reachable(d, timeout, s) && !s.panicked && i < |s.runs| && !Unlaunched(s.runs[i])
    ensures Reachable(d, timeout, t) && Onwards(s, t, i) && t.runs[i].pc.Finished?
  {
    InvReachable(d, timeout, s);
    if s.runs[i].pc.Finished? {
      ReachesItself(s);
      t := s;
    } else {
      UnfinishedIsOpen(s, i);
      t := Finishes(s, i);
      ReachableOn(d, timeout, s, t);
    }
  }

  // ----- A first operation

  /** The reader and the flags after one of the reader's steps. */
  lemma ReaderMoves(d: Dialect, timeout: bool, s: State, a: Action) returns (t: State)
    requires Reachable(d, timeout, s) && Enabled(s, a) && (a.Receive? || a == ReaderGo(Proceed))
    ensures Reachable(d, timeout, t) && !t.panicked && t.dialect == d
    ensures t.reader == NextReader(s, a) && t.runs == NextRuns(s, a) && t.operations == NextOperations(s, a)
    ensures t.init == (s.init || (a.Receive? && a.message.Init?)) && t.timer == NextTimer(s, a)
    ensures !s.reader.CancelRequestContext? ==> t.requestDone == s.requestDone
    ensures !s.reader.TerminateMark? ==> t.requestStopped == s.requestStopped
    ensures |t.queue| <= |s.queue| + (if a.ReaderGo? && ReaderSends(s.reader) then 1 else 0)
  {
    InvReachable(d, timeout, s);
    SameDialect(d, timeout, s);
    CallsRetired(s);
    if Crashes(s, a) { OnlyTimerCrashes(s, a); }
    ReachableStep(d, timeout, s, a);
    t := Step(s, a);
  }

  /** Ready for an operation: at the loop, authorized, with nothing registered. */
  predicate Ready(d: Dialect, s: State) {
    && s.dialect == d && !s.panicked && s.reader.Reading? && (d.GraphqlTransportWs? ==> s.init)
    && s.runs == [] && s.operations == map[] && !s.requestDone && !s.requestStopped
  }

  lemma Handshaken(d: Dialect, timeout: bool) returns (t: State)
    ensures Reachable(d, timeout, t) && Ready(d, t)
  {
    ReachableStart(d, timeout);
    t := Start0(d, timeout);
    if d.GraphqlTransportWs? {
      t := ReaderMoves(d, timeout, t, Receive(Init(NoFailure)));
      if timeout { t := ReaderMoves(d, timeout, t, GO); }
      t := Acknowledged(d, timeout, t);
    }
  }

  lemma Acknowledged(d: Dialect, timeout: bool, s: State) returns (t: State)
    requires Reachable(d, timeout, s) && !s.panicked && s.reader == InitCall(NoFailure) && s.init && s.queue == []
    requires s.runs == [] && s.operations == map[] && !s.requestDone && !s.requestStopped
    ensures Reachable(d, timeout, t) && Ready(d, t)
  {
    t := ReaderMoves(d, timeout, s, GO);
    t := ReaderMoves(d, timeout, t, GO);
  }

  lemma Registered(d: Dialect, timeout: bool, s: State, id: string, plan: Plan) returns (t: State)
    requires Reachable(d, timeout, s) && Ready(d, s)
    ensures Reachable(d, timeout, t) && !t.panicked && t.reader == WgAdd(0) && !t.requestDone && !t.requestStopped
    ensures t.runs == [NewRun(id, plan)] && t.operations == map[id := 0] && t.init == s.init
  {
    t := ReaderMoves(d, timeout, s, Receive(Start(id, plan)));
    t := ReaderMoves(d, timeout, t, GO);
    t := ReaderMoves(d, timeout, t, GO);
  }

  /** Any operation can be started. */
  lemma Launched(d: Dialect, timeout: bool, id: string, plan: Plan) returns (t: State)
    ensures Reachable(d, timeout, t) && !t.panicked && t.reader.Reading? && (d.GraphqlTransportWs? ==> t.init)
    ensures !t.requestDone && !t.requestStopped
    ensures t.runs == [NewRun(id, plan).(pc := Decode)] && t.operations == map[id := 0]
  {
    t := Handshaken(d, timeout);
    t := Registered(d, timeout, t, id, plan);
    t := ReaderMoves(d, timeout, t, GO);
    t := ReaderMoves(d, timeout, t, GO);
  }

  /** Every plan can be carried out to its end without anybody interfering; what is sent is then what
      UndisturbedDelivery and FailureReported say. */
  lemma EveryPlanFinishes(d: Dialect, timeout: bool, id: string, plan: Plan) returns (t: State)
    ensures Reachable(d, timeout, t) && !t.requestDone && !t.requestStopped && |t.runs| == 1
    ensures var r := t.runs[0];
            r.id == id && r.plan == plan && r.pc.Finished? && !r.detached && (r.executed ==> !r.stopped)
  {
    var s := Launched(d, timeout, id, plan);
    t := OperationCanFinish(d, timeout, s, 0);
  }

  /** The documentation's claim that `error` ends an operation fails in graphql-ws. */
  lemma ErrorThenComplete() returns (t: State)
    ensures Reachable(GraphqlWs, false, t) && |t.runs| == 1
    ensures Kinds(ItemsOf(t.log, ByOperation(0))) == [Error, Complete]
  {
    t := EveryPlanFinishes(GraphqlWs, false, "1", Plan(false, [], NoFailure));
    FailureReported(GraphqlWs, false, t, 0);
    ErrorCompleteWord("1");
  }

  lemma ErrorCompleteWord(id: string)
    ensures Kinds(Told(GraphqlWs, id, Ordinary) + [Message(id, Complete)]) == [Error, Complete]
  {
    ToldWord(GraphqlWs, id, Ordinary);
    KindsAppend(Told(GraphqlWs, id, Ordinary), Message(id, Complete));
  }

  // ----- The bound after a stop

  lemma SendCounts(v: View, r: Run, m: Turn)
    requires m.OfCall? && Enqueues(r, m)
    ensures |Advance(v, r, m).sent| == |r.sent| + 1
    ensures CountSending(Advance(v, r, m).active) + 1 == CountSending(r.active)
  {
    var skips := v.dialect.GraphqlTransportWs? && Stopped(v, r);
    CountSendingUpdate(r.active, m.call, NextCall(skips, r.active[m.call], m.choice));
  }

  lemma CallSends(s: State, i: nat, k: nat) returns (t: State)
    requires Sound(s) && i < |s.runs| && k < |s.runs[i].active| && s.runs[i].active[k].pc.SendData?
    ensures CanReach(s, t) && Sound(t) && i < |t.runs|
    ensures |t.runs[i].sent| == |s.runs[i].sent| + 1
    ensures CountSending(t.runs[i].active) + 1 == CountSending(s.runs[i].active)
  {
    t := OperationMoves(s, i, OfCall(k, Proceed));
    SendCounts(ViewOf(s), s.runs[i], OfCall(k, Proceed));
  }

  /** All handler calls past their stopped check can still send. */
  lemma {:induction false} AllSend(s: State, i: nat) returns (t: State)
    requires Sound(s) && i < |s.runs|
    ensures CanReach(s, t) && Sound(t) && i < |t.runs|
    ensures |t.runs[i].sent| == |s.runs[i].sent| + CountSending(s.runs[i].active)
    decreases CountSending(s.runs[i].active)
  {
    if CountSending(s.runs[i].active) == 0 {
      ReachesItself(s);
      t := s;
    } else {
      var k := SendingCall(s.runs[i].active);
      var u := CallSends(s, i, k);
      t := AllSend(u, i);
      ReachesOn(s, u, t);
    }
  }

  lemma SendersKeepItOpen(d: Dialect, timeout: bool, s: State, i: nat)
    requires Reachable(d, timeout, s) && !s.panicked && i < |s.runs| && CountSending(s.runs[i].active) > 0
    ensures Sound(s)
  {
    InvReachable(d, timeout, s);
    ReachableLocal(d, timeout, s, i);
    var k := SendingCall(s.runs[i].active);
    assert OnPlan(d, s.runs[i]);
  }

  /** A stopped graphql-transport-ws operation enqueues at most one further item, whatever happens
      next, exactly if at most one of its handler calls is past the stopped check. */
  lemma AtMostOneIff(d: Dialect, timeout: bool, s: State, i: nat)
    requires Reachable(d, timeout, s) && !s.panicked
    requires d.GraphqlTransportWs? && i < |s.runs| && Stopped(ViewOf(s), s.runs[i])
    ensures (forall acts, t: State :: Leads(s, acts, t) ==>
               |ItemsOf(t.log, ByOperation(i))| <= |ItemsOf(s.log, ByOperation(i))| + 1)
            <==> CountSending(s.runs[i].active) <= 1
  {
    if CountSending(s.runs[i].active) <= 1 {
      forall acts, t: State | Leads(s, acts, t)
        ensures |ItemsOf(t.log, ByOperation(i))| <= |ItemsOf(s.log, ByOperation(i))| + 1
      {
        AtMostOneAfterStop(d, timeout, s, i, acts, t);
      }
    } else {
      SendersKeepItOpen(d, timeout, s, i);
      var t := AllSend(s, i);
      var acts :| Leads(s, acts, t);
      assert ItemsOf(t.log, ByOperation(i)) == SentBy(t, i) && ItemsOf(s.log, ByOperation(i)) == SentBy(s, i);
    }
  }

  const TWICE := Plan(true, [[Outcome(0, false)], [Outcome(0, false)]], NoFailure)

  lemma TwiceBegins(v: View)
    ensures var r0 := NewRun("1", TWICE).(pc := Decode);
            var r1 := r0.(pc := Intercept);
            var r2 := r1.(calls := [TWICE.calls[1]], active := [NewCall(TWICE.calls[0])], executed := true);
            var r3 := r2.(calls := [], active := [NewCall(TWICE.calls[0]), NewCall(TWICE.calls[1])],
                overlapped := true);
            Advance(v, r0, Own(Proceed)) == r1 && Advance(v, r1, Begin) == r2 && Advance(v, r2, Begin) == r3
  {
    assert TWICE.calls[1..] == [TWICE.calls[1]] && [TWICE.calls[1]][1..] == [];
    assert [] + [NewCall(TWICE.calls[0])] == [NewCall(TWICE.calls[0])];
    assert !AllOver([NewCall(TWICE.calls[0])]) by { assert [NewCall(TWICE.calls[0])][0].pc.Select?; }
  }

  lemma BothBegin(s: State) returns (t: State)
    requires Sound(s) && s.runs == [NewRun("1", TWICE).(pc := Decode)]
    ensures CanReach(s, t) && Sound(t) && OnlyOperation(s, t, 0)
    ensures t.runs[0].active == [NewCall(TWICE.calls[0]), NewCall(TWICE.calls[1])]
    ensures t.runs[0].id == "1" && !t.runs[0].stopped
  {
    TwiceBegins(ViewOf(s));
    var u := OperationMoves(s, 0, Own(Proceed));
    var w := OperationMoves(u, 0, Begin);
    ReachesOn(s, u, w);
    t := OperationMoves(w, 0, Begin);
    ReachesOn(s, w, t);
  }

  lemma PassesCheck(v: View, r: Run, k: nat, x: Outcome)
    requires k < |r.active| && r.active[k] == NewCall([x]) && !Stopped(v, r)
    ensures var r1 := r.(active := r.active[k := Call(CheckData, [], x, [x], [])]);
            var r2 := r.(active := r.active[k := Call(SendData, [], x, [x], [])]);
            Advance(v, r, OfCall(k, Proceed)) == r1 && Advance(v, r1, OfCall(k, Proceed)) == r2
  {
    assert [x][1..] == [] && [] + [x] == [x];
    var r1 := r.(active := r.active[k := Call(CheckData, [], x, [x], [])]);
    assert r1.active[k := Call(SendData, [], x, [x], [])] == r.active[k := Call(SendData, [], x, [x], [])];
  }

  /** One of them receives its result and passes the check. */
  lemma CallPasses(s: State, k: nat, x: Outcome) returns (t: State)
    requires Sound(s) && |s.runs| == 1 && k < |s.runs[0].active| && s.runs[0].active[k] == NewCall([x])
    requires !Stopped(ViewOf(s), s.runs[0])
    ensures CanReach(s, t) && Sound(t) && OnlyOperation(s, t, 0)
    ensures t.runs[0] == s.runs[0].(active := s.runs[0].active[k := Call(SendData, [], x, [x], [])])
  {
    PassesCheck(ViewOf(s), s.runs[0], k, x);
    var u := OperationMoves(s, 0, OfCall(k, Proceed));
    t := OperationMoves(u, 0, OfCall(k, Proceed));
    ReachesOn(s, u, t);
  }

  lemma BothPass(s: State) returns (t: State)
    requires Sound(s) && s.runs == [NewRun("1", TWICE).(pc := Decode)] && !s.requestStopped
    ensures CanReach(s, t) && Sound(t) && OnlyOperation(s, t, 0)
    ensures t.runs[0].id == "1" && |t.runs[0].active| == 2
    ensures t.runs[0].active[0].pc.SendData? && t.runs[0].active[1].pc.SendData?
  {
    var u := BothBegin(s);
    var w := CallPasses(u, 0, Outcome(0, false));
    t := CallPasses(w, 1, Outcome(0, false));
    ReachesOn(s, u, w);
    ReachesOn(s, w, t);
  }

  lemma CountTwo(calls: seq<Call>)
    requires |calls| == 2 && calls[0].pc.SendData? && calls[1].pc.SendData?
    ensures CountSending(calls) == 2
  {
    assert CountSending(calls[..1]) == 1;
  }

  lemma IdIsLive(d: Dialect, timeout: bool, s: State, id: string)
    requires Reachable(d, timeout, s) && |s.runs| == 1 && s.runs[0].id == id && Live(s.runs[0])
    ensures id in s.operations && s.operations[id] == 0
  {
    MapIsExact(d, timeout, s);
  }

  /** The client stops the only operation. */
  lemma StopFirst(d: Dialect, timeout: bool, s: State) returns (t: State)
    requires Reachable(d, timeout, s) && |s.runs| == 1 && Live(s.runs[0]) && !s.panicked
    requires s.reader.Reading? && (d.GraphqlTransportWs? ==> s.init)
    ensures Reachable(d, timeout, t) && !t.panicked && |t.runs| == 1
    ensures t.runs[0].stopped && t.runs[0].active == s.runs[0].active
  {
    SameDialect(d, timeout, s);
    IdIsLive(d, timeout, s, s.runs[0].id);
    t := ReaderMoves(d, timeout, s, Receive(Stop(s.runs[0].id)));
    t := ReaderMoves(d, timeout, t, GO);
    assert t.reader == StopMark(0);
    t := ReaderMoves(d, timeout, t, GO);
  }

  /** Two handler calls past the check when their operation is stopped: for these the bound is two. */
  lemma TwoPastTheCheck() returns (t: State)
    ensures Reachable(GraphqlTransportWs, false, t) && !t.panicked && |t.runs| == 1
    ensures Stopped(ViewOf(t), t.runs[0]) && CountSending(t.runs[0].active) == 2
  {
    var s := BothPassed();
    t := StopFirst(GraphqlTransportWs, false, s);
    CountTwo(t.runs[0].active);
  }

  lemma BothPassed() returns (t: State)
    ensures Reachable(GraphqlTransportWs, false, t) && !t.panicked && |t.runs| == 1 && Live(t.runs[0])
    ensures t.reader.Reading? && t.init && |t.runs[0].active| == 2
    ensures t.runs[0].active[0].pc.SendData? && t.runs[0].active[1].pc.SendData?
  {
    var s := Launched(GraphqlTransportWs, false, "1", TWICE);
    ReachableCalm(GraphqlTransportWs, s);
    UnfinishedIsOpen(s, 0);
    t := BothPass(s);
    ReachableOn(GraphqlTransportWs, false, s, t);
    CallsKeepItLive(GraphqlTransportWs, false, t);
  }

  lemma CallsKeepItLive(d: Dialect, timeout: bool, s: State)
    requires Reachable(d, timeout, s) && |s.runs| == 1 && |s.runs[0].active| > 0 && s.runs[0].active[0].pc.SendData?
    ensures Live(s.runs[0])
  {
    ReachableLocal(d, timeout, s, 0);
  }
}
